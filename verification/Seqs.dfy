/** Removal from a sequence without duplicates, as RemoveEntryList does on a linked list. */
module Seqs {

  ghost predicate NoDup<T>(s: seq<T>) {
    forall i, j :: 0 <= i < j < |s| ==> s[i] != s[j]
  }

  /** The sequence without the first occurrence of x. */
  function Without<T(==)>(s: seq<T>, x: T): seq<T> {
    if s == [] then [] else if s[0] == x then s[1..] else [s[0]] + Without(s[1..], x)
  }

  lemma {:induction false} WithoutKeeps<T>(s: seq<T>, x: T)
    ensures forall y :: y in Without(s, x) ==> y in s
    ensures forall y :: y in s && y != x ==> y in Without(s, x)
    ensures x !in s ==> Without(s, x) == s
  {
    if s != [] {
      assert s == [s[0]] + s[1..];
      WithoutKeeps(s[1..], x);
    }
  }

  lemma {:induction false} WithoutMembers<T>(s: seq<T>, x: T)
    requires NoDup(s)
    ensures NoDup(Without(s, x))
    ensures forall y :: y in Without(s, x) <==> y in s && y != x
    ensures |Without(s, x)| == if x in s then |s| - 1 else |s|
    ensures x !in s ==> Without(s, x) == s
  {
    if s != [] {
      assert s == [s[0]] + s[1..];
      WithoutMembers(s[1..], x);
      assert s[0] !in s[1..];
      if s[0] != x {
        var r := Without(s[1..], x);
        assert s[0] !in r;
        assert Without(s, x) == [s[0]] + r;
        forall i, j | 0 <= i < j < |Without(s, x)| ensures Without(s, x)[i] != Without(s, x)[j] {
          if i == 0 { assert Without(s, x)[j] == r[j - 1]; assert r[j - 1] in r; }
        }
      }
    }
  }

  function InsertAt<T>(s: seq<T>, i: nat, x: T): seq<T>
    requires i <= |s|
  {
    s[..i] + [x] + s[i..]
  }

  function DropAt<T>(s: seq<T>, i: nat): seq<T>
    requires i < |s|
  {
    s[..i] + s[i + 1..]
  }

  /** Element by element. */
  lemma InsertedIs<T>(s: seq<T>, i: nat, x: T)
    requires i <= |s|
    ensures |InsertAt(s, i, x)| == |s| + 1
    ensures forall j :: 0 <= j <= |s| ==> InsertAt(s, i, x)[j] == if j < i then s[j] else if j == i then x else s[j - 1]
    ensures NoDup(s) && x !in s ==> NoDup(InsertAt(s, i, x))
  {
    var r := InsertAt(s, i, x);
    forall j | 0 <= j <= |s| ensures r[j] == if j < i then s[j] else if j == i then x else s[j - 1] {
      if j > i { assert r[j] == s[i..][j - i - 1]; }
    }
  }

  lemma DroppedIs<T>(s: seq<T>, i: nat)
    requires i < |s|
    ensures |DropAt(s, i)| == |s| - 1
    ensures forall j :: 0 <= j < |s| - 1 ==> DropAt(s, i)[j] == if j < i then s[j] else s[j + 1]
    ensures NoDup(s) ==> NoDup(DropAt(s, i))
  {
    var r := DropAt(s, i);
    forall j | 0 <= j < |s| - 1 ensures r[j] == if j < i then s[j] else s[j + 1] {
      if j >= i { assert r[j] == s[i + 1..][j - i]; }
    }
  }

  /** Removal keeps the order of what stays: it drops exactly one position. */
  lemma {:induction false} WithoutAt<T>(s: seq<T>, i: nat)
    requires i < |s| && s[i] !in s[..i]
    ensures Without(s, s[i]) == DropAt(s, i)
  {
    if i > 0 {
      assert s[0] in s[..i];
      assert s[1..][..i - 1] == s[..i][1..];
      WithoutAt(s[1..], i - 1);
      assert s[1..][i - 1] == s[i];
      assert s[..i] == [s[0]] + s[1..][..i - 1];
    }
  }

  ghost predicate Before<T(!new)>(l: seq<T>, t: T, u: T) {
    exists i, j :: 0 <= i < j < |l| && l[i] == t && l[j] == u
  }

  /** Removal keeps the order of what stays. */
  lemma {:induction false} WithoutKeepsBefore<T(!new)>(l: seq<T>, x: T, t: T, u: T)
    requires Before(l, t, u) && x != t && x != u
    ensures Before(Without(l, x), t, u)
  {
    var i, j :| 0 <= i < j < |l| && l[i] == t && l[j] == u;
    var tail, m := l[1..], Without(l, x);
    assert tail[j - 1] == u && u in tail;
    if i > 0 {
      assert tail[i - 1] == t;
      if l[0] != x {
        WithoutKeepsBefore(tail, x, t, u);
        var a, b :| 0 <= a < b < |Without(tail, x)| && Without(tail, x)[a] == t && Without(tail, x)[b] == u;
        assert m[a + 1] == t && m[b + 1] == u;
      }
    } else {
      WithoutKeeps(tail, x);
      var b :| 0 <= b < |Without(tail, x)| && Without(tail, x)[b] == u;
      assert m[0] == t && m[b + 1] == u;
    }
  }
}

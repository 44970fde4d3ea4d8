/** The circular doubly linked lists, with their heads, of nboxkrnl/types.hpp.

    A list head is itself an entry; a list is the circle of entries that starts at the head. The
    other modules speak of lists as sequences and of removal as Seqs.Without: this module shows that
    the links amount to that. */
module IntrusiveList {
  import opened Seqs

  class ListEntry {
    var Flink: ListEntry
    var Blink: ListEntry

    constructor ()
      ensures Circle([this])
    {
      Flink, Blink := this, this;
    }
  }

  function After(n: nat, i: nat): nat { if i + 1 == n then 0 else i + 1 }

  function Previous(n: nat, i: nat): nat
    requires n > 0
  {
    if i == 0 then n - 1 else i - 1
  }

  /** Following Flink leads through s in order and back to its start, Blink the other way. */
  ghost predicate Circle(s: seq<ListEntry>)
    reads s
  {
    && s != [] && NoDup(s)
    && (forall i {:trigger s[i].Flink} :: 0 <= i < |s| ==> s[i].Flink == s[After(|s|, i)])
    && (forall i {:trigger s[i].Blink} :: 0 <= i < |s| ==> s[i].Blink == s[Previous(|s|, i)])
  }

  /** The entries between a head and its return. */
  ghost predicate ListOf(head: ListEntry, list: seq<ListEntry>)
    reads head, list
  {
    Circle([head] + list)
  }

  lemma {:induction false} SamePrefix(s: seq<ListEntry>, r: seq<ListEntry>, i: nat)
    requires Circle(s) && Circle(r) && s[0] == r[0] && i < |s| && i < |r|
    ensures s[i] == r[i]
  {
    if i > 0 {
      SamePrefix(s, r, i - 1);
      assert s[i - 1].Flink == s[i] && r[i - 1].Flink == r[i];
    }
  }

  lemma NotLonger(s: seq<ListEntry>, r: seq<ListEntry>)
    requires Circle(s) && Circle(r) && s[0] == r[0]
    ensures |s| <= |r|
  {
    if |s| > |r| {
      assert s[|r| - 1].Flink == s[|r|] && r[|r| - 1].Flink == r[0] && s[0] != s[|r|];
      SamePrefix(s, r, |r| - 1);
    }
  }

  /** The links represent one list only. */
  lemma LinksDetermineTheList(head: ListEntry, list: seq<ListEntry>, other: seq<ListEntry>)
    requires ListOf(head, list) && ListOf(head, other)
    ensures list == other
  {
    var s, r := [head] + list, [head] + other;
    NotLonger(s, r);
    NotLonger(r, s);
    forall i | 0 <= i < |list| ensures list[i] == other[i] {
      SamePrefix(s, r, i + 1);
      assert s[i + 1] == list[i] && r[i + 1] == other[i];
    }
  }

  method InitializeListHead(head: ListEntry)
    modifies head
    ensures ListOf(head, [])
  {
    head.Flink, head.Blink := head, head;
  }

  method IsListEmpty(head: ListEntry, ghost list: seq<ListEntry>) returns (empty: bool)
    requires ListOf(head, list)
    ensures empty <==> list == []
  {
    empty := head.Flink == head;
    assert ([head] + list)[0].Flink == ([head] + list)[After(|list| + 1, 0)];
  }

  /** The links of a circle with e spliced in before position k are those of the new circle. */
  lemma Spliced(s: seq<ListEntry>, k: nat, e: ListEntry)
    requires NoDup(s) && e !in s && 1 <= k <= |s|
    requires e.Blink == s[k - 1] && e.Flink == s[if k == |s| then 0 else k]
    requires s[k - 1].Flink == e && s[if k == |s| then 0 else k].Blink == e
    requires forall i {:trigger s[i].Flink} :: 0 <= i < |s| && i != k - 1 ==> s[i].Flink == s[After(|s|, i)]
    requires forall i {:trigger s[i].Blink} :: 0 <= i < |s| && i != (if k == |s| then 0 else k) ==>
               s[i].Blink == s[Previous(|s|, i)]
    ensures Circle(InsertAt(s, k, e))
  {
    var r := InsertAt(s, k, e);
    InsertedIs(s, k, e);
    hide InsertAt, NoDup;
    forall j | 0 <= j < |r| ensures r[j].Flink == r[After(|r|, j)] {
      var n := After(|r|, j);
      if j < k - 1 {
        assert r[j] == s[j] && r[n] == s[j + 1];
      } else if j > k {
        assert r[j] == s[j - 1] && r[n] == s[After(|s|, j - 1)];
      }
    }
    forall j | 0 <= j < |r| ensures r[j].Blink == r[Previous(|r|, j)] {
      var p := Previous(|r|, j);
      if j < k {
        assert r[j] == s[j];
      } else if j > k {
        assert r[j] == s[j - 1];
        if j > k + 1 { assert r[p] == s[j - 2]; }
      }
    }
  }

  /** Puts e before entry s[i]; before the start means at the end. */
  method InsertTailList(at: ListEntry, e: ListEntry, ghost s: seq<ListEntry>, ghost i: nat)
    requires Circle(s) && i < |s| && at == s[i] && e !in s
    modifies e, at`Blink, at.Blink`Flink
    ensures Circle(if i == 0 then s + [e] else InsertAt(s, i, e))
  {
    var blink := at.Blink;
    e.Flink := at;
    e.Blink := blink;
    blink.Flink := e;
    at.Blink := e;
    ghost var k := if i == 0 then |s| else i;
    assert i == 0 ==> InsertAt(s, k, e) == s + [e];
    Spliced(s, k, e);
  }

  /** Puts e behind entry s[i]. */
  method InsertHeadList(at: ListEntry, e: ListEntry, ghost s: seq<ListEntry>, ghost i: nat)
    requires Circle(s) && i < |s| && at == s[i] && e !in s
    modifies e, at`Flink, at.Flink`Blink
    ensures Circle(InsertAt(s, i + 1, e))
  {
    var flink := at.Flink;
    e.Flink := flink;
    e.Blink := at;
    flink.Blink := e;
    at.Flink := e;
    Spliced(s, i + 1, e);
  }

  /** The links of a circle that lead past s[i] are those of the circle without it. */
  lemma Closed(s: seq<ListEntry>, i: nat)
    requires NoDup(s) && |s| > 1 && i < |s|
    requires s[Previous(|s|, i)].Flink == s[After(|s|, i)] && s[After(|s|, i)].Blink == s[Previous(|s|, i)]
    requires forall j {:trigger s[j].Flink} :: 0 <= j < |s| && j != i && j != Previous(|s|, i) ==> s[j].Flink == s[After(|s|, j)]
    requires forall j {:trigger s[j].Blink} :: 0 <= j < |s| && j != i && j != After(|s|, i) ==> s[j].Blink == s[Previous(|s|, j)]
    ensures Circle(DropAt(s, i))
  {
    var r := DropAt(s, i);
    DroppedIs(s, i);
    forall j | 0 <= j < |r| ensures r[j].Flink == r[After(|r|, j)] {
      if j < i { assert r[j] == s[j]; } else { assert r[j] == s[j + 1]; }
    }
    forall j | 0 <= j < |r| ensures r[j].Blink == r[Previous(|r|, j)] {
      if j < i { assert r[j] == s[j]; } else { assert r[j] == s[j + 1]; }
    }
  }

  /** Takes s[i] out. The result says whether at most one entry is left, that is, whether a list
      whose head is among the rest has become empty. */
  method RemoveEntryList(e: ListEntry, ghost s: seq<ListEntry>, ghost i: nat) returns (empty: bool)
    requires Circle(s) && i < |s| && e == s[i]
    modifies e.Flink`Blink, e.Blink`Flink
    ensures |s| > 1 ==> Circle(DropAt(s, i))
    ensures |s| == 1 ==> Circle(s)
    ensures empty <==> |s| <= 2
  {
    var oldFlink := e.Flink;
    var oldBlink := e.Blink;
    ghost var f, b := After(|s|, i), Previous(|s|, i);
    assert oldFlink == s[f] && oldBlink == s[b];
    oldFlink.Blink := oldBlink;
    oldBlink.Flink := oldFlink;
    if |s| > 1 { Closed(s, i); }
    return oldFlink == oldBlink;
  }

  lemma CutIsWithout(head: ListEntry, list: seq<ListEntry>, i: nat)
    requires i < |list| && NoDup([head] + list)
    ensures DropAt([head] + list, i + 1) == [head] + Without(list, list[i])
    ensures |Without(list, list[i])| == |list| - 1
  {
    var s := [head] + list;
    forall j | 0 <= j < i ensures list[j] != list[i] { assert s[j + 1] == list[j] && s[i + 1] == list[i]; }
    WithoutAt(list, i);
    assert DropAt(s, i + 1) == [head] + (list[..i] + list[i + 1..]);
  }

  /** On a list with a head: what RemoveEntryList does is to drop the entry from the sequence,
      and it returns whether the list is empty now. */
  method RemoveFromList(head: ListEntry, e: ListEntry, ghost list: seq<ListEntry>) returns (empty: bool)
    requires ListOf(head, list) && e in list
    modifies e.Flink`Blink, e.Blink`Flink
    ensures ListOf(head, Without(list, e)) && (empty <==> Without(list, e) == [])
  {
    ghost var i :| 0 <= i < |list| && list[i] == e;
    CutIsWithout(head, list, i);
    empty := RemoveEntryList(e, [head] + list, i + 1);
  }

  method RemoveHeadList(head: ListEntry, ghost list: seq<ListEntry>) returns (e: ListEntry)
    requires ListOf(head, list) && list != []
    modifies head`Flink, head.Flink.Flink`Blink
    ensures e == list[0] && ListOf(head, list[1..])
  {
    ghost var s := [head] + list;
    assert s[0].Flink == s[1] && s[1].Blink == s[0];
    e := head.Flink;
    assert DropAt(s, 1) == [head] + list[1..];
    var _ := RemoveEntryList(e, s, 1);
  }

  method RemoveTailList(head: ListEntry, ghost list: seq<ListEntry>) returns (e: ListEntry)
    requires ListOf(head, list) && list != []
    modifies head`Blink, head.Blink.Blink`Flink
    ensures e == list[|list| - 1] && ListOf(head, list[..|list| - 1])
  {
    ghost var s := [head] + list;
    ghost var n := |list|;
    assert s[0].Blink == s[n] && s[n].Flink == s[0];
    e := head.Blink;
    assert DropAt(s, n) == [head] + list[..n - 1];
    var _ := RemoveEntryList(e, s, n);
  }
}

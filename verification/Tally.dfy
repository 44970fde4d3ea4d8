/** Weighted sums over sequences, for counting the threads that are in a given situation. */
module Tally {

  function Sum<T>(s: seq<T>, w: T -> nat): nat {
    if s == [] then 0 else w(s[0]) + Sum(s[1..], w)
  }

  /** Replacing one element moves the sum by the difference of the two weights. */
  lemma {:induction false} SumUpdate<T>(s: seq<T>, i: nat, x: T, w: T -> nat)
    requires i < |s|
    ensures Sum(s[i := x], w) == Sum(s, w) - w(s[i]) + w(x)
  {
    if i == 0 {
      assert s[i := x][1..] == s[1..];
    } else {
      assert s[i := x][1..] == s[1..][i - 1 := x];
      SumUpdate(s[1..], i - 1, x, w);
    }
  }

  /** One element is below the sum, and so are two elements at different places. */
  lemma {:induction false} SumCovers<T>(s: seq<T>, i: nat, j: nat, w: T -> nat)
    requires i < |s| && j < |s|
    ensures w(s[i]) <= Sum(s, w)
    ensures i != j ==> w(s[i]) + w(s[j]) <= Sum(s, w)
  {
    if i > 0 && j > 0 {
      SumCovers(s[1..], i - 1, j - 1, w);
    } else if i > 0 {
      SumCovers(s[1..], i - 1, i - 1, w);
    } else if j > 0 {
      SumCovers(s[1..], j - 1, j - 1, w);
    }
  }

  /** A positive sum has an element of positive weight. */
  lemma {:induction false} SumWitness<T>(s: seq<T>, w: T -> nat) returns (i: nat)
    requires Sum(s, w) > 0
    ensures i < |s| && w(s[i]) > 0
  {
    if w(s[0]) > 0 {
      i := 0;
    } else {
      i := SumWitness(s[1..], w);
      i := i + 1;
    }
  }

  lemma {:induction false} SumZero<T>(s: seq<T>, w: T -> nat)
    requires forall i :: 0 <= i < |s| ==> w(s[i]) == 0
    ensures Sum(s, w) == 0
  {
    if s != [] {
      assert w(s[0]) == 0;
      forall i | 0 <= i < |s[1..]| ensures w(s[1..][i]) == 0 { assert s[1..][i] == s[i + 1]; }
      SumZero(s[1..], w);
    }
  }

  lemma {:induction false} SumAppend<T>(s: seq<T>, x: T, w: T -> nat)
    ensures Sum(s + [x], w) == Sum(s, w) + w(x)
  {
    if s == [] {
      assert s + [x] == [x];
    } else {
      assert (s + [x])[1..] == s[1..] + [x];
      SumAppend(s[1..], x, w);
    }
  }

  /** Taking one element out takes its weight off the sum. */
  lemma {:induction false} SumRemove<T>(s: seq<T>, i: nat, w: T -> nat)
    requires i < |s|
    ensures Sum(s[..i] + s[i + 1..], w) == Sum(s, w) - w(s[i])
  {
    if i == 0 {
      assert s[..0] + s[1..] == s[1..];
    } else {
      assert (s[..i] + s[i + 1..])[1..] == s[1..][..i - 1] + s[1..][i..];
      SumRemove(s[1..], i - 1, w);
    }
  }

  /** A sum of smaller weights is smaller, unless the weights agree everywhere. */
  lemma {:induction false} SumCompare<T>(s: seq<T>, w: T -> nat, v: T -> nat)
    requires forall i :: 0 <= i < |s| ==> w(s[i]) <= v(s[i])
    ensures Sum(s, w) <= Sum(s, v)
    ensures Sum(s, w) == Sum(s, v) <==> forall i :: 0 <= i < |s| ==> w(s[i]) == v(s[i])
  {
    if s != [] {
      forall i | 0 <= i < |s[1..]| ensures w(s[1..][i]) <= v(s[1..][i]) { assert s[1..][i] == s[i + 1]; }
      SumCompare(s[1..], w, v);
      assert forall i :: 0 <= i < |s[1..]| ==> s[1..][i] == s[i + 1];
      assert w(s[0]) <= v(s[0]);
      if forall i :: 0 <= i < |s[1..]| ==> w(s[1..][i]) == v(s[1..][i]) {
        forall i | 1 <= i < |s| ensures w(s[i]) == v(s[i]) { assert s[i] == s[1..][i - 1]; }
      } else {
        var i :| 0 <= i < |s[1..]| && w(s[1..][i]) != v(s[1..][i]);
        assert w(s[i + 1]) != v(s[i + 1]);
      }
    }
  }

  /** The same for weights of either sign. */
  function Total<T>(s: seq<T>, w: T -> int): int {
    if s == [] then 0 else w(s[0]) + Total(s[1..], w)
  }

  lemma {:induction false} TotalUpdate<T>(s: seq<T>, i: nat, x: T, w: T -> int)
    requires i < |s|
    ensures Total(s[i := x], w) == Total(s, w) - w(s[i]) + w(x)
  {
    if i == 0 {
      assert s[i := x][1..] == s[1..];
    } else {
      assert s[i := x][1..] == s[1..][i - 1 := x];
      TotalUpdate(s[1..], i - 1, x, w);
    }
  }

  lemma {:induction false} TotalZero<T>(s: seq<T>, w: T -> int)
    requires forall i :: 0 <= i < |s| ==> w(s[i]) == 0
    ensures Total(s, w) == 0
  {
    if s != [] {
      assert w(s[0]) == 0;
      forall i | 0 <= i < |s[1..]| ensures w(s[1..][i]) == 0 { assert s[1..][i] == s[i + 1]; }
      TotalZero(s[1..], w);
    }
  }
}

/** Waiting on semaphores and mutants, nboxkrnl/ke/wait.cpp. */
module Dispatcher {
  // Modelled: KeWaitForSingleObject, KiWaitSatisfyAny, KiWaitSatisfyMutant, KiWaitTest and the
  // unlinking part of KiUnwaitThread, with nboxkrnl/ke/semaphore.cpp and nboxkrnl/ke/mutant.cpp.
  // Everything here runs at DISPATCH_LEVEL, so each operation is one step.

  import opened Seqs
  import opened Wrappers

  const MAXLONG := 0x7fff_ffff
  const MINLONG := -0x8000_0000
  const MUTANT_LIMIT := MINLONG

  /** Addition on 32-bit signed integers. */
  function LongAdd(x: int, y: int): int {
    if x + y > MAXLONG then x + y - 0x1_0000_0000 else if x + y < MINLONG then x + y + 0x1_0000_0000 else x + y
  }

  /** It stays within 32 bits, and is off by a multiple of 2^32 at most. */
  lemma LongAddWraps(x: int, y: int)
    requires MINLONG <= x <= MAXLONG && MINLONG <= y <= MAXLONG
    ensures MINLONG <= LongAdd(x, y) <= MAXLONG
    ensures exists k: int :: -1 <= k <= 1 && LongAdd(x, y) == x + y + k * 0x1_0000_0000
  {
    var k := if x + y > MAXLONG then -1 else if x + y < MINLONG then 1 else 0;
    assert LongAdd(x, y) == x + y + k * 0x1_0000_0000;
  }

  datatype Kind = Semaphore(limit: int) | Mutant

  /** The last two fields only record history: units acquired and released so far; for a
      mutant, an abandoning release gives back everything that is still acquired. */
  datatype Object = Object(
    kind: Kind,
    signal: int,
    waiters: seq<nat>,
    owner: Option<nat>,
    abandoned: bool,
    acquired: int,
    released: int)

  datatype ThreadState = Runs | Waits(o: nat)

  datatype Status =
    | Success
    | Abandoned
    | Timeout
    | KernelApc                // the wait is interrupted, and begins again
    | Pending                  // the thread is on the wait list
    | LimitExceeded            // STATUS_SEMAPHORE_LIMIT_EXCEEDED or STATUS_MUTANT_LIMIT_EXCEEDED raised
    | NotOwned                 // STATUS_MUTANT_NOT_OWNED or STATUS_ABANDONED raised

  /** `wait` holds the WaitStatus of each thread: what its wait returns when it ends. */
  datatype State = State(objects: seq<Object>, mutants: seq<seq<nat>>, threads: seq<ThreadState>, wait: seq<Status>)

  function NewSemaphore(count: int, limit: int): Object {
    Object(Semaphore(limit), count, [], None, false, 0, count)
  }

  /** A mutant is created free, or owned by its creator. */
  function NewMutant(creator: Option<nat>): Object {
    if creator.Some? then Object(Mutant, 0, [], creator, false, 1, 0) else Object(Mutant, 1, [], None, false, 0, 0)
  }

  // ---------- specification of the operations ----------

  predicate Names(s: State, t: nat, o: nat) {
    t < |s.threads| == |s.mutants| == |s.wait| && o < |s.objects|
  }

  function WithObject(s: State, o: nat, x: Object): State
    requires o < |s.objects|
  {
    s.(objects := s.objects[o := x])
  }

  /** KiWaitSatisfyAny for thread t. */
  function Satisfy(s: State, o: nat, t: nat): State
    requires Names(s, t, o)
  {
    var x := s.objects[o].(signal := s.objects[o].signal - 1, acquired := s.objects[o].acquired + 1);
    if x.kind.Mutant? && x.signal == 0 then
      WithObject(s, o, x.(owner := Some(t), abandoned := false)).(
        mutants := s.mutants[t := s.mutants[t] + [o]],
        wait := if x.abandoned then s.wait[t := Abandoned] else s.wait)
    else WithObject(s, o, x)
  }

  /** WaitStatus |= status, where STATUS_SUCCESS is 0 and one of the two is STATUS_SUCCESS. */
  function Merged(was: Status, status: Status): Status { if was.Success? then status else was }

  /** Takes thread t off the wait list of o and lets it run. */
  function Unwait(s: State, o: nat, t: nat, status: Status): State
    requires Names(s, t, o)
  {
    WithObject(s, o, s.objects[o].(waiters := Without(s.objects[o].waiters, t))).(
      threads := s.threads[t := Runs], wait := s.wait[t := Merged(s.wait[t], status)])
  }

  predicate WaitersNamed(s: State, o: nat)
    requires o < |s.objects|
  {
    |s.threads| == |s.mutants| == |s.wait| && forall t :: t in s.objects[o].waiters ==> t < |s.threads|
  }

  /** KiWaitTest: satisfies waits from the head of the list while the object is signalled. */
  function WaitTest(s: State, o: nat): State
    requires o < |s.objects| && WaitersNamed(s, o)
    decreases |s.objects[o].waiters|
  {
    var x := s.objects[o];
    if x.signal > 0 && x.waiters != [] then
      assert x.waiters[0] in x.waiters;
      var r := Unwait(Satisfy(s, o, x.waiters[0]), o, x.waiters[0], Success);
      assert r.objects[o].waiters == x.waiters[1..];
      assert forall t :: t in x.waiters[1..] ==> t in x.waiters;
      WaitTest(r, o)
    else s
  }

  /** The state after KeWaitForSingleObject, and what it returns if it returns at once. */
  function Wait(s: State, t: nat, o: nat, timeoutZero: bool): (State, Status)
    requires Names(s, t, o)
  {
    var x := s.objects[o];
    var r := s.(wait := s.wait[t := Success]);
    if x.kind.Mutant? && (x.signal > 0 || x.owner == Some(t)) then
      if x.signal != MUTANT_LIMIT then (Satisfy(r, o, t), Satisfy(r, o, t).wait[t]) else (r, LimitExceeded)
    else if x.kind.Semaphore? && x.signal > 0 then (Satisfy(r, o, t), Success)
    else if timeoutZero then (r, Timeout)
    else (WithObject(r, o, x.(waiters := x.waiters + [t])).(threads := s.threads[t := Waits(o)]), Pending)
  }

  function ReleaseSemaphore(s: State, o: nat, adjustment: int): (State, Status)
    requires o < |s.objects| && s.objects[o].kind.Semaphore? && WaitersNamed(s, o)
  {
    var x := s.objects[o];
    var n := LongAdd(x.signal, adjustment);
    if n > x.kind.limit || n < x.signal then (s, LimitExceeded)
    else
      var r := WithObject(s, o, x.(signal := n, released := x.released + adjustment));
      (if x.signal == 0 && x.waiters != [] then WaitTest(r, o) else r, Success)
  }

  function ReleaseMutant(s: State, t: nat, o: nat, abandon: bool): (State, Status)
    requires Names(s, t, o) && s.objects[o].kind.Mutant? && WaitersNamed(s, o)
    requires s.objects[o].owner.Some? ==> s.objects[o].owner.value < |s.threads|
  {
    var x := s.objects[o];
    if !abandon && x.owner != Some(t) then (s, NotOwned)
    else
      var y := if abandon then x.(signal := 1, abandoned := true, released := x.acquired)
               else x.(signal := LongAdd(x.signal, 1), released := x.released + 1);
      if y.signal == 1 then
        var l := if x.signal <= 0 && x.owner.Some?
                 then s.mutants[x.owner.value := Without(s.mutants[x.owner.value], o)] else s.mutants;
        (WaitTest(WithObject(s, o, y.(owner := None)).(mutants := l), o), Success)
      else (WithObject(s, o, y), Success)
  }

  // ---------- the operations in the form of the source ----------

  class Kernel {
    var objects: seq<Object>
    var mutants: seq<seq<nat>>     // MutantListHead of each thread
    var threads: seq<ThreadState>
    var WaitStatus: seq<Status>    // of each thread

    ghost function View(): State
      reads this
    {
      State(objects, mutants, threads, WaitStatus)
    }

    constructor (objects: seq<Object>, mutants: seq<seq<nat>>, threads: seq<ThreadState>, waitStatus: seq<Status>)
      ensures View() == State(objects, mutants, threads, waitStatus)
    {
      this.objects, this.mutants, this.threads, this.WaitStatus := objects, mutants, threads, waitStatus;
    }

    method KiWaitSatisfyMutant(o: nat, t: nat)
      requires Names(View(), t, o) && objects[o].kind.Mutant?
      modifies this
      ensures View() == Satisfy(old(View()), o, t)
    {
      var x := objects[o];
      x := x.(signal := x.signal - 1, acquired := x.acquired + 1);
      if x.signal == 0 {
        x := x.(owner := Some(t));
        if x.abandoned {
          x := x.(abandoned := false);
          WaitStatus := WaitStatus[t := Abandoned];
        }
        mutants := mutants[t := mutants[t] + [o]];
      }
      objects := objects[o := x];
    }

    method KiWaitSatisfyAny(o: nat, t: nat)
      requires Names(View(), t, o)
      modifies this
      ensures View() == Satisfy(old(View()), o, t)
    {
      if objects[o].kind.Mutant? {
        KiWaitSatisfyMutant(o, t);
      } else {
        objects := objects[o := objects[o].(signal := objects[o].signal - 1, acquired := objects[o].acquired + 1)];
      }
    }

    method KiUnwaitThread(o: nat, t: nat, status: Status)
      requires Names(View(), t, o)
      modifies this
      ensures View() == Unwait(old(View()), o, t, status)
    {
      WaitStatus := WaitStatus[t := Merged(WaitStatus[t], status)];
      objects := objects[o := objects[o].(waiters := Without(objects[o].waiters, t))];
      threads := threads[t := Runs];
    }

    method KiWaitTest(o: nat)
      requires o < |objects| && WaitersNamed(View(), o)
      modifies this
      ensures View() == WaitTest(old(View()), o)
    {
      ghost var result := WaitTest(View(), o);
      while objects[o].signal > 0 && objects[o].waiters != []
        invariant o < |objects| && WaitersNamed(View(), o) && WaitTest(View(), o) == result
        decreases |objects[o].waiters|
      {
        var t := objects[o].waiters[0];
        assert t in objects[o].waiters;
        ghost var rest := objects[o].waiters[1..];
        assert forall u :: u in rest ==> u in objects[o].waiters;
        KiWaitSatisfyAny(o, t);
        KiUnwaitThread(o, t, Success);
        assert objects[o].waiters == rest;
      }
    }

    method KeWaitForSingleObject(t: nat, o: nat, timeoutZero: bool) returns (status: Status)
      requires Names(View(), t, o)
      modifies this
      ensures (View(), status) == Wait(old(View()), t, o, timeoutZero)
    {
      WaitStatus := WaitStatus[t := Success];
      if objects[o].kind.Mutant? {
        if objects[o].signal > 0 || objects[o].owner == Some(t) {
          if objects[o].signal != MUTANT_LIMIT {
            KiWaitSatisfyMutant(o, t);
            return WaitStatus[t];
          } else {
            return LimitExceeded;
          }
        }
      } else if objects[o].signal > 0 {
        objects := objects[o := objects[o].(signal := objects[o].signal - 1, acquired := objects[o].acquired + 1)];
        return Success;
      }
      if timeoutZero {
        return Timeout;
      }
      objects := objects[o := objects[o].(waiters := objects[o].waiters + [t])];
      threads := threads[t := Waits(o)];
      return Pending;
    }

    method KeReleaseSemaphore(o: nat, adjustment: int) returns (status: Status)
      requires o < |objects| && objects[o].kind.Semaphore? && WaitersNamed(View(), o)
      modifies this
      ensures (View(), status) == ReleaseSemaphore(old(View()), o, adjustment)
    {
      var oldState := objects[o].signal;
      var newState := LongAdd(oldState, adjustment);
      if newState > objects[o].kind.limit || newState < oldState {
        return LimitExceeded;
      }
      objects := objects[o := objects[o].(signal := newState, released := objects[o].released + adjustment)];
      if oldState == 0 && objects[o].waiters != [] {
        KiWaitTest(o);
      }
      return Success;
    }

    method KeReleaseMutant(t: nat, o: nat, abandon: bool) returns (status: Status)
      requires Names(View(), t, o) && objects[o].kind.Mutant? && WaitersNamed(View(), o)
      requires objects[o].owner.Some? ==> objects[o].owner.value < |threads|
      modifies this
      ensures (View(), status) == ReleaseMutant(old(View()), t, o, abandon)
    {
      var x := objects[o];
      var oldState := x.signal;
      if abandon {
        x := x.(signal := 1, abandoned := true, released := x.acquired);
      } else {
        if x.owner != Some(t) {
          return NotOwned;
        }
        x := x.(signal := LongAdd(x.signal, 1), released := x.released + 1);
      }
      if x.signal == 1 {
        if oldState <= 0 && x.owner.Some? {
          mutants := mutants[x.owner.value := Without(mutants[x.owner.value], o)];
        }
        objects := objects[o := x.(owner := None)];
        if objects[o].waiters != [] {
          KiWaitTest(o);
        }
      } else {
        objects := objects[o := x];
      }
      return Success;
    }
  }

  // ---------- invariants ----------

  /** A semaphore's count is exact and in range; a mutant is owned iff its SignalState is not
      positive, and 1 - SignalState is its recursion depth; a wait list means no signal. */
  ghost predicate ObjectInv(x: Object) {
    && NoDup(x.waiters)
    && (x.waiters != [] ==> x.signal <= 0)
    && match x.kind {
      case Semaphore(limit) =>
        0 <= x.signal <= limit <= MAXLONG && x.signal == x.released - x.acquired && x.owner.None? && !x.abandoned
      case Mutant =>
        MUTANT_LIMIT <= x.signal <= 1 && 1 - x.signal == x.acquired - x.released
        && (x.owner.Some? <==> x.signal <= 0) && (x.abandoned ==> x.owner.None?)
    }
  }

  /** Object o is on thread t's mutant list exactly while t owns it. */
  ghost predicate Linked(s: State, o: nat)
    requires o < |s.objects|
  {
    forall t :: 0 <= t < |s.mutants| ==> (o in s.mutants[t] <==> s.objects[o].owner == Some(t))
  }

  /** The threads on the wait list of o are exactly those that wait for it. */
  ghost predicate Queue(s: State, o: nat)
    requires o < |s.objects|
  {
    && (forall t :: t in s.objects[o].waiters ==> t < |s.threads|)
    && (forall t :: 0 <= t < |s.threads| ==> (t in s.objects[o].waiters <==> s.threads[t] == Waits(o)))
  }

  ghost predicate Good(s: State, o: nat)
    requires o < |s.objects|
  {
    && ObjectInv(s.objects[o])
    && Linked(s, o)
    && Queue(s, o)
    && (s.objects[o].owner.Some? ==> s.objects[o].owner.value < |s.threads|)
  }

  /** A thread starts to wait with STATUS_SUCCESS. */
  ghost predicate FreshWaits(s: State) {
    |s.wait| == |s.threads| && forall t :: 0 <= t < |s.threads| && s.threads[t].Waits? ==> s.wait[t].Success?
  }

  ghost predicate Inv(s: State) {
    && |s.threads| == |s.mutants| && FreshWaits(s)
    && (forall t :: 0 <= t < |s.mutants| ==> NoDup(s.mutants[t]))
    && (forall t, o :: 0 <= t < |s.mutants| && o in s.mutants[t] ==> o < |s.objects|)
    && (forall o :: 0 <= o < |s.objects| ==> Good(s, o))
  }

  /** What WaitTest amounts to: the first k waiters get a unit each, in order, and run. */
  ghost function WokenCount(x: Object): nat {
    if x.signal <= 0 then 0 else if x.signal <= |x.waiters| then x.signal else |x.waiters|
  }

  ghost predicate SameElsewhere(s: State, s': State, o: nat) {
    && |s'.objects| == |s.objects| && |s'.threads| == |s.threads| && |s'.mutants| == |s.mutants|
    && |s'.wait| == |s.wait|
    && forall i :: 0 <= i < |s.objects| && i != o ==> s'.objects[i] == s.objects[i]
  }

  /** s' is s after the first k waiters of o have been given a unit each and run. */
  ghost predicate Woke(s: State, s': State, o: nat, k: nat)
    requires o < |s.objects| && WaitersNamed(s, o)
  {
    var x := s.objects[o];
    && SameElsewhere(s, s', o)
    && k <= |x.waiters|
    && s'.objects[o] == x.(signal := x.signal - k, acquired := x.acquired + k, waiters := x.waiters[k..],
                           owner := s'.objects[o].owner,
                           abandoned := x.abandoned && (x.kind.Semaphore? || k == 0))
    && (forall t :: 0 <= t < |s.threads| ==> s'.threads[t] == if t in x.waiters[..k] then Runs else s.threads[t])
    && (x.kind.Semaphore? || k == 0 ==> s'.mutants == s.mutants && s'.wait == s.wait && s'.objects[o].owner == x.owner)
    && (x.kind.Mutant? && k > 0 ==>
          k == 1 && x.waiters[0] in x.waiters && s'.objects[o].owner == Some(x.waiters[0])
          && s'.wait == (if x.abandoned then s.wait[x.waiters[0] := Abandoned] else s.wait)
          && s'.mutants == s.mutants[x.waiters[0] := s.mutants[x.waiters[0]] + [o]])
  }

  function WakeOne(s: State, o: nat): State
    requires o < |s.objects| && WaitersNamed(s, o) && s.objects[o].waiters != []
  {
    var t := s.objects[o].waiters[0];
    assert t in s.objects[o].waiters;
    Unwait(Satisfy(s, o, t), o, t, Success)
  }

  lemma WakeOneKeeps(s: State, o: nat)
    requires o < |s.objects| && WaitersNamed(s, o) && s.objects[o].waiters != []
    requires s.objects[o].signal > 0 && (s.objects[o].kind.Semaphore? || s.objects[o].signal == 1)
    ensures |WakeOne(s, o).objects| == |s.objects| && Woke(s, WakeOne(s, o), o, 1) && WaitersNamed(WakeOne(s, o), o)
    ensures WaitTest(s, o) == WaitTest(WakeOne(s, o), o)
    ensures var x, y := s.objects[o], WakeOne(s, o).objects[o];
            y.kind == x.kind && y.signal == x.signal - 1 && y.waiters == x.waiters[1..]
  {
    var x, r := s.objects[o], WakeOne(s, o);
    assert x.waiters[0] in x.waiters && x.waiters[..1] == [x.waiters[0]];
    assert r.objects[o].waiters == x.waiters[1..];
    assert forall u :: u in x.waiters[1..] ==> u in x.waiters;
  }

  lemma WokeTwice(s: State, r: State, s': State, o: nat, k: nat)
    requires o < |s.objects| && WaitersNamed(s, o) && Woke(s, r, o, 1) && WaitersNamed(r, o) && Woke(r, s', o, k)
    requires s.objects[o].kind.Semaphore? || k == 0
    ensures Woke(s, s', o, k + 1)
  {
    var x := s.objects[o];
    assert x.waiters[..k + 1] == [x.waiters[0]] + x.waiters[1..][..k];
    assert x.waiters[k + 1..] == x.waiters[1..][k..];
  }

  lemma NoneWoken(s: State, o: nat)
    requires o < |s.objects| && WaitersNamed(s, o)
    ensures Woke(s, s, o, 0)
  {
    var w := s.objects[o].waiters;
    assert w[0..] == w && w[..0] == [];
  }

  lemma {:induction false} WakesAPrefix(s: State, o: nat)
    requires o < |s.objects| && WaitersNamed(s, o)
    requires s.objects[o].kind.Semaphore? || s.objects[o].signal <= 1
    ensures Woke(s, WaitTest(s, o), o, WokenCount(s.objects[o]))
    decreases |s.objects[o].waiters|
  {
    hide Woke, WakeOne;
    var x := s.objects[o];
    if x.signal > 0 && x.waiters != [] {
      hide WaitTest;
      WakeOneKeeps(s, o);
      var r := WakeOne(s, o);
      WakesAPrefix(r, o);
      WokeTwice(s, r, WaitTest(s, o), o, WokenCount(r.objects[o]));
    } else {
      NoneWoken(s, o);
    }
  }

  lemma SatisfyKeepsInv(s: State, o: nat, t: nat)
    requires Inv(s) && Names(s, t, o) && s.threads[t].Runs?
    requires s.objects[o].signal > 0 || (s.objects[o].owner == Some(t) && s.objects[o].signal > MUTANT_LIMIT)
    requires s.objects[o].kind.Semaphore? ==> s.objects[o].signal > 0
    ensures Inv(Satisfy(s, o, t))
  {
    var s' := Satisfy(s, o, t);
    assert Good(s, o);
    forall i | 0 <= i < |s'.objects| ensures Good(s', i) {
      assert Good(s, i);
    }
  }

  lemma ResetKeepsInv(s: State, t: nat)
    requires Inv(s) && t < |s.threads|
    ensures Inv(s.(wait := s.wait[t := Success]))
  {
    var r := s.(wait := s.wait[t := Success]);
    forall i | 0 <= i < |r.objects| ensures Good(r, i) {
      assert Good(s, i);
    }
  }

  lemma WaitKeepsInv(s: State, t: nat, o: nat, timeoutZero: bool)
    requires Inv(s) && Names(s, t, o) && s.threads[t].Runs?
    ensures Inv(Wait(s, t, o, timeoutZero).0)
  {
    var (s', status) := Wait(s, t, o, timeoutZero);
    var r := s.(wait := s.wait[t := Success]);
    ResetKeepsInv(s, t);
    assert Good(r, o);
    if status.Pending? {
      forall i | 0 <= i < |s'.objects| ensures Good(s', i) {
        assert Good(r, i);
      }
    } else if s' != r {
      SatisfyKeepsInv(r, o, t);
    }
  }

  /** A wait that ends by a timeout or an APC. */
  lemma UnwaitKeepsInv(s: State, t: nat, o: nat, status: Status)
    requires Inv(s) && Names(s, t, o) && s.threads[t] == Waits(o)
    ensures Inv(Unwait(s, o, t, status))
  {
    var s' := Unwait(s, o, t, status);
    assert Good(s, o);
    WithoutMembers(s.objects[o].waiters, t);
    forall i | 0 <= i < |s'.objects| ensures Good(s', i) {
      assert Good(s, i);
    }
  }

  /** The state right before the test of the wait list: all is well but for a signal at o. */
  ghost predicate Signalled(s: State, o: nat) {
    && o < |s.objects| && |s.threads| == |s.mutants| && FreshWaits(s)
    && (forall t :: 0 <= t < |s.mutants| ==> NoDup(s.mutants[t]))
    && (forall t, i :: 0 <= t < |s.mutants| && i in s.mutants[t] ==> i < |s.objects|)
    && (forall i :: 0 <= i < |s.objects| && i != o ==> Good(s, i))
    && Linked(s, o) && Queue(s, o)
    && ObjectInv(s.objects[o].(waiters := []))
    && s.objects[o].owner.None? && NoDup(s.objects[o].waiters)
  }

  lemma WaitTestKeepsInv(s: State)
    ensures forall o: nat :: Signalled(s, o) && WaitersNamed(s, o) ==> Inv(WaitTest(s, o))
  {
    forall o: nat | Signalled(s, o) && WaitersNamed(s, o) ensures Inv(WaitTest(s, o)) {
      var s' := WaitTest(s, o);
      assert s.objects[o].signal <= 1 || s.objects[o].kind.Semaphore?;
      hide WaitTest;
      WakesAPrefix(s, o);
      OwnGood(s, s', o);
      OthersGood(s, s', o);
      MutantListsStay(s, s', o);
    }
  }

  lemma MutantListsStay(s: State, s': State, o: nat)
    requires Signalled(s, o) && WaitersNamed(s, o) && Woke(s, s', o, WokenCount(s.objects[o]))
    ensures |s'.threads| == |s'.mutants| && FreshWaits(s')
    ensures forall t :: 0 <= t < |s'.mutants| ==> NoDup(s'.mutants[t])
    ensures forall t, i :: 0 <= t < |s'.mutants| && i in s'.mutants[t] ==> i < |s'.objects|
  {
    var w := s.objects[o].waiters;
    if s'.wait != s.wait { assert w[0] in w[..1]; }
  }

  lemma OwnGood(s: State, s': State, o: nat)
    requires Signalled(s, o) && WaitersNamed(s, o) && Woke(s, s', o, WokenCount(s.objects[o]))
    ensures Good(s', o)
  {
    OwnQueue(s, s', o, WokenCount(s.objects[o]));
  }

  lemma OthersGood(s: State, s': State, o: nat)
    requires Signalled(s, o) && WaitersNamed(s, o) && Woke(s, s', o, WokenCount(s.objects[o]))
    ensures forall i :: 0 <= i < |s.objects| && i != o ==> Good(s', i)
  {
    forall i | 0 <= i < |s.objects| && i != o ensures Good(s', i) {
      assert Good(s, i);
      OtherQueue(s, s', o, i, WokenCount(s.objects[o]));
    }
  }

  lemma PrefixSplits(w: seq<nat>, k: nat)
    requires NoDup(w) && k <= |w|
    ensures forall t :: t in w[k..] <==> t in w && t !in w[..k]
  {
    assert w == w[..k] + w[k..];
  }

  lemma OwnQueue(s: State, s': State, o: nat, k: nat)
    requires Signalled(s, o) && WaitersNamed(s, o) && Woke(s, s', o, k)
    ensures Queue(s', o)
  {
    var w := s.objects[o].waiters;
    assert NoDup(w) && Queue(s, o);
    hide Signalled;
    PrefixSplits(w, k);
  }

  lemma OtherQueue(s: State, s': State, o: nat, i: nat, k: nat)
    requires Signalled(s, o) && WaitersNamed(s, o) && Woke(s, s', o, k) && i < |s.objects| && i != o
    ensures Queue(s', i)
  {
    assert Good(s, i);
    forall t | 0 <= t < |s.threads| ensures s'.threads[t] == Waits(i) <==> s.threads[t] == Waits(i) {
      if t in s.objects[o].waiters[..k] {
        assert t in s.objects[o].waiters;
      }
    }
  }

  lemma ReleaseSemaphoreKeepsInv(s: State, o: nat)
    requires Inv(s) && o < |s.objects| && s.objects[o].kind.Semaphore?
    ensures WaitersNamed(s, o)
    ensures forall adjustment :: MINLONG <= adjustment <= MAXLONG ==> Inv(ReleaseSemaphore(s, o, adjustment).0)
  {
    hide WaitTest;
    assert Good(s, o);
    forall adjustment | MINLONG <= adjustment <= MAXLONG ensures Inv(ReleaseSemaphore(s, o, adjustment).0) {
      var x := s.objects[o];
      var n := LongAdd(x.signal, adjustment);
      if n <= x.kind.limit && n >= x.signal {
        var r := WithObject(s, o, x.(signal := n, released := x.released + adjustment));
        forall i | 0 <= i < |r.objects| && i != o ensures Good(r, i) {
          assert Good(s, i);
        }
        if x.signal == 0 && x.waiters != [] {
          WaitTestKeepsInv(r);
        } else {
          assert Good(r, o);
        }
      }
    }
  }

  lemma ReleaseMutantKeepsInv(s: State, o: nat)
    requires Inv(s) && o < |s.objects| && s.objects[o].kind.Mutant?
    ensures WaitersNamed(s, o) && (s.objects[o].owner.Some? ==> s.objects[o].owner.value < |s.threads|)
    ensures forall t, abandon :: 0 <= t < |s.threads| ==> Inv(ReleaseMutant(s, t, o, abandon).0)
  {
    hide WaitTest;
    assert Good(s, o);
    var x := s.objects[o];
    forall t, abandon | 0 <= t < |s.threads| ensures Inv(ReleaseMutant(s, t, o, abandon).0) {
      var s' := ReleaseMutant(s, t, o, abandon).0;
      if abandon || x.owner == Some(t) {
        var y := if abandon then x.(signal := 1, abandoned := true, released := x.acquired)
                 else x.(signal := LongAdd(x.signal, 1), released := x.released + 1);
        if y.signal == 1 {
          var l := if x.signal <= 0 && x.owner.Some?
                   then s.mutants[x.owner.value := Without(s.mutants[x.owner.value], o)] else s.mutants;
          var r := WithObject(s, o, y.(owner := None)).(mutants := l);
          FreedIsSignalled(s, o);
          assert Freed(s, o, y.(owner := None)) && r == Disowned(s, o, y.(owner := None));
          WaitTestKeepsInv(r);
        } else {
          forall i | 0 <= i < |s'.objects| ensures Good(s', i) {
            assert Good(s, i);
          }
        }
      }
    }
  }

  /** Object o has become y, which nobody owns. */
  function Disowned(s: State, o: nat, y: Object): State
    requires o < |s.objects| && (s.objects[o].owner.Some? ==> s.objects[o].owner.value < |s.mutants|)
  {
    var owner := s.objects[o].owner;
    WithObject(s, o, y).(mutants :=
      if owner.Some? then s.mutants[owner.value := Without(s.mutants[owner.value], o)] else s.mutants)
  }

  ghost predicate Freed(s: State, o: nat, y: Object)
    requires o < |s.objects|
  {
    && y.kind.Mutant? && y.signal == 1 && y.acquired == y.released && y.owner.None?
    && y.waiters == s.objects[o].waiters
  }

  lemma FreedIsSignalled(s: State, o: nat)
    requires Inv(s) && o < |s.objects| && s.objects[o].kind.Mutant?
    ensures s.objects[o].owner.Some? ==> s.objects[o].owner.value < |s.mutants|
    ensures forall y :: Freed(s, o, y) ==> Signalled(Disowned(s, o, y), o) && WaitersNamed(Disowned(s, o, y), o)
  {
    assert Good(s, o);
    if s.objects[o].owner.Some? {
      WithoutMembers(s.mutants[s.objects[o].owner.value], o);
    }
    forall y | Freed(s, o, y) ensures Signalled(Disowned(s, o, y), o) && WaitersNamed(Disowned(s, o, y), o) {
      var r := Disowned(s, o, y);
      forall i | 0 <= i < |r.objects| && i != o ensures Good(r, i) {
        assert Good(s, i);
      }
    }
  }

  // ---------- runs ----------

  datatype Op =
    | OpWait(t: nat, o: nat, timeoutZero: bool)
    | OpEndWait(t: nat, o: nat, status: Status)  // timeout, or an APC that interrupts the wait
    | OpReleaseSemaphore(o: nat, adjustment: int)
    | OpReleaseMutant(t: nat, o: nat, abandon: bool)

  ghost predicate Allowed(s: State, op: Op) {
    match op
    case OpWait(t, o, _) => Names(s, t, o) && s.threads[t].Runs?
    case OpEndWait(t, o, status) => Names(s, t, o) && s.threads[t] == Waits(o) && (status.Timeout? || status.KernelApc?)
    case OpReleaseSemaphore(o, adjustment) =>
      o < |s.objects| && s.objects[o].kind.Semaphore? && WaitersNamed(s, o) && MINLONG <= adjustment <= MAXLONG
    case OpReleaseMutant(t, o, _) =>
      && Names(s, t, o) && s.objects[o].kind.Mutant? && WaitersNamed(s, o)
      && (s.objects[o].owner.Some? ==> s.objects[o].owner.value < |s.threads|)
  }

  function Step(s: State, op: Op): State
    requires Allowed(s, op)
  {
    match op
    case OpWait(t, o, timeoutZero) => Wait(s, t, o, timeoutZero).0
    case OpEndWait(t, o, status) => Unwait(s, o, t, status)
    case OpReleaseSemaphore(o, adjustment) => ReleaseSemaphore(s, o, adjustment).0
    case OpReleaseMutant(t, o, abandon) => ReleaseMutant(s, t, o, abandon).0
  }

  ghost predicate IsRun(ss: seq<State>, ops: seq<Op>) {
    && |ss| == |ops| + 1
    && forall i {:trigger ops[i]} :: 0 <= i < |ops| ==> Allowed(ss[i], ops[i]) && ss[i + 1] == Step(ss[i], ops[i])
  }

  predicate IsNew(x: Object) {
    match x.kind
    case Mutant => x == NewMutant(x.owner)
    case Semaphore(limit) => 0 <= x.signal <= limit <= MAXLONG && x == NewSemaphore(x.signal, limit)
  }

  /** Semaphores created within their limit; mutants created free, or owned by a thread and
      linked to its list. */
  ghost predicate Initial(s: State) {
    && |s.threads| == |s.mutants| == |s.wait|
    && (forall t :: 0 <= t < |s.threads| ==> s.threads[t].Runs? && NoDup(s.mutants[t]))
    && (forall t, o :: 0 <= t < |s.mutants| && o in s.mutants[t] ==> o < |s.objects|)
    && (forall o :: 0 <= o < |s.objects| ==>
          IsNew(s.objects[o]) && Linked(s, o) && (s.objects[o].owner.Some? ==> s.objects[o].owner.value < |s.threads|))
  }

  lemma InitialInv(s: State)
    requires Initial(s)
    ensures Inv(s)
  {
    forall o | 0 <= o < |s.objects| ensures Good(s, o) {
      assert IsNew(s.objects[o]) && s.objects[o].waiters == [];
    }
  }

  lemma {:induction false} RunKeepsInv(ss: seq<State>, ops: seq<Op>, i: nat)
    requires IsRun(ss, ops) && Inv(ss[0]) && i < |ss|
    ensures forall j :: 0 <= j <= i ==> Inv(ss[j])
  {
    if i > 0 {
      RunKeepsInv(ss, ops, i - 1);
      var s := ss[i - 1];
      match ops[i - 1] {
        case OpWait(t, o, timeoutZero) => WaitKeepsInv(s, t, o, timeoutZero);
        case OpEndWait(t, o, status) => UnwaitKeepsInv(s, t, o, status);
        case OpReleaseSemaphore(o, adjustment) => ReleaseSemaphoreKeepsInv(s, o);
        case OpReleaseMutant(t, o, abandon) => ReleaseMutantKeepsInv(s, o);
      }
    }
  }

  /** Over every run: each object is exact (see ObjectInv), it is on exactly its owner's mutant
      list, and its wait list holds exactly the threads that wait for it. */
  lemma ObjectsStayExact(ss: seq<State>, ops: seq<Op>, i: nat)
    requires IsRun(ss, ops) && Initial(ss[0]) && i < |ss|
    ensures forall o :: 0 <= o < |ss[i].objects| ==> ObjectInv(ss[i].objects[o]) && Linked(ss[i], o) && Queue(ss[i], o)
  {
    InitialInv(ss[0]);
    RunKeepsInv(ss, ops, i);
    forall o | 0 <= o < |ss[i].objects| ensures ObjectInv(ss[i].objects[o]) && Linked(ss[i], o) && Queue(ss[i], o) {
      assert Good(ss[i], o);
    }
  }

  /** No signal is left over while threads wait: an object with a wait list is not signalled, so
      nobody waits for a free mutant or an available semaphore. */
  lemma NobodyWaitsForASignal(ss: seq<State>, ops: seq<Op>, i: nat, t: nat, o: nat)
    requires IsRun(ss, ops) && Initial(ss[0]) && i < |ss| && Names(ss[i], t, o)
    requires ss[i].threads[t] == Waits(o)
    ensures ss[i].objects[o].signal <= 0
    ensures ss[i].objects[o].kind.Mutant? ==> ss[i].objects[o].owner.Some?
    ensures ss[i].objects[o].kind.Semaphore? ==> ss[i].objects[o].acquired == ss[i].objects[o].released
  {
    ObjectsStayExact(ss, ops, i);
    assert t in ss[i].objects[o].waiters;
  }

  lemma ReleaseSemaphoreWakes(s: State, m: nat, adjustment: int, o: nat) returns (k: nat)
    requires Inv(s) && Allowed(s, OpReleaseSemaphore(m, adjustment)) && o < |s.objects|
    ensures var s' := ReleaseSemaphore(s, m, adjustment).0;
            |s'.objects| == |s.objects| && k <= |s.objects[o].waiters| && (k > 0 ==> m == o)
            && s'.objects[o].waiters == s.objects[o].waiters[k..]
  {
    hide WaitTest;
    assert Good(s, m);
    var x := s.objects[m];
    var r := WithObject(s, m, x.(signal := LongAdd(x.signal, adjustment), released := x.released + adjustment));
    k := 0;
    assert s.objects[o].waiters == s.objects[o].waiters[0..];
    if ReleaseSemaphore(s, m, adjustment).1.Success? && x.signal == 0 {
      WakesAPrefix(r, m);
      if m == o { k := WokenCount(r.objects[m]); }
    }
  }

  lemma ReleaseMutantWakes(s: State, t: nat, m: nat, abandon: bool, o: nat)
    requires Inv(s) && Allowed(s, OpReleaseMutant(t, m, abandon)) && o < |s.objects|
    ensures var s' := ReleaseMutant(s, t, m, abandon).0;
            |s'.objects| == |s.objects| &&
            (s'.objects[o].waiters == s.objects[o].waiters ||
             (o == m && s.objects[o].waiters != [] && s'.objects[o].waiters == s.objects[o].waiters[1..]
              && s'.objects[o].owner == Some(s.objects[o].waiters[0])))
  {
    hide WaitTest, Inv;
    var x := s.objects[m];
    if abandon || x.owner == Some(t) {
      var y := if abandon then x.(signal := 1, abandoned := true, released := x.acquired)
               else x.(signal := LongAdd(x.signal, 1), released := x.released + 1);
      if y.signal == 1 {
        var l := if x.signal <= 0 && x.owner.Some?
                 then s.mutants[x.owner.value := Without(s.mutants[x.owner.value], m)] else s.mutants;
        WakesAPrefix(WithObject(s, m, y.(owner := None)).(mutants := l), m);
      }
    }
  }

  /** Releases wake in FIFO order: the threads that stop waiting are a prefix of the list, and
      the list loses nothing else. */
  lemma ReleaseWakesInOrder(s: State, op: Op, o: nat) returns (k: nat)
    requires Inv(s) && Allowed(s, op) && o < |s.objects|
    requires op.OpReleaseSemaphore? || op.OpReleaseMutant?
    ensures |Step(s, op).objects| == |s.objects| && k <= |s.objects[o].waiters| && (k > 0 ==> op.o == o)
    ensures Step(s, op).objects[o].waiters == s.objects[o].waiters[k..]
  {
    if op.OpReleaseSemaphore? {
      k := ReleaseSemaphoreWakes(s, op.o, op.adjustment, o);
    } else {
      ReleaseMutantWakes(s, op.t, op.o, op.abandon, o);
      k := |s.objects[o].waiters| - |Step(s, op).objects[o].waiters|;
    }
  }

  // ---------- what a wait answers ----------

  /** There is something for thread t to acquire: a unit that has been released and not acquired, or
      a mutant that nobody else owns. */
  predicate Available(x: Object, t: nat) {
    match x.kind
    case Semaphore(_) => x.acquired < x.released
    case Mutant => x.owner == None || x.owner == Some(t)
  }

  predicate AtLimit(x: Object, t: nat) {
    x.kind.Mutant? && x.owner == Some(t) && x.acquired - x.released == 0x8000_0001
  }

  /** The object after thread t has acquired it. */
  function AcquiredBy(x: Object, t: nat): Object {
    x.(signal := x.signal - 1, acquired := x.acquired + 1, owner := if x.kind.Mutant? then Some(t) else None,
       abandoned := false)
  }

  /** From s to s' thread t has waited for o, with this answer: each answer has its one condition,
      and says all that has changed. */
  ghost predicate Answers(s: State, s': State, t: nat, o: nat, timeoutZero: bool, status: Status)
    requires Names(s, t, o)
  {
    var x, r := s.objects[o], s.(wait := s.wait[t := Success]);
    && (status.LimitExceeded? <==> AtLimit(x, t))
    && (status.Timeout? <==> timeoutZero && !Available(x, t))
    && (status.Pending? <==> !timeoutZero && !Available(x, t))
    && (status.Success? || status.Abandoned? <==> Available(x, t) && !AtLimit(x, t))
    && (status.LimitExceeded? || status.Timeout? ==> s' == r)
    && (status.Pending? ==>
          s' == r.(objects := s.objects[o := x.(waiters := x.waiters + [t])], threads := s.threads[t := Waits(o)]))
    && (status.Success? || status.Abandoned? ==>
          s' == s.(objects := s.objects[o := AcquiredBy(x, t)], wait := s.wait[t := status],
                   mutants := if x.kind.Mutant? && x.owner == None then s.mutants[t := s.mutants[t] + [o]] else s.mutants))
  }

  lemma WaitAnswers(s: State, t: nat, o: nat, timeoutZero: bool)
    requires Inv(s) && Names(s, t, o)
    ensures Answers(s, Wait(s, t, o, timeoutZero).0, t, o, timeoutZero, Wait(s, t, o, timeoutZero).1)
  {
    assert Good(s, o);
  }

  /** Over every run: a wait succeeds exactly when it acquires the object, is refused exactly at the
      recursion limit, and otherwise times out at once or queues the thread at the tail. */
  lemma WaitsAnswerExactly(ss: seq<State>, ops: seq<Op>, k: nat)
    requires IsRun(ss, ops) && Initial(ss[0]) && k < |ops| && ops[k].OpWait?
    ensures var t, o := ops[k].t, ops[k].o;
      && Names(ss[k], t, o) && |ss[k + 1].objects| == |ss[k].objects|
      && var status := Wait(ss[k], t, o, ops[k].timeoutZero).1;
         && Answers(ss[k], ss[k + 1], t, o, ops[k].timeoutZero, status)
         && (status.Success? || status.Abandoned? <==> ss[k + 1].objects[o].acquired == ss[k].objects[o].acquired + 1)
  {
    InitialInv(ss[0]);
    RunKeepsInv(ss, ops, k);
    assert Allowed(ss[k], ops[k]) && ss[k + 1] == Step(ss[k], ops[k]);
    WaitAnswers(ss[k], ops[k].t, ops[k].o, ops[k].timeoutZero);
  }

  /** Thread t has stopped waiting for o with this status; nobody else is concerned. */
  ghost predicate StopsWaiting(s: State, s': State, t: nat, o: nat, status: Status)
    requires Names(s, t, o)
  {
    && |s'.objects| == |s.objects|
    && s' == s.(objects := s.objects[o := s.objects[o].(waiters := s'.objects[o].waiters)],
                threads := s.threads[t := Runs], wait := s.wait[t := status])
    && forall u :: u in s'.objects[o].waiters <==> u in s.objects[o].waiters && u != t
  }

  /** Over every run: a wait that a timeout or an APC ends returns that status. */
  lemma EndedWaitsTellWhy(ss: seq<State>, ops: seq<Op>, k: nat)
    requires IsRun(ss, ops) && Initial(ss[0]) && k < |ops| && ops[k].OpEndWait?
    ensures Names(ss[k], ops[k].t, ops[k].o)
    ensures StopsWaiting(ss[k], ss[k + 1], ops[k].t, ops[k].o, ops[k].status)
  {
    InitialInv(ss[0]);
    RunKeepsInv(ss, ops, k);
    var s, t, o := ss[k], ops[k].t, ops[k].o;
    assert Allowed(s, ops[k]) && ss[k + 1] == Step(s, ops[k]);
    assert Good(s, o);
    WithoutMembers(s.objects[o].waiters, t);
  }

  /** What a release does to the threads: those it takes off the wait list run, with STATUS_SUCCESS,
      or STATUS_ABANDONED from a mutant; it leaves all others as they are. */
  ghost predicate TellsWoken(s: State, s': State, o: nat) {
    && o < |s.objects| == |s'.objects| && |s'.threads| == |s.threads| == |s.wait| == |s'.wait|
    && forall u :: 0 <= u < |s.threads| ==>
         if u in s.objects[o].waiters && u !in s'.objects[o].waiters
         then s'.threads[u].Runs? && (s'.wait[u].Success? || (s'.wait[u].Abandoned? && s.objects[o].kind.Mutant?))
         else s'.threads[u] == s.threads[u] && s'.wait[u] == s.wait[u]
  }

  lemma WokenAreTold(s: State, r: State, s': State, o: nat, k: nat)
    requires Inv(s) && o < |s.objects| == |r.objects| && WaitersNamed(r, o) && Woke(r, s', o, k)
    requires r.threads == s.threads && r.wait == s.wait && r.objects[o].waiters == s.objects[o].waiters
    requires r.objects[o].kind == s.objects[o].kind
    ensures TellsWoken(s, s', o)
  {
    var w := s.objects[o].waiters;
    assert Good(s, o);
    PrefixSplits(w, k);
    assert Queue(s, o) && forall u :: u in w[..k] ==> u in w;
    hide Inv, Good;
    if k == 1 { assert w[..k] == [w[0]]; }
  }

  lemma ReleaseTellsWoken(s: State, op: Op)
    requires Inv(s) && Allowed(s, op) && (op.OpReleaseSemaphore? || op.OpReleaseMutant?)
    ensures TellsWoken(s, Step(s, op), op.o)
  {
    hide WaitTest, TellsWoken;
    var x := s.objects[op.o];
    assert Good(s, op.o);
    NoneTold(s, s, op.o);
    if op.OpReleaseSemaphore? {
      var r := WithObject(s, op.o, x.(signal := LongAdd(x.signal, op.adjustment), released := x.released + op.adjustment));
      NoneTold(s, r, op.o);
      WakesAPrefix(r, op.o);
      WokenAreTold(s, r, WaitTest(r, op.o), op.o, WokenCount(r.objects[op.o]));
    } else if op.abandon || x.owner == Some(op.t) {
      var y := if op.abandon then x.(signal := 1, abandoned := true, released := x.acquired)
               else x.(signal := LongAdd(x.signal, 1), released := x.released + 1);
      NoneTold(s, WithObject(s, op.o, y), op.o);
      if y.signal == 1 {
        var l := if x.signal <= 0 && x.owner.Some?
                 then s.mutants[x.owner.value := Without(s.mutants[x.owner.value], op.o)] else s.mutants;
        var r := WithObject(s, op.o, y.(owner := None)).(mutants := l);
        WakesAPrefix(r, op.o);
        WokenAreTold(s, r, WaitTest(r, op.o), op.o, WokenCount(r.objects[op.o]));
      }
    }
  }

  lemma NoneTold(s: State, r: State, o: nat)
    requires Inv(s) && o < |s.objects| == |r.objects|
    requires r.threads == s.threads && r.wait == s.wait && r.objects[o].waiters == s.objects[o].waiters
    ensures TellsWoken(s, r, o)
  {
  }

  // ---------- abandonment ----------

  predicate IsMutant(s: State, o: nat) { o < |s.objects| && s.objects[o].kind.Mutant? }

  /** Between two states somebody who did not own the mutant has acquired it. */
  predicate Acquired(s: State, s': State, o: nat) {
    && IsMutant(s, o) && IsMutant(s', o)
    && s'.objects[o].acquired == s.objects[o].acquired + 1 && s'.objects[o].owner.Some? && s'.objects[o].signal == 0
  }

  predicate Abandons(op: Op, o: nat) { op.OpReleaseMutant? && op.o == o && op.abandon }

  /** The new owner has been told whether the mutant was abandoned. */
  predicate Told(s: State, o: nat, abandoned: bool)
    requires IsMutant(s, o) && s.objects[o].owner.Some?
  {
    var u := s.objects[o].owner.value;
    u < |s.wait| && u < |s.threads| && s.threads[u].Runs? && s.wait[u] == if abandoned then Abandoned else Success
  }

  /** The flag is set by an abandonment and cleared by the next acquisition, which reports it. */
  ghost predicate FlagFollows(s: State, s': State, op: Op, o: nat)
    requires IsMutant(s, o)
  {
    var due := s.objects[o].abandoned || Abandons(op, o);
    && IsMutant(s', o)
    && (s'.objects[o].abandoned <==> due && !Acquired(s, s', o))
    && (Acquired(s, s', o) ==> Told(s', o, due))
  }

  /** Whatever the operation, of every mutant. */
  ghost predicate FlagsFollow(s: State, s': State, op: Op) {
    forall o :: IsMutant(s, o) ==> FlagFollows(s, s', op, o)
  }

  lemma WaitTells(s: State, op: Op)
    requires Inv(s) && Allowed(s, op) && op.OpWait?
    ensures FlagsFollow(s, Step(s, op), op)
  {
    forall o | IsMutant(s, o) ensures FlagFollows(s, Step(s, op), op, o) {
      assert Good(s, o);
    }
  }

  lemma SemaphoreTellsNothing(s: State, op: Op)
    requires Inv(s) && Allowed(s, op) && op.OpReleaseSemaphore?
    ensures FlagsFollow(s, Step(s, op), op)
  {
    hide WaitTest;
    var x := s.objects[op.o];
    var y := x.(signal := LongAdd(x.signal, op.adjustment), released := x.released + op.adjustment);
    WakesAPrefix(WithObject(s, op.o, y), op.o);
  }

  lemma ReleaseTells(s: State, op: Op)
    requires Inv(s) && Allowed(s, op) && op.OpReleaseMutant?
    ensures FlagsFollow(s, Step(s, op), op)
  {
    hide WaitTest;
    assert Good(s, op.o);
    var x := s.objects[op.o];
    if op.abandon || x.owner == Some(op.t) {
      var y := if op.abandon then x.(signal := 1, abandoned := true, released := x.acquired)
               else x.(signal := LongAdd(x.signal, 1), released := x.released + 1);
      if y.signal == 1 {
        var l := if x.signal <= 0 && x.owner.Some?
                 then s.mutants[x.owner.value := Without(s.mutants[x.owner.value], op.o)] else s.mutants;
        WakesAPrefix(WithObject(s, op.o, y.(owner := None)).(mutants := l), op.o);
      }
    }
  }

  lemma StepTells(s: State, op: Op)
    requires Inv(s) && Allowed(s, op)
    ensures FlagsFollow(s, Step(s, op), op)
  {
    hide FlagFollows;
    match op
    case OpWait(_, _, _) => WaitTells(s, op);
    case OpEndWait(_, _, _) => EndTellsNothing(s, op);
    case OpReleaseSemaphore(_, _) => SemaphoreTellsNothing(s, op);
    case OpReleaseMutant(_, _, _) => ReleaseTells(s, op);
  }

  lemma EndTellsNothing(s: State, op: Op)
    requires Inv(s) && Allowed(s, op) && op.OpEndWait?
    ensures FlagsFollow(s, Step(s, op), op)
  {
  }

  /** The i-th operation abandons o, and nobody acquires it from then on up to the k-th state. */
  ghost predicate Unreported(ss: seq<State>, ops: seq<Op>, o: nat, i: nat, k: nat)
    requires |ss| == |ops| + 1 && k < |ss|
  {
    i < k && Abandons(ops[i], o) && forall j :: i <= j < k ==> !Acquired(ss[j], ss[j + 1], o)
  }

  ghost predicate FlagIs(ss: seq<State>, ops: seq<Op>, o: nat, k: nat)
    requires |ss| == |ops| + 1 && k < |ss|
  {
    IsMutant(ss[k], o) && (ss[k].objects[o].abandoned <==> exists i: nat :: Unreported(ss, ops, o, i, k))
  }

  lemma {:induction false} FlagIsUnreported(ss: seq<State>, ops: seq<Op>, k: nat)
    requires IsRun(ss, ops) && Initial(ss[0]) && k < |ss|
    ensures forall o: nat :: IsMutant(ss[0], o) ==> FlagIs(ss, ops, o, k)
  {
    hide Step, Acquired;
    if k == 0 {
      forall o: nat | IsMutant(ss[0], o) ensures FlagIs(ss, ops, o, k) {
        assert IsNew(ss[0].objects[o]);
      }
    } else {
      FlagIsUnreported(ss, ops, k - 1);
      forall o: nat | IsMutant(ss[0], o) ensures FlagIs(ss, ops, o, k) {
        assert FlagIs(ss, ops, o, k - 1);
        assert FlagFollows(ss[k - 1], ss[k], ops[k - 1], o) by {
          InitialInv(ss[0]);
          RunKeepsInv(ss, ops, k - 1);
          StepTells(ss[k - 1], ops[k - 1]);
        }
        FlagIsNext(ss, ops, o, k);
      }
    }
  }

  lemma FlagIsNext(ss: seq<State>, ops: seq<Op>, o: nat, k: nat)
    requires |ss| == |ops| + 1 && 0 < k < |ss|
    requires FlagIs(ss, ops, o, k - 1) && FlagFollows(ss[k - 1], ss[k], ops[k - 1], o)
    ensures FlagIs(ss, ops, o, k)
  {
    hide Acquired;
    if ss[k].objects[o].abandoned {
      var i: nat := k - 1;
      if !Abandons(ops[k - 1], o) { i :| Unreported(ss, ops, o, i, k - 1); }
      assert Unreported(ss, ops, o, i, k);
    }
    forall i: nat | Unreported(ss, ops, o, i, k) ensures ss[k].objects[o].abandoned {
      assert !Acquired(ss[k - 1], ss[k], o);
      if i < k - 1 { assert Unreported(ss, ops, o, i, k - 1); }
    }
  }

  /** Over every run: whoever acquires a mutant is told STATUS_ABANDONED exactly when it has been
      abandoned and nobody has acquired it since, and STATUS_SUCCESS otherwise. So an abandonment
      is reported to the first acquirer after it and to nobody else. A wait that ends at once
      returns that status. */
  lemma AbandonmentIsReportedOnce(ss: seq<State>, ops: seq<Op>, o: nat, k: nat)
    requires IsRun(ss, ops) && Initial(ss[0]) && k < |ops| && IsMutant(ss[0], o) && Acquired(ss[k], ss[k + 1], o)
    ensures var u := ss[k + 1].objects[o].owner.value;
            && u < |ss[k + 1].wait|
            && ss[k + 1].wait[u] == if Abandons(ops[k], o) || exists i: nat :: Unreported(ss, ops, o, i, k)
                                    then Abandoned else Success
    ensures ops[k].OpWait? ==>
              Allowed(ss[k], ops[k])
              && ss[k + 1].objects[o].owner == Some(ops[k].t) && |ss[k + 1].wait| == |ss[k].wait|
              && Wait(ss[k], ops[k].t, o, ops[k].timeoutZero).1 == ss[k + 1].wait[ops[k].t]
  {
    FlagIsUnreported(ss, ops, k);
    assert FlagIs(ss, ops, o, k);
    InitialInv(ss[0]);
    RunKeepsInv(ss, ops, k);
    StepTells(ss[k], ops[k]);
    assert FlagFollows(ss[k], ss[k + 1], ops[k], o);
    var s, op := ss[k], ops[k];
    assert Allowed(s, op) && ss[k + 1] == Step(s, op);
    if op.OpWait? {
      assert op.o == o;
      assert Good(s, o);
    }
  }

  /** Releasing more than the limit allows is refused, also when the 32-bit sum wraps, and
      changes nothing; otherwise the whole adjustment is credited. */
  lemma SemaphoreLimitIsExact(s: State, o: nat, adjustment: int)
    requires Inv(s) && Allowed(s, OpReleaseSemaphore(o, adjustment))
    ensures ReleaseSemaphore(s, o, adjustment).1.LimitExceeded? <==>
              adjustment < 0 || s.objects[o].signal + adjustment > s.objects[o].kind.limit
    ensures ReleaseSemaphore(s, o, adjustment).1.LimitExceeded? ==> ReleaseSemaphore(s, o, adjustment).0 == s
    ensures !ReleaseSemaphore(s, o, adjustment).1.LimitExceeded? ==>
              |ReleaseSemaphore(s, o, adjustment).0.objects| == |s.objects| &&
              ReleaseSemaphore(s, o, adjustment).0.objects[o].released == s.objects[o].released + adjustment
  {
    hide WaitTest;
    assert Good(s, o);
    var x := s.objects[o];
    var r := WithObject(s, o, x.(signal := LongAdd(x.signal, adjustment), released := x.released + adjustment));
    WakesAPrefix(r, o);
  }

  /** A timeout or an APC ends the wait of u for o. */
  predicate Leaves(op: Op, u: nat, o: nat) { op.OpEndWait? && op.t == u && op.o == o }

  /** One step keeps t ahead of u if t still waits after it and u's wait has not been ended by
      a timeout or an APC. */
  lemma StepKeepsOrder(s: State, op: Op, o: nat, t: nat, u: nat)
    requires Inv(s) && Allowed(s, op) && o < |s.objects| == |Step(s, op).objects|
    requires Before(s.objects[o].waiters, t, u) && t in Step(s, op).objects[o].waiters && !Leaves(op, u, o)
    ensures Before(Step(s, op).objects[o].waiters, t, u)
  {
    var l, r := s.objects[o].waiters, Step(s, op).objects[o].waiters;
    assert Good(s, o);
    var i, j :| 0 <= i < j < |l| && l[i] == t && l[j] == u;
    match op
    case OpWait(_, _, _) => assert r[..|l|] == l && r[i] == t && r[j] == u;
    case OpEndWait(x, p, _) =>
      if p == o {
        WithoutMembers(l, x);
        WithoutKeepsBefore(l, x, t, u);
      }
    case OpReleaseSemaphore(_, _) => DropKeepsOrder(s, op, o, t, u);
    case OpReleaseMutant(_, _, _) => DropKeepsOrder(s, op, o, t, u);
  }

  lemma DropKeepsOrder(s: State, op: Op, o: nat, t: nat, u: nat)
    requires Inv(s) && Allowed(s, op) && o < |s.objects| == |Step(s, op).objects|
    requires op.OpReleaseSemaphore? || op.OpReleaseMutant?
    requires Before(s.objects[o].waiters, t, u) && t in Step(s, op).objects[o].waiters
    ensures Before(Step(s, op).objects[o].waiters, t, u)
  {
    var l := s.objects[o].waiters;
    assert NoDup(l) by { assert Good(s, o); }
    hide Inv, Step, Allowed;
    var k := ReleaseWakesInOrder(s, op, o);
    DroppingKeepsBefore(l, k, t, u);
  }

  lemma DroppingKeepsBefore(l: seq<nat>, k: nat, t: nat, u: nat)
    requires NoDup(l) && Before(l, t, u) && k <= |l| && t in l[k..]
    ensures Before(l[k..], t, u)
  {
    var r := l[k..];
    var i, j :| 0 <= i < j < |l| && l[i] == t && l[j] == u;
    var a :| 0 <= a < |r| && r[a] == t;
    assert l[k + a] == t;
    assert i == k + a && r[j - k] == u;
  }

  /** First come, first served, over every run: while t waits ahead of u, u goes on waiting
      behind it, whatever is released, unless a timeout or an APC ends u's wait. */
  lemma {:induction false} FirstComeFirstServed(ss: seq<State>, ops: seq<Op>, i: nat, k: nat, o: nat, t: nat, u: nat)
    requires IsRun(ss, ops) && Initial(ss[0]) && i <= k < |ss|
    requires forall j :: i <= j <= k ==> o < |ss[j].objects| && t in ss[j].objects[o].waiters
    requires forall j {:trigger ops[j]} :: i <= j < k ==> !Leaves(ops[j], u, o)
    requires Before(ss[i].objects[o].waiters, t, u)
    ensures Before(ss[k].objects[o].waiters, t, u)
  {
    if i < k {
      FirstComeFirstServed(ss, ops, i, k - 1, o, t, u);
      assert Inv(ss[k - 1]) by {
        InitialInv(ss[0]);
        RunKeepsInv(ss, ops, k - 1);
      }
      assert Allowed(ss[k - 1], ops[k - 1]) && ss[k] == Step(ss[k - 1], ops[k - 1]);
      ObjectsStay(ss[k - 1], ops[k - 1]);
      StepKeepsOrder(ss[k - 1], ops[k - 1], o, t, u);
    }
  }

  lemma ObjectsStay(s: State, op: Op)
    requires Inv(s) && Allowed(s, op)
    ensures |Step(s, op).objects| == |s.objects|
  {
    if op.OpReleaseSemaphore? || op.OpReleaseMutant? {
      var k := ReleaseWakesInOrder(s, op, op.o);
    }
  }

  /** An owner that waits again is refused exactly when it has acquired the mutant 2^31 + 1
      times more than it released it, and then nothing changes but its own WaitStatus. */
  lemma RecursionLimitIsExact(s: State, t: nat, o: nat, timeoutZero: bool)
    requires Inv(s) && Names(s, t, o) && s.objects[o].kind.Mutant? && s.objects[o].owner == Some(t)
    ensures Wait(s, t, o, timeoutZero).1.LimitExceeded? <==>
              s.objects[o].acquired - s.objects[o].released == 0x8000_0001
    ensures Wait(s, t, o, timeoutZero).1.LimitExceeded? ==>
              Wait(s, t, o, timeoutZero).0 == s.(wait := s.wait[t := Success])
    ensures !Wait(s, t, o, timeoutZero).1.LimitExceeded? ==>
              |Wait(s, t, o, timeoutZero).0.objects| == |s.objects| &&
              Wait(s, t, o, timeoutZero).0.objects[o].owner == Some(t) &&
              Wait(s, t, o, timeoutZero).0.objects[o].acquired == s.objects[o].acquired + 1
  {
    assert Good(s, o);
  }

  /** A release of a mutant is refused exactly when it is no abandonment and the caller is not the
      owner, and then changes nothing. It frees the mutant if it is an abandonment or the last of
      as many releases as acquisitions; the first waiter gets it, or nobody. Otherwise the owner has
      one acquisition fewer to release. */
  lemma ReleaseMutantIsExact(s: State, t: nat, o: nat, abandon: bool)
    requires Inv(s) && Allowed(s, OpReleaseMutant(t, o, abandon))
    ensures var (s', status) := ReleaseMutant(s, t, o, abandon);
      var x := s.objects[o];
      && |s'.objects| == |s.objects|
      && (status.NotOwned? <==> !abandon && x.owner != Some(t))
      && (status.NotOwned? ==> s' == s)
      && (!status.NotOwned? ==> status.Success?)
      && (!status.NotOwned? && (abandon || x.acquired - x.released == 1) ==>
            && s'.objects[o].owner == (if x.waiters == [] then None else Some(x.waiters[0]))
            && s'.objects[o].waiters == (if x.waiters == [] then [] else x.waiters[1..])
            && s'.objects[o].acquired - s'.objects[o].released == (if x.waiters == [] then 0 else 1)
            && s'.objects[o].abandoned == ((abandon || x.abandoned) && x.waiters == []))
      && (!status.NotOwned? && !abandon && x.acquired - x.released > 1 ==>
            s' == s.(objects := s.objects[o := x.(signal := x.signal + 1, released := x.released + 1)]))
  {
    hide WaitTest;
    assert Good(s, o);
    var x := s.objects[o];
    if abandon || x.owner == Some(t) {
      var y := if abandon then x.(signal := 1, abandoned := true, released := x.acquired)
               else x.(signal := LongAdd(x.signal, 1), released := x.released + 1);
      if y.signal == 1 {
        var l := if x.signal <= 0 && x.owner.Some?
                 then s.mutants[x.owner.value := Without(s.mutants[x.owner.value], o)] else s.mutants;
        WakesAPrefix(WithObject(s, o, y.(owner := None)).(mutants := l), o);
      }
    }
  }

  /** Releasing as often as it acquired, the owner gives the mutant away to the first waiter, or
      frees it. */
  lemma LastReleaseHandsOver(s: State, t: nat, o: nat)
    requires Inv(s) && Allowed(s, OpReleaseMutant(t, o, false)) && s.objects[o].owner == Some(t)
    ensures var s', x := ReleaseMutant(s, t, o, false).0, s.objects[o];
            |s'.objects| == |s.objects| &&
            (x.acquired - x.released > 1 ==> s'.objects[o].owner == Some(t)) &&
            (x.acquired - x.released == 1 ==>
               s'.objects[o].owner == if x.waiters == [] then None else Some(x.waiters[0]))
  {
    hide WaitTest;
    assert Good(s, o);
    var x := s.objects[o];
    if x.signal == 0 {
      var y := x.(signal := 1, released := x.released + 1, owner := None);
      WakesAPrefix(WithObject(s, o, y).(mutants := s.mutants[t := Without(s.mutants[t], o)]), o);
    }
  }
}

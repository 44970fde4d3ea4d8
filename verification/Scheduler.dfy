/** Scheduling decisions, nboxkrnl/ke/thread.cpp. */
module Scheduler {
  // Modelled: KiScheduleThread, KiFindAndRemoveHighestPriorityThread, KiSetPriorityThread,
  // KiQuantumEnd, KeBoostPriorityThread, the last part of KiUnwaitThread in nboxkrnl/ke/wait.cpp,
  // and KiAddThreadToReadyList in nboxkrnl/ki/ki.hpp. All of it runs at DISPATCH_LEVEL or above,
  // so each operation is one step. Two steps move the processor: the dispatch interrupt switches
  // to the selected thread, and a wait gives the processor up.

  import opened Seqs
  import opened Wrappers

  const LEVELS := 32
  const HIGH_PRIORITY := 31
  const LOW_REALTIME_PRIORITY := 16
  const TIME_CRITICAL_BASE_PRIORITY := 14
  const WAIT_QUANTUM_DECREMENT := 9

  datatype ThreadState = Initialized | Ready | Standby | Running | Waiting | Terminated

  /** `decrement` is PriorityDecrement, `fullQuantum` the ThreadQuantum of the process. */
  datatype Thread = Thread(state: ThreadState, priority: int, base: int, quantum: int, fullQuantum: int, decrement: int)

  /** `mask` has one bit for each ready list; `next` is NextThread. */
  datatype State = State(threads: seq<Thread>, ready: seq<seq<nat>>, mask: seq<bool>, next: Option<nat>, current: nat)

  predicate Level(p: int) { 0 <= p <= HIGH_PRIORITY }

  /** Enough for the operations to be defined. */
  predicate Shape(s: State) {
    && |s.ready| == |s.mask| == LEVELS
    && s.current < |s.threads| && (s.next.Some? ==> s.next.value < |s.threads|)
    && (forall t :: 0 <= t < |s.threads| ==> Level(s.threads[t].priority) && Level(s.threads[t].base))
    && (forall p :: 0 <= p < LEVELS ==> s.mask[p] == (s.ready[p] != []))
    && (forall p, t :: 0 <= p < LEVELS && t in s.ready[p] ==> t < |s.threads|)
  }

  // ---------- specification of the operations ----------

  function WithState(s: State, t: nat, state: ThreadState): State
    requires t < |s.threads|
  {
    s.(threads := s.threads[t := s.threads[t].(state := state)])
  }

  function WithPriority(s: State, t: nat, p: int): State
    requires t < |s.threads|
  {
    s.(threads := s.threads[t := s.threads[t].(priority := p)])
  }

  function WithQuantum(s: State, t: nat, q: int): State
    requires t < |s.threads|
  {
    s.(threads := s.threads[t := s.threads[t].(quantum := q)])
  }

  function AddReady(s: State, t: nat, tail: bool): State
    requires Shape(s) && t < |s.threads|
  {
    var p := s.threads[t].priority;
    WithState(s, t, Ready).(ready := s.ready[p := if tail then s.ready[p] + [t] else [t] + s.ready[p]],
                            mask := s.mask[p := true])
  }

  function Select(s: State, t: nat): State
    requires t < |s.threads|
  {
    WithState(s, t, Standby).(next := Some(t))
  }

  function Schedule(s: State, t: nat): State
    requires Shape(s) && t < |s.threads|
  {
    if s.next.Some? then
      if s.threads[t].priority > s.threads[s.next.value].priority
      then Select(AddReady(s, s.next.value, false), t) else AddReady(s, t, true)
    else if s.threads[t].priority > s.threads[s.current].priority then Select(s, t)
    else AddReady(s, t, true)
  }

  /** BitScanReverse: the highest bit that is set, -1 if none is. */
  function HighestBit(mask: seq<bool>): (p: int)
    ensures -1 <= p < |mask|
    ensures p >= 0 ==> mask[p]
    ensures forall q :: p < q < |mask| ==> !mask[q]
  {
    if mask == [] then -1 else if mask[|mask| - 1] then |mask| - 1 else HighestBit(mask[..|mask| - 1])
  }

  function FindHighest(s: State, low: int): (State, Option<nat>)
    requires Shape(s)
  {
    var p := HighestBit(s.mask);
    if p < 0 || p < low then (s, None)
    else
      var rest := s.ready[p][1..];
      (s.(ready := s.ready[p := rest], mask := s.mask[p := rest != []]), Some(s.ready[p][0]))
  }

  lemma TakenFromHighest(s: State, low: int)
    requires Shape(s) && FindHighest(s, low).1.Some?
    ensures FindHighest(s, low).1.value < |s.threads| && Shape(FindHighest(s, low).0)
  {
    var l := s.ready[HighestBit(s.mask)];
    assert l[0] in l && forall t :: t in l[1..] ==> t in l;
  }

  /** Selects the best ready thread of at least this priority, if there is one. */
  function SelectBest(s: State, low: int): (best: State)
    requires Shape(s)
    ensures Shape(best)
  {
    var (r, found) := FindHighest(s, low);
    if found.Some? then
      TakenFromHighest(s, low);
      Select(r, found.value)
    else r
  }

  /** RemoveEntryList on a ready thread, and the mask after it. */
  function Unready(s: State, t: nat, p: int): State
    requires Shape(s) && Level(p)
  {
    var rest := Without(s.ready[p], t);
    s.(ready := s.ready[p := rest], mask := s.mask[p := s.mask[p] && rest != []])
  }

  function SetPriority(s: State, t: nat, p: int): State
    requires Shape(s) && t < |s.threads| && Level(p)
  {
    var was := s.threads[t].priority;
    if was == p then s
    else
      var r := WithPriority(s, t, p);
      match s.threads[t].state
      case Ready =>
        UnreadyShape(r, t, was);
        if p < was then AddReady(Unready(r, t, was), t, true) else Schedule(Unready(r, t, was), t)
      case Standby =>
        if p < was && FindHighest(r, p).1.Some? then
          Schedule(SelectBest(r, p), t)
        else r
      case Running => if p < was && s.next.None? then SelectBest(r, p) else r
      case _ => r
  }

  function QuantumEnd(s: State): State
    requires Shape(s)
  {
    var th := s.threads[s.current];
    if th.quantum > 0 then s
    else
      var r := WithQuantum(s, s.current, th.fullQuantum);
      var p := if th.priority < LOW_REALTIME_PRIORITY && th.priority - 1 >= th.base then th.priority - 1 else th.priority;
      if p != th.priority then SetPriority(r, s.current, p)
      else if s.next.None? then SelectBest(r, p) else r
  }

  /** Only the dynamic range is boosted, only upwards, and not twice. */
  predicate Boosts(th: Thread, increment: int) {
    th.priority < LOW_REALTIME_PRIORITY && th.decrement == 0 && th.base + increment > th.priority
  }

  function Boost(s: State, t: nat, increment: int): State
    requires Shape(s) && t < |s.threads|
  {
    var th := s.threads[t];
    if Boosts(th, increment) then
      SetPriority(WithQuantum(s, t, th.fullQuantum), t, Clamped(th.base + increment))
    else s
  }

  /** A boost never reaches the real-time range. */
  function Clamped(p: int): int { if p >= LOW_REALTIME_PRIORITY then LOW_REALTIME_PRIORITY - 1 else p }

  /** The thread as KiUnwaitThread leaves it. */
  function Awake(th: Thread, increment: int): Thread {
    if th.priority >= LOW_REALTIME_PRIORITY then th.(quantum := th.fullQuantum)
    else
      var up := if th.base + increment > th.priority then th.(priority := Clamped(th.base + increment)) else th;
      if up.base >= TIME_CRITICAL_BASE_PRIORITY then up.(quantum := up.fullQuantum)
      else
        var q := up.quantum - WAIT_QUANTUM_DECREMENT;
        if q > 0 then up.(quantum := q)
        else up.(quantum := up.fullQuantum, priority := if up.priority - 1 < up.base then up.base else up.priority - 1)
  }

  function Unwait(s: State, t: nat, increment: int): State
    requires Shape(s) && t < |s.threads|
  {
    Schedule(s.(threads := s.threads[t := Awake(s.threads[t], increment)]), t)
  }

  /** The dispatch interrupt: the selected thread runs, and the old one becomes ready. */
  function Dispatch(s: State, tail: bool): State
    requires Shape(s) && s.next.Some?
  {
    AddReady(WithState(s, s.next.value, Running).(next := None, current := s.next.value), s.current, tail)
  }

  /** The current thread starts to wait; the selected thread runs, or else the best ready one. */
  function Block(s: State): State
    requires Shape(s) && (s.next.Some? || FindHighest(s, 0).1.Some?)
  {
    var w := WithState(s, s.current, Waiting);
    if s.next.Some? then WithState(w, s.next.value, Running).(next := None, current := s.next.value)
    else
      TakenFromHighest(w, 0);
      var r := SelectBest(w, 0);
      WithState(r, r.next.value, Running).(next := None, current := r.next.value)
  }

  lemma UnreadyShape(s: State, t: nat, p: int)
    requires Shape(s) && Level(p)
    ensures Shape(Unready(s, t, p))
  {
    WithoutKeeps(s.ready[p], t);
  }

  // ---------- the operations in the form of the source ----------

  class Prcb {
    var Threads: seq<Thread>
    var KiReadyThreadLists: seq<seq<nat>>
    var KiReadyThreadMask: seq<bool>
    var NextThread: Option<nat>
    var CurrentThread: nat

    ghost function View(): State
      reads this
    {
      State(Threads, KiReadyThreadLists, KiReadyThreadMask, NextThread, CurrentThread)
    }

    constructor (s: State)
      ensures View() == s
    {
      Threads, KiReadyThreadLists, KiReadyThreadMask := s.threads, s.ready, s.mask;
      NextThread, CurrentThread := s.next, s.current;
    }

    method KiAddThreadToReadyList(t: nat, addToTail: bool)
      requires Shape(View()) && t < |Threads|
      modifies this
      ensures View() == AddReady(old(View()), t, addToTail)
    {
      Threads := Threads[t := Threads[t].(state := Ready)];
      var p := Threads[t].priority;
      if addToTail {
        KiReadyThreadLists := KiReadyThreadLists[p := KiReadyThreadLists[p] + [t]];
      } else {
        KiReadyThreadLists := KiReadyThreadLists[p := [t] + KiReadyThreadLists[p]];
      }
      KiReadyThreadMask := KiReadyThreadMask[p := true];
    }

    method SelectThread(t: nat)
      requires t < |Threads|
      modifies this
      ensures View() == Select(old(View()), t)
    {
      Threads := Threads[t := Threads[t].(state := Standby)];
      NextThread := Some(t);
    }

    method KiScheduleThread(t: nat)
      requires Shape(View()) && t < |Threads|
      modifies this
      ensures View() == Schedule(old(View()), t)
    {
      if NextThread.Some? {
        if Threads[t].priority > Threads[NextThread.value].priority {
          KiAddThreadToReadyList(NextThread.value, false);
          SelectThread(t);
          return;
        }
      } else {
        if Threads[t].priority > Threads[CurrentThread].priority {
          SelectThread(t);
          return;
        }
      }
      KiAddThreadToReadyList(t, true);
    }

    method KiFindAndRemoveHighestPriorityThread(low: int) returns (thread: Option<nat>)
      requires Shape(View())
      modifies this
      ensures (View(), thread) == FindHighest(old(View()), low)
    {
      var highest := HighestBit(KiReadyThreadMask);
      assert highest >= 0 ==> KiReadyThreadMask[highest := true] == KiReadyThreadMask;
      if highest < 0 {
        return None;
      }
      if highest < low {
        return None;
      }
      thread := Some(KiReadyThreadLists[highest][0]);
      KiReadyThreadLists := KiReadyThreadLists[highest := KiReadyThreadLists[highest][1..]];
      if KiReadyThreadLists[highest] == [] {
        KiReadyThreadMask := KiReadyThreadMask[highest := false];
      }
    }

    /** The three places that look for another thread to run. */
    method FindNext(low: int) returns (found: bool)
      requires Shape(View())
      modifies this
      ensures View() == SelectBest(old(View()), low) && found == FindHighest(old(View()), low).1.Some?
    {
      ghost var before := View();
      var thread := KiFindAndRemoveHighestPriorityThread(low);
      if thread.Some? { TakenFromHighest(before, low); }
      found := thread.Some?;
      if found {
        SelectThread(thread.value);
      }
    }

    method KiSetPriorityThread(t: nat, newPriority: int)
      requires Shape(View()) && t < |Threads| && Level(newPriority)
      modifies this
      ensures View() == SetPriority(old(View()), t, newPriority)
    {
      var oldPriority := Threads[t].priority;
      if oldPriority == newPriority { return; }
      Threads := Threads[t := Threads[t].(priority := newPriority)];
      ghost var r := View();
      assert r == WithPriority(old(View()), t, newPriority) && Shape(r);
      match Threads[t].state {
        case Ready =>
          ghost var u := Unready(r, t, oldPriority);
          UnreadyShape(r, t, oldPriority);
          KiReadyThreadLists := KiReadyThreadLists[oldPriority := Without(KiReadyThreadLists[oldPriority], t)];
          if KiReadyThreadLists[oldPriority] == [] {
            KiReadyThreadMask := KiReadyThreadMask[oldPriority := false];
          }
          assert View() == u;
          hide Schedule, AddReady, Unready, Shape;
          if newPriority < oldPriority {
            KiAddThreadToReadyList(t, true);
          } else {
            KiScheduleThread(t);
          }
        case Standby =>
          if newPriority < oldPriority {
            var found := FindNext(newPriority);
            if found {
              KiScheduleThread(t);
            }
          }
        case Running =>
          if NextThread.None? {
            if newPriority < oldPriority {
              var _ := FindNext(newPriority);
            }
          }
        case _ =>
      }
    }

    method KiQuantumEnd()
      requires Shape(View())
      modifies this
      ensures View() == QuantumEnd(old(View()))
    {
      var thread := Threads[CurrentThread];
      if thread.quantum <= 0 {
        Threads := Threads[CurrentThread := thread.(quantum := thread.fullQuantum)];
        var priority := thread.priority;
        var newPriority := priority;
        if priority < LOW_REALTIME_PRIORITY {
          newPriority := priority - 1;
          if newPriority < thread.base {
            newPriority := priority;
          }
        }
        if priority != newPriority {
          KiSetPriorityThread(CurrentThread, newPriority);
        } else {
          if NextThread.None? {
            var _ := FindNext(priority);
          }
        }
      }
    }

    method KeBoostPriorityThread(t: nat, increment: int)
      requires Shape(View()) && t < |Threads|
      modifies this
      ensures View() == Boost(old(View()), t, increment)
    {
      hide SetPriority;
      var thread := Threads[t];
      if thread.priority < LOW_REALTIME_PRIORITY && thread.decrement == 0 {
        var priority := thread.base + increment;
        if priority > thread.priority {
          if priority >= LOW_REALTIME_PRIORITY {
            priority := LOW_REALTIME_PRIORITY - 1;
          }
          Threads := Threads[t := thread.(quantum := thread.fullQuantum)];
          KiSetPriorityThread(t, priority);
        }
      }
    }

    /** KiUnwaitThread once the thread is off every wait list. */
    method KiUnwaitThread(t: nat, increment: int)
      requires Shape(View()) && t < |Threads|
      modifies this
      ensures View() == Unwait(old(View()), t, increment)
    {
      hide Schedule, FindHighest;
      var thread := Threads[t];
      if thread.priority < LOW_REALTIME_PRIORITY {
        var newPriority := thread.base + increment;
        if newPriority > thread.priority {
          if newPriority >= LOW_REALTIME_PRIORITY {
            thread := thread.(priority := LOW_REALTIME_PRIORITY - 1);
          } else {
            thread := thread.(priority := newPriority);
          }
        }
        if thread.base >= TIME_CRITICAL_BASE_PRIORITY {
          thread := thread.(quantum := thread.fullQuantum);
        } else {
          thread := thread.(quantum := thread.quantum - WAIT_QUANTUM_DECREMENT);
          if thread.quantum <= 0 {
            thread := thread.(quantum := thread.fullQuantum, priority := thread.priority - 1);
            if thread.priority < thread.base {
              thread := thread.(priority := thread.base);
            }
          }
        }
      } else {
        thread := thread.(quantum := thread.fullQuantum);
      }
      Threads := Threads[t := thread];
      KiScheduleThread(t);
    }
  }

  // ---------- invariants ----------

  /** What the state of a thread means for the lists and the processor. */
  ghost predicate Placed(s: State, t: nat)
    requires t < |s.threads|
  {
    var th := s.threads[t];
    && (th.state.Ready? ==> 0 <= th.priority < |s.ready| && t in s.ready[th.priority])
    && (th.state.Standby? ==> s.next == Some(t))
    && (th.state.Running? ==> s.current == t)
  }

  /** Each list holds each of its threads once, and they are ready at its priority. */
  ghost predicate Listed(s: State, x: int)
    requires Shape(s)
  {
    && (forall p :: 0 <= p < LEVELS ==> NoDup(s.ready[p]))
    && (forall p, t :: 0 <= p < LEVELS && t in s.ready[p] ==>
          t != x && s.threads[t].state.Ready? && s.threads[t].priority == p)
  }

  /** All threads but x (-1: all) are where their state says, x is nowhere, and each ready list
      holds only ready threads of its priority, each once. */
  ghost predicate Good(s: State, x: int) {
    && Shape(s)
    && (forall t :: 0 <= t < |s.threads| && t != x ==> Placed(s, t))
    && Listed(s, x)
    && (s.next.Some? ==> s.next.value != x && s.threads[s.next.value].state.Standby?)
    && s.current != x && s.threads[s.current].state.Running?
  }

  ghost predicate Inv(s: State) { Good(s, -1) }

  /** The priority that ready threads must not exceed. */
  function Top(s: State): int
    requires Shape(s)
  {
    if s.next.Some? then s.threads[s.next.value].priority else s.threads[s.current].priority
  }

  ghost predicate OrderedBut(s: State, x: int)
    requires Shape(s)
  {
    forall t :: 0 <= t < |s.threads| && t != x && s.threads[t].state.Ready? ==> s.threads[t].priority <= Top(s)
  }

  /** No ready thread outranks the selected thread, or the running one when none is selected. */
  ghost predicate Ordered(s: State)
    requires Shape(s)
  {
    OrderedBut(s, -1)
  }

  // ---------- scheduling keeps the invariants ----------

  lemma AddsOne(l: seq<nat>, t: nat, tail: bool)
    requires NoDup(l) && t !in l
    ensures var m := if tail then l + [t] else [t] + l;
            NoDup(m) && forall u :: u in m <==> u in l || u == t
  {
  }

  lemma AddReadyShape(s: State, t: nat, tail: bool)
    requires Shape(s) && t < |s.threads|
    ensures Shape(AddReady(s, t, tail))
  {
  }

  lemma AddReadyPlaced(s: State, t: nat, tail: bool)
    requires Good(s, t) && t < |s.threads|
    ensures forall u :: 0 <= u < |s.threads| ==> Placed(AddReady(s, t, tail), u)
  {
    var s' := AddReady(s, t, tail);
    forall u | 0 <= u < |s'.threads| ensures Placed(s', u) {
      if u != t { assert Placed(s, u); }
    }
  }

  lemma AddReadyLists(s: State, t: nat, tail: bool)
    requires Good(s, t) && t < |s.threads|
    ensures Listed(AddReady(s, t, tail), -1)
  {
    var p := s.threads[t].priority;
    AddsOne(s.ready[p], t, tail);
    hide NoDup, Placed;
  }

  lemma AddReadyGood(s: State, t: nat, tail: bool)
    requires Good(s, t) && t < |s.threads|
    ensures Inv(AddReady(s, t, tail))
    ensures OrderedBut(s, t) && s.threads[t].priority <= Top(s) ==> Ordered(AddReady(s, t, tail))
  {
    AddReadyShape(s, t, tail);
    AddReadyPlaced(s, t, tail);
    AddReadyLists(s, t, tail);
    hide Shape, Placed, Listed;
  }

  lemma PreemptStandby(s: State, t: nat)
    requires Good(s, t) && t < |s.threads| && s.next.Some? && s.threads[t].priority > Top(s)
    ensures Inv(Schedule(s, t)) && (OrderedBut(s, t) ==> Ordered(Schedule(s, t)))
  {
    var n := s.next.value;
    var r := Select(s, t);
    forall u | 0 <= u < |r.threads| && u != n ensures Placed(r, u) { if u != t { assert Placed(s, u); } }
    assert Good(r, n);
    AddReadyGood(r, n, false);
    assert Select(AddReady(s, n, false), t) == AddReady(r, n, false);
  }

  lemma PreemptRunning(s: State, t: nat)
    requires Good(s, t) && t < |s.threads| && s.next.None? && s.threads[t].priority > Top(s)
    ensures Inv(Select(s, t)) && (OrderedBut(s, t) ==> Ordered(Select(s, t)))
  {
    var r := Select(s, t);
    forall u | 0 <= u < |r.threads| ensures Placed(r, u) { if u != t { assert Placed(s, u); } }
  }

  lemma ScheduleKeeps(s: State, t: nat)
    requires Good(s, t) && t < |s.threads|
    ensures Inv(Schedule(s, t))
    ensures OrderedBut(s, t) ==> Ordered(Schedule(s, t))
  {
    if s.threads[t].priority <= Top(s) {
      AddReadyGood(s, t, true);
    } else if s.next.Some? {
      PreemptStandby(s, t);
    } else {
      PreemptRunning(s, t);
    }
  }

  /** The best ready thread has the highest priority of all, and if none of at least the given
      priority is found there is none. */
  lemma BestIsBest(s: State, low: int)
    requires Inv(s)
    ensures var p, found := HighestBit(s.mask), FindHighest(s, low).1;
            && (found.Some? ==> p >= low && found.value < |s.threads| && s.threads[found.value].state.Ready?
                                && s.threads[found.value].priority == p && s.ready[p] != [] && s.ready[p][0] == found.value)
            && (forall t :: 0 <= t < |s.threads| && s.threads[t].state.Ready? ==>
                  s.threads[t].priority <= p && (found.None? ==> s.threads[t].priority < low))
  {
    if FindHighest(s, low).1.Some? {
      TakenFromHighest(s, low);
      assert s.ready[HighestBit(s.mask)][0] in s.ready[HighestBit(s.mask)];
    }
    forall t | 0 <= t < |s.threads| && s.threads[t].state.Ready? ensures s.threads[t].priority <= HighestBit(s.mask) {
      assert Placed(s, t);
      assert s.mask[s.threads[t].priority];
    }
  }

  function Loosened(s: State): int { if s.next.Some? then s.next.value else -1 }

  lemma SelectBestKeeps(s: State)
    requires Inv(s)
    ensures forall low :: FindHighest(s, low).1.Some? ==>
              Good(SelectBest(s, low), Loosened(s)) && OrderedBut(SelectBest(s, low), Loosened(s))
  {
    forall low | FindHighest(s, low).1.Some?
      ensures Good(SelectBest(s, low), Loosened(s)) && OrderedBut(SelectBest(s, low), Loosened(s))
    {
      BestIsBest(s, low);
      var s', p, f := SelectBest(s, low), HighestBit(s.mask), FindHighest(s, low).1.value;
      assert s.ready[p] == [f] + s.ready[p][1..];
      assert forall u :: u in s'.ready[p] <==> u in s.ready[p] && u != f;
      forall u | 0 <= u < |s'.threads| && u != Loosened(s) ensures Placed(s', u) {
        assert Placed(s, u);
      }
    }
  }

  lemma ReadyMoves(s: State, t: nat)
    requires Inv(s) && t < |s.threads| && s.threads[t].state.Ready?
    ensures forall p {:trigger WithPriority(s, t, p)} :: Level(p) ==>
              var r := Unready(WithPriority(s, t, p), t, s.threads[t].priority);
              Good(r, t) && r.threads[t].priority == p && Top(r) == Top(s) && (Ordered(s) ==> OrderedBut(r, t))
  {
    var was := s.threads[t].priority;
    WithoutMembers(s.ready[was], t);
    assert Placed(s, t);
    forall p {:trigger WithPriority(s, t, p)} | Level(p)
      ensures var r := Unready(WithPriority(s, t, p), t, was);
              Good(r, t) && r.threads[t].priority == p && Top(r) == Top(s) && (Ordered(s) ==> OrderedBut(r, t))
    {
      var r := Unready(WithPriority(s, t, p), t, was);
      UnreadyShape(WithPriority(s, t, p), t, was);
      forall u | 0 <= u < |r.threads| && u != t ensures Placed(r, u) { assert Placed(s, u); }
    }
  }

  lemma PriorityOnly(s: State, t: nat, p: int)
    requires Inv(s) && t < |s.threads| && !s.threads[t].state.Ready? && Level(p)
    ensures Inv(WithPriority(s, t, p))
  {
    var r := WithPriority(s, t, p);
    forall u | 0 <= u < |r.threads| ensures Placed(r, u) { assert Placed(s, u); }
  }

  /** Whatever the new priority of thread t. */
  ghost predicate MayChange(s: State, t: nat)
    requires Shape(s) && t < |s.threads|
  {
    forall p {:trigger SetPriority(s, t, p)} :: Level(p) ==> Inv(SetPriority(s, t, p)) && (Ordered(s) ==> Ordered(SetPriority(s, t, p)))
  }

  lemma SetPriorityOfReady(s: State, t: nat)
    requires Inv(s) && t < |s.threads| && s.threads[t].state.Ready?
    ensures MayChange(s, t)
  {
    var was := s.threads[t].priority;
    forall p {:trigger SetPriority(s, t, p)} | Level(p)
      ensures Inv(SetPriority(s, t, p)) && (Ordered(s) ==> Ordered(SetPriority(s, t, p))) 
    {
      if was != p {
        ReadyMoves(s, t);
        var r := Unready(WithPriority(s, t, p), t, was);
        if p < was { AddReadyGood(r, t, true); } else { ScheduleKeeps(r, t); }
      }
    }
  }

  lemma SetPriorityOfStandby(s: State, t: nat)
    requires Inv(s) && t < |s.threads| && s.threads[t].state.Standby?
    ensures MayChange(s, t)
  {
    assert Placed(s, t);
    forall p {:trigger SetPriority(s, t, p)} | Level(p)
      ensures Inv(SetPriority(s, t, p)) && (Ordered(s) ==> Ordered(SetPriority(s, t, p)))
    {
      PriorityOnly(s, t, p);
      var r := WithPriority(s, t, p);
      BestIsBest(r, p);
      if p < s.threads[t].priority && FindHighest(r, p).1.Some? {
        SelectBestKeeps(r);
        ScheduleKeeps(SelectBest(r, p), t);
      }
    }
  }

  lemma SetPriorityOfRunning(s: State, t: nat)
    requires Inv(s) && t < |s.threads| && s.threads[t].state.Running?
    ensures MayChange(s, t)
  {
    assert Placed(s, t);
    forall p {:trigger SetPriority(s, t, p)} | Level(p)
      ensures Inv(SetPriority(s, t, p)) && (Ordered(s) ==> Ordered(SetPriority(s, t, p)))
    {
      PriorityOnly(s, t, p);
      var r := WithPriority(s, t, p);
      if p < s.threads[t].priority && s.next.None? {
        BestIsBest(r, p);
        if FindHighest(r, p).1.Some? { SelectBestKeeps(r); }
      }
    }
  }

  lemma SetPriorityOfOthers(s: State, t: nat)
    requires Inv(s) && t < |s.threads|
    requires s.threads[t].state.Initialized? || s.threads[t].state.Waiting? || s.threads[t].state.Terminated?
    ensures MayChange(s, t)
  {
    forall p {:trigger SetPriority(s, t, p)} | Level(p)
      ensures Inv(SetPriority(s, t, p)) && (Ordered(s) ==> Ordered(SetPriority(s, t, p)))
    {
      PriorityOnly(s, t, p);
    }
  }

  lemma SetPriorityKeeps(s: State, t: nat)
    requires Inv(s) && t < |s.threads|
    ensures MayChange(s, t)
  {
    hide MayChange;
    match s.threads[t].state
    case Ready => SetPriorityOfReady(s, t);
    case Standby => SetPriorityOfStandby(s, t);
    case Running => SetPriorityOfRunning(s, t);
    case _ => SetPriorityOfOthers(s, t);
  }

  lemma QuantumOnly(s: State, t: nat, q: int)
    requires Inv(s) && t < |s.threads|
    ensures Shape(WithQuantum(s, t, q))
    ensures Inv(WithQuantum(s, t, q)) && (Ordered(s) ==> Ordered(WithQuantum(s, t, q)))
  {
    var r := WithQuantum(s, t, q);
    forall u | 0 <= u < |r.threads| ensures Placed(r, u) { assert Placed(s, u); }
  }

  lemma LevelsOf(s: State, t: nat)
    requires Inv(s) && t < |s.threads|
    ensures Shape(s) && Level(s.threads[t].priority) && Level(s.threads[t].base)
  {
  }

  lemma CurrentRuns(s: State)
    requires Inv(s)
    ensures s.current < |s.threads| && s.threads[s.current].state.Running? && s.next != Some(s.current)
  {
  }

  lemma QuantumEndKeeps(s: State)
    requires Inv(s)
    ensures Inv(QuantumEnd(s)) && (Ordered(s) ==> Ordered(QuantumEnd(s)))
  {
    hide Good, OrderedBut, SelectBest, SetPriority, Shape;
    CurrentRuns(s);
    LevelsOf(s, s.current);
    var th := s.threads[s.current];
    var r := WithQuantum(s, s.current, th.fullQuantum);
    QuantumOnly(s, s.current, th.fullQuantum);
    if th.quantum <= 0 {
      if th.priority < LOW_REALTIME_PRIORITY && th.priority - 1 >= th.base {
        SetPriorityKeeps(r, s.current);
      } else if s.next.None? {
        LookKeeps(r);
      }
    }
  }

  lemma LookKeeps(s: State)
    requires Inv(s) && s.next.None?
    ensures forall low :: Inv(SelectBest(s, low)) && (Ordered(s) ==> Ordered(SelectBest(s, low)))
  {
    SelectBestKeeps(s);
    forall low ensures Inv(SelectBest(s, low)) && (Ordered(s) ==> Ordered(SelectBest(s, low))) {
      if FindHighest(s, low).1.Some? { assert Good(SelectBest(s, low), -1); }
    }
  }

  lemma BoostKeeps(s: State, t: nat, increment: int)
    requires Inv(s) && t < |s.threads|
    ensures Inv(Boost(s, t, increment)) && (Ordered(s) ==> Ordered(Boost(s, t, increment)))
  {
    hide Good, OrderedBut, SetPriority, Shape;
    LevelsOf(s, t);
    var th := s.threads[t];
    if Boosts(th, increment) {
      QuantumOnly(s, t, th.fullQuantum);
      var r, p := WithQuantum(s, t, th.fullQuantum), Clamped(th.base + increment);
      assert Level(p);
      SetPriorityKeeps(r, t);
    }
  }

  /** A thread that is in no list and not on the processor may change and be scheduled. */
  lemma LooseKeeps(s: State, t: nat, th: Thread)
    requires Inv(s) && t < |s.threads| && (s.threads[t].state.Initialized? || s.threads[t].state.Waiting?)
    requires th.state == s.threads[t].state && Level(th.priority) && Level(th.base)
    ensures var r := s.(threads := s.threads[t := th]);
            Good(r, t) && Inv(Schedule(r, t)) && (Ordered(s) ==> Ordered(Schedule(r, t)))
  {
    var r := s.(threads := s.threads[t := th]);
    forall u | 0 <= u < |r.threads| && u != t ensures Placed(r, u) { assert Placed(s, u); }
    ScheduleKeeps(r, t);
  }

  lemma UnwaitKeeps(s: State, t: nat, increment: int)
    requires Inv(s) && t < |s.threads| && (s.threads[t].state.Initialized? || s.threads[t].state.Waiting?)
    ensures Inv(Unwait(s, t, increment)) && (Ordered(s) ==> Ordered(Unwait(s, t, increment)))
  {
    LooseKeeps(s, t, Awake(s.threads[t], increment));
  }

  // ---------- the processor changes hands ----------

  /** A switch keeps every thread in its place; it keeps the order exactly when the thread that
      gives up the processor does not outrank the selected one. */
  lemma DispatchKeeps(s: State, tail: bool)
    requires Inv(s) && s.next.Some?
    ensures Inv(Dispatch(s, tail))
    ensures Ordered(s) ==> (Ordered(Dispatch(s, tail)) <==> s.threads[s.current].priority <= s.threads[s.next.value].priority)
  {
    var n, c := s.next.value, s.current;
    assert Placed(s, n) && Placed(s, c);
    var r := WithState(s, n, Running).(next := None, current := n);
    forall u | 0 <= u < |r.threads| && u != c ensures Placed(r, u) { assert Placed(s, u); }
    AddReadyGood(r, c, tail);
    assert Dispatch(s, tail).threads[c].state.Ready?;
  }

  lemma BlockKeeps(s: State)
    requires Inv(s) && (s.next.Some? || FindHighest(s, 0).1.Some?)
    ensures Inv(Block(s)) && (Ordered(s) ==> Ordered(Block(s)))
  {
    if s.next.None? {
      SelectBestKeeps(s);
      assert Block(s) == Handed(SelectBest(s, 0)) by { BlockIsHanded(s); }
      HandedKeeps(SelectBest(s, 0));
    } else {
      HandedKeeps(s);
    }
  }

  /** The selected thread runs, and the current one waits. */
  function Handed(s: State): State
    requires Shape(s) && s.next.Some?
  {
    var n := s.next.value;
    WithState(WithState(s, s.current, Waiting), n, Running).(next := None, current := n)
  }

  lemma HandedKeeps(s: State)
    requires Inv(s) && s.next.Some?
    ensures Inv(Handed(s)) && (Ordered(s) ==> Ordered(Handed(s)))
  {
    var s' := Handed(s);
    forall u | 0 <= u < |s'.threads| ensures Placed(s', u) { assert Placed(s, u); }
  }

  lemma BlockIsHanded(s: State)
    requires Inv(s) && s.next.None? && FindHighest(s, 0).1.Some?
    ensures Block(s) == Handed(SelectBest(s, 0))
  {
    BestIsBest(s, 0);
    var f := FindHighest(s, 0).1.value;
    assert s.threads[s.current].state.Running? && f != s.current;
  }

  // ---------- runs ----------

  datatype Op =
    | OpSchedule(t: nat)                    // a new thread
    | OpUnwait(t: nat, increment: int)
    | OpSetPriority(t: nat, p: int)
    | OpBoost(t: nat, increment: int)
    | OpTick(quantum: int)                  // the clock lowers the quantum of the current thread
    | OpQuantumEnd
    | OpDispatch(tail: bool)
    | OpBlock

  predicate Allowed(s: State, op: Op) {
    && Shape(s)
    && match op {
      case OpSchedule(t) => t < |s.threads| && s.threads[t].state.Initialized?
      case OpUnwait(t, _) => t < |s.threads| && s.threads[t].state.Waiting?
      case OpSetPriority(t, p) => t < |s.threads| && Level(p)
      case OpBoost(t, _) => t < |s.threads|
      case OpTick(_) => true
      case OpQuantumEnd => true
      case OpDispatch(_) => s.next.Some?
      case OpBlock => s.next.Some? || FindHighest(s, 0).1.Some?
    }
  }

  function Step(s: State, op: Op): State
    requires Allowed(s, op)
  {
    match op
    case OpSchedule(t) => Schedule(s, t)
    case OpUnwait(t, increment) => Unwait(s, t, increment)
    case OpSetPriority(t, p) => SetPriority(s, t, p)
    case OpBoost(t, increment) => Boost(s, t, increment)
    case OpTick(q) => WithQuantum(s, s.current, q)
    case OpQuantumEnd => QuantumEnd(s)
    case OpDispatch(tail) => Dispatch(s, tail)
    case OpBlock => Block(s)
  }

  /** A switch from a thread that outranks the selected one. */
  predicate Inverts(s: State, op: Op)
    requires Allowed(s, op)
  {
    op.OpDispatch? && s.threads[s.current].priority > s.threads[s.next.value].priority
  }

  lemma StepKeeps(s: State, op: Op)
    requires Inv(s) && Allowed(s, op)
    ensures Inv(Step(s, op))
    ensures Ordered(s) ==> (Ordered(Step(s, op)) <==> !Inverts(s, op))
  {
    match op
    case OpSchedule(t) =>
      assert s.(threads := s.threads[t := s.threads[t]]) == s;
      LooseKeeps(s, t, s.threads[t]);
    case OpUnwait(t, increment) => UnwaitKeeps(s, t, increment);
    case OpSetPriority(t, p) => SetPriorityKeeps(s, t);
    case OpBoost(t, increment) => BoostKeeps(s, t, increment);
    case OpTick(q) => QuantumOnly(s, s.current, q);
    case OpQuantumEnd => QuantumEndKeeps(s);
    case OpDispatch(tail) => DispatchKeeps(s, tail);
    case OpBlock => BlockKeeps(s);
  }

  ghost predicate IsRun(ss: seq<State>, ops: seq<Op>) {
    && |ss| == |ops| + 1
    && forall i {:trigger ops[i]} :: 0 <= i < |ops| ==> Allowed(ss[i], ops[i]) && ss[i + 1] == Step(ss[i], ops[i])
  }

  /** One thread runs, every other one is new. */
  predicate Initial(s: State) {
    && Shape(s) && s.next.None?
    && (forall p :: 0 <= p < LEVELS ==> s.ready[p] == [])
    && (forall t :: 0 <= t < |s.threads| ==>
          if t == s.current then s.threads[t].state.Running? else s.threads[t].state.Initialized?)
  }

  /** Over every run: a bit of the mask is set exactly when its list is not empty; every ready
      thread is on the list of its priority, once, and on no other; the selected thread is the
      only one in standby. */
  lemma {:induction false} ListsStayExact(ss: seq<State>, ops: seq<Op>, i: nat)
    requires IsRun(ss, ops) && Initial(ss[0]) && i < |ss|
    ensures forall j :: 0 <= j <= i ==> Inv(ss[j])
  {
    if i > 0 {
      ListsStayExact(ss, ops, i - 1);
      assert Allowed(ss[i - 1], ops[i - 1]) && ss[i] == Step(ss[i - 1], ops[i - 1]);
      StepKeeps(ss[i - 1], ops[i - 1]);
    }
  }

  /** Over every run in which no switch inverts priorities, no ready thread ever outranks the
      selected thread, or the running one when none is selected. */
  lemma {:induction false} OrderIsKept(ss: seq<State>, ops: seq<Op>, i: nat)
    requires IsRun(ss, ops) && Initial(ss[0]) && i < |ss|
    requires forall j {:trigger ops[j]} :: 0 <= j < i ==> Allowed(ss[j], ops[j]) && !Inverts(ss[j], ops[j])
    ensures forall j :: 0 <= j <= i ==> Inv(ss[j]) && Ordered(ss[j])
  {
    ListsStayExact(ss, ops, i);
    if i > 0 {
      OrderIsKept(ss, ops, i - 1);
      assert Allowed(ss[i - 1], ops[i - 1]) && !Inverts(ss[i - 1], ops[i - 1]);
      assert ss[i] == Step(ss[i - 1], ops[i - 1]);
      StepKeeps(ss[i - 1], ops[i - 1]);
    }
  }

  /** Such a switch does happen: a thread is selected over the running one, the running one is
      then raised above it, which changes nothing about the selection, and the interrupt comes. */
  lemma SwitchCanInvert() returns (ss: seq<State>, ops: seq<Op>)
    ensures IsRun(ss, ops) && Initial(ss[0]) && |ops| == 3
    ensures Inv(ss[3]) && !Ordered(ss[3])
  {
    var a, b := Thread(Running, 8, 8, 60, 60, 0), Thread(Initialized, 9, 9, 60, 60, 0);
    var s0 := State([a, b], seq(LEVELS, _ => []), seq(LEVELS, _ => false), None, 0);
    assert Initial(s0);
    hide Good, OrderedBut;
    var s1 := Step(s0, OpSchedule(1));
    var s2 := Step(s1, OpSetPriority(0, 12));
    var s3 := Step(s2, OpDispatch(true));
    ss, ops := [s0, s1, s2, s3], [OpSchedule(1), OpSetPriority(0, 12), OpDispatch(true)];
    InvertedAtLast(ss, ops);
  }

  /** A run in which only the last step inverts ends out of order. */
  lemma InvertedAtLast(ss: seq<State>, ops: seq<Op>)
    requires IsRun(ss, ops) && Initial(ss[0]) && |ops| == 3
    requires !Inverts(ss[0], ops[0]) && !Inverts(ss[1], ops[1]) && Inverts(ss[2], ops[2])
    ensures Inv(ss[3]) && !Ordered(ss[3])
  {
    hide Good, Step;
    OrderIsKept(ss, ops, 2);
    StepKeeps(ss[2], ops[2]);
  }

  // ---------- what each operation achieves ----------

  /** The ready thread that comes first: the head of the highest list that is not empty. */
  ghost predicate Best(s: State, f: nat)
    requires Shape(s)
  {
    && f < |s.threads| && s.threads[f].state.Ready?
    && s.ready[s.threads[f].priority] != [] && s.ready[s.threads[f].priority][0] == f
    && forall u :: 0 <= u < |s.threads| && s.threads[u].state.Ready? ==> s.threads[u].priority <= s.threads[f].priority
  }

  ghost predicate SomeoneReady(s: State, low: int) {
    exists u :: 0 <= u < |s.threads| && s.threads[u].state.Ready? && s.threads[u].priority >= low
  }

  /** From s to s' the best ready thread has been selected if it has at least this priority, and
      nothing has changed otherwise. */
  ghost predicate Looked(s: State, s': State, low: int)
    requires Shape(s)
  {
    if SomeoneReady(s, low) then
      exists f :: Best(s, f) && Picked(s, s', f)
    else s' == s
  }

  /** f has left the head of its list and is selected. */
  ghost predicate Picked(s: State, s': State, f: nat)
    requires Shape(s) && f < |s.threads|
  {
    var p := s.threads[f].priority;
    && s.ready[p] != []
    && s' == s.(threads := s.threads[f := s.threads[f].(state := Standby)], next := Some(f),
                ready := s.ready[p := s.ready[p][1..]], mask := s.mask[p := s.ready[p][1..] != []])
  }

  lemma LooksForBest(s: State, low: int)
    requires Inv(s)
    ensures Looked(s, SelectBest(s, low), low)
  {
    BestIsBest(s, low);
    hide Good;
    if FindHighest(s, low).1.Some? {
      var f := FindHighest(s, low).1.value;
      assert Best(s, f) && Picked(s, SelectBest(s, low), f);
    }
  }

  /** A thread that is scheduled is selected exactly when it outranks the selected or running one,
      and is ready at the end of its list otherwise. */
  lemma SchedulesExactly(s: State, t: nat)
    requires Good(s, t) && t < |s.threads|
    ensures var s', th := Schedule(s, t), s.threads[t];
      && |s'.threads| == |s.threads| && |s'.ready| == LEVELS
      && s'.threads[t] == th.(state := if th.priority > Top(s) then Standby else Ready)
      && (th.priority > Top(s) ==> s'.next == Some(t))
      && (th.priority <= Top(s) ==> s'.next == s.next && s'.ready == s.ready[th.priority := s.ready[th.priority] + [t]])
      && (forall u :: 0 <= u < |s.threads| && u != t && s.next != Some(u) ==> s'.threads[u] == s.threads[u])
  {
    hide Placed, Listed;
  }

  /** The priority of thread t has become p, and this is what follows from it. */
  ghost predicate Reprioritised(s: State, s': State, t: nat, p: int)
    requires Shape(s) && t < |s.threads| && Level(p)
  {
    var was, r := s.threads[t].priority, WithPriority(s, t, p);
    && |s'.threads| == |s.threads| && |s'.ready| == LEVELS
    && s'.threads[t] == r.threads[t].(state := s'.threads[t].state)
    && match s.threads[t].state
       case Ready =>
         if p == was then s' == s
         else if p > was && p > Top(s) then s'.next == Some(t) && s'.threads[t].state.Standby?
         else s'.next == s.next && s'.threads[t].state.Ready? && EndsWith(s'.ready[p], t)
       case Standby =>
         if p < was && SomeoneReady(s, p)
         then s'.next.Some? && Best(s, s'.next.value) && s'.threads[t].state.Ready? && EndsWith(s'.ready[p], t)
         else s' == r
       case Running => if p < was && s.next.None? then Looked(r, s', p) else s' == r
       case _ => s' == r
  }

  predicate EndsWith(l: seq<nat>, t: nat) { |l| > 0 && l[|l| - 1] == t }

  lemma SetPriorityOfReadyTakesEffect(s: State, t: nat, p: int)
    requires Inv(s) && t < |s.threads| && Level(p) && s.threads[t].state.Ready?
    ensures Reprioritised(s, SetPriority(s, t, p), t, p)
  {
    LevelsOf(s, t);
    ReadyMoves(s, t);
    var r := Unready(WithPriority(s, t, p), t, s.threads[t].priority);
    UnreadyShape(WithPriority(s, t, p), t, s.threads[t].priority);
    assert Good(r, t) && Top(r) == Top(s);
    SchedulesExactly(r, t);
    assert |s.ready| == LEVELS && s.threads[t].(state := Ready) == s.threads[t];
    hide Good, Schedule;
  }

  lemma SetPriorityOfStandbyTakesEffect(s: State, t: nat, p: int)
    requires Inv(s) && t < |s.threads| && Level(p) && s.threads[t].state.Standby?
    ensures Reprioritised(s, SetPriority(s, t, p), t, p)
  {
    var r := WithPriority(s, t, p);
    assert Placed(s, t);
    PriorityOnly(s, t, p);
    BestIsBest(r, p);
    if p < s.threads[t].priority && FindHighest(r, p).1.Some? {
      ReplacedIsQueued(s, t, p);
      var f := FindHighest(r, p).1.value;
      assert f != t && forall u :: 0 <= u < |s.threads| && u != t ==> r.threads[u] == s.threads[u];
      assert Best(s, f);
    } else if SomeoneReady(s, p) {
      var u: nat :| u < |s.threads| && s.threads[u].state.Ready? && s.threads[u].priority >= p;
      assert r.threads[u] == s.threads[u];
    }
    hide Good;
  }

  lemma SetPriorityTakesEffect(s: State, t: nat, p: int)
    requires Inv(s) && t < |s.threads| && Level(p)
    ensures Reprioritised(s, SetPriority(s, t, p), t, p)
  {
    if s.threads[t].state.Ready? {
      SetPriorityOfReadyTakesEffect(s, t, p);
    } else if s.threads[t].state.Standby? {
      SetPriorityOfStandbyTakesEffect(s, t, p);
    } else {
      PriorityOnly(s, t, p);
      LooksForBest(WithPriority(s, t, p), p);
      hide Good, Looked;
      if s.threads[t].priority == p { assert WithPriority(s, t, p) == s; }
    }
  }

  /** Only the dynamic range decays, and never below the base priority. */
  predicate Decays(th: Thread) { th.priority < LOW_REALTIME_PRIORITY && th.priority > th.base }

  /** The end of a quantum: a thread that has used it up gets a full one and loses one level of its
      priority, if it can; and then, unless somebody is selected already, the best ready thread of
      at least the priority it ends with is selected. So equals get their turn. */
  ghost predicate GivesTurn(s: State, s': State)
    requires Shape(s)
  {
    var th := s.threads[s.current];
    if th.quantum > 0 then s' == s
    else
      var p := if Decays(th) then th.priority - 1 else th.priority;
      var r := s.(threads := s.threads[s.current := th.(quantum := th.fullQuantum, priority := p)]);
      Level(p) && Shape(r) && if s.next.Some? then s' == r else Looked(r, s', p)
  }

  lemma QuantumEndGivesTurn(s: State)
    requires Inv(s)
    ensures GivesTurn(s, QuantumEnd(s))
  {
    hide Good, Looked, SetPriority, SelectBest;
    CurrentRuns(s);
    LevelsOf(s, s.current);
    var th := s.threads[s.current];
    var r := WithQuantum(s, s.current, th.fullQuantum);
    QuantumOnly(s, s.current, th.fullQuantum);
    if th.quantum <= 0 {
      var q := WithPriority(r, s.current, if Decays(th) then th.priority - 1 else th.priority);
      assert q.threads == s.threads[s.current := q.threads[s.current]];
      if Decays(th) {
        SetPriorityTakesEffect(r, s.current, th.priority - 1);
      } else {
        assert q == r;
        LooksForBest(r, th.priority);
      }
    }
  }

  /** Round robin: when the quantum of a thread that does not decay is used up, it changes places
      with the first of its equals and goes to the end of their list, with a full quantum. */
  lemma RoundRobin(s: State)
    requires Inv(s) && Ordered(s) && s.next.None? && s.threads[s.current].quantum <= 0
    requires !Decays(s.threads[s.current]) && s.ready[s.threads[s.current].priority] != []
    ensures Shape(QuantumEnd(s)) && QuantumEnd(s).next.Some?
    ensures var p, s' := s.threads[s.current].priority, Dispatch(QuantumEnd(s), true);
      && |s'.ready| == LEVELS && |s'.threads| == |s.threads|
      && s'.current == s.ready[p][0] && s'.next.None? && s'.threads[s'.current].state.Running?
      && s'.ready[p] == s.ready[p][1..] + [s.current]
      && s'.threads[s.current].quantum == s.threads[s.current].fullQuantum && s'.threads[s.current].priority == p
  {
    QuantumEndKeeps(s);
    QuantumEndGivesTurn(s);
    LevelsOf(s, s.current);
    var th := s.threads[s.current];
    var f := s.ready[th.priority][0];
    assert f in s.ready[th.priority];
    assert s.threads[f].state.Ready? && s.threads[f].priority == th.priority;
    var r := s.(threads := s.threads[s.current := th.(quantum := th.fullQuantum)]);
    assert r.threads[f] == s.threads[f];
    assert SomeoneReady(r, th.priority);
    var g: nat :| Best(r, g) && Picked(r, QuantumEnd(s), g);
    assert g != s.current && s.threads[g].priority <= th.priority;
  }

  function Max(x: int, y: int): int { if x < y then y else x }
  function Min(x: int, y: int): int { if x < y then x else y }

  /** A boost raises a thread of the dynamic range that has none yet to its base plus the increment,
      at most to the top of that range, with a full quantum; it does nothing to any other, nor if
      that is no more than the thread has. */
  lemma BoostTakesEffect(s: State, t: nat, increment: int)
    requires Inv(s) && t < |s.threads|
    ensures var th, s' := s.threads[t], Boost(s, t, increment);
      && |s'.threads| == |s.threads|
      && (if th.priority < LOW_REALTIME_PRIORITY && th.decrement == 0 && th.base + increment > th.priority
          then s'.threads[t].priority == Min(th.base + increment, LOW_REALTIME_PRIORITY - 1)
               && s'.threads[t].quantum == th.fullQuantum
          else s' == s)
  {
    var th := s.threads[t];
    LevelsOf(s, t);
    QuantumOnly(s, t, th.fullQuantum);
    if Boosts(th, increment) {
      var r, p := WithQuantum(s, t, th.fullQuantum), Clamped(th.base + increment);
      assert Level(p);
      SetPriorityTakesEffect(r, t, p);
      hide Good, SetPriority;
    }
  }

  /** What a thread of the dynamic range is after a wait: raised by the increment, and charged for
      the wait unless its base is time-critical; if that uses its quantum up, it gets a full one
      and goes down one level, but not below its base. A real-time thread gets a full quantum. */
  lemma AwakeIs(th: Thread, increment: int)
    requires Level(th.priority) && Level(th.base)
    ensures var a := Awake(th, increment);
      var up := Max(th.priority, Min(th.base + increment, LOW_REALTIME_PRIORITY - 1));
      && a == th.(priority := a.priority, quantum := a.quantum)
      && (th.priority >= LOW_REALTIME_PRIORITY ==> a.priority == th.priority && a.quantum == th.fullQuantum)
      && (th.priority < LOW_REALTIME_PRIORITY && th.base >= TIME_CRITICAL_BASE_PRIORITY ==>
            a.priority == up && a.quantum == th.fullQuantum)
      && (th.priority < LOW_REALTIME_PRIORITY && th.base < TIME_CRITICAL_BASE_PRIORITY ==>
            if th.quantum > WAIT_QUANTUM_DECREMENT
            then a.priority == up && a.quantum == th.quantum - WAIT_QUANTUM_DECREMENT
            else a.priority == Max(up - 1, th.base) && a.quantum == th.fullQuantum)
  {
  }

  /** And it is selected exactly when it then outranks the selected or running thread. */
  lemma UnwaitTakesEffect(s: State, t: nat, increment: int)
    requires Inv(s) && Allowed(s, OpUnwait(t, increment))
    ensures var s', th := Unwait(s, t, increment), Awake(s.threads[t], increment);
      && |s'.threads| == |s.threads|
      && s'.threads[t] == th.(state := if th.priority > Top(s) then Standby else Ready)
      && s'.next == if th.priority > Top(s) then Some(t) else s.next
  {
    LooseKeeps(s, t, Awake(s.threads[t], increment));
    SchedulesExactly(s.(threads := s.threads[t := Awake(s.threads[t], increment)]), t);
  }

  /** A switch: the selected thread runs, nobody is selected any more, and the old thread is ready at
      the asked end of its list. A wait is a switch after which the old thread waits; if nobody was
      selected the best ready thread runs. */
  lemma SwitchesTakeEffect(s: State, tail: bool)
    requires Inv(s)
    ensures s.next.Some? ==>
      var s', p := Dispatch(s, tail), s.threads[s.current].priority;
      && |s'.threads| == |s.threads| && s'.current == s.next.value && s'.next.None?
      && s'.threads[s'.current].state.Running? && s'.threads[s.current].state.Ready?
      && s'.ready == s.ready[p := if tail then s.ready[p] + [s.current] else [s.current] + s.ready[p]]
    ensures s.next.Some? || SomeoneReady(s, 0) ==>
      Allowed(s, OpBlock) &&
      var s' := Block(s);
      && |s'.threads| == |s.threads| && s'.next.None? && s'.threads[s'.current].state.Running?
      && s'.current != s.current && s'.threads[s.current].state.Waiting?
      && (if s.next.Some? then s'.current == s.next.value && s'.ready == s.ready else Best(s, s'.current))
  {
    BestIsBest(s, 0);
    if s.next.Some? {
      assert s.next.value != s.current;
    } else if SomeoneReady(s, 0) {
      BlockIsHanded(s);
      assert Best(s, FindHighest(s, 0).1.value);
    }
  }

  // ---------- what brings the inversion about ----------

  /** The running thread does not outrank the selected one: a switch will be in order. */
  predicate Matched(s: State) {
    s.next.Some? ==>
      s.current < |s.threads| && s.next.value < |s.threads|
      && s.threads[s.current].priority <= s.threads[s.next.value].priority
  }

  /** While a thread is selected, the running one is raised above it, or the selected one is
      lowered below the running one and no ready thread is good enough to take its place. */
  predicate Mismatches(s: State, op: Op)
    requires Allowed(s, op)
  {
    s.next.Some? &&
    match op
    case OpSetPriority(t, p) =>
      || (t == s.current && p > s.threads[s.next.value].priority)
      || (t == s.next.value && p < s.threads[s.current].priority && HighestBit(s.mask) < s.threads[s.current].priority)
    case OpBoost(t, increment) =>
      t == s.current && Boosts(s.threads[t], increment)
      && Clamped(s.threads[t].base + increment) > s.threads[s.next.value].priority
    case _ => false
  }

  /** A selected thread that is lowered and replaced waits behind its equals. */
  lemma ReplacedIsQueued(s: State, t: nat, p: int)
    requires Inv(s) && t < |s.threads| && s.threads[t].state.Standby? && Level(p) && p < s.threads[t].priority
    requires FindHighest(WithPriority(s, t, p), p).1.Some?
    ensures SetPriority(s, t, p) == AddReady(SelectBest(WithPriority(s, t, p), p), t, true)
  {
    PriorityOnly(s, t, p);
    assert Placed(s, t);
    BestIsBest(WithPriority(s, t, p), p);
  }

  lemma ReadyMatches(s: State, t: nat, p: int)
    requires Inv(s) && t < |s.threads| && Level(p) && Matched(s) && s.threads[t].state.Ready?
    ensures Matched(SetPriority(s, t, p)) && !Mismatches(s, OpSetPriority(t, p))
  {
    CurrentRuns(s);
    LevelsOf(s, t);
    assert s.next.Some? ==> s.next.value != t;
    hide Good, SelectBest, FindHighest;
  }

  lemma RunningMatches(s: State, t: nat, p: int)
    requires Inv(s) && t < |s.threads| && Level(p) && Matched(s) && s.threads[t].state.Running?
    ensures Matched(SetPriority(s, t, p)) <==> !Mismatches(s, OpSetPriority(t, p))
  {
    assert Placed(s, t) && s.next != Some(t);
    PriorityOnly(s, t, p);
    BestIsBest(WithPriority(s, t, p), p);
    hide Good, Schedule, AddReady;
  }

  lemma LoweringMatches(s: State, t: nat, p: int)
    requires Inv(s) && t < |s.threads| && Level(p) && Matched(s) && s.threads[t].state.Standby?
    ensures Matched(SetPriority(s, t, p)) <==> !Mismatches(s, OpSetPriority(t, p))
  {
    assert Placed(s, t);
    if p < s.threads[t].priority && FindHighest(WithPriority(s, t, p), p).1.Some? {
      ReplacedIsQueued(s, t, p);
      PriorityOnly(s, t, p);
      BestIsBest(WithPriority(s, t, p), p);
    }
  }

  lemma SetPriorityMatches(s: State, t: nat, p: int)
    requires Inv(s) && t < |s.threads| && Level(p) && Matched(s)
    ensures Matched(SetPriority(s, t, p)) <==> !Mismatches(s, OpSetPriority(t, p))
  {
    if s.threads[t].state.Ready? {
      ReadyMatches(s, t, p);
    } else if s.threads[t].state.Running? {
      RunningMatches(s, t, p);
    } else if s.threads[t].state.Standby? {
      LoweringMatches(s, t, p);
    }
  }

  lemma QuantumEndMatches(s: State)
    requires Inv(s) && Matched(s)
    ensures Matched(QuantumEnd(s))
  {
    hide Good, SetPriority, Shape;
    CurrentRuns(s);
    LevelsOf(s, s.current);
    var th := s.threads[s.current];
    var r := WithQuantum(s, s.current, th.fullQuantum);
    QuantumOnly(s, s.current, th.fullQuantum);
    if th.quantum <= 0 {
      if th.priority < LOW_REALTIME_PRIORITY && th.priority - 1 >= th.base {
        SetPriorityMatches(r, s.current, th.priority - 1);
      } else {
        BestIsBest(r, th.priority);
      }
    }
  }

  lemma BoostMatches(s: State, t: nat, increment: int)
    requires Inv(s) && t < |s.threads| && Matched(s)
    ensures Matched(Boost(s, t, increment)) <==> !Mismatches(s, OpBoost(t, increment))
  {
    hide Good, SetPriority, Shape, HighestBit;
    LevelsOf(s, t);
    var th := s.threads[t];
    if Boosts(th, increment) {
      var r, p := WithQuantum(s, t, th.fullQuantum), Clamped(th.base + increment);
      QuantumOnly(s, t, th.fullQuantum);
      assert Level(p);
      SetPriorityMatches(r, t, p);
      CurrentRuns(s);
    }
  }

  /** A step ends the match exactly when it is one of these calls. */
  lemma StepMatches(s: State, op: Op)
    requires Inv(s) && Allowed(s, op) && Matched(s)
    ensures Matched(Step(s, op)) <==> !Mismatches(s, op)
  {
    match op
    case OpSchedule(t) =>
    case OpUnwait(t, increment) =>
    case OpSetPriority(t, p) => SetPriorityMatches(s, t, p);
    case OpBoost(t, increment) => BoostMatches(s, t, increment);
    case OpTick(q) =>
    case OpQuantumEnd => QuantumEndMatches(s);
    case OpDispatch(tail) =>
    case OpBlock =>
  }

  /** Over every run without such a call every switch is in order, and no ready thread ever
      outranks the selected or running one. */
  lemma {:induction false} MatchedRunsStayOrdered(ss: seq<State>, ops: seq<Op>, i: nat)
    requires IsRun(ss, ops) && Initial(ss[0]) && i < |ss|
    requires forall j {:trigger ops[j]} :: 0 <= j < i ==> Allowed(ss[j], ops[j]) && !Mismatches(ss[j], ops[j])
    ensures forall j :: 0 <= j <= i ==> Inv(ss[j]) && Ordered(ss[j]) && Matched(ss[j])
  {
    if i > 0 {
      MatchedRunsStayOrdered(ss, ops, i - 1);
      var s, op := ss[i - 1], ops[i - 1];
      assert Allowed(s, op) && !Mismatches(s, op) && ss[i] == Step(s, op);
      StepMatches(s, op);
      StepKeeps(s, op);
    } else {
      ListsStayExact(ss, ops, 0);
    }
  }

  // ---------- turns ----------

  /** From l to m only threads in x are added or moved; all others that stay keep their turns. */
  ghost predicate Turns(l: seq<nat>, m: seq<nat>, x: set<nat>) {
    && (forall t :: t in m && t !in x ==> t in l)
    && (forall t, u :: t !in x && u !in x && t in m && u in m && Before(l, t, u) ==> Before(m, t, u))
  }

  ghost predicate KeepsTurns(s: State, s': State, x: set<nat>) {
    |s.ready| == |s'.ready| == LEVELS && forall p :: 0 <= p < LEVELS ==> Turns(s.ready[p], s'.ready[p], x)
  }

  lemma TurnsAdd(l: seq<nat>, t: nat, tail: bool)
    ensures Turns(l, if tail then l + [t] else [t] + l, {t})
  {
    var m := if tail then l + [t] else [t] + l;
    forall a, b | Before(l, a, b) ensures Before(m, a, b) {
      var i, j :| 0 <= i < j < |l| && l[i] == a && l[j] == b;
      var k := if tail then 0 else 1;
      assert m[i + k] == a && m[j + k] == b;
    }
  }

  lemma TurnsDropFirst(l: seq<nat>)
    requires NoDup(l) && l != []
    ensures Turns(l, l[1..], {})
  {
    forall a, b | Before(l, a, b) && a in l[1..] ensures Before(l[1..], a, b) {
      var i, j :| 0 <= i < j < |l| && l[i] == a && l[j] == b;
      assert i > 0;
      assert l[1..][i - 1] == a && l[1..][j - 1] == b;
    }
  }

  lemma TurnsWithout(l: seq<nat>, x: nat)
    ensures Turns(l, Without(l, x), {x})
  {
    WithoutKeeps(l, x);
    forall t, u | t != x && u != x && Before(l, t, u) ensures Before(Without(l, x), t, u) {
      WithoutKeepsBefore(l, x, t, u);
    }
  }

  lemma TurnsCompose(s: State, r: State, s': State, x: set<nat>, y: set<nat>)
    requires KeepsTurns(s, r, x) && KeepsTurns(r, s', y)
    ensures KeepsTurns(s, s', x + y)
  {
    forall p | 0 <= p < LEVELS ensures Turns(s.ready[p], s'.ready[p], x + y) {
      assert Turns(s.ready[p], r.ready[p], x) && Turns(r.ready[p], s'.ready[p], y);
    }
  }

  lemma AddReadyTurns(s: State, t: nat, tail: bool)
    requires Shape(s) && t < |s.threads|
    ensures KeepsTurns(s, AddReady(s, t, tail), {t})
  {
    TurnsAdd(s.ready[s.threads[t].priority], t, tail);
  }

  ghost function Occupied(s: State): set<nat> { (if s.next.Some? then {s.next.value} else {}) + {s.current} }

  lemma ScheduleTurns(s: State, t: nat)
    requires Shape(s) && t < |s.threads|
    ensures KeepsTurns(s, Schedule(s, t), {t} + Occupied(s))
  {
    AddReadyTurns(s, t, true);
    if s.next.Some? { AddReadyTurns(s, s.next.value, false); }
  }

  lemma SelectBestTurns(s: State, low: int)
    requires Inv(s)
    ensures KeepsTurns(s, SelectBest(s, low), {})
  {
    if HighestBit(s.mask) >= 0 { TurnsDropFirst(s.ready[HighestBit(s.mask)]); }
  }

  lemma SetPriorityOfReadyTurns(s: State, t: nat, p: int)
    requires Inv(s) && t < |s.threads| && s.threads[t].state.Ready? && Level(p)
    ensures KeepsTurns(s, SetPriority(s, t, p), {t} + Occupied(s))
  {
    var was, s' := s.threads[t].priority, SetPriority(s, t, p);
    if was != p {
      ReadyMoves(s, t);
      TurnsWithout(s.ready[was], t);
      var r := Unready(WithPriority(s, t, p), t, was);
      assert KeepsTurns(s, r, {t});
      if p < was { AddReadyTurns(r, t, true); } else { ScheduleTurns(r, t); }
      TurnsCompose(s, r, s', {t}, {t} + Occupied(s));
      assert {t} + ({t} + Occupied(s)) == {t} + Occupied(s);
    }
  }

  lemma SetPriorityOfStandbyTurns(s: State, t: nat, p: int)
    requires Inv(s) && t < |s.threads| && s.threads[t].state.Standby? && Level(p)
    ensures KeepsTurns(s, SetPriority(s, t, p), {t})
  {
    var r := WithPriority(s, t, p);
    PriorityOnly(s, t, p);
    if p < s.threads[t].priority && FindHighest(r, p).1.Some? {
      ReplacedIsQueued(s, t, p);
      SelectBestTurns(r, p);
      var q := SelectBest(r, p);
      AddReadyTurns(q, t, true);
      assert KeepsTurns(s, q, {});
      TurnsCompose(s, q, AddReady(q, t, true), {}, {t});
      assert {} + {t} == {t};
    }
  }

  lemma SetPriorityTurns(s: State, t: nat, p: int)
    requires Inv(s) && t < |s.threads| && Level(p)
    ensures KeepsTurns(s, SetPriority(s, t, p), {t} + Occupied(s))
  {
    if s.threads[t].state.Ready? {
      SetPriorityOfReadyTurns(s, t, p);
    } else if s.threads[t].state.Standby? {
      SetPriorityOfStandbyTurns(s, t, p);
    } else if s.threads[t].state.Running? {
      PriorityOnly(s, t, p);
      SelectBestTurns(WithPriority(s, t, p), p);
    }
  }

  lemma QuantumEndTurns(s: State)
    requires Inv(s)
    ensures KeepsTurns(s, QuantumEnd(s), Occupied(s))
  {
    hide Good, SetPriority;
    CurrentRuns(s);
    LevelsOf(s, s.current);
    var th := s.threads[s.current];
    var r := WithQuantum(s, s.current, th.fullQuantum);
    QuantumOnly(s, s.current, th.fullQuantum);
    if th.quantum <= 0 {
      if th.priority < LOW_REALTIME_PRIORITY && th.priority - 1 >= th.base {
        SetPriorityTurns(r, s.current, th.priority - 1);
        assert {s.current} + Occupied(r) == Occupied(s);
      } else {
        SelectBestTurns(r, th.priority);
      }
    }
  }

  lemma BoostTurns(s: State, t: nat, increment: int)
    requires Inv(s) && t < |s.threads|
    ensures KeepsTurns(s, Boost(s, t, increment), {t} + Occupied(s))
  {
    var th := s.threads[t];
    if Boosts(th, increment) {
      QuantumOnly(s, t, th.fullQuantum);
      var r, p := WithQuantum(s, t, th.fullQuantum), Clamped(th.base + increment);
      assert Level(p);
      SetPriorityTurns(r, t, p);
      assert Boost(s, t, increment) == SetPriority(r, t, p);
    }
  }

  /** The thread that an operation is about, if it names one. */
  function Subject(op: Op): set<nat> {
    match op
    case OpSchedule(t) => {t}
    case OpUnwait(t, _) => {t}
    case OpSetPriority(t, _) => {t}
    case OpBoost(t, _) => {t}
    case _ => {}
  }

  /** The steps that only move the processor or the quantum. */
  lemma ProcessorTurns(s: State, op: Op)
    requires Inv(s) && Allowed(s, op) && (op.OpTick? || op.OpDispatch? || op.OpBlock?)
    ensures KeepsTurns(s, Step(s, op), Occupied(s))
  {
    hide Placed;
    if op.OpDispatch? {
      AddReadyTurns(WithState(s, s.next.value, Running).(next := None, current := s.next.value), s.current, op.tail);
    } else if op.OpBlock? && s.next.None? {
      SelectBestTurns(s, 0);
    }
  }

  lemma UnwaitTurns(s: State, t: nat, increment: int)
    requires Inv(s) && Allowed(s, OpUnwait(t, increment))
    ensures KeepsTurns(s, Unwait(s, t, increment), {t} + Occupied(s))
  {
    LooseKeeps(s, t, Awake(s.threads[t], increment));
    ScheduleTurns(s.(threads := s.threads[t := Awake(s.threads[t], increment)]), t);
  }

  lemma StepTurns(s: State, op: Op)
    requires Inv(s) && Allowed(s, op)
    ensures KeepsTurns(s, Step(s, op), Subject(op) + Occupied(s))
  {
    hide Good, KeepsTurns;
    assert {} + Occupied(s) == Occupied(s);
    match op
    case OpSchedule(t) => ScheduleTurns(s, t);
    case OpUnwait(t, increment) => UnwaitTurns(s, t, increment);
    case OpSetPriority(t, p) => SetPriorityTurns(s, t, p);
    case OpBoost(t, increment) => BoostTurns(s, t, increment);
    case OpQuantumEnd => QuantumEndTurns(s);
    case _ => ProcessorTurns(s, op);
  }

  /** Round robin: of two ready threads of the same priority, the one that is ahead stays ahead
      for as long as both stay ready at that priority and nobody changes their priorities. */
  lemma {:induction false} TurnsAreKept(ss: seq<State>, ops: seq<Op>, i: nat, k: nat, p: nat, t: nat, u: nat)
    requires IsRun(ss, ops) && Initial(ss[0]) && i <= k < |ss| && p < LEVELS
    requires forall j :: i <= j <= k ==> |ss[j].ready| == LEVELS && t in ss[j].ready[p] && u in ss[j].ready[p]
    requires forall j {:trigger ops[j]} :: i <= j < k ==> t !in Subject(ops[j]) && u !in Subject(ops[j])
    requires Before(ss[i].ready[p], t, u)
    ensures Before(ss[k].ready[p], t, u)
  {
    if i < k {
      TurnsAreKept(ss, ops, i, k - 1, p, t, u);
      var s, op := ss[k - 1], ops[k - 1];
      assert Inv(s) by { ListsStayExact(ss, ops, k - 1); }
      assert Allowed(s, op) && ss[k] == Step(s, op);
      StepTurns(s, op);
      assert Turns(s.ready[p], ss[k].ready[p], Subject(op) + Occupied(s));
      assert t in s.ready[p] && u in s.ready[p];
    }
  }

  /** A thread that is preempted before it could run comes first among its equals; every other
      thread that is scheduled comes last. */
  lemma PreemptedComesFirst(s: State, t: nat)
    requires Good(s, t) && t < |s.threads|
    ensures var s' := Schedule(s, t);
            && (s'.threads[t].state.Ready? ==>
                  s'.ready[s.threads[t].priority] == s.ready[s.threads[t].priority] + [t] && s'.next == s.next)
            && (s.next.Some? && s'.next != s.next ==>
                  s'.ready[Top(s)] == [s.next.value] + s.ready[Top(s)] && s'.next == Some(t))
  {
    ScheduleKeeps(s, t);
    if s.next.Some? { assert Placed(s, s.next.value); }
  }
}

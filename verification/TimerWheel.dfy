/** The timer table, nboxkrnl/ke/timer.cpp: 32 lists of timers, each sorted by due time; a timer is
    on the list that the millisecond of its due time selects. */
module TimerWheel {
  // Setting and cancelling run at DISPATCH_LEVEL and are one step each; only the clock moves
  // meanwhile, so each reading of it is given. The interrupt time is below 2^63.

  import opened Seqs

  const TIMER_TABLE_SIZE := 32
  const CLOCK_TIME_INCREMENT := 10000
  const WORD := 0x1_0000_0000

  datatype Timer = Timer(inserted: bool, absolute: bool, signalled: bool, due: nat, period: int)

  /** KiTimerTableListHead holds numbers of timers. */
  type Table = seq<seq<nat>>

  datatype State = State(timers: seq<Timer>, table: Table)

  /** The system time, the interrupt time, and the interrupt time when it is read once more. */
  datatype Clock = Clock(system: nat, now: nat, later: nat)

  /** A tick count masked to the table: the table goes round once in TIMER_TABLE_SIZE ticks. */
  function Slot(ticks: nat): (i: nat)
    ensures i < TIMER_TABLE_SIZE
  {
    if ticks < TIMER_TABLE_SIZE then ticks else Slot(ticks - TIMER_TABLE_SIZE)
  }

  /** Masking is taking the remainder. */
  lemma {:induction false} SlotIsRemainder(ticks: nat)
    ensures Slot(ticks) == ticks % TIMER_TABLE_SIZE
  {
    if ticks >= TIMER_TABLE_SIZE { SlotIsRemainder(ticks - TIMER_TABLE_SIZE); }
  }

  /** KiComputeTimerTableIndex. */
  function Index(due: nat): (i: nat)
    ensures i < TIMER_TABLE_SIZE
  {
    Slot(due / CLOCK_TIME_INCREMENT)
  }

  function High(x: nat): nat { x / WORD }
  function Low(x: nat): nat { x % WORD }

  /** The 64-bit comparisons, by halves. */
  predicate AtLeast(x: nat, y: nat) { (High(x) == High(y) && Low(x) >= Low(y)) || High(x) > High(y) }

  lemma HalvesCompare(x: nat, y: nat)
    ensures AtLeast(x, y) <==> x >= y
  {
    assert x == High(x) * WORD + Low(x) && y == High(y) * WORD + Low(y);
  }

  predicate Named(timers: seq<Timer>, list: seq<nat>) { forall a :: 0 <= a < |list| ==> list[a] < |timers| }

  predicate Shape(s: State) {
    && |s.table| == TIMER_TABLE_SIZE
    && forall i :: 0 <= i < TIMER_TABLE_SIZE ==> Named(s.timers, s.table[i])
  }

  // ---------- specification of the operations ----------

  /** Where a timer goes: behind the last one that is not due after it, searching from the end. */
  function Place(timers: seq<Timer>, list: seq<nat>, due: nat): (p: nat)
    requires Named(timers, list)
    ensures p <= |list|
  {
    if list == [] then 0
    else
      var last := |list| - 1;
      if due >= timers[list[last]].due then |list| else Place(timers, list[..last], due)
  }

  function Removed(s: State, k: nat): State
    requires Shape(s) && k < |s.timers|
  {
    State(s.timers[k := s.timers[k].(inserted := false)],
          seq(TIMER_TABLE_SIZE, i requires 0 <= i < TIMER_TABLE_SIZE => Without(s.table[i], k)))
  }

  function Linked(s: State, k: nat, due: nat, p: nat): State
    requires Shape(s) && k < |s.timers| && p <= |s.table[Index(due)]|
  {
    var l := s.table[Index(due)];
    State(s.timers[k := s.timers[k].(due := due)], s.table[Index(due) := InsertAt(l, p, k)])
  }

  /** KiInsertTimerInTimerTable; only a timer that comes first is compared with the clock. */
  function InsertInTable(s: State, k: nat, relative: int, c: Clock): (State, bool)
    requires Shape(s) && k < |s.timers| && relative < 0
  {
    var due := c.now - relative;
    var p := Place(s.timers, s.table[Index(due)], due);
    if p > 0 then (Linked(s, k, due, p), true)
    else if c.later >= due then
      (s.(timers := s.timers[k := s.timers[k].(due := due, inserted := false, signalled := true)]), false)
    else (Linked(s, k, due, 0), s.timers[k].inserted)
  }

  /** The timer as KiInsertTimer marks it. */
  function Armed(tm: Timer, dueTime: int): Timer {
    tm.(inserted := true, absolute := dueTime >= 0, signalled := tm.signalled && tm.period != 0)
  }

  /** The request lies in the past already when it is made. */
  predicate Past(dueTime: int, c: Clock) { dueTime >= 0 && c.system >= dueTime }

  /** KiInsertTimer: a due time that is not negative is absolute. */
  function Insert(s: State, k: nat, dueTime: int, c: Clock): (State, bool)
    requires Shape(s) && k < |s.timers|
  {
    var a := Armed(s.timers[k], dueTime);
    if Past(dueTime, c) then
      (s.(timers := s.timers[k := a.(absolute := false, signalled := true, inserted := false)]), false)
    else
      InsertInTable(s.(timers := s.timers[k := a]), k, if dueTime < 0 then dueTime else c.system - dueTime, c)
  }

  /** The loop for a periodic timer, with the clock at each attempt made so far. */
  function Retry(s: State, k: nat, dueTime: int, clocks: seq<Clock>): State
    requires Shape(s) && k < |s.timers|
    decreases |clocks|
  {
    if clocks == [] then s
    else
      InsertShape(s, k, dueTime, clocks[0]);
      var (r, done) := Insert(s, k, dueTime, clocks[0]);
      if done then r else Retry(r, k, dueTime, clocks[1..])
  }

  function Period(period: int): int { -(period * CLOCK_TIME_INCREMENT) }

  function Cancel(s: State, k: nat): State
    requires Shape(s) && k < |s.timers|
  {
    if s.timers[k].inserted then Removed(s, k) else s
  }

  /** The timer as it is about to be inserted with a new period. */
  function Prepared(s: State, k: nat, period: int): State
    requires Shape(s) && k < |s.timers|
  {
    var r := Cancel(s, k);
    r.(timers := r.timers[k := r.timers[k].(signalled := false, period := period)])
  }

  function Set(s: State, k: nat, dueTime: int, period: int, c: Clock, clocks: seq<Clock>): State
    requires Shape(s) && k < |s.timers|
  {
    RemovedShape(s, k);
    InsertShape(Prepared(s, k, period), k, dueTime, c);
    var (t, done) := Insert(Prepared(s, k, period), k, dueTime, c);
    if done || period == 0 then t else Retry(t, k, Period(period), clocks)
  }

  /** A timer that cannot be inserted is due already: its DPC is queued at once. */
  predicate DueAtOnce(s: State, k: nat, dueTime: int, period: int, c: Clock)
    requires Shape(s) && k < |s.timers|
  {
    RemovedShape(s, k);
    !Insert(Prepared(s, k, period), k, dueTime, c).1
  }

  lemma RemovedShape(s: State, k: nat)
    requires Shape(s) && k < |s.timers|
    ensures Shape(Removed(s, k))
  {
    forall i | 0 <= i < TIMER_TABLE_SIZE ensures Named(s.timers, Without(s.table[i], k)) {
      WithoutKeeps(s.table[i], k);
      assert Named(s.timers, s.table[i]);
      assert forall b :: 0 <= b < |Without(s.table[i], k)| ==> Without(s.table[i], k)[b] in Without(s.table[i], k);
    }
  }

  lemma LinkedShape(s: State, k: nat, due: nat, p: nat)
    requires Shape(s) && k < |s.timers| && p <= |s.table[Index(due)]|
    ensures Shape(Linked(s, k, due, p))
  {
    var r := Linked(s, k, due, p);
    var l := s.table[Index(due)];
    InsertedIs(l, p, k);
    assert Named(s.timers, l);
    forall i | 0 <= i < TIMER_TABLE_SIZE ensures Named(r.timers, r.table[i]) {
      assert Named(s.timers, s.table[i]);
    }
  }

  lemma InTableShape(s: State, k: nat, relative: int, c: Clock)
    requires Shape(s) && k < |s.timers| && relative < 0
    ensures Shape(InsertInTable(s, k, relative, c).0) && |InsertInTable(s, k, relative, c).0.timers| == |s.timers|
  {
    var due := c.now - relative;
    assert Named(s.timers, s.table[Index(due)]);
    LinkedShape(s, k, due, Place(s.timers, s.table[Index(due)], due));
    LinkedShape(s, k, due, 0);
  }

  lemma InsertShape(s: State, k: nat, dueTime: int, c: Clock)
    requires Shape(s) && k < |s.timers|
    ensures Shape(Insert(s, k, dueTime, c).0) && |Insert(s, k, dueTime, c).0.timers| == |s.timers|
  {
    if !Past(dueTime, c) {
      InTableShape(s.(timers := s.timers[k := Armed(s.timers[k], dueTime)]), k, if dueTime < 0 then dueTime else c.system - dueTime, c);
    }
  }

  // ---------- the operations in the form of the source ----------

  class TimerTable {
    var Timers: seq<Timer>
    var KiTimerTableListHead: Table
    var ExpireDpcInserted: bool       // KiTimerExpireDpc.Inserted

    ghost function View(): State
      reads this
    {
      State(Timers, KiTimerTableListHead)
    }

    constructor (timers: seq<Timer>)
      ensures View() == State(timers, seq(TIMER_TABLE_SIZE, _ => []))
    {
      Timers, KiTimerTableListHead, ExpireDpcInserted := timers, seq(TIMER_TABLE_SIZE, _ => []), false;
    }

    method KiRemoveTimer(k: nat)
      requires Shape(View()) && k < |Timers|
      modifies this
      ensures View() == Removed(old(View()), k)
    {
      Timers := Timers[k := Timers[k].(inserted := false)];
      var lists := KiTimerTableListHead;
      KiTimerTableListHead := seq(TIMER_TABLE_SIZE, i requires 0 <= i < |lists| => Without(lists[i], k));
      assert KiTimerTableListHead == Removed(old(View()), k).table;
    }

    method KiInsertTimerInTimerTable(k: nat, relative: int, c: Clock) returns (inserted: bool)
      requires Shape(View()) && k < |Timers| && relative < 0
      requires forall i :: 0 <= i < TIMER_TABLE_SIZE ==> k !in KiTimerTableListHead[i]
      modifies this
      ensures (View(), inserted) == InsertInTable(old(View()), k, relative, c)
    {
      ghost var s := View();
      var due := c.now - relative;
      var index := Index(due);
      var list := KiTimerTableListHead[index];
      var next := |list|;
      ghost var place := Place(s.timers, list, due);
      assert list[..next] == list && Named(s.timers, list);
      while next > 0
        invariant 0 <= next <= |list|
        invariant View() == s && place == Place(s.timers, list[..next], due)
      {
        assert list[..next][..next - 1] == list[..next - 1];
        HalvesCompare(due, Timers[list[next - 1]].due);
        if AtLeast(due, Timers[list[next - 1]].due) {
          Timers := Timers[k := Timers[k].(due := due)];
          KiTimerTableListHead := KiTimerTableListHead[index := list[..next] + [k] + list[next..]];
          assert View() == Linked(s, k, due, next);
          return true;
        }
        next := next - 1;
      }
      Timers := Timers[k := Timers[k].(due := due)];
      KiTimerTableListHead := KiTimerTableListHead[index := [k] + list];
      LinkThenRemove(s, k, due);
      assert View() == Linked(s, k, due, 0);
      HalvesCompare(c.later, due);
      if AtLeast(c.later, due) {
        KiRemoveTimer(k);
        Timers := Timers[k := Timers[k].(signalled := true)];
        assert Timers == s.timers[k := s.timers[k].(due := due, inserted := false, signalled := true)];
      }
      return Timers[k].inserted;
    }

    method KiInsertTimer(k: nat, dueTime: int, c: Clock) returns (inserted: bool)
      requires Shape(View()) && k < |Timers|
      requires forall i :: 0 <= i < TIMER_TABLE_SIZE ==> k !in KiTimerTableListHead[i]
      modifies this
      ensures (View(), inserted) == Insert(old(View()), k, dueTime, c)
    {
      var tm := Timers[k].(inserted := true, absolute := false);
      if tm.period == 0 { tm := tm.(signalled := false); }
      var relative := dueTime;
      if dueTime >= 0 {
        if c.system - dueTime >= 0 {
          Timers := Timers[k := tm.(signalled := true, inserted := false)];
          return false;
        }
        relative := c.system - dueTime;
        tm := tm.(absolute := true);
      }
      Timers := Timers[k := tm];
      inserted := KiInsertTimerInTimerTable(k, relative, c);
    }

    method KeCancelTimer(k: nat) returns (inserted: bool)
      requires Shape(View()) && k < |Timers|
      modifies this
      ensures View() == Cancel(old(View()), k) && inserted == old(Timers[k].inserted)
    {
      inserted := Timers[k].inserted;
      if inserted { KiRemoveTimer(k); }
    }

    /** `dpc` says whether the timer has a DPC. */
    method KeSetTimerEx(k: nat, dueTime: int, period: int, dpc: bool, c: Clock, clocks: seq<Clock>)
      returns (inserted: bool, queueDpc: bool)
      requires Inv(View()) && k < |Timers|
      modifies this
      ensures View() == Set(old(View()), k, dueTime, period, c, clocks) && inserted == old(Timers[k].inserted)
      ensures queueDpc <==> dpc && DueAtOnce(old(View()), k, dueTime, period, c)
    {
      inserted := Timers[k].inserted;
      RemovedShape(View(), k);
      CancelKeepsInv(View());
      if inserted { KiRemoveTimer(k); }
      assert View() == Cancel(old(View()), k);
      ghost var r := View();
      Timers := Timers[k := Timers[k].(signalled := false, period := period)];
      ghost var q := View();
      assert q == Prepared(old(View()), k, period);
      IdleKeepsInv(r, k, q.timers[k]);
      NotInserted(q, k);
      InsertShape(q, k, dueTime, c);
      InsertKeepsInv(q, k, dueTime, c);
      var done := KiInsertTimer(k, dueTime, c);
      queueDpc := !done && dpc;
      if !done && period != 0 {
        ghost var result := Retry(View(), k, Period(period), clocks);
        var n := 0;
        InsertedExactly(q, k, dueTime, c);
        while n < |clocks| && !done
          invariant 0 <= n <= |clocks| && k < |Timers| && Inv(View())
          invariant !done ==> !Timers[k].inserted && Retry(View(), k, Period(period), clocks[n..]) == result
          invariant done ==> View() == result
        {
          ghost var v := View();
          NotInserted(v, k);
          InsertShape(v, k, Period(period), clocks[n]);
          InsertKeepsInv(v, k, Period(period), clocks[n]);
          InsertedExactly(v, k, Period(period), clocks[n]);
          assert clocks[n..][1..] == clocks[n + 1..];
          done := KiInsertTimer(k, Period(period), clocks[n]);
          n := n + 1;
        }
      }
    }

    /** The clock interrupt looks at the heads of the lists, and queues the expiry routine unless
        it is queued already; `tick` is KeTickCount. */
    method KiCheckExpiredTimers(interruptTime: nat, oldTick: nat, tick: nat) returns (queued: bool)
      requires Shape(View()) && oldTick < WORD && tick < WORD
      modifies this`ExpireDpcInserted
      ensures var fires := Fires(View(), interruptTime, oldTick, EndTick(oldTick, tick));
        queued == (fires && !old(ExpireDpcInserted)) && ExpireDpcInserted == (fires || old(ExpireDpcInserted))
    {
      var found := FindDueHead(interruptTime, oldTick, tick);
      queued := found && !ExpireDpcInserted;
      if found { ExpireDpcInserted := true; }
    }

    method FindDueHead(interruptTime: nat, oldTick: nat, tick: nat) returns (found: bool)
      requires Shape(View()) && oldTick < WORD && tick < WORD
      ensures found <==> Fires(View(), interruptTime, oldTick, EndTick(oldTick, tick))
    {
      var elapsed := if tick >= oldTick then tick - oldTick else tick - oldTick + WORD;
      var endTick := tick;
      if elapsed > TIMER_TABLE_SIZE {
        endTick := if oldTick + TIMER_TABLE_SIZE < WORD then oldTick + TIMER_TABLE_SIZE else oldTick + TIMER_TABLE_SIZE - WORD;
      }
      var start := oldTick;
      while start < endTick
        invariant oldTick <= start && (oldTick <= endTick ==> start <= endTick)
        invariant forall t :: oldTick <= t < start && t < endTick ==> !HeadIsDue(View(), interruptTime, Slot(t))
        decreases endTick - start
      {
        var index := Slot(start);
        if KiTimerTableListHead[index] != [] {
          var k := KiTimerTableListHead[index][0];
          assert Named(Timers, KiTimerTableListHead[index]);
          HalvesCompare(interruptTime, Timers[k].due);
          if AtLeast(interruptTime, Timers[k].due) {
            assert HeadIsDue(View(), interruptTime, Slot(start));
            return true;
          }
        }
        start := start + 1;
      }
      return false;
    }
  }

  lemma LinkThenRemove(s: State, k: nat, due: nat)
    requires Shape(s) && k < |s.timers| && forall i :: 0 <= i < TIMER_TABLE_SIZE ==> k !in s.table[i]
    ensures Shape(Linked(s, k, due, 0))
    ensures Removed(Linked(s, k, due, 0), k) == State(s.timers[k := s.timers[k].(due := due, inserted := false)], s.table)
    ensures Linked(s, k, due, 0).table == s.table[Index(due) := [k] + s.table[Index(due)]]
  {
    LinkedShape(s, k, due, 0);
    var l := s.table[Index(due)];
    assert InsertAt(l, 0, k) == [k] + l;
    forall i | 0 <= i < TIMER_TABLE_SIZE ensures Without(Linked(s, k, due, 0).table[i], k) == s.table[i] {
      WithoutKeeps(s.table[i], k);
      if i == Index(due) { assert ([k] + l)[1..] == l; }
    }
    assert Removed(Linked(s, k, due, 0), k).table == s.table;
  }

  // ---------- what the table keeps ----------

  ghost predicate SortedBy(timers: seq<Timer>, l: seq<nat>)
    requires Named(timers, l)
  {
    forall a, b :: 0 <= a < b < |l| ==> timers[l[a]].due <= timers[l[b]].due
  }

  /** Every timer of the list is inserted, and due in a tick of this list. */
  ghost predicate Belongs(timers: seq<Timer>, l: seq<nat>, i: nat)
    requires Named(timers, l)
  {
    forall a :: 0 <= a < |l| ==> timers[l[a]].inserted && Index(timers[l[a]].due) == i
  }

  ghost predicate ListOk(timers: seq<Timer>, l: seq<nat>, i: nat)
    requires Named(timers, l)
  {
    NoDup(l) && SortedBy(timers, l) && Belongs(timers, l, i)
  }

  /** Each list is sorted, and a timer is inserted exactly when it is on the list of its due
      time, once, and on no other. */
  ghost predicate Inv(s: State) {
    && Shape(s)
    && (forall i :: 0 <= i < TIMER_TABLE_SIZE ==> ListOk(s.timers, s.table[i], i))
    && (forall k :: 0 <= k < |s.timers| && s.timers[k].inserted ==> k in s.table[Index(s.timers[k].due)])
  }

  /** A timer is placed behind every timer that is due no later, and before all the others. */
  lemma {:induction false} PlaceSplits(timers: seq<Timer>, l: seq<nat>, due: nat)
    requires Named(timers, l) && SortedBy(timers, l)
    ensures var p := Place(timers, l, due);
      && (forall a :: 0 <= a < p ==> timers[l[a]].due <= due)
      && (forall a :: p <= a < |l| ==> timers[l[a]].due > due)
  {
    if l != [] {
      var last := |l| - 1;
      HalvesCompare(due, timers[l[last]].due);
      if due < timers[l[last]].due { PlaceSplits(timers, l[..last], due); }
    }
  }

  lemma PlacedSorted(timers: seq<Timer>, l: seq<nat>, k: nat, p: nat)
    requires Named(timers, l) && SortedBy(timers, l) && k < |timers| && p == Place(timers, l, timers[k].due)
    ensures Named(timers, InsertAt(l, p, k)) && SortedBy(timers, InsertAt(l, p, k))
  {
    PlaceSplits(timers, l, timers[k].due);
    InsertedIs(l, p, k);
  }

  lemma PlacedBelongs(timers: seq<Timer>, l: seq<nat>, k: nat, p: nat, i: nat)
    requires Named(timers, l) && k < |timers| && p <= |l| && Belongs(timers, l, i)
    requires timers[k].inserted && Index(timers[k].due) == i
    ensures Named(timers, InsertAt(l, p, k)) && Belongs(timers, InsertAt(l, p, k), i)
  {
    InsertedIs(l, p, k);
  }

  lemma PlacedOk(timers: seq<Timer>, l: seq<nat>, k: nat, i: nat)
    requires Named(timers, l) && k < |timers| && k !in l && ListOk(timers, l, i)
    requires timers[k].inserted && Index(timers[k].due) == i
    ensures var r := InsertAt(l, Place(timers, l, timers[k].due), k);
      Named(timers, r) && ListOk(timers, r, i)
  {
    var p := Place(timers, l, timers[k].due);
    InsertedIs(l, p, k);
    PlacedSorted(timers, l, k, p);
    PlacedBelongs(timers, l, k, p, i);
  }

  lemma DroppedOk(timers: seq<Timer>, l: seq<nat>, a: nat, i: nat)
    requires Named(timers, l) && ListOk(timers, l, i) && a < |l|
    ensures Named(timers, DropAt(l, a)) && ListOk(timers, DropAt(l, a), i)
  {
    DroppedIs(l, a);
  }

  lemma RemovedOk(timers: seq<Timer>, l: seq<nat>, k: nat, i: nat, tm: Timer)
    requires Named(timers, l) && k < |timers| && ListOk(timers, l, i)
    ensures var r := Without(l, k);
      && Named(timers[k := tm], r) && ListOk(timers[k := tm], r, i)
      && forall j :: j in r <==> j in l && j != k
  {
    WithoutMembers(l, k);
    WithoutOk(timers, l, k, i);
    ElsewhereOk(timers, Without(l, k), k, i, tm);
  }

  lemma WithoutOk(timers: seq<Timer>, l: seq<nat>, k: nat, i: nat)
    requires Named(timers, l) && ListOk(timers, l, i)
    ensures Named(timers, Without(l, k)) && ListOk(timers, Without(l, k), i)
  {
    WithoutKeeps(l, k);
    if k in l {
      var a :| 0 <= a < |l| && l[a] == k;
      assert k !in l[..a];
      WithoutAt(l, a);
      DroppedOk(timers, l, a, i);
    }
  }

  /** A list does not see what changes in a timer that is not on it. */
  lemma ElsewhereOk(timers: seq<Timer>, l: seq<nat>, k: nat, i: nat, tm: Timer)
    requires Named(timers, l) && k < |timers| && ListOk(timers, l, i) && k !in l
    ensures Named(timers[k := tm], l) && ListOk(timers[k := tm], l, i)
  {
    assert forall a :: 0 <= a < |l| ==> l[a] != k;
  }

  lemma CancelKeepsInv(s: State)
    requires Inv(s)
    ensures forall k :: 0 <= k < |s.timers| ==> Inv(Cancel(s, k)) && !Cancel(s, k).timers[k].inserted
  {
    forall k | 0 <= k < |s.timers| ensures Inv(Cancel(s, k)) && !Cancel(s, k).timers[k].inserted {
      if s.timers[k].inserted {
        var r := Removed(s, k);
        RemovedShape(s, k);
        forall i | 0 <= i < TIMER_TABLE_SIZE
          ensures ListOk(r.timers, r.table[i], i) && forall j :: j in r.table[i] <==> j in s.table[i] && j != k
        {
          RemovedOk(s.timers, s.table[i], k, i, s.timers[k].(inserted := false));
        }
      }
    }
  }

  lemma NotInserted(s: State, k: nat)
    requires Inv(s) && k < |s.timers| && !s.timers[k].inserted
    ensures forall i :: 0 <= i < TIMER_TABLE_SIZE ==> k !in s.table[i]
  {
    forall i | 0 <= i < TIMER_TABLE_SIZE ensures k !in s.table[i] {
      assert ListOk(s.timers, s.table[i], i);
    }
  }

  /** A timer in no list can be changed freely as long as it is not marked inserted. */
  lemma IdleKeepsInv(s: State, k: nat, tm: Timer)
    requires Inv(s) && k < |s.timers| && !s.timers[k].inserted && !tm.inserted
    ensures Inv(s.(timers := s.timers[k := tm]))
  {
    NotInserted(s, k);
    forall i | 0 <= i < TIMER_TABLE_SIZE ensures ListOk(s.timers[k := tm], s.table[i], i) {
      ElsewhereOk(s.timers, s.table[i], k, i, tm);
    }
  }

  lemma LinkKeepsInv(s: State, k: nat, tm: Timer)
    requires Inv(s) && k < |s.timers| && !s.timers[k].inserted && tm.inserted
    ensures var q := s.(timers := s.timers[k := tm]);
      var p := Place(q.timers, s.table[Index(tm.due)], tm.due);
      Inv(Linked(q, k, tm.due, p))
  {
    NotInserted(s, k);
    var q := s.(timers := s.timers[k := tm]);
    var d := Index(tm.due);
    var l := s.table[d];
    var p := Place(q.timers, l, tm.due);
    var r := Linked(q, k, tm.due, p);
    assert r.timers == q.timers && r.table[d] == InsertAt(l, p, k);
    InsertedIs(l, p, k);
    LinkedShape(q, k, tm.due, p);
    forall i | 0 <= i < TIMER_TABLE_SIZE
      ensures ListOk(r.timers, r.table[i], i)
    {
      ElsewhereOk(s.timers, s.table[i], k, i, tm);
      if i == d { PlacedOk(q.timers, l, k, d); }
    }
    forall j | 0 <= j < |r.timers| && r.timers[j].inserted ensures j in r.table[Index(r.timers[j].due)] {
      if j != k { assert j in s.table[Index(s.timers[j].due)]; }
    }
  }

  /** The search reads only the due times of the timers in the list. */
  lemma {:induction false} PlaceFrame(timers: seq<Timer>, l: seq<nat>, due: nat, k: nat, tm: Timer)
    requires Named(timers, l) && k < |timers| && k !in l
    ensures Place(timers[k := tm], l, due) == Place(timers, l, due)
  {
    if l != [] {
      assert l[|l| - 1] != k;
      PlaceFrame(timers, l[..|l| - 1], due, k, tm);
    }
  }

  /** The due time that a request stands for. */
  function DueAt(dueTime: int, c: Clock): int {
    if dueTime < 0 then c.now - dueTime else c.now + (dueTime - c.system)
  }

  ghost predicate BehindAnother(s: State, due: nat)
    requires Shape(s)
  {
    exists a :: 0 <= a < |s.table[Index(due)]| && s.timers[s.table[Index(due)][a]].due <= due
  }

  /** The timer is on no list, and the list it may go to is sorted. */
  ghost predicate Insertable(s: State, k: nat, due: nat) {
    && Shape(s) && k < |s.timers|
    && k !in s.table[Index(due)] && Named(s.timers, s.table[Index(due)]) && SortedBy(s.timers, s.table[Index(due)])
  }

  lemma IdleIsInsertable(s: State, k: nat, due: nat)
    requires Inv(s) && k < |s.timers| && !s.timers[k].inserted
    ensures Insertable(s, k, due)
  {
    NotInserted(s, k);
    assert ListOk(s.timers, s.table[Index(due)], Index(due));
  }

  lemma PlacedFirst(s: State, k: nat, a: Timer, due: nat)
    requires Insertable(s, k, due)
    ensures var l := s.table[Index(due)];
      && Named(s.timers[k := a], l) && Place(s.timers[k := a], l, due) == Place(s.timers, l, due)
      && (Place(s.timers, l, due) > 0 <==> BehindAnother(s, due))
  {
    var l := s.table[Index(due)];
    PlaceFrame(s.timers, l, due, k, a);
    PlaceSplits(s.timers, l, due);
    if Place(s.timers, l, due) > 0 { assert s.timers[l[0]].due <= due; }
  }

  /** The two ways the search and the second look at the clock can end. */
  lemma InTableIs(s: State, k: nat, a: Timer, relative: int, c: Clock)
    requires relative < 0 && Insertable(s, k, c.now - relative) && a.inserted
    ensures var q, due: nat := s.(timers := s.timers[k := a]), c.now - relative;
      var p := Place(s.timers, s.table[Index(due)], due);
      Shape(q) && InsertInTable(q, k, relative, c) ==
        if p == 0 && c.later >= due then (s.(timers := s.timers[k := a.(due := due, inserted := false, signalled := true)]), false)
        else (Linked(q, k, due, p), true)
  {
    PlacedFirst(s, k, a, c.now - relative);
    var f := a.(due := c.now - relative, inserted := false, signalled := true);
    assert s.timers[k := a][k := f] == s.timers[k := f];
  }

  lemma InTableKeepsInv(s: State, k: nat, a: Timer, relative: int, c: Clock)
    requires Inv(s) && k < |s.timers| && !s.timers[k].inserted && a.inserted && relative < 0
    ensures Inv(InsertInTable(s.(timers := s.timers[k := a]), k, relative, c).0)
  {
    var due: nat := c.now - relative;
    var f := a.(due := due, inserted := false, signalled := true);
    var idle := s.(timers := s.timers[k := f]);
    var q, p := s.(timers := s.timers[k := a]), Place(s.timers, s.table[Index(due)], due);
    assert Inv(Linked(q, k, due, p)) by { LinkAtPlace(s, k, a, due); }
    assert Inv(idle) by { IdleKeepsInv(s, k, f); }
    assert InsertInTable(q, k, relative, c).0 in {Linked(q, k, due, p), idle} by {
      IdleIsInsertable(s, k, due);
      InTableIs(s, k, a, relative, c);
    }
  }

  lemma LinkAtPlace(s: State, k: nat, a: Timer, due: nat)
    requires Inv(s) && k < |s.timers| && !s.timers[k].inserted && a.inserted
    ensures Shape(s.(timers := s.timers[k := a]))
    ensures var p := Place(s.timers, s.table[Index(due)], due);
      Inv(Linked(s.(timers := s.timers[k := a]), k, due, p))
  {
    var b := a.(due := due);
    var q, t := s.(timers := s.timers[k := a]), s.(timers := s.timers[k := b]);
    NotInserted(s, k);
    PlaceFrame(s.timers, s.table[Index(due)], due, k, b);
    LinkKeepsInv(s, k, b);
    assert q.timers[k := b] == t.timers[k := b];
  }

  lemma InsertKeepsInv(s: State, k: nat, dueTime: int, c: Clock)
    requires Inv(s) && k < |s.timers| && !s.timers[k].inserted
    ensures Inv(Insert(s, k, dueTime, c).0)
  {
    var a := Armed(s.timers[k], dueTime);
    if Past(dueTime, c) {
      IdleKeepsInv(s, k, a.(absolute := false, signalled := true, inserted := false));
    } else {
      InTableKeepsInv(s, k, a, if dueTime < 0 then dueTime else c.system - dueTime, c);
    }
  }

  /** A timer ends up in the table exactly when its time is still to come or a timer of the
      same list is due no later than it. In the second case a timer that is due already stays
      in the table; otherwise a timer that is due already is signalled at once. */
  lemma InsertedExactly(s: State, k: nat, dueTime: int, c: Clock)
    requires Inv(s) && k < |s.timers| && !s.timers[k].inserted
    ensures var (r, done) := Insert(s, k, dueTime, c);
      && |r.timers| == |s.timers| && done == r.timers[k].inserted
      && (done <==> !Past(dueTime, c) && (DueAt(dueTime, c) > c.later || BehindAnother(s, DueAt(dueTime, c))))
      && (done ==> r.timers[k].due == DueAt(dueTime, c))
      && (!done ==> r.timers[k].signalled && r.table == s.table)
      && (forall j :: 0 <= j < |s.timers| && j != k ==> r.timers[j] == s.timers[j])
  {
    if !Past(dueTime, c) {
      IdleIsInsertable(s, k, DueAt(dueTime, c));
      InsertedIf(s, k, dueTime, c);
    }
  }

  lemma InsertedIf(s: State, k: nat, dueTime: int, c: Clock)
    requires !Past(dueTime, c) && Insertable(s, k, DueAt(dueTime, c))
    ensures var (r, done) := Insert(s, k, dueTime, c);
      && |r.timers| == |s.timers| && done == r.timers[k].inserted
      && (done <==> DueAt(dueTime, c) > c.later || BehindAnother(s, DueAt(dueTime, c)))
      && (done ==> r.timers[k].due == DueAt(dueTime, c))
      && (!done ==> r.timers[k].signalled && r.table == s.table)
      && (forall j :: 0 <= j < |s.timers| && j != k ==> r.timers[j] == s.timers[j])
  {
    var a := Armed(s.timers[k], dueTime);
    PlacedFirst(s, k, a, DueAt(dueTime, c));
    InTableIs(s, k, a, if dueTime < 0 then dueTime else c.system - dueTime, c);
  }

  /** The timer after an attempt to insert it: where it stands in time, whether its due time was
      absolute and still to come, and whether it is signalled, which a one-shot timer is only if it
      is due already. */
  function Attempted(tm: Timer, dueTime: int, c: Clock, done: bool): Timer {
    tm.(inserted := done, absolute := dueTime >= 0 && !Past(dueTime, c),
        due := if Past(dueTime, c) then tm.due else DueAt(dueTime, c),
        signalled := !done || (tm.signalled && tm.period != 0))
  }

  /** k has gone into this list behind all timers due no later and before all others. */
  ghost predicate GoesBetween(timers: seq<Timer>, l: seq<nat>, l': seq<nat>, k: nat, due: nat) {
    exists p :: 0 <= p <= |l| && l' == InsertAt(l, p, k)
      && (forall a :: 0 <= a < p ==> l[a] < |timers| && timers[l[a]].due <= due)
      && (forall a :: p <= a < |l| ==> l[a] < |timers| && timers[l[a]].due > due)
  }

  lemma PlaceGoesBetween(timers: seq<Timer>, l: seq<nat>, k: nat, due: nat)
    requires Named(timers, l) && SortedBy(timers, l)
    ensures GoesBetween(timers, l, InsertAt(l, Place(timers, l, due), k), k, due)
  {
    PlaceSplits(timers, l, due);
  }

  lemma GoesToPlace(s: State, k: nat, a: Timer, relative: int, c: Clock)
    requires relative < 0 && Insertable(s, k, c.now - relative) && a.inserted
    ensures var q, due: nat := s.(timers := s.timers[k := a]), c.now - relative;
      Shape(q) && var (r, done) := InsertInTable(q, k, relative, c);
      && r.timers == s.timers[k := a.(due := due, inserted := done, signalled := !done || a.signalled)]
      && (done ==> r.table == s.table[Index(due) := r.table[Index(due)]]
                   && GoesBetween(s.timers, s.table[Index(due)], r.table[Index(due)], k, due))
      && (!done ==> r.table == s.table)
  {
    var due: nat := c.now - relative;
    PlacedFirst(s, k, a, due);
    PlaceGoesBetween(s.timers, s.table[Index(due)], k, due);
    InTableIs(s, k, a, relative, c);
    assert Shape(s.(timers := s.timers[k := a]));
    hide Place, InsertInTable, GoesBetween, InsertAt, SortedBy, Shape, Insertable, Index;
  }

  lemma AttemptedIs(tm: Timer, dueTime: int, c: Clock, done: bool)
    requires !Past(dueTime, c)
    ensures var a := Armed(tm, dueTime);
      a.inserted && DueAt(dueTime, c) >= 0
      && a.(due := DueAt(dueTime, c), inserted := done, signalled := !done || a.signalled) == Attempted(tm, dueTime, c, done)
  {
  }

  /** From s to r an attempt to insert timer k has been made, with this result. */
  ghost predicate Attempt(s: State, r: State, k: nat, dueTime: int, c: Clock, done: bool)
    requires k < |s.timers|
  {
    && r.timers == s.timers[k := Attempted(s.timers[k], dueTime, c, done)]
    && (if done then !Past(dueTime, c) && ListTakes(s, r, k, DueAt(dueTime, c)) else r.table == s.table)
  }

  /** Only the list of the due time has changed, by taking in timer k. */
  ghost predicate ListTakes(s: State, r: State, k: nat, due: nat) {
    var i := Index(due);
    |r.table| == |s.table| == TIMER_TABLE_SIZE && r.table == s.table[i := r.table[i]]
    && GoesBetween(s.timers, s.table[i], r.table[i], k, due)
  }

  lemma AttemptAhead(s: State, k: nat, dueTime: int, c: Clock)
    requires !Past(dueTime, c) && DueAt(dueTime, c) >= 0 && Insertable(s, k, DueAt(dueTime, c))
    ensures Attempt(s, Insert(s, k, dueTime, c).0, k, dueTime, c, Insert(s, k, dueTime, c).1)
  {
    var a, relative := Armed(s.timers[k], dueTime), if dueTime < 0 then dueTime else c.system - dueTime;
    var q := s.(timers := s.timers[k := a]);
    assert |s.table| == TIMER_TABLE_SIZE;
    AttemptedIs(s.timers[k], dueTime, c, Insert(s, k, dueTime, c).1);
    hide InsertInTable, Insertable, GoesBetween, Index, Shape, Armed, Attempted;
    GoesToPlace(s, k, a, relative, c);
    assert Insert(s, k, dueTime, c) == InsertInTable(q, k, relative, c);
  }

  /** An attempt to insert a timer that is not inserted changes its entry as said, and of the table at
      most the list of its due time, where it takes its place if it is inserted. */
  lemma AttemptIsExact(s: State, k: nat, dueTime: int, c: Clock)
    requires Inv(s) && k < |s.timers| && !s.timers[k].inserted
    ensures Attempt(s, Insert(s, k, dueTime, c).0, k, dueTime, c, Insert(s, k, dueTime, c).1)
  {
    if !Past(dueTime, c) {
      hide Attempt, Insert, Attempted;
      IdleIsInsertable(s, k, DueAt(dueTime, c));
      AttemptAhead(s, k, dueTime, c);
    }
  }

  /** One timer in the table and one that is idle. */
  function TwoTimers(due: nat): State {
    State([Timer(true, false, false, due, 0), Timer(false, false, false, 0, 0)],
          seq(TIMER_TABLE_SIZE, i => if i == Index(due) then [0] else []))
  }

  lemma TwoTimersOk(due: nat)
    ensures Inv(TwoTimers(due))
  {
    var s := TwoTimers(due);
    forall i | 0 <= i < TIMER_TABLE_SIZE ensures Named(s.timers, s.table[i]) && ListOk(s.timers, s.table[i], i) {}
  }

  /** Behind a timer of the same due time, a timer whose time has come by the second reading of
      the clock stays in the table and is not signalled. */
  lemma DueTimerStaysInTable(due: nat, later: nat)
    requires 0 < due <= later
    ensures Inv(TwoTimers(due))
    ensures var (r, done) := Insert(TwoTimers(due), 1, 0 - due, Clock(0, 0, later));
      done && r.timers[1].inserted && r.timers[1].due == due && !r.timers[1].signalled
  {
    var s, c := TwoTimers(due), Clock(0, 0, later);
    TwoTimersOk(due);
    assert BehindAnother(s, due) by { assert s.timers[s.table[Index(due)][0]].due <= due; }
    assert DueAt(0 - due, c) == due;
    InsertedExactly(s, 1, 0 - due, c);
  }

  // ---------- how the repetition for a periodic timer ends ----------

  /** An attempt with this clock puts the timer into the table. */
  ghost predicate Takes(s: State, dueTime: int, c: Clock)
    requires Shape(s)
  {
    !Past(dueTime, c) && (DueAt(dueTime, c) > c.later || BehindAnother(s, DueAt(dueTime, c)))
  }

  /** A failed attempt changes nothing that the next one looks at. */
  lemma FailureLeavesTable(s: State, r: State, k: nat, dueTime: int, c: Clock)
    requires Inv(s) && k < |s.timers| == |r.timers| && !s.timers[k].inserted && r.table == s.table
    requires forall j :: 0 <= j < |s.timers| && j != k ==> r.timers[j] == s.timers[j]
    ensures Shape(r) && (Takes(r, dueTime, c) <==> Takes(s, dueTime, c))
  {
    NotInserted(s, k);
    if !Past(dueTime, c) {
      var l := s.table[Index(DueAt(dueTime, c))];
      assert Named(s.timers, l);
      assert forall a :: 0 <= a < |l| ==> r.timers[l[a]] == s.timers[l[a]];
    }
  }

  /** The repetition ends, with the timer in the table, exactly when one of the attempts takes. */
  lemma {:induction false} RetryEndsExactly(s: State, k: nat, dueTime: int, clocks: seq<Clock>)
    requires Inv(s) && k < |s.timers| && !s.timers[k].inserted
    ensures |Retry(s, k, dueTime, clocks).timers| == |s.timers|
    ensures Retry(s, k, dueTime, clocks).timers[k].inserted <==>
              exists n :: 0 <= n < |clocks| && Takes(s, dueTime, clocks[n])
    decreases |clocks|
  {
    if clocks != [] {
      InsertShape(s, k, dueTime, clocks[0]);
      InsertedExactly(s, k, dueTime, clocks[0]);
      var (r, done) := Insert(s, k, dueTime, clocks[0]);
      assert done <==> Takes(s, dueTime, clocks[0]);
      if !done {
        InsertKeepsInv(s, k, dueTime, clocks[0]);
        RetryEndsExactly(r, k, dueTime, clocks[1..]);
        forall n | 0 <= n < |clocks| ensures Takes(s, dueTime, clocks[n]) <==> n > 0 && Takes(r, dueTime, clocks[1..][n - 1]) {
          if n > 0 { FailureLeavesTable(s, r, k, dueTime, clocks[n]); }
        }
        assert (exists n :: 0 <= n < |clocks| && Takes(s, dueTime, clocks[n])) ==>
          exists n :: 0 <= n < |clocks[1..]| && Takes(r, dueTime, clocks[1..][n]);
      }
    }
  }

  /** KeSetTimerEx leaves the timer in the table exactly when the first insertion succeeds or,
      for a periodic timer, one of the later attempts takes. */
  lemma SetEndsInserted(s: State, k: nat, dueTime: int, period: int, c: Clock, clocks: seq<Clock>)
    requires Inv(s) && k < |s.timers|
    ensures Shape(Prepared(s, k, period)) && |Set(s, k, dueTime, period, c, clocks).timers| == |s.timers|
    ensures Set(s, k, dueTime, period, c, clocks).timers[k].inserted <==>
              !DueAtOnce(s, k, dueTime, period, c)
              || (period != 0 && exists n :: 0 <= n < |clocks| && Takes(Prepared(s, k, period), Period(period), clocks[n]))
  {
    var q := Prepared(s, k, period);
    assert Inv(q) && !q.timers[k].inserted by {
      CancelKeepsInv(s);
      IdleKeepsInv(Cancel(s, k), k, q.timers[k]);
    }
    InsertedExactly(q, k, dueTime, c);
    InsertShape(q, k, dueTime, c);
    var (t, done) := Insert(q, k, dueTime, c);
    if !done && period != 0 {
      assert Inv(t) by { InsertKeepsInv(q, k, dueTime, c); }
      RetryEndsExactly(t, k, Period(period), clocks);
      forall n | 0 <= n < |clocks| ensures Takes(t, Period(period), clocks[n]) <==> Takes(q, Period(period), clocks[n]) {
        FailureLeavesTable(q, t, k, Period(period), clocks[n]);
      }
    }
  }

  lemma {:induction false} RetryIsExact(s: State, k: nat, dueTime: int, clocks: seq<Clock>)
    requires Inv(s) && k < |s.timers| && !s.timers[k].inserted && s.timers[k].period != 0
    ensures var r := Retry(s, k, dueTime, clocks);
      && |r.timers| == |s.timers| && r.timers[k].period == s.timers[k].period
      && (s.timers[k].signalled ==> r.timers[k].signalled)
      && (forall j :: 0 <= j < |s.timers| && j != k ==> r.timers[j] == s.timers[j])
    decreases |clocks|
  {
    if clocks != [] {
      InsertShape(s, k, dueTime, clocks[0]);
      InsertKeepsInv(s, k, dueTime, clocks[0]);
      AttemptIsExact(s, k, dueTime, clocks[0]);
      var (r, done) := Insert(s, k, dueTime, clocks[0]);
      if !done { RetryIsExact(r, k, dueTime, clocks[1..]); }
    }
  }

  /** A timer that has been set has the period it was given, is signalled exactly if it was due at
      once, and otherwise due when it was asked for; no other timer is concerned. */
  lemma SetIsExact(s: State, k: nat, dueTime: int, period: int, c: Clock, clocks: seq<Clock>)
    requires Inv(s) && k < |s.timers|
    ensures var r := Set(s, k, dueTime, period, c, clocks);
      && |r.timers| == |s.timers| && r.timers[k].period == period
      && (r.timers[k].signalled <==> DueAtOnce(s, k, dueTime, period, c))
      && (!DueAtOnce(s, k, dueTime, period, c) ==>
            r.timers[k].inserted && r.timers[k].due == DueAt(dueTime, c) && (r.timers[k].absolute <==> dueTime >= 0))
      && (forall j :: 0 <= j < |s.timers| && j != k ==> r.timers[j] == s.timers[j])
  {
    var q := Prepared(s, k, period);
    assert Inv(q) && !q.timers[k].inserted by {
      CancelKeepsInv(s);
      IdleKeepsInv(Cancel(s, k), k, q.timers[k]);
    }
    AttemptIsExact(q, k, dueTime, c);
    InsertShape(q, k, dueTime, c);
    InsertKeepsInv(q, k, dueTime, c);
    var (t, done) := Insert(q, k, dueTime, c);
    hide Inv, Insert, GoesBetween;
    if !done && period != 0 { RetryIsExact(t, k, Period(period), clocks); }
  }

  /** For a positive period an attempt takes unless the clock advances by the whole period
      between its two readings. */
  lemma PositivePeriodEnds(s: State, k: nat, period: int, clocks: seq<Clock>, n: nat)
    requires Inv(s) && k < |s.timers| && !s.timers[k].inserted && period > 0
    requires n < |clocks| && clocks[n].later < clocks[n].now + period * CLOCK_TIME_INCREMENT
    ensures |Retry(s, k, Period(period), clocks).timers| == |s.timers|
    ensures Retry(s, k, Period(period), clocks).timers[k].inserted
  {
    RetryEndsExactly(s, k, Period(period), clocks);
    assert Takes(s, Period(period), clocks[n]);
  }

  /** A negative period counts as an absolute time, which lies in the past: as long as the
      system time is not below it the repetition never ends, however often it is made. */
  lemma NegativePeriodNeverEnds(s: State, k: nat, period: int, clocks: seq<Clock>)
    requires Inv(s) && k < |s.timers| && !s.timers[k].inserted && period < 0
    requires forall n :: 0 <= n < |clocks| ==> clocks[n].system >= Period(period)
    ensures |Retry(s, k, Period(period), clocks).timers| == |s.timers|
    ensures !Retry(s, k, Period(period), clocks).timers[k].inserted
  {
    RetryEndsExactly(s, k, Period(period), clocks);
  }

  // ---------- runs of requests ----------

  datatype Op = SetTimer(k: nat, dueTime: int, period: int, c: Clock, clocks: seq<Clock>) | CancelTimer(k: nat)

  function Apply(s: State, op: Op): (r: State)
    requires Shape(s) && op.k < |s.timers|
  {
    match op
    case SetTimer(k, dueTime, period, c, clocks) => Set(s, k, dueTime, period, c, clocks)
    case CancelTimer(k) => Cancel(s, k)
  }

  lemma {:induction false} RetryKeepsInv(s: State, k: nat, dueTime: int, clocks: seq<Clock>)
    requires Inv(s) && k < |s.timers| && !s.timers[k].inserted
    ensures Inv(Retry(s, k, dueTime, clocks)) && |Retry(s, k, dueTime, clocks).timers| == |s.timers|
    decreases |clocks|
  {
    if clocks != [] {
      InsertShape(s, k, dueTime, clocks[0]);
      InsertKeepsInv(s, k, dueTime, clocks[0]);
      InsertedExactly(s, k, dueTime, clocks[0]);
      var (r, done) := Insert(s, k, dueTime, clocks[0]);
      if !done { RetryKeepsInv(r, k, dueTime, clocks[1..]); }
    }
  }

  lemma ApplyKeepsInv(s: State, op: Op)
    requires Inv(s) && op.k < |s.timers|
    ensures Inv(Apply(s, op)) && |Apply(s, op).timers| == |s.timers|
  {
    var k := op.k;
    CancelKeepsInv(s);
    if op.SetTimer? {
      var r := Cancel(s, k);
      var q := Prepared(s, k, op.period);
      IdleKeepsInv(r, k, q.timers[k]);
      InsertShape(q, k, op.dueTime, op.c);
      InsertKeepsInv(q, k, op.dueTime, op.c);
      InsertedExactly(q, k, op.dueTime, op.c);
      var t := Insert(q, k, op.dueTime, op.c);
      if !t.1 && op.period != 0 { RetryKeepsInv(t.0, k, Period(op.period), op.clocks); }
    }
  }

  ghost predicate IsRun(ss: seq<State>, ops: seq<Op>) {
    && |ss| == |ops| + 1
    && (forall i :: 0 <= i < |ss[0].timers| ==> !ss[0].timers[i].inserted)
    && ss[0].table == seq(TIMER_TABLE_SIZE, _ => [])
    && (forall i {:trigger ops[i]} :: 0 <= i < |ops| ==>
          Shape(ss[i]) && ops[i].k < |ss[i].timers| && ss[i + 1] == Apply(ss[i], ops[i]))
  }

  /** After any requests each list is sorted by due time, and a timer is inserted exactly when
      it is linked, once, on the list of its due time. */
  lemma {:induction false} TableStaysExact(ss: seq<State>, ops: seq<Op>, i: nat)
    requires IsRun(ss, ops) && i < |ss|
    ensures forall j :: 0 <= j <= i ==> Inv(ss[j])
  {
    if i > 0 {
      TableStaysExact(ss, ops, i - 1);
      ApplyKeepsInv(ss[i - 1], ops[i - 1]);
    }
  }

  // ---------- the examination of the heads ----------

  /** Where the examination ends, in 32-bit arithmetic. */
  function EndTick(oldTick: nat, tick: nat): nat
    requires oldTick < WORD && tick < WORD
  {
    var elapsed := if tick >= oldTick then tick - oldTick else tick - oldTick + WORD;
    if elapsed <= TIMER_TABLE_SIZE then tick
    else if oldTick + TIMER_TABLE_SIZE < WORD then oldTick + TIMER_TABLE_SIZE else oldTick + TIMER_TABLE_SIZE - WORD
  }

  predicate HeadIsDue(s: State, interruptTime: nat, i: nat)
    requires Shape(s) && i < TIMER_TABLE_SIZE
  {
    s.table[i] != [] && (assert Named(s.timers, s.table[i]); s.timers[s.table[i][0]].due <= interruptTime)
  }

  ghost predicate Fires(s: State, interruptTime: nat, start: nat, end: nat)
    requires Shape(s)
  {
    exists t :: start <= t < end && HeadIsDue(s, interruptTime, Slot(t))
  }

  /** A head speaks for its list: it is due exactly when some timer of the list is. */
  lemma HeadSpeaks(s: State, interruptTime: nat, i: nat)
    requires Inv(s) && i < TIMER_TABLE_SIZE
    ensures HeadIsDue(s, interruptTime, i) <==>
      exists k :: 0 <= k < |s.timers| && s.timers[k].inserted && s.timers[k].due <= interruptTime && Index(s.timers[k].due) == i
  {
    var l := s.table[i];
    assert ListOk(s.timers, l, i);
    if HeadIsDue(s, interruptTime, i) {
      assert s.timers[l[0]].inserted;
    } else {
      forall k | 0 <= k < |s.timers| && s.timers[k].inserted && Index(s.timers[k].due) == i
        ensures s.timers[k].due > interruptTime
      {
        assert k in l;
        var a :| 0 <= a < |l| && l[a] == k;
        assert s.timers[l[0]].due <= s.timers[l[a]].due;
      }
    }
  }

  /** How many ticks after tick `first` list `i` comes up. */
  function Ahead(i: nat, first: nat): (n: nat)
    requires i < TIMER_TABLE_SIZE
    ensures n < TIMER_TABLE_SIZE
  {
    if i >= Slot(first) then i - Slot(first) else i - Slot(first) + TIMER_TABLE_SIZE
  }

  lemma {:induction false} SlotOnward(first: nat, n: nat)
    requires n < TIMER_TABLE_SIZE
    ensures Slot(first + n) == if Slot(first) + n < TIMER_TABLE_SIZE then Slot(first) + n else Slot(first) + n - TIMER_TABLE_SIZE
  {
    if first >= TIMER_TABLE_SIZE { SlotOnward(first - TIMER_TABLE_SIZE, n); }
  }

  /** Whole turns of the table do not count. */
  lemma {:induction false} SlotTurns(ticks: nat, turns: nat)
    ensures Slot(ticks + TIMER_TABLE_SIZE * turns) == Slot(ticks)
  {
    if turns > 0 { SlotTurns(ticks, turns - 1); }
  }

  /** A 32-bit tick count selects the same list as the count of all ticks. */
  lemma SameSlot(ticks: nat)
    ensures Slot(ticks % WORD) == Slot(ticks)
  {
    SlotTurns(ticks % WORD, ticks / WORD * 0x800_0000);
  }

  /** A due timer whose list is one of the `n` that come up from tick `first` on. */
  ghost predicate DueInWindow(s: State, interruptTime: nat, first: nat, n: nat) {
    exists k :: 0 <= k < |s.timers| && s.timers[k].inserted && s.timers[k].due <= interruptTime
      && Ahead(Index(s.timers[k].due), first) < n
  }

  function Window(elapsed: nat): nat { if elapsed <= TIMER_TABLE_SIZE then elapsed else TIMER_TABLE_SIZE }

  /** The 32-bit tick counts name the window, unless the count wraps inside it: then the
      window is empty. */
  lemma WindowEnd(ticks: nat, elapsed: nat)
    requires elapsed < WORD
    ensures var start := ticks % WORD;
      EndTick(start, (ticks + elapsed) % WORD) ==
        if start + Window(elapsed) < WORD then start + Window(elapsed) else start + Window(elapsed) - WORD
  {
    var start := ticks % WORD;
    assert ticks + elapsed == ticks / WORD * WORD + (start + elapsed);
    assert (ticks + elapsed) % WORD == if start + elapsed < WORD then start + elapsed else start + elapsed - WORD;
  }

  lemma SlotInWindow(first: nat, t: nat)
    requires first <= t < first + TIMER_TABLE_SIZE
    ensures Ahead(Slot(t), first) == t - first
  {
    SlotOnward(first, t - first);
  }

  /** What the examination finds, exactly, between tick `ticks` and `elapsed` ticks later, for
      tick counts of any size: it queues the expiry routine if and only if the 32-bit count
      does not wrap in the window and a due timer is on one of the window's lists. */
  lemma FiresExactly(s: State, interruptTime: nat, ticks: nat, elapsed: nat)
    requires Inv(s) && elapsed < WORD
    ensures var start := ticks % WORD;
      Fires(s, interruptTime, start, EndTick(start, (ticks + elapsed) % WORD)) <==>
        start + Window(elapsed) < WORD && DueInWindow(s, interruptTime, ticks, Window(elapsed))
  {
    var start := ticks % WORD;
    WindowEnd(ticks, elapsed);
    if start + Window(elapsed) < WORD {
      FiresInWindow(s, interruptTime, ticks, Window(elapsed));
    }
  }

  lemma FiresInWindow(s: State, interruptTime: nat, ticks: nat, n: nat)
    requires Inv(s) && n <= TIMER_TABLE_SIZE
    ensures Fires(s, interruptTime, ticks % WORD, ticks % WORD + n) <==> DueInWindow(s, interruptTime, ticks, n)
  {
    var start := ticks % WORD;
    if Fires(s, interruptTime, start, start + n) {
      var t :| start <= t < start + n && HeadIsDue(s, interruptTime, Slot(t));
      DueFromHead(s, interruptTime, ticks, n, t);
    }
    if DueInWindow(s, interruptTime, ticks, n) {
      var k :| 0 <= k < |s.timers| && s.timers[k].inserted && s.timers[k].due <= interruptTime
        && Ahead(Index(s.timers[k].due), ticks) < n;
      var i := Index(s.timers[k].due);
      HeadSpeaks(s, interruptTime, i);
      HeadFromDue(s, interruptTime, ticks, n, i);
    }
  }

  lemma DueFromHead(s: State, interruptTime: nat, ticks: nat, n: nat, t: nat)
    requires Inv(s) && ticks % WORD <= t < ticks % WORD + n && n <= TIMER_TABLE_SIZE
    requires HeadIsDue(s, interruptTime, Slot(t))
    ensures DueInWindow(s, interruptTime, ticks, n)
  {
    HeadSpeaks(s, interruptTime, Slot(t));
    SlotInWindow(ticks % WORD, t);
    SameSlot(ticks);
  }

  lemma HeadFromDue(s: State, interruptTime: nat, ticks: nat, n: nat, i: nat)
    requires Inv(s) && i < TIMER_TABLE_SIZE && HeadIsDue(s, interruptTime, i)
    requires Ahead(i, ticks) < n
    ensures Fires(s, interruptTime, ticks % WORD, ticks % WORD + n)
  {
    SameSlot(ticks);
    SlotOnward(ticks % WORD, Ahead(i, ticks));
    assert Slot(ticks % WORD + Ahead(i, ticks)) == i;
  }

  /** With the interrupt time at the tick count, a timer that fell due since the examination
      before is found, if and only if the 32-bit tick count does not wrap in the window. */
  lemma DueTimersAreFound(s: State, interruptTime: nat, ticks: nat, elapsed: nat, k: nat)
    requires Inv(s) && elapsed < WORD && interruptTime / CLOCK_TIME_INCREMENT == ticks + elapsed
    requires k < |s.timers| && s.timers[k].inserted
    requires ticks <= s.timers[k].due / CLOCK_TIME_INCREMENT < ticks + elapsed
    ensures var start := ticks % WORD;
      Fires(s, interruptTime, start, EndTick(start, (ticks + elapsed) % WORD)) <==> start + Window(elapsed) < WORD
  {
    FiresExactly(s, interruptTime, ticks, elapsed);
    var d := s.timers[k].due / CLOCK_TIME_INCREMENT;
    DueBefore(s.timers[k].due, interruptTime);
    SlotBelow(d, ticks);
    assert DueInWindow(s, interruptTime, ticks, Window(elapsed));
  }

  lemma DueBefore(due: nat, time: nat)
    requires due / CLOCK_TIME_INCREMENT < time / CLOCK_TIME_INCREMENT
    ensures due <= time
  {}

  lemma {:induction false} SlotBelow(d: nat, first: nat)
    requires first <= d
    ensures Ahead(Slot(d), first) <= d - first
  {
    if d < first + TIMER_TABLE_SIZE { SlotInWindow(first, d); } else { SlotBelow(d - TIMER_TABLE_SIZE, first); }
  }

  /** The expiry routine is queued only when some timer is due. */
  lemma OnlyWhenDue(s: State, interruptTime: nat, start: nat, end: nat)
    requires Inv(s) && Fires(s, interruptTime, start, end)
    ensures exists k :: 0 <= k < |s.timers| && s.timers[k].inserted && s.timers[k].due <= interruptTime
  {
    var t :| start <= t < end && HeadIsDue(s, interruptTime, Slot(t));
    HeadSpeaks(s, interruptTime, t % TIMER_TABLE_SIZE);
  }

  /** The wrap does happen: as the count wraps, a timer of the millisecond before is passed over. */
  lemma WrapHidesADueTimer()
    ensures var s := TwoTimers((WORD - 1) * CLOCK_TIME_INCREMENT);
      && Inv(s) && s.timers[0].inserted && s.timers[0].due <= WORD * CLOCK_TIME_INCREMENT
      && !Fires(s, WORD * CLOCK_TIME_INCREMENT, WORD - 1, EndTick(WORD - 1, 0))
  {
    TwoTimersOk((WORD - 1) * CLOCK_TIME_INCREMENT);
    assert EndTick(WORD - 1, 0) == 0;
  }
}

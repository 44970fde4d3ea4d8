/** References of executive timers, nboxkrnl/ex/extimer.cpp. */
module ExecutiveTimer {
  // Five operations share a timer: set, cancel, the DPC, the APC's kernel routine and the
  // rundown of a terminating thread. Each references the timer, works inside one block at
  // DISPATCH_LEVEL and gives references back one by one afterwards. A block is one step here,
  // and so is each reference taken or given back; the steps of all operations interleave.
  // The DPC itself runs at DISPATCH_LEVEL, so a whole firing is one step.

  import opened Tally
  import opened Seqs

  /** How often the armed kernel timer may still run the DPC. */
  datatype Firings = Never | Once | Repeatedly

  datatype Timer = Timer(
    refs: int,            // pointer count of the object
    handles: int,         // how many of them belong to open handles
    associated: bool,     // ApcAssociated
    apcThread: nat,       // TimerApc.Thread
    queued: bool,         // TimerApc.Inserted
    period: int,
    firings: Firings)

  /** ActiveTimerListHead of every thread. */
  type Lists = seq<seq<nat>>

  /** RemoveEntryList on a timer's entry: it leaves whatever list it is on. */
  function Unlink(lists: Lists, k: nat): Lists {
    seq(|lists|, t requires 0 <= t < |lists| => Without(lists[t], k))
  }

  function Link(lists: Lists, t: nat, k: nat): Lists
    requires t < |lists|
  {
    lists[t := lists[t] + [k]]
  }

  // ---------- the blocks; each yields the timer, the lists and DerefsToDo ----------

  /** What set, cancel and rundown do to a timer that still has its APC association. */
  function Disassociate(tm: Timer): Timer {
    tm.(associated := false, firings := Never, queued := false)
  }

  function SetBlock(tm: Timer, lists: Lists, k: nat, t: nat, routine: bool, period: int): (Timer, Lists, int)
    requires t < |lists|
  {
    var derefs := if !tm.associated then 1 else if tm.queued then 3 else 2;
    var l := if tm.associated then Unlink(lists, k) else lists;
    var d := (if tm.associated then Disassociate(tm) else tm).(period := period);
    if routine then
      (d.(associated := true, apcThread := t, queued := false, firings := if period == 0 then Once else Repeatedly),
       Link(l, t, k), derefs - 1)
    else (d, l, derefs)
  }

  function CancelBlock(tm: Timer, lists: Lists, k: nat): (Timer, Lists, int) {
    if tm.associated then (Disassociate(tm), Unlink(lists, k), if tm.queued then 3 else 2)
    else (tm, lists, 1)
  }

  function RundownBlock(tm: Timer, lists: Lists, k: nat, t: nat): (Timer, Lists, int) {
    if tm.associated && tm.apcThread == t
    then (Disassociate(tm), Unlink(lists, k), if tm.queued then 3 else 2)
    else (tm, lists, 1)
  }

  function KernelRoutine(tm: Timer, lists: Lists, k: nat, t: nat): (Timer, Lists, int) {
    if tm.associated && tm.apcThread == t && tm.period == 0
    then (tm.(associated := false), Unlink(lists, k), 2)
    else (tm, lists, 1)
  }

  /** The kernel routine leaves the normal routine alone; otherwise it clears it. */
  predicate KeepsNormal(tm: Timer, t: nat) { tm.associated && tm.apcThread == t }

  /** One firing of the DPC; `queueable` is ApcQueueable of the APC's thread. */
  function DpcRoutine(tm: Timer, queueable: bool): Timer {
    var fired := tm.(firings := if tm.firings.Once? then Never else tm.firings);
    if tm.refs != 0 && tm.associated && queueable && !tm.queued
    then fired.(refs := tm.refs + 1, queued := true)
    else fired
  }

  // ---------- the object and the blocks in the form of the source ----------

  class ActiveTimerLists {
    var lists: Lists

    constructor (threads: nat)
      ensures lists == seq(threads, _ => [])
    {
      lists := seq(threads, _ => []);
    }

    method RemoveEntry(k: nat)
      modifies this
      ensures lists == Unlink(old(lists), k)
    {
      lists := Unlink(lists, k);
    }

    method InsertTail(t: nat, k: nat)
      requires t < |lists|
      modifies this
      ensures lists == Link(old(lists), t, k)
    {
      lists := lists[t := lists[t] + [k]];
    }
  }

  class ETimer {
    const Id: nat
    var Refs: int
    var Handles: int
    var ApcAssociated: bool
    var ApcThread: nat
    var ApcInserted: bool
    var Period: int
    var Pending: Firings

    ghost function View(): Timer
      reads this
    {
      Timer(Refs, Handles, ApcAssociated, ApcThread, ApcInserted, Period, Pending)
    }

    constructor (id: nat)
      ensures Id == id && View() == Timer(1, 1, false, 0, false, 0, Never)
    {
      Id, Refs, Handles := id, 1, 1;
      ApcAssociated, ApcThread, ApcInserted, Period, Pending := false, 0, false, 0, Never;
    }

    method KeRemoveQueueApc() returns (inserted: bool)
      modifies this`ApcInserted
      ensures inserted == old(ApcInserted) && !ApcInserted
    {
      inserted := ApcInserted;
      ApcInserted := false;
    }

    /** ObDereferenceObjectEx: stops as soon as the object goes away, without counting that
        last step down. Its closing assertion (nothing left) therefore fails exactly when the
        call takes the last reference, although nothing is wrong with the count. */
    method ObDereferenceObjectEx(decreaseBy: nat) returns (left: nat)
      requires Refs > 0
      modifies this`Refs
      ensures Refs == if decreaseBy < old(Refs) then old(Refs) - decreaseBy else 0
      ensures left == 0 <==> decreaseBy == 0 || decreaseBy < old(Refs)
    {
      left := decreaseBy;
      while left > 0
        invariant 0 <= left <= decreaseBy && Refs > 0 && Refs - left == old(Refs) - decreaseBy
      {
        Refs := Refs - 1;
        if Refs == 0 { break; }
        left := left - 1;
      }
    }

    method NtSetTimerEx(active: ActiveTimerLists, thread: nat, routine: bool, period: int) returns (derefsToDo: int)
      requires thread < |active.lists|
      modifies this, active
      ensures (View(), active.lists, derefsToDo)
              == SetBlock(old(View()), old(active.lists), Id, thread, routine, period)
    {
      derefsToDo := 1;
      if ApcAssociated {
        active.RemoveEntry(Id);
        ApcAssociated := false;
        Pending := Never;
        var removed := KeRemoveQueueApc();
        if removed { derefsToDo := derefsToDo + 1; }
        derefsToDo := derefsToDo + 1;
      }
      Period := period;
      if routine {
        ApcThread, ApcInserted := thread, false;
        active.InsertTail(thread, Id);
        ApcAssociated := true;
        derefsToDo := derefsToDo - 1;
        Pending := if period == 0 then Once else Repeatedly;
      }
    }

    method NtCancelTimer(active: ActiveTimerLists) returns (derefsToDo: int)
      modifies this, active
      ensures (View(), active.lists, derefsToDo) == CancelBlock(old(View()), old(active.lists), Id)
    {
      derefsToDo := 1;
      if ApcAssociated {
        active.RemoveEntry(Id);
        ApcAssociated := false;
        Pending := Never;
        var removed := KeRemoveQueueApc();
        if removed { derefsToDo := derefsToDo + 1; }
        derefsToDo := derefsToDo + 1;
      }
    }

    method RundownOne(active: ActiveTimerLists, thread: nat) returns (derefsToDo: int)
      modifies this, active
      ensures (View(), active.lists, derefsToDo) == RundownBlock(old(View()), old(active.lists), Id, thread)
    {
      derefsToDo := 1;
      if ApcAssociated && thread == ApcThread {
        active.RemoveEntry(Id);
        ApcAssociated := false;
        Pending := Never;
        var removed := KeRemoveQueueApc();
        if removed { derefsToDo := derefsToDo + 1; }
        derefsToDo := derefsToDo + 1;
      }
    }

    method ExpTimerApcKernelRoutine(active: ActiveTimerLists, thread: nat)
      returns (derefsToDo: int, keepNormalRoutine: bool)
      modifies this, active
      ensures (View(), active.lists, derefsToDo) == KernelRoutine(old(View()), old(active.lists), Id, thread)
      ensures keepNormalRoutine == KeepsNormal(old(View()), thread)
    {
      derefsToDo, keepNormalRoutine := 1, true;
      if ApcAssociated && thread == ApcThread {
        if Period == 0 {
          active.RemoveEntry(Id);
          ApcAssociated := false;
          derefsToDo := derefsToDo + 1;
        }
      } else {
        keepNormalRoutine := false;
      }
    }

    method ExpTimerDpcRoutine(queueable: bool)
      modifies this
      ensures View() == DpcRoutine(old(View()), queueable)
    {
      if Pending.Once? { Pending := Never; }
      if Refs == 0 { return; }
      Refs := Refs + 1;
      var inserted := false;
      if ApcAssociated && queueable && !ApcInserted {
        ApcInserted := true;
        inserted := true;
      }
      if !inserted { Refs := Refs - 1; }
    }
  }

  // ---------- the system: timers, the threads' lists, APC frames and calls in progress ----------

  /** A timer APC that its thread has dequeued and whose kernel routine is not over yet; `normal`
      says whether the kernel routine has left the normal routine to be called. */
  datatype Frame = NoApc | Delivering(k: nat) | ApcDropping(k: nat, n: int, normal: bool)

  /** Where a call of NtSetTimerEx, NtCancelTimer or ExTimerRundown stands. */
  datatype Pc =
    | Free
    | InSet(k: nat, routine: bool, period: int)
    | InCancel(k: nat)
    | Dropping(k: nat, n: int)
    | AtHead                        // rundown: about to look at the head of the list
    | InRundown(k: nat)             // rundown: has referenced the timer it found there
    | RundownDropping(k: nat, n: int)
    | Over                          // rundown: found the list empty

  /** Any number of calls may be in progress, also several on one thread (an APC routine that
      interrupts a call may make another). */
  datatype Call = Call(thread: nat, pc: Pc)

  datatype State = State(timers: seq<Timer>, lists: Lists, frames: seq<Frame>, calls: seq<Call>)

  datatype Action =
    | OpenSet(k: nat, routine: bool, period: int)
    | OpenCancel(k: nat)
    | OpenRundown
    | Advance
    | Fire(k: nat, queueable: bool)
    | Deliver(k: nat)
    | AdvanceFrame
    | Duplicate(k: nat)
    | Close(k: nat)

  /** `who` is the call for the first four actions and the thread for Deliver and AdvanceFrame. */
  datatype Move = Move(who: nat, a: Action)

  predicate WellFormed(s: State) {
    && |s.frames| == |s.lists|
    && forall c :: 0 <= c < |s.calls| ==> s.calls[c].thread < |s.lists|
  }

  function Subject(p: Pc): nat
    requires !p.Free? && !p.AtHead? && !p.Over?
  {
    p.k
  }

  predicate Running(s: State, c: nat)
    requires WellFormed(s)
  {
    c < |s.calls| && s.frames[s.calls[c].thread].NoApc?
  }

  predicate Enabled(s: State, m: Move) {
    && WellFormed(s)
    && match m.a {
      case OpenSet(k, _, period) =>
        Running(s, m.who) && s.calls[m.who].pc.Free? && k < |s.timers| && s.timers[k].handles > 0 && period >= 0
      case OpenCancel(k) =>
        Running(s, m.who) && s.calls[m.who].pc.Free? && k < |s.timers| && s.timers[k].handles > 0
      case OpenRundown => Running(s, m.who) && s.calls[m.who].pc.Free?
      case Advance =>
        && Running(s, m.who) && !s.calls[m.who].pc.Free? && !s.calls[m.who].pc.Over?
        && (s.calls[m.who].pc.AtHead? || s.calls[m.who].pc.k < |s.timers|)
        && (s.calls[m.who].pc.AtHead? && s.lists[s.calls[m.who].thread] != [] ==>
              s.lists[s.calls[m.who].thread][0] < |s.timers|)
      case Fire(k, _) => k < |s.timers| && !s.timers[k].firings.Never?
      case Deliver(k) =>
        && m.who < |s.frames| && s.frames[m.who].NoApc?
        && k < |s.timers| && s.timers[k].queued && s.timers[k].apcThread == m.who
      case AdvanceFrame => m.who < |s.frames| && !s.frames[m.who].NoApc? && s.frames[m.who].k < |s.timers|
      case Duplicate(k) => k < |s.timers| && s.timers[k].handles > 0
      case Close(k) => k < |s.timers| && s.timers[k].handles > 0
    }
  }

  function WithRefs(s: State, k: nat, delta: int): State
    requires k < |s.timers|
  {
    s.(timers := s.timers[k := s.timers[k].(refs := s.timers[k].refs + delta)])
  }

  function WithPc(s: State, c: nat, p: Pc): State
    requires c < |s.calls|
  {
    s.(calls := s.calls[c := s.calls[c].(pc := p)])
  }

  function WithTimer(s: State, k: nat, r: (Timer, Lists, int)): State
    requires k < |s.timers|
  {
    s.(timers := s.timers[k := r.0], lists := r.1)
  }

  /** One round of ObDereferenceObjectEx: it stops early when the object goes away. */
  function Left(s: State, k: nat, n: int): int
    requires k < |s.timers|
  {
    if s.timers[k].refs == 1 then 0 else n - 1
  }

  function NextAdvance(s: State, c: nat): State
    requires Enabled(s, Move(c, Advance))
  {
    var t := s.calls[c].thread;
    match s.calls[c].pc
    case InSet(k, routine, period) =>
      var r := SetBlock(s.timers[k], s.lists, k, t, routine, period);
      WithPc(WithTimer(s, k, r), c, if r.2 > 0 then Dropping(k, r.2) else Free)
    case InCancel(k) =>
      var r := CancelBlock(s.timers[k], s.lists, k);
      WithPc(WithTimer(s, k, r), c, Dropping(k, r.2))
    case Dropping(k, n) =>
      WithPc(WithRefs(s, k, -1), c, if Left(s, k, n) > 0 then Dropping(k, Left(s, k, n)) else Free)
    case AtHead =>
      if s.lists[t] == [] then WithPc(s, c, Over)
      else WithPc(WithRefs(s, s.lists[t][0], 1), c, InRundown(s.lists[t][0]))
    case InRundown(k) =>
      var r := RundownBlock(s.timers[k], s.lists, k, t);
      WithPc(WithTimer(s, k, r), c, RundownDropping(k, r.2))
    case RundownDropping(k, n) =>
      WithPc(WithRefs(s, k, -1), c, if Left(s, k, n) > 0 then RundownDropping(k, Left(s, k, n)) else AtHead)
  }

  function NextFrame(s: State, t: nat): State
    requires Enabled(s, Move(t, AdvanceFrame))
  {
    match s.frames[t]
    case Delivering(k) =>
      var r := KernelRoutine(s.timers[k], s.lists, k, t);
      WithTimer(s, k, r).(frames := s.frames[t := ApcDropping(k, r.2, KeepsNormal(s.timers[k], t))])
    case ApcDropping(k, n, normal) =>
      WithRefs(s, k, -1).(frames := s.frames[t := if Left(s, k, n) > 0 then ApcDropping(k, Left(s, k, n), normal) else NoApc])
  }

  function Next(s: State, m: Move): State
    requires Enabled(s, m)
  {
    match m.a
    case OpenSet(k, routine, period) => WithPc(WithRefs(s, k, 1), m.who, InSet(k, routine, period))
    case OpenCancel(k) => WithPc(WithRefs(s, k, 1), m.who, InCancel(k))
    case OpenRundown => WithPc(s, m.who, AtHead)
    case Advance => NextAdvance(s, m.who)
    case Fire(k, queueable) => s.(timers := s.timers[k := DpcRoutine(s.timers[k], queueable)])
    case Deliver(k) =>
      s.(timers := s.timers[k := s.timers[k].(queued := false)], frames := s.frames[m.who := Delivering(k)])
    case AdvanceFrame => NextFrame(s, m.who)
    case Duplicate(k) =>
      s.(timers := s.timers[k := s.timers[k].(refs := s.timers[k].refs + 1, handles := s.timers[k].handles + 1)])
    case Close(k) =>
      s.(timers := s.timers[k := s.timers[k].(refs := s.timers[k].refs - 1, handles := s.timers[k].handles - 1)])
  }

  // ---------- who owes a reference to timer k ----------

  function PcOwes(p: Pc, k: nat): nat {
    match p
    case Free => 0
    case AtHead => 0
    case Over => 0
    case InSet(j, _, _) => if j == k then 1 else 0
    case InCancel(j) => if j == k then 1 else 0
    case InRundown(j) => if j == k then 1 else 0
    case Dropping(j, n) => if j == k && n > 0 then n else 0
    case RundownDropping(j, n) => if j == k && n > 0 then n else 0
  }

  function FrameOwes(f: Frame, k: nat): nat {
    match f
    case NoApc => 0
    case Delivering(j) => if j == k then 1 else 0
    case ApcDropping(j, n, _) => if j == k && n > 0 then n else 0
  }

  function CallW(k: nat): Call -> nat { (c: Call) => PcOwes(c.pc, k) }
  function FrameW(k: nat): Frame -> nat { (f: Frame) => FrameOwes(f, k) }

  /** Handles, calls and frames in progress, one for the association, one for a queued APC. */
  ghost function Owed(s: State, k: nat): int
    requires k < |s.timers|
  {
    s.timers[k].handles + Sum(s.calls, CallW(k)) + Sum(s.frames, FrameW(k))
    + (if s.timers[k].associated then 1 else 0) + (if s.timers[k].queued then 1 else 0)
  }

  /** A one-shot timer whose APC is on its way to the thread of its association is spent. */
  ghost predicate Spent(s: State, k: nat)
    requires k < |s.timers|
  {
    var tm := s.timers[k];
    && (tm.queued ==> tm.associated && (tm.period == 0 ==> tm.firings.Never?))
    && (tm.associated && tm.period == 0 && tm.apcThread < |s.frames| && s.frames[tm.apcThread] == Delivering(k) ==>
          !tm.queued && tm.firings.Never?)
    && (!tm.associated ==> tm.firings.Never?)
    && (if tm.period == 0 then !tm.firings.Repeatedly? else !tm.firings.Once?)
  }

  ghost predicate OnItsList(s: State, k: nat)
    requires k < |s.timers|
  {
    forall t :: 0 <= t < |s.lists| ==> (k in s.lists[t] <==> s.timers[k].associated && s.timers[k].apcThread == t)
  }

  ghost predicate ListsValid(s: State) {
    && (forall t :: 0 <= t < |s.lists| ==> NoDup(s.lists[t]))
    && (forall t, k :: 0 <= t < |s.lists| && k in s.lists[t] ==> k < |s.timers|)
  }

  ghost predicate TimerInv(s: State, k: nat)
    requires k < |s.timers|
  {
    && s.timers[k].handles >= 0
    && (s.timers[k].associated ==> s.timers[k].apcThread < |s.lists|)
    && s.timers[k].refs == Owed(s, k)
    && Spent(s, k)
    && OnItsList(s, k)
  }

  ghost predicate PcValid(s: State, p: Pc) {
    match p
    case Free => true
    case AtHead => true
    case Over => true
    case InSet(k, _, _) => k < |s.timers|
    case InCancel(k) => k < |s.timers|
    case InRundown(k) => k < |s.timers|
    case Dropping(k, n) => k < |s.timers| && n > 0
    case RundownDropping(k, n) => k < |s.timers| && 0 < n <= 3
  }

  ghost predicate FrameValid(s: State, f: Frame) {
    f.NoApc? || (f.k < |s.timers| && (f.ApcDropping? ==> f.n > 0))
  }

  ghost predicate Inv(s: State) {
    && WellFormed(s)
    && ListsValid(s)
    && (forall c :: 0 <= c < |s.calls| ==> PcValid(s, s.calls[c].pc))
    && (forall t :: 0 <= t < |s.frames| ==> FrameValid(s, s.frames[t]))
    && (forall k :: 0 <= k < |s.timers| ==> TimerInv(s, k))
  }

  // ---------- every step keeps the invariant ----------

  lemma CallSum(s: State, c: nat, p: Pc, k: nat)
    requires c < |s.calls|
    ensures Sum(WithPc(s, c, p).calls, CallW(k))
            == Sum(s.calls, CallW(k)) - PcOwes(s.calls[c].pc, k) + PcOwes(p, k)
  {
    SumUpdate(s.calls, c, s.calls[c].(pc := p), CallW(k));
  }

  lemma FrameSum(frames: seq<Frame>, t: nat, f: Frame, k: nat)
    requires t < |frames|
    ensures Sum(frames[t := f], FrameW(k)) == Sum(frames, FrameW(k)) - FrameOwes(frames[t], k) + FrameOwes(f, k)
  {
    SumUpdate(frames, t, f, FrameW(k));
  }

  /** A timer has at least the references that one call or one frame still has to give back. */
  lemma Covered(s: State, k: nat)
    requires Inv(s) && k < |s.timers|
    ensures forall c :: 0 <= c < |s.calls| ==> s.timers[k].refs >= PcOwes(s.calls[c].pc, k) + s.timers[k].handles
    ensures forall t :: 0 <= t < |s.frames| ==> s.timers[k].refs >= FrameOwes(s.frames[t], k) + s.timers[k].handles
  {
    assert TimerInv(s, k);
    forall c | 0 <= c < |s.calls| ensures s.timers[k].refs >= PcOwes(s.calls[c].pc, k) + s.timers[k].handles {
      SumCovers(s.calls, c, c, CallW(k));
    }
    forall t | 0 <= t < |s.frames| ensures s.timers[k].refs >= FrameOwes(s.frames[t], k) + s.timers[k].handles {
      SumCovers(s.frames, t, t, FrameW(k));
    }
  }

  lemma UnlinkAt(lists: Lists, k: nat, t: nat)
    requires t < |lists|
    ensures |Unlink(lists, k)| == |lists| && Unlink(lists, k)[t] == Without(lists[t], k)
  {
  }

  lemma UnlinkMembers(lists: Lists, k: nat)
    requires forall t :: 0 <= t < |lists| ==> NoDup(lists[t])
    ensures |Unlink(lists, k)| == |lists|
    ensures forall t :: 0 <= t < |lists| ==> NoDup(Unlink(lists, k)[t])
    ensures forall t, j :: 0 <= t < |lists| ==> (j in Unlink(lists, k)[t] <==> j in lists[t] && j != k)
  {
    forall t | 0 <= t < |lists|
      ensures NoDup(Unlink(lists, k)[t]) && forall j :: j in Unlink(lists, k)[t] <==> j in lists[t] && j != k
    {
      WithoutMembers(lists[t], k);
    }
  }

  lemma LinkMembers(lists: Lists, t: nat, k: nat)
    requires t < |lists| && k !in lists[t]
    requires forall u :: 0 <= u < |lists| ==> NoDup(lists[u])
    ensures forall u :: 0 <= u < |lists| ==> NoDup(Link(lists, t, k)[u])
    ensures forall u, j :: 0 <= u < |lists| ==> (j in Link(lists, t, k)[u] <==> j in lists[u] || (u == t && j == k))
  {
  }

  lemma HandleKeepsInv(s: State)
    requires Inv(s)
    ensures forall m :: Enabled(s, m) && (m.a.Duplicate? || m.a.Close? || m.a.Fire?) ==> Inv(Next(s, m))
  {
    hide Sum, NoDup;
    forall m | Enabled(s, m) && (m.a.Duplicate? || m.a.Close? || m.a.Fire?) ensures Inv(Next(s, m)) {
      forall k | 0 <= k < |s.timers| ensures TimerInv(Next(s, m), k) {
        assert TimerInv(s, k);
      }
    }
  }

  lemma OpenKeepsInv(s: State)
    requires Inv(s)
    ensures forall m :: Enabled(s, m) && (m.a.OpenSet? || m.a.OpenCancel? || m.a.OpenRundown?) ==> Inv(Next(s, m))
  {
    hide Sum, NoDup;
    forall m | Enabled(s, m) && (m.a.OpenSet? || m.a.OpenCancel? || m.a.OpenRundown?) ensures Inv(Next(s, m)) {
      var s' := Next(s, m);
      forall k | 0 <= k < |s.timers| ensures TimerInv(s', k) {
        assert TimerInv(s, k);
        CallSum(s, m.who, s'.calls[m.who].pc, k);
      }
    }
  }

  lemma DeliverKeepsInv(s: State)
    requires Inv(s)
    ensures forall m :: Enabled(s, m) && m.a.Deliver? ==> Inv(Next(s, m))
  {
    hide Sum, NoDup;
    forall m | Enabled(s, m) && m.a.Deliver? ensures Inv(Next(s, m)) {
      var s' := Next(s, m);
      forall k | 0 <= k < |s.timers| ensures TimerInv(s', k) {
        assert TimerInv(s, k);
        FrameSum(s.frames, m.who, s'.frames[m.who], k);
      }
    }
  }

  lemma KernelRoutineKeepsInv(s: State)
    requires Inv(s)
    ensures forall t: nat :: Enabled(s, Move(t, AdvanceFrame)) && s.frames[t].Delivering? ==> Inv(NextFrame(s, t))
  {
    hide Sum;
    forall t: nat | Enabled(s, Move(t, AdvanceFrame)) && s.frames[t].Delivering? ensures Inv(NextFrame(s, t)) {
      var s' := NextFrame(s, t);
      UnlinkMembers(s.lists, s.frames[t].k);
      hide NoDup;
      forall k | 0 <= k < |s.timers| ensures TimerInv(s', k) {
        assert TimerInv(s, k);
        FrameSum(s.frames, t, s'.frames[t], k);
      }
    }
  }

  lemma FrameDropKeepsInv(s: State)
    requires Inv(s)
    ensures forall t: nat :: Enabled(s, Move(t, AdvanceFrame)) && s.frames[t].ApcDropping? ==> Inv(NextFrame(s, t))
  {
    hide Sum, NoDup;
    forall t: nat | Enabled(s, Move(t, AdvanceFrame)) && s.frames[t].ApcDropping? ensures Inv(NextFrame(s, t)) {
      var s' := NextFrame(s, t);
      Covered(s, s.frames[t].k);
      forall k | 0 <= k < |s.timers| ensures TimerInv(s', k) {
        assert TimerInv(s, k);
        FrameSum(s.frames, t, s'.frames[t], k);
      }
    }
  }

  /** A set puts its timer on the list of its thread, or on none, and moves no other. */
  ghost predicate ListsSet(s: State, s': State, k0: nat, t: nat, routine: bool) {
    && |s'.lists| == |s.lists| && ListsValid(s')
    && (forall u, k :: 0 <= u < |s.lists| && k != k0 ==> (k in s'.lists[u] <==> k in s.lists[u]))
    && (forall u :: 0 <= u < |s.lists| ==> (k0 in s'.lists[u] <==> routine && u == t))
  }

  lemma SetLists(s: State)
    requires Inv(s)
    ensures forall c: nat :: Enabled(s, Move(c, Advance)) && s.calls[c].pc.InSet? ==>
              ListsSet(s, NextAdvance(s, c), s.calls[c].pc.k, s.calls[c].thread, s.calls[c].pc.routine)
  {
    forall c: nat | Enabled(s, Move(c, Advance)) && s.calls[c].pc.InSet?
      ensures ListsSet(s, NextAdvance(s, c), s.calls[c].pc.k, s.calls[c].thread, s.calls[c].pc.routine)
    {
      var k0, t := s.calls[c].pc.k, s.calls[c].thread;
      var l := if s.timers[k0].associated then Unlink(s.lists, k0) else s.lists;
      assert TimerInv(s, k0);
      UnlinkMembers(s.lists, k0);
      assert forall u :: 0 <= u < |l| ==> k0 !in l[u];
      LinkMembers(l, t, k0);
    }
  }

  lemma SetKeepsInv(s: State)
    requires Inv(s)
    ensures forall c: nat :: Enabled(s, Move(c, Advance)) && s.calls[c].pc.InSet? ==> Inv(NextAdvance(s, c))
  {
    hide Sum, NoDup;
    forall c: nat | Enabled(s, Move(c, Advance)) && s.calls[c].pc.InSet? ensures Inv(NextAdvance(s, c)) {
      var s' := NextAdvance(s, c);
      var k0 := s.calls[c].pc.k;
      SetLists(s);
      assert ListsSet(s, s', k0, s.calls[c].thread, s.calls[c].pc.routine);
      forall k | 0 <= k < |s.timers| ensures TimerInv(s', k) {
        assert TimerInv(s, k);
        CallSum(s, c, s'.calls[c].pc, k);
        if k == k0 {
          assert s'.timers[k0].refs == Owed(s', k0);
          assert Spent(s', k0);
        } else {
          assert s'.timers[k] == s.timers[k];
        }
      }
    }
  }

  lemma CancelKeepsInv(s: State)
    requires Inv(s)
    ensures forall c: nat :: Enabled(s, Move(c, Advance)) && s.calls[c].pc.InCancel? ==> Inv(NextAdvance(s, c))
  {
    hide Sum;
    forall c: nat | Enabled(s, Move(c, Advance)) && s.calls[c].pc.InCancel? ensures Inv(NextAdvance(s, c)) {
      var s' := NextAdvance(s, c);
      UnlinkMembers(s.lists, s.calls[c].pc.k);
      hide NoDup;
      forall k | 0 <= k < |s.timers| ensures TimerInv(s', k) {
        assert TimerInv(s, k);
        CallSum(s, c, s'.calls[c].pc, k);
      }
    }
  }

  lemma RoundKeepsInv(s: State)
    requires Inv(s)
    ensures forall c: nat :: Enabled(s, Move(c, Advance)) && s.calls[c].pc.InRundown? ==> Inv(NextAdvance(s, c))
  {
    hide Sum;
    forall c: nat | Enabled(s, Move(c, Advance)) && s.calls[c].pc.InRundown? ensures Inv(NextAdvance(s, c)) {
      var s' := NextAdvance(s, c);
      UnlinkMembers(s.lists, s.calls[c].pc.k);
      hide NoDup;
      forall k | 0 <= k < |s.timers| ensures TimerInv(s', k) {
        assert TimerInv(s, k);
        CallSum(s, c, s'.calls[c].pc, k);
      }
    }
  }

  lemma HeadKeepsInv(s: State)
    requires Inv(s)
    ensures forall c: nat :: Enabled(s, Move(c, Advance)) && s.calls[c].pc.AtHead? ==> Inv(NextAdvance(s, c))
  {
    hide Sum, NoDup;
    forall c: nat | Enabled(s, Move(c, Advance)) && s.calls[c].pc.AtHead? ensures Inv(NextAdvance(s, c)) {
      var s' := NextAdvance(s, c);
      forall k | 0 <= k < |s.timers| ensures TimerInv(s', k) {
        assert TimerInv(s, k);
        CallSum(s, c, s'.calls[c].pc, k);
      }
    }
  }

  lemma DropKeepsInv(s: State)
    requires Inv(s)
    ensures forall c: nat :: Enabled(s, Move(c, Advance)) && (s.calls[c].pc.Dropping? || s.calls[c].pc.RundownDropping?) ==>
              Inv(NextAdvance(s, c))
  {
    hide Sum, NoDup;
    forall c: nat | Enabled(s, Move(c, Advance)) && (s.calls[c].pc.Dropping? || s.calls[c].pc.RundownDropping?)
      ensures Inv(NextAdvance(s, c))
    {
      var s' := NextAdvance(s, c);
      Covered(s, s.calls[c].pc.k);
      forall k | 0 <= k < |s.timers| ensures TimerInv(s', k) {
        assert TimerInv(s, k);
        CallSum(s, c, s'.calls[c].pc, k);
      }
    }
  }

  lemma StepKeepsInv(s: State)
    requires Inv(s)
    ensures forall m :: Enabled(s, m) ==> Inv(Next(s, m))
  {
    hide Inv;
    forall m | Enabled(s, m) ensures Inv(Next(s, m)) {
      match m.a
      case OpenSet(_, _, _) => OpenKeepsInv(s);
      case OpenCancel(_) => OpenKeepsInv(s);
      case OpenRundown => OpenKeepsInv(s);
      case Fire(_, _) => HandleKeepsInv(s);
      case Duplicate(_) => HandleKeepsInv(s);
      case Close(_) => HandleKeepsInv(s);
      case Deliver(_) => DeliverKeepsInv(s);
      case AdvanceFrame =>
        if s.frames[m.who].Delivering? { KernelRoutineKeepsInv(s); } else { FrameDropKeepsInv(s); }
      case Advance =>
        match s.calls[m.who].pc {
          case InSet(_, _, _) => SetKeepsInv(s);
          case InCancel(_) => CancelKeepsInv(s);
          case InRundown(_) => RoundKeepsInv(s);
          case AtHead => HeadKeepsInv(s);
          case _ => DropKeepsInv(s);
        }
    }
  }

  // ---------- runs ----------

  predicate Initial(s: State) {
    && WellFormed(s)
    && (forall k :: 0 <= k < |s.timers| ==> s.timers[k].refs == s.timers[k].handles >= 0)
    && (forall k :: 0 <= k < |s.timers| ==> !s.timers[k].associated && !s.timers[k].queued && s.timers[k].firings.Never?)
    && (forall t :: 0 <= t < |s.lists| ==> s.lists[t] == [])
    && (forall t :: 0 <= t < |s.frames| ==> s.frames[t].NoApc?)
    && (forall c :: 0 <= c < |s.calls| ==> s.calls[c].pc.Free?)
  }

  ghost predicate IsRun(ss: seq<State>, ms: seq<Move>) {
    && |ss| == |ms| + 1
    && forall i {:trigger ms[i]} :: 0 <= i < |ms| ==> Enabled(ss[i], ms[i]) && ss[i + 1] == Next(ss[i], ms[i])
  }

  lemma InitialInv(s: State)
    requires Initial(s)
    ensures Inv(s)
  {
    forall k | 0 <= k < |s.timers| ensures TimerInv(s, k) {
      SumZero(s.calls, CallW(k));
      SumZero(s.frames, FrameW(k));
    }
  }

  lemma {:induction false} RunKeepsInv(ss: seq<State>, ms: seq<Move>, i: nat)
    requires IsRun(ss, ms) && Inv(ss[0]) && i < |ss|
    ensures forall j :: 0 <= j <= i ==> Inv(ss[j])
  {
    if i > 0 {
      RunKeepsInv(ss, ms, i - 1);
      assert Enabled(ss[i - 1], ms[i - 1]) && ss[i] == Next(ss[i - 1], ms[i - 1]);
      StepKeepsInv(ss[i - 1]);
    }
  }

  /** Over every interleaving the pointer count is exactly what is owed, and a timer is on
      the active list of its APC's thread, and on no other, exactly while it is associated. */
  lemma ReferencesAreExact(ss: seq<State>, ms: seq<Move>, i: nat)
    requires IsRun(ss, ms) && Initial(ss[0]) && i < |ss|
    ensures forall k :: 0 <= k < |ss[i].timers| ==> ss[i].timers[k].refs == Owed(ss[i], k) && OnItsList(ss[i], k)
    ensures ListsValid(ss[i])
  {
    InitialInv(ss[0]);
    RunKeepsInv(ss, ms, i);
    forall k | 0 <= k < |ss[i].timers| ensures ss[i].timers[k].refs == Owed(ss[i], k) && OnItsList(ss[i], k) {
      assert TimerInv(ss[i], k);
    }
  }

  ghost predicate Unused(s: State, k: nat)
    requires k < |s.timers|
  {
    && s.timers[k].handles == 0 && !s.timers[k].queued && s.timers[k].firings.Never?
    && (forall t :: 0 <= t < |s.lists| ==> k !in s.lists[t])
    && (forall t :: 0 <= t < |s.frames| ==> s.frames[t].NoApc? || s.frames[t].k != k)
    && (forall c :: 0 <= c < |s.calls| ==> PcOwes(s.calls[c].pc, k) == 0)
  }

  /** When the last reference goes, the timer is on no list, its APC is neither queued nor being
      delivered, the DPC cannot run, no handle is open and no call still uses it. */
  lemma FreedOnlyWhenUnused(ss: seq<State>, ms: seq<Move>, i: nat)
    requires IsRun(ss, ms) && Initial(ss[0]) && i < |ss|
    ensures forall k :: 0 <= k < |ss[i].timers| ==>
              ss[i].timers[k].refs >= 0 && (ss[i].timers[k].refs == 0 ==> Unused(ss[i], k))
  {
    InitialInv(ss[0]);
    RunKeepsInv(ss, ms, i);
    var s := ss[i];
    forall k | 0 <= k < |s.timers| ensures s.timers[k].refs >= 0 && (s.timers[k].refs == 0 ==> Unused(s, k)) {
      assert TimerInv(s, k);
      Covered(s, k);
      forall t | 0 <= t < |s.frames| && s.timers[k].refs == 0 ensures s.frames[t].NoApc? || s.frames[t].k != k {
        assert FrameValid(s, s.frames[t]);
        assert FrameOwes(s.frames[t], k) == 0;
      }
    }
  }

  /** A timer that is gone is never touched again. */
  lemma FreedStaysFreed(s: State, m: Move, k: nat)
    requires Inv(s) && Enabled(s, m) && k < |s.timers| && s.timers[k].refs == 0
    ensures Next(s, m).timers[k] == s.timers[k]
  {
    assert TimerInv(s, k);
    Covered(s, k);
    if m.a.Advance? {
      assert PcValid(s, s.calls[m.who].pc);
      assert PcOwes(s.calls[m.who].pc, k) == 0;
      if s.calls[m.who].pc.AtHead? && s.lists[s.calls[m.who].thread] != [] {
        assert s.lists[s.calls[m.who].thread][0] != k;
      }
    } else if m.a.AdvanceFrame? {
      assert FrameValid(s, s.frames[m.who]);
      assert FrameOwes(s.frames[m.who], k) == 0;
    }
  }

  /** ObDereferenceObjectEx never runs out of references: whoever still owes n, a call or an APC
      kernel routine, finds n. */
  lemma DereferencesAreCovered(ss: seq<State>, ms: seq<Move>, i: nat)
    requires IsRun(ss, ms) && Initial(ss[0]) && i < |ss|
    ensures forall c :: 0 <= c < |ss[i].calls| && (ss[i].calls[c].pc.Dropping? || ss[i].calls[c].pc.RundownDropping?) ==>
              ss[i].calls[c].pc.k < |ss[i].timers| &&
              0 < ss[i].calls[c].pc.n <= ss[i].timers[ss[i].calls[c].pc.k].refs
    ensures forall t :: 0 <= t < |ss[i].frames| && ss[i].frames[t].ApcDropping? ==>
              ss[i].frames[t].k < |ss[i].timers| &&
              0 < ss[i].frames[t].n <= ss[i].timers[ss[i].frames[t].k].refs
  {
    InitialInv(ss[0]);
    RunKeepsInv(ss, ms, i);
    var s := ss[i];
    forall c | 0 <= c < |s.calls| && (s.calls[c].pc.Dropping? || s.calls[c].pc.RundownDropping?)
      ensures s.calls[c].pc.k < |s.timers| && 0 < s.calls[c].pc.n <= s.timers[s.calls[c].pc.k].refs
    {
      assert PcValid(s, s.calls[c].pc);
      assert TimerInv(s, s.calls[c].pc.k);
      Covered(s, s.calls[c].pc.k);
    }
    forall t | 0 <= t < |s.frames| && s.frames[t].ApcDropping?
      ensures s.frames[t].k < |s.timers| && 0 < s.frames[t].n <= s.timers[s.frames[t].k].refs
    {
      assert FrameValid(s, s.frames[t]);
      assert TimerInv(s, s.frames[t].k);
      Covered(s, s.frames[t].k);
    }
  }

  /** A cancel can come to take the last reference: the handle is closed while the cancel is
      about to give its own reference back. ObDereferenceObjectEx then ends with that one still
      to be counted down, so its closing assertion fails. */
  lemma CancelTakesTheLastReference() returns (ss: seq<State>, ms: seq<Move>)
    ensures IsRun(ss, ms) && Initial(ss[0]) && |ms| == 3
    ensures |ss[3].timers| == |ss[3].calls| == 1
    ensures ss[3].timers[0].refs == 1 && ss[3].calls[0].pc == Dropping(0, 1)
  {
    var s0 := State([Timer(1, 1, false, 0, false, 0, Never)], [[]], [NoApc], [Call(0, Free)]);
    ms := [Move(0, OpenCancel(0)), Move(0, Advance), Move(0, Close(0))];
    var s1 := Next(s0, ms[0]);
    assert s1.calls[0] == Call(0, InCancel(0)) && s1.timers[0].refs == 2;
    var s2 := Next(s1, ms[1]);
    assert s2.calls[0] == Call(0, Dropping(0, 1)) && s2.timers[0].handles == 1;
    ss := [s0, s1, s2, Next(s2, ms[2])];
  }

  // ---------- what set and cancel promise ----------

  /** The move is the block of a set, of a cancel, or of a round of the rundown on timer k. */
  predicate SetsTimer(s: State, m: Move, k: nat)
    requires Enabled(s, m)
  {
    m.a.Advance? && s.calls[m.who].pc.InSet? && s.calls[m.who].pc.k == k
  }

  predicate CancelsTimer(s: State, m: Move, k: nat)
    requires Enabled(s, m)
  {
    m.a.Advance? && s.calls[m.who].pc.InCancel? && s.calls[m.who].pc.k == k
  }

  predicate RoundsTimer(s: State, m: Move, k: nat)
    requires Enabled(s, m)
  {
    m.a.Advance? && s.calls[m.who].pc.InRundown? && s.calls[m.who].pc.k == k
  }

  /** Nothing of the timer is under way: it has no association, is on no list, its APC is not
      queued and its DPC will not run. */
  ghost predicate Idle(s: State, k: nat)
    requires k < |s.timers|
  {
    var tm := s.timers[k];
    !tm.associated && !tm.queued && tm.firings.Never? && forall t :: 0 <= t < |s.lists| ==> k !in s.lists[t]
  }

  lemma UnassociatedIsIdle(s: State)
    requires Inv(s)
    ensures forall k :: 0 <= k < |s.timers| && !s.timers[k].associated ==> Idle(s, k)
  {
    forall k | 0 <= k < |s.timers| && !s.timers[k].associated ensures Idle(s, k) {
      assert TimerInv(s, k);
    }
  }

  /** The block of a cancel ends the association, and so does a round of the rundown of the
      thread that the association is for. Without a set it does not come back. */
  lemma Disassociates(s: State, m: Move, k: nat)
    requires Inv(s) && Enabled(s, m) && k < |s.timers| && !SetsTimer(s, m, k)
    ensures |Next(s, m).timers| == |s.timers|
    ensures CancelsTimer(s, m, k) ==> !Next(s, m).timers[k].associated
    ensures RoundsTimer(s, m, k) && s.timers[k].apcThread == s.calls[m.who].thread ==> !Next(s, m).timers[k].associated
    ensures !s.timers[k].associated ==> !Next(s, m).timers[k].associated
  {
    hide Sum, NoDup;
  }

  lemma {:induction false} StaysDisassociated(ss: seq<State>, ms: seq<Move>, i: nat, j: nat, k: nat)
    requires IsRun(ss, ms) && Initial(ss[0]) && i <= j < |ss| && k < |ss[i].timers| && !ss[i].timers[k].associated
    requires forall x {:trigger ms[x]} :: i <= x < j ==> Enabled(ss[x], ms[x]) && !SetsTimer(ss[x], ms[x], k)
    ensures |ss[j].timers| == |ss[i].timers| && Idle(ss[j], k)
  {
    InitialInv(ss[0]);
    RunKeepsInv(ss, ms, j);
    if i < j {
      StaysDisassociated(ss, ms, i, j - 1, k);
      assert Enabled(ss[j - 1], ms[j - 1]) && ss[j] == Next(ss[j - 1], ms[j - 1]);
      Disassociates(ss[j - 1], ms[j - 1], k);
    }
    UnassociatedIsIdle(ss[j]);
  }

  /** A cancel cancels: over every run, from its block on and until somebody sets the timer again,
      nothing of the timer is under way, its APC is not delivered and its DPC does not run; and an
      APC that was being delivered already does not get to call its normal routine. */
  lemma CancelledStaysQuiet(ss: seq<State>, ms: seq<Move>, i: nat, j: nat, k: nat)
    requires IsRun(ss, ms) && Initial(ss[0]) && i < j < |ss| && k < |ss[i].timers|
    requires Enabled(ss[i], ms[i]) && CancelsTimer(ss[i], ms[i], k)
    requires forall x {:trigger ms[x]} :: i < x < j ==> Enabled(ss[x], ms[x]) && !SetsTimer(ss[x], ms[x], k)
    ensures |ss[j].timers| == |ss[i].timers| && Idle(ss[j], k)
    ensures forall x {:trigger ms[x]} :: i < x < j ==> Silent(ss[x], ms[x], ss[x + 1], k)
  {
    assert ss[i + 1] == Next(ss[i], ms[i]);
    assert Inv(ss[i]) by {
      InitialInv(ss[0]);
      RunKeepsInv(ss, ms, i);
    }
    Disassociates(ss[i], ms[i], k);
    StaysDisassociated(ss, ms, i + 1, j, k);
    forall x {:trigger ms[x]} | i < x < j ensures Silent(ss[x], ms[x], ss[x + 1], k) {
      StaysDisassociated(ss, ms, i + 1, x, k);
      assert Enabled(ss[x], ms[x]) && ss[x + 1] == Next(ss[x], ms[x]);
    }
  }

  /** No firing and no delivery of timer k, and no kernel routine that lets the APC go on. */
  predicate Silent(s: State, m: Move, s': State, k: nat)
    requires Enabled(s, m)
  {
    && (m.a.Fire? || m.a.Deliver? ==> m.a.k != k)
    && (m.a.AdvanceFrame? && s.frames[m.who] == Delivering(k) ==> m.who < |s'.frames| && RoutineCleared(s'.frames[m.who]))
  }

  predicate RoutineCleared(f: Frame) { f.ApcDropping? && !f.normal }

  /** A set with an APC routine arms the timer for the thread that makes it, puts it last on the
      thread's list, with nothing queued: for one firing, or again and again if it is periodic.
      A set without one leaves the timer idle. */
  lemma SetArms(s: State, m: Move, k: nat)
    requires Inv(s) && Enabled(s, m) && k < |s.timers| && SetsTimer(s, m, k)
    ensures var pc, t, s' := s.calls[m.who].pc, s.calls[m.who].thread, Next(s, m);
            && |s'.timers| == |s.timers| && |s'.lists| == |s.lists|
            && s'.timers[k].period == pc.period
            && (!pc.routine ==> Idle(s', k))
            && (pc.routine ==> Armed(s'.timers[k], t) && !s'.timers[k].queued
                               && |s'.lists[t]| > 0 && s'.lists[t][|s'.lists[t]| - 1] == k
                               && s'.timers[k].firings == if pc.period == 0 then Once else Repeatedly)
  {
    StepKeepsInv(s);
    UnassociatedIsIdle(Next(s, m));
  }

  predicate Armed(tm: Timer, t: nat) { tm.associated && tm.apcThread == t }

  /** A firing queues the APC if its thread takes APCs; a one-shot timer is spent then, a periodic
      one stays armed. */
  lemma FiringQueues(s: State, k: nat, queueable: bool)
    requires Inv(s) && Enabled(s, Move(0, Fire(k, queueable)))
    ensures var tm, tm' := s.timers[k], Next(s, Move(0, Fire(k, queueable))).timers[k];
            && (tm'.queued <==> tm.queued || queueable)
            && tm'.refs - tm.refs == (if queueable && !tm.queued then 1 else 0)
            && tm'.associated && tm'.apcThread == tm.apcThread
            && tm'.firings == if tm.period == 0 then Never else Repeatedly
  {
    assert TimerInv(s, k);
  }

  /** A delivery calls the normal routine exactly when the timer is still associated with that
      thread; a one-shot timer is idle after it, a periodic one as before. */
  lemma DeliveryCallsRoutine(s: State, t: nat)
    requires Inv(s) && Enabled(s, Move(t, AdvanceFrame)) && s.frames[t].Delivering?
    ensures var k, s' := s.frames[t].k, NextFrame(s, t);
            && |s'.timers| == |s.timers| && t < |s'.frames| && s'.frames[t].ApcDropping?
            && (s'.frames[t].normal <==> Armed(s.timers[k], t))
            && (if Armed(s.timers[k], t) && s.timers[k].period == 0 then Idle(s', k) else s'.timers[k] == s.timers[k])
  {
    StepKeepsInv(s);
    assert NextFrame(s, t) == Next(s, Move(t, AdvanceFrame));
    UnassociatedIsIdle(NextFrame(s, t));
  }

  function FiresOnce(m: Move, k: nat): nat { if m.a.Fire? && m.a.k == k then 1 else 0 }
  function DeliversOnce(m: Move, k: nat): nat { if m.a.Deliver? && m.a.k == k then 1 else 0 }

  /** How often the DPC of timer k runs, and how often its APC is delivered, from move i up to j. */
  function Fires(ms: seq<Move>, k: nat, i: nat, j: nat): nat
    requires i <= j <= |ms|
  {
    if i == j then 0 else Fires(ms, k, i, j - 1) + FiresOnce(ms[j - 1], k)
  }

  function Deliveries(ms: seq<Move>, k: nat, i: nat, j: nat): nat
    requires i <= j <= |ms|
  {
    if i == j then 0 else Deliveries(ms, k, i, j - 1) + DeliversOnce(ms[j - 1], k)
  }

  function ShotsLeft(tm: Timer): nat { if tm.firings.Once? then 1 else 0 }
  function QueuedCount(tm: Timer): nat { if tm.queued then 1 else 0 }

  /** The period stays, a delivery uses up a firing, and a firing of a one-shot timer uses up the
      one that is left, which only a cancel or a rundown can take away otherwise. */
  predicate UsesFirings(s: State, m: Move, s': State, k: nat)
    requires Enabled(s, m) && k < |s.timers|
  {
    && |s'.timers| == |s.timers|
    && var tm, tm' := s.timers[k], s'.timers[k];
       && tm'.period == tm.period
       && DeliversOnce(m, k) + QueuedCount(tm') <= QueuedCount(tm) + FiresOnce(m, k)
       && (tm.period == 0 ==> FiresOnce(m, k) + ShotsLeft(tm') <= ShotsLeft(tm))
       && (tm.period == 0 && !CancelsTimer(s, m, k) && !RoundsTimer(s, m, k) ==>
             FiresOnce(m, k) + ShotsLeft(tm') == ShotsLeft(tm))
  }

  lemma AdvanceUsesFirings(s: State, m: Move, k: nat)
    requires Inv(s) && Enabled(s, m) && k < |s.timers| && !SetsTimer(s, m, k) && m.a.Advance?
    ensures UsesFirings(s, m, Next(s, m), k)
  {
    hide Inv;
  }

  lemma OtherUsesFirings(s: State, m: Move, k: nat)
    requires Inv(s) && Enabled(s, m) && k < |s.timers| && !m.a.Advance?
    ensures UsesFirings(s, m, Next(s, m), k)
  {
    assert Spent(s, k) by { assert TimerInv(s, k); }
    hide Inv;
  }

  /** Over every run: after the block of a one-shot set and until the next set, the DPC runs at
      most once and the APC is delivered at most as often; and unless the timer is cancelled or
      run down, the firing is either still to come or has come, once. */
  lemma {:induction false} OneShotFiresOnce(ss: seq<State>, ms: seq<Move>, i: nat, j: nat, k: nat)
    requires IsRun(ss, ms) && Initial(ss[0]) && i < j < |ss| && k < |ss[i].timers| && Enabled(ss[i], ms[i])
    requires SetsTimer(ss[i], ms[i], k) && ss[i].calls[ms[i].who].pc.routine && ss[i].calls[ms[i].who].pc.period == 0
    requires forall x {:trigger ms[x]} :: i < x < j ==> Enabled(ss[x], ms[x]) && !SetsTimer(ss[x], ms[x], k)
    ensures |ss[j].timers| == |ss[i].timers| && ss[j].timers[k].period == 0
    ensures Fires(ms, k, i + 1, j) + ShotsLeft(ss[j].timers[k]) <= 1
    ensures Deliveries(ms, k, i + 1, j) + QueuedCount(ss[j].timers[k]) <= Fires(ms, k, i + 1, j)
    ensures (forall x {:trigger ms[x]} :: i < x < j ==>
               Enabled(ss[x], ms[x]) && !CancelsTimer(ss[x], ms[x], k) && !RoundsTimer(ss[x], ms[x], k)) ==>
              Fires(ms, k, i + 1, j) + ShotsLeft(ss[j].timers[k]) == 1
  {
    assert Inv(ss[j - 1]) by {
      InitialInv(ss[0]);
      RunKeepsInv(ss, ms, j - 1);
    }
    assert Enabled(ss[j - 1], ms[j - 1]) && ss[j] == Next(ss[j - 1], ms[j - 1]);
    if j == i + 1 {
      SetArms(ss[i], ms[i], k);
    } else {
      OneShotFiresOnce(ss, ms, i, j - 1, k);
      if ms[j - 1].a.Advance? { AdvanceUsesFirings(ss[j - 1], ms[j - 1], k); } else { OtherUsesFirings(ss[j - 1], ms[j - 1], k); }
    }
  }

  // ---------- rundown ----------

  predicate InRundownLoop(p: Pc) {
    p.AtHead? || p.InRundown? || p.RundownDropping?
  }

  /** The thread that runs down sets no timer meanwhile: it is terminating. */
  predicate SetsNothing(s: State, m: Move, t: nat)
    requires Enabled(s, m)
  {
    m.a.Advance? && s.calls[m.who].pc.InSet? ==> s.calls[m.who].thread != t
  }

  ghost function Rank(s: State, c: nat): nat
    requires WellFormed(s) && c < |s.calls|
  {
    var l := s.lists[s.calls[c].thread];
    match s.calls[c].pc
    case AtHead => 8 * |l| + 1
    case InRundown(k) => 8 * |Without(l, k)| + 7
    case RundownDropping(_, n) => 8 * |l| + 1 + if n > 0 then n else 0
    case _ => 0
  }

  lemma ListOnlyShrinks(s: State, m: Move, t: nat)
    requires Inv(s) && Enabled(s, m) && t < |s.lists| && SetsNothing(s, m, t)
    ensures |Next(s, m).lists| == |s.lists|
    ensures Next(s, m).lists[t] == s.lists[t] || exists j :: Next(s, m).lists[t] == Without(s.lists[t], j)
  {
    if Next(s, m).lists != s.lists {
      var k := if m.a.Advance? then s.calls[m.who].pc.k else s.frames[m.who].k;
      UnlinkAt(s.lists, k, t);
      assert s.lists[t] != Next(s, m).lists[t] ==> Next(s, m).lists[t] == Unlink(s.lists, k)[t];
    }
  }

  lemma OthersNeverDelayRundown(s: State, m: Move, c: nat)
    requires Inv(s) && Enabled(s, m) && c < |s.calls| && InRundownLoop(s.calls[c].pc)
    requires SetsNothing(s, m, s.calls[c].thread) && m != Move(c, Advance)
    ensures WellFormed(Next(s, m)) && Next(s, m).calls[c] == s.calls[c] && Rank(Next(s, m), c) <= Rank(s, c)
  {
    var t := s.calls[c].thread;
    StepKeepsInv(s);
    ListOnlyShrinks(s, m, t);
    var l, l' := s.lists[t], Next(s, m).lists[t];
    assert NoDup(l) && NoDup(l');
    if l' != l {
      var j :| l' == Without(l, j);
      WithoutMembers(l, j);
      if s.calls[c].pc.InRundown? {
        WithoutMembers(l, s.calls[c].pc.k);
        WithoutMembers(l', s.calls[c].pc.k);
      }
    }
  }

  lemma RundownAdvances(s: State, c: nat)
    requires Inv(s) && Enabled(s, Move(c, Advance)) && InRundownLoop(s.calls[c].pc)
    ensures WellFormed(NextAdvance(s, c)) && NextAdvance(s, c).calls[c].thread == s.calls[c].thread
    ensures InRundownLoop(NextAdvance(s, c).calls[c].pc) || NextAdvance(s, c).calls[c].pc.Over?
    ensures Rank(NextAdvance(s, c), c) < Rank(s, c)
  {
    StepKeepsInv(s);
    assert PcValid(s, s.calls[c].pc);
    var t := s.calls[c].thread;
    match s.calls[c].pc {
      case AtHead =>
        if s.lists[t] != [] { WithoutMembers(s.lists[t], s.lists[t][0]); }
      case InRundown(k) =>
        assert TimerInv(s, k);
        WithoutMembers(s.lists[t], k);
        assert NextAdvance(s, c).lists[t] == Without(s.lists[t], k);
      case RundownDropping(k, n) =>
        assert NextAdvance(s, c).lists == s.lists;
    }
  }

  /** Under way, or over with an empty list. */
  ghost predicate RunsDown(s: State, c: nat) {
    && Inv(s) && c < |s.calls|
    && (InRundownLoop(s.calls[c].pc) || (s.calls[c].pc.Over? && s.lists[s.calls[c].thread] == []))
  }

  lemma RundownStep(s: State, m: Move, c: nat)
    requires RunsDown(s, c) && Enabled(s, m) && SetsNothing(s, m, s.calls[c].thread)
    ensures RunsDown(Next(s, m), c) && Next(s, m).calls[c].thread == s.calls[c].thread
    ensures (if m == Move(c, Advance) then 1 else 0) + Rank(Next(s, m), c) <= Rank(s, c)
  {
    StepKeepsInv(s);
    ListOnlyShrinks(s, m, s.calls[c].thread);
    if m == Move(c, Advance) {
      RundownAdvances(s, c);
    } else if InRundownLoop(s.calls[c].pc) {
      OthersNeverDelayRundown(s, m, c);
    }
  }

  /** How many of the first i moves belong to call c. */
  ghost function StepsOf(ms: seq<Move>, c: nat, i: nat): nat
    requires i <= |ms|
  {
    if i == 0 then 0 else StepsOf(ms, c, i - 1) + if ms[i - 1] == Move(c, Advance) then 1 else 0
  }

  /** The rundown loop terminates under every interleaving: it takes at most eight steps for
      each timer on the list, and one more; when it is over the list is empty, for good. */
  lemma {:induction false} RundownTerminates(ss: seq<State>, ms: seq<Move>, c: nat, i: nat)
    requires IsRun(ss, ms) && Inv(ss[0]) && c < |ss[0].calls| && ss[0].calls[c].pc.AtHead?
    requires forall j {:trigger ms[j]} :: 0 <= j < |ms| ==> SetsNothing(ss[j], ms[j], ss[0].calls[c].thread)
    requires i <= |ms|
    ensures RunsDown(ss[i], c) && ss[i].calls[c].thread == ss[0].calls[c].thread
    ensures StepsOf(ms, c, i) + Rank(ss[i], c) <= 8 * |ss[0].lists[ss[0].calls[c].thread]| + 1
  {
    hide Inv, Rank, RunsDown;
    if i == 0 {
      RundownStarts(ss[0], c);
    } else {
      RundownTerminates(ss, ms, c, i - 1);
      assert Enabled(ss[i - 1], ms[i - 1]) && ss[i] == Next(ss[i - 1], ms[i - 1]);
      assert SetsNothing(ss[i - 1], ms[i - 1], ss[0].calls[c].thread);
      RundownStep(ss[i - 1], ms[i - 1], c);
    }
  }

  lemma RundownStarts(s: State, c: nat)
    requires Inv(s) && c < |s.calls| && s.calls[c].pc.AtHead?
    ensures RunsDown(s, c) && Rank(s, c) <= 8 * |s.lists[s.calls[c].thread]| + 1
  {
  }

  /** The loop is never stuck: unless its thread is inside an APC, it can take its next step. */
  lemma RundownProgress(s: State, c: nat)
    requires Inv(s) && c < |s.calls| && InRundownLoop(s.calls[c].pc) && s.frames[s.calls[c].thread].NoApc?
    ensures Enabled(s, Move(c, Advance))
  {
    assert PcValid(s, s.calls[c].pc);
    var l := s.lists[s.calls[c].thread];
    if l != [] {
      assert l[0] in l;
    }
  }
}

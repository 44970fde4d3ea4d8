/** The reader/writer lock, nboxkrnl/ex/rwlock.cpp. */
module ReadWriteLock {
  // The four counters change inside blocks that run with interrupts disabled; the signal that
  // a release sends, and the wait that an acquire may need, happen after the block. A wake-up
  // is therefore a token (the set event, or a unit of the semaphore) that any waiting thread
  // may take. Each block, each signal and each wait is one step of the transition system.

  import opened Tally

  const MAXLONG := 0x7fff_ffff

  const MINLONG := -0x8000_0000
  const MAXULONG := 0xffff_ffff

  /** Adding and subtracting one on 32 bits, signed and unsigned, with the wrap-around. */
  function LongInc(x: int): int { if x == MAXLONG then MINLONG else x + 1 }
  function LongDec(x: int): int { if x == MINLONG then MAXLONG else x - 1 }
  function UlongInc(x: int): int { if x == MAXULONG then 0 else x + 1 }
  function UlongDec(x: int): int { if x == 0 then MAXULONG else x - 1 }

  predicate IsLong(x: int) { MINLONG <= x <= MAXLONG }
  predicate IsUlong(x: int) { 0 <= x <= MAXULONG }
  predicate Congruent(x: int, y: int) { x == y || x == y + 0x1_0000_0000 || y == x + 0x1_0000_0000 }

  /** They stay within 32 bits, and are off by a multiple of 2^32 at most. */
  lemma CountersWrap(x: int)
    ensures IsLong(x) ==> IsLong(LongInc(x)) && IsLong(LongDec(x))
    ensures IsLong(x) ==> Congruent(LongInc(x), x + 1) && Congruent(LongDec(x), x - 1)
    ensures IsUlong(x) ==> IsUlong(UlongInc(x)) && IsUlong(UlongDec(x))
    ensures IsUlong(x) ==> Congruent(UlongInc(x), x + 1) && Congruent(UlongDec(x), x - 1)
  {
  }

  datatype Counters = Counters(lockCount: int, writersWaiting: int, readersWaiting: int, readersEntry: int)

  /** What a release still has to signal once interrupts are enabled again. */
  datatype Signal = NoSignal | WakeReaders(n: int) | WakeWriter

  const INITIAL := Counters(-1, 0, 0, 0)

  function AcquireExclusive(c: Counters): (Counters, bool) {
    var n := LongInc(c.lockCount);
    if n != 0 then (c.(lockCount := n, writersWaiting := UlongInc(c.writersWaiting)), true)
    else (c.(lockCount := n), false)
  }

  function AcquireShared(c: Counters): (Counters, bool) {
    var n := LongInc(c.lockCount);
    if n != 0 && (c.readersEntry == 0 || c.writersWaiting != 0)
    then (c.(lockCount := n, readersWaiting := UlongInc(c.readersWaiting)), true)
    else (c.(lockCount := n, readersEntry := UlongInc(c.readersEntry)), false)
  }

  function Release(c: Counters): (Counters, Signal) {
    var d := c.(lockCount := LongDec(c.lockCount));
    if d.lockCount == -1 then (d.(readersEntry := 0), NoSignal)
    else if d.readersEntry == 0 then
      if d.readersWaiting != 0
      then (d.(readersEntry := d.readersWaiting, readersWaiting := 0), WakeReaders(d.readersWaiting))
      else (d.(writersWaiting := UlongDec(d.writersWaiting)), WakeWriter)
    else
      var e := d.(readersEntry := d.readersEntry - 1);
      if e.readersEntry != 0 then (e, NoSignal)
      else (e.(writersWaiting := UlongDec(e.writersWaiting)), WakeWriter)
  }

  /** The lock as the kernel keeps it: each method is one block or one signal of the source. */
  class ErwLock {
    var LockCount: int
    var WritersWaitingCount: int
    var ReadersWaitingCount: int
    var ReadersEntryCount: int
    var WriterEvent: bool
    var ReaderSemaphore: int

    ghost function View(): Counters
      reads this
    {
      Counters(LockCount, WritersWaitingCount, ReadersWaitingCount, ReadersEntryCount)
    }

    constructor ()
      ensures View() == INITIAL && !WriterEvent && ReaderSemaphore == 0
    {
      LockCount, WritersWaitingCount, ReadersWaitingCount, ReadersEntryCount := -1, 0, 0, 0;
      WriterEvent, ReaderSemaphore := false, 0;
    }

    method ExAcquireReadWriteLockExclusive() returns (mustWait: bool)
      modifies this
      ensures (View(), mustWait) == AcquireExclusive(old(View()))
      ensures WriterEvent == old(WriterEvent) && ReaderSemaphore == old(ReaderSemaphore)
    {
      LockCount := LongInc(LockCount);
      mustWait := LockCount != 0;
      if mustWait {
        WritersWaitingCount := UlongInc(WritersWaitingCount);
      }
    }

    method ExAcquireReadWriteLockShared() returns (mustWait: bool)
      modifies this
      ensures (View(), mustWait) == AcquireShared(old(View()))
      ensures WriterEvent == old(WriterEvent) && ReaderSemaphore == old(ReaderSemaphore)
    {
      var mustWaitOnActiveWrite := ReadersEntryCount == 0;
      var mustWaitOnAQueuedWrite := ReadersEntryCount != 0 && WritersWaitingCount != 0;
      mustWait := mustWaitOnActiveWrite || mustWaitOnAQueuedWrite;
      LockCount := LongInc(LockCount);
      if LockCount != 0 && mustWait {
        ReadersWaitingCount := UlongInc(ReadersWaitingCount);
      } else {
        ReadersEntryCount := UlongInc(ReadersEntryCount);
        mustWait := false;
      }
    }

    method ExReleaseReadWriteLock() returns (signal: Signal)
      modifies this
      ensures (View(), signal) == Release(old(View()))
      ensures WriterEvent == old(WriterEvent) && ReaderSemaphore == old(ReaderSemaphore)
    {
      LockCount := LongDec(LockCount);
      if LockCount == -1 {
        ReadersEntryCount := 0;
        return NoSignal;
      }
      if ReadersEntryCount == 0 {
        if ReadersWaitingCount != 0 {
          var oriReadersWaiting := ReadersWaitingCount;
          ReadersEntryCount := ReadersWaitingCount;
          ReadersWaitingCount := 0;
          return WakeReaders(oriReadersWaiting);
        }
      } else {
        ReadersEntryCount := ReadersEntryCount - 1;
        if ReadersEntryCount != 0 {
          return NoSignal;
        }
      }
      WritersWaitingCount := UlongDec(WritersWaitingCount);
      return WakeWriter;
    }
  }

  /** Where a thread is with respect to the lock. */
  datatype Pc =
    | Outside
    | WantsWrite            // registered as a waiting writer, at the wait for the event
    | WantsRead             // registered as a waiting reader, at the wait for the semaphore
    | Writing
    | Reading
    | Signalling(s: Signal) // released the lock, about to send a signal

  datatype State = State(c: Counters, event: bool, sem: int, pcs: seq<Pc>)

  datatype Action = BeginWrite | BeginRead | TakeEvent | TakeSemaphore | BeginRelease | SendSignal

  datatype Move = Move(t: nat, a: Action)

  predicate Initial(s: State) {
    && s.c == INITIAL && !s.event && s.sem == 0
    && |s.pcs| <= MAXLONG
    && forall i :: 0 <= i < |s.pcs| ==> s.pcs[i] == Outside
  }

  /** The move starts an acquire. */
  predicate Begins(m: Move) { m.a.BeginWrite? || m.a.BeginRead? }

  /** Only holders release; a wait ends only when its token is there. */
  predicate Enabled(s: State, m: Move) {
    && m.t < |s.pcs|
    && match m.a {
      case BeginWrite => s.pcs[m.t].Outside?
      case BeginRead => s.pcs[m.t].Outside?
      case TakeEvent => s.pcs[m.t].WantsWrite? && s.event
      case TakeSemaphore => s.pcs[m.t].WantsRead? && s.sem > 0
      case BeginRelease => s.pcs[m.t].Writing? || s.pcs[m.t].Reading?
      case SendSignal => s.pcs[m.t].Signalling?
    }
  }

  function Next(s: State, m: Move): State
    requires Enabled(s, m)
  {
    match m.a
    case BeginWrite =>
      var (c, wait) := AcquireExclusive(s.c);
      s.(c := c, pcs := s.pcs[m.t := if wait then WantsWrite else Writing])
    case BeginRead =>
      var (c, wait) := AcquireShared(s.c);
      s.(c := c, pcs := s.pcs[m.t := if wait then WantsRead else Reading])
    case TakeEvent => s.(event := false, pcs := s.pcs[m.t := Writing])
    case TakeSemaphore => s.(sem := s.sem - 1, pcs := s.pcs[m.t := Reading])
    case BeginRelease =>
      var (c, signal) := Release(s.c);
      s.(c := c, pcs := s.pcs[m.t := if signal.NoSignal? then Outside else Signalling(signal)])
    case SendSignal =>
      match s.pcs[m.t].s
      case WakeReaders(n) => s.(sem := s.sem + n, pcs := s.pcs[m.t := Outside])
      case WakeWriter => s.(event := true, pcs := s.pcs[m.t := Outside])
      case NoSignal => s.(pcs := s.pcs[m.t := Outside])
  }

  ghost predicate IsRun(ss: seq<State>, ms: seq<Move>) {
    && |ss| == |ms| + 1
    && forall i {:trigger ms[i]} :: 0 <= i < |ms| ==> Enabled(ss[i], ms[i]) && ss[i + 1] == Next(ss[i], ms[i])
  }

  // ---------- counting threads and tokens ----------

  function WritingW(p: Pc): nat { if p.Writing? then 1 else 0 }
  function ReadingW(p: Pc): nat { if p.Reading? then 1 else 0 }
  function WantsWriteW(p: Pc): nat { if p.WantsWrite? then 1 else 0 }
  function WantsReadW(p: Pc): nat { if p.WantsRead? then 1 else 0 }
  function ReaderTokenW(p: Pc): nat { if p.Signalling? && p.s.WakeReaders? && p.s.n > 0 then p.s.n else 0 }
  function WriterTokenW(p: Pc): nat { if p.Signalling? && p.s.WakeWriter? then 1 else 0 }

  ghost function Writers(s: State): nat { Sum(s.pcs, WritingW) }
  ghost function Readers(s: State): nat { Sum(s.pcs, ReadingW) }
  ghost function WaitingWriters(s: State): nat { Sum(s.pcs, WantsWriteW) }
  ghost function WaitingReaders(s: State): nat { Sum(s.pcs, WantsReadW) }
  /** Tokens already available, or that a releasing thread is about to send. */
  ghost function ReaderTokens(s: State): int { s.sem + Sum(s.pcs, ReaderTokenW) }
  ghost function WriterTokens(s: State): int { (if s.event then 1 else 0) + Sum(s.pcs, WriterTokenW) }

  /** The grants in force: a writer inside or called in, or a group of readers. */
  ghost function Grants(s: State): int {
    Writers(s) + WriterTokens(s) + if s.c.readersEntry > 0 then 1 else 0
  }

  ghost predicate Accounting(s: State) {
    && s.c.lockCount + 1 == Writers(s) + Readers(s) + WaitingWriters(s) + WaitingReaders(s)
    && s.c.readersEntry == Readers(s) + ReaderTokens(s)
    && s.c.readersWaiting >= 0 && s.c.readersWaiting + ReaderTokens(s) == WaitingReaders(s)
    && s.c.writersWaiting >= 0 && s.c.writersWaiting + WriterTokens(s) == WaitingWriters(s)
  }

  ghost predicate Inv(s: State) {
    && |s.pcs| <= MAXLONG
    && s.sem >= 0
    && (forall i :: 0 <= i < |s.pcs| && s.pcs[i].Signalling? && s.pcs[i].s.WakeReaders? ==> s.pcs[i].s.n > 0)
    && Accounting(s)
    && Grants(s) == (if s.c.lockCount == -1 then 0 else 1)
    && (s.c.readersEntry > 0 && s.c.readersWaiting > 0 ==> s.c.writersWaiting > 0)
  }

  lemma {:induction false} HeadCount(pcs: seq<Pc>)
    ensures Sum(pcs, WritingW) + Sum(pcs, ReadingW) + Sum(pcs, WantsWriteW) + Sum(pcs, WantsReadW) <= |pcs|
  {
    if pcs != [] {
      HeadCount(pcs[1..]);
    }
  }

  lemma Recount(s: State, t: nat, p: Pc, s': State)
    requires t < |s.pcs| && s'.pcs == s.pcs[t := p]
    ensures Writers(s') == Writers(s) - WritingW(s.pcs[t]) + WritingW(p)
    ensures Readers(s') == Readers(s) - ReadingW(s.pcs[t]) + ReadingW(p)
    ensures WaitingWriters(s') == WaitingWriters(s) - WantsWriteW(s.pcs[t]) + WantsWriteW(p)
    ensures WaitingReaders(s') == WaitingReaders(s) - WantsReadW(s.pcs[t]) + WantsReadW(p)
    ensures ReaderTokens(s') - s'.sem == ReaderTokens(s) - s.sem - ReaderTokenW(s.pcs[t]) + ReaderTokenW(p)
    ensures Sum(s'.pcs, WriterTokenW) == Sum(s.pcs, WriterTokenW) - WriterTokenW(s.pcs[t]) + WriterTokenW(p)
    ensures Writers(s') + Readers(s') + WaitingWriters(s') + WaitingReaders(s') <= |s.pcs|
  {
    SumUpdate(s.pcs, t, p, WritingW);
    SumUpdate(s.pcs, t, p, ReadingW);
    SumUpdate(s.pcs, t, p, WantsWriteW);
    SumUpdate(s.pcs, t, p, WantsReadW);
    SumUpdate(s.pcs, t, p, ReaderTokenW);
    SumUpdate(s.pcs, t, p, WriterTokenW);
    HeadCount(s'.pcs);
  }

  lemma InitialInv()
    ensures forall s :: Initial(s) ==> Inv(s)
  {
    forall s | Initial(s) ensures Inv(s) {
      SumZero(s.pcs, WritingW);
      SumZero(s.pcs, ReadingW);
      SumZero(s.pcs, WantsWriteW);
      SumZero(s.pcs, WantsReadW);
      SumZero(s.pcs, ReaderTokenW);
      SumZero(s.pcs, WriterTokenW);
    }
  }

  /** In a state of the protocol every counter is below the number of threads, so none wraps. */
  lemma Bounded(s: State)
    requires Inv(s)
    ensures s.c.lockCount < |s.pcs|
    ensures s.c.writersWaiting <= |s.pcs| && s.c.readersWaiting <= |s.pcs| && s.c.readersEntry <= |s.pcs|
  {
    HeadCount(s.pcs);
  }

  lemma WritersAcquire(s: State)
    requires Inv(s)
    ensures forall m :: Enabled(s, m) && m.a.BeginWrite? ==> Inv(Next(s, m))
  {
    hide Sum, Writers, Readers, WaitingWriters, WaitingReaders;
    forall m | Enabled(s, m) && m.a.BeginWrite? ensures Inv(Next(s, m)) {
      var s' := Next(s, m);
      Recount(s, m.t, s'.pcs[m.t], s');
      Bounded(s);
      SomeoneOutside(s.pcs, m.t);
    }
  }

  lemma ReadersAcquire(s: State)
    requires Inv(s)
    ensures forall m :: Enabled(s, m) && m.a.BeginRead? ==> Inv(Next(s, m))
  {
    hide Sum, Writers, Readers, WaitingWriters, WaitingReaders;
    forall m | Enabled(s, m) && m.a.BeginRead? ensures Inv(Next(s, m)) {
      var s' := Next(s, m);
      Recount(s, m.t, s'.pcs[m.t], s');
      Bounded(s);
      SomeoneOutside(s.pcs, m.t);
      if AcquireShared(s.c).1 { assert s'.pcs[m.t] == WantsRead; } else { assert s'.pcs[m.t] == Reading; }
    }
  }

  lemma {:induction false} SomeoneOutside(pcs: seq<Pc>, t: nat)
    requires t < |pcs| && (pcs[t].Outside? || pcs[t].Signalling?)
    ensures Sum(pcs, WritingW) + Sum(pcs, ReadingW) + Sum(pcs, WantsWriteW) + Sum(pcs, WantsReadW) < |pcs|
  {
    if t == 0 {
      HeadCount(pcs[1..]);
    } else {
      SomeoneOutside(pcs[1..], t - 1);
    }
  }

  lemma WritersRelease(s: State)
    requires Inv(s)
    ensures forall m :: Enabled(s, m) && m.a.BeginRelease? && s.pcs[m.t].Writing? ==> Inv(Next(s, m)) && (Release(s.c).1.WakeWriter? ==> s.c.writersWaiting > 0)
  {
    hide Sum, Writers, Readers, WaitingWriters, WaitingReaders;
    forall m | Enabled(s, m) && m.a.BeginRelease? && s.pcs[m.t].Writing? ensures Inv(Next(s, m)) && (Release(s.c).1.WakeWriter? ==> s.c.writersWaiting > 0) {
      var s' := Next(s, m);
      Recount(s, m.t, s'.pcs[m.t], s');
      Bounded(s);
      SumCovers(s.pcs, m.t, m.t, WritingW);
    }
  }

  lemma ReadersRelease(s: State)
    requires Inv(s)
    ensures forall m :: Enabled(s, m) && m.a.BeginRelease? && s.pcs[m.t].Reading? ==> Inv(Next(s, m)) && (Release(s.c).1.WakeWriter? ==> s.c.writersWaiting > 0)
  {
    hide Sum, Writers, Readers, WaitingWriters, WaitingReaders;
    forall m | Enabled(s, m) && m.a.BeginRelease? && s.pcs[m.t].Reading? ensures Inv(Next(s, m)) && (Release(s.c).1.WakeWriter? ==> s.c.writersWaiting > 0) {
      var s' := Next(s, m);
      Recount(s, m.t, s'.pcs[m.t], s');
      Bounded(s);
      SumCovers(s.pcs, m.t, m.t, ReadingW);
    }
  }

  lemma WaitsKeepInv(s: State)
    requires Inv(s)
    ensures forall m :: Enabled(s, m) && (m.a.TakeEvent? || m.a.TakeSemaphore?) ==> Inv(Next(s, m))
  {
    forall m | Enabled(s, m) && (m.a.TakeEvent? || m.a.TakeSemaphore?) ensures Inv(Next(s, m)) {
      var s' := Next(s, m);
      Recount(s, m.t, s'.pcs[m.t], s');
    }
  }

  /** What the signal of a step may count on. */
  predicate SignalFits(s: State, m: Move)
    requires Enabled(s, m) && m.a.SendSignal?
  {
    && (s.pcs[m.t].s.WakeWriter? ==> !s.event)
    && (s.pcs[m.t].s.WakeReaders? ==> 0 < s.pcs[m.t].s.n && s.sem + s.pcs[m.t].s.n <= MAXLONG)
  }

  lemma SignalsKeepInv(s: State)
    requires Inv(s)
    ensures forall m :: Enabled(s, m) && m.a.SendSignal? ==> Inv(Next(s, m)) && SignalFits(s, m)
  {
    hide Sum;
    forall m | Enabled(s, m) && m.a.SendSignal? ensures Inv(Next(s, m)) && SignalFits(s, m) {
      var s' := Next(s, m);
      Recount(s, m.t, s'.pcs[m.t], s');
      SumCovers(s.pcs, m.t, m.t, ReaderTokenW);
      SumCovers(s.pcs, m.t, m.t, WriterTokenW);
    }
  }

  lemma {:induction false} RunKeepsInv(ss: seq<State>, ms: seq<Move>, k: nat)
    requires IsRun(ss, ms) && k < |ss| && Inv(ss[0])
    ensures forall j :: 0 <= j <= k ==> Inv(ss[j])
  {
    if k > 0 {
      RunKeepsInv(ss, ms, k - 1);
      var s, m := ss[k - 1], ms[k - 1];
      assert Enabled(s, m) && ss[k] == Next(s, m);
      match m.a {
        case BeginWrite => WritersAcquire(s);
        case BeginRead => ReadersAcquire(s);
        case BeginRelease => if s.pcs[m.t].Writing? { WritersRelease(s); } else { ReadersRelease(s); }
        case TakeEvent => WaitsKeepInv(s);
        case TakeSemaphore => WaitsKeepInv(s);
        case SendSignal => SignalsKeepInv(s);
      }
    }
  }

  // ---------- what the lock promises, over every run of any number of threads ----------

  /** At most one writer is inside, and never together with a reader. */
  lemma MutualExclusion(ss: seq<State>, ms: seq<Move>, k: nat, t: nat, u: nat)
    requires IsRun(ss, ms) && Initial(ss[0]) && k < |ss|
    requires t < |ss[k].pcs| && u < |ss[k].pcs| && t != u
    ensures ss[k].pcs[t].Writing? ==> !ss[k].pcs[u].Writing? && !ss[k].pcs[u].Reading?
  {
    InitialInv();
    RunKeepsInv(ss, ms, k);
    SumCovers(ss[k].pcs, t, u, WritingW);
    SumCovers(ss[k].pcs, u, u, ReadingW);
  }

  /** The counters are exact: LockCount + 1 is the number of holders and waiters, and each
      registered waiter is either still counted or has a token on its way. */
  lemma ExactAccounting(ss: seq<State>, ms: seq<Move>)
    requires IsRun(ss, ms) && Initial(ss[0])
    ensures forall k :: 0 <= k < |ss| ==> Accounting(ss[k]) && WriterTokens(ss[k]) <= 1
  {
    InitialInv();
    RunKeepsInv(ss, ms, |ms|);
  }

  /** A wake-up is never lost: the writers' count is never decremented at zero, the event is
      never set while set, and releasing the semaphore never exceeds its limit. */
  lemma SignalsAreNeverLost(ss: seq<State>, ms: seq<Move>)
    requires IsRun(ss, ms) && Initial(ss[0])
    ensures forall k {:trigger ms[k]} :: 0 <= k < |ms| ==>
              && (ms[k].a.BeginRelease? && Release(ss[k].c).1.WakeWriter? ==> ss[k].c.writersWaiting > 0)
              && (ms[k].a.SendSignal? ==> Enabled(ss[k], ms[k]) && SignalFits(ss[k], ms[k]))
  {
    InitialInv();
    RunKeepsInv(ss, ms, |ms|);
    forall k {:trigger ms[k]} | 0 <= k < |ms|
      ensures ms[k].a.BeginRelease? && Release(ss[k].c).1.WakeWriter? ==> ss[k].c.writersWaiting > 0
      ensures ms[k].a.SendSignal? ==> Enabled(ss[k], ms[k]) && SignalFits(ss[k], ms[k])
    {
      assert Enabled(ss[k], ms[k]);
      if ms[k].a.BeginRelease? {
        if ss[k].pcs[ms[k].t].Writing? { WritersRelease(ss[k]); } else { ReadersRelease(ss[k]); }
      } else if ms[k].a.SendSignal? {
        SignalsKeepInv(ss[k]);
      }
    }
  }

  /** No reachable state is stuck: while a thread waits, some thread that is already in the
      protocol can go on (a holder can release, a signal can be sent, or a token be taken). */
  lemma NoLostWakeUp(ss: seq<State>, ms: seq<Move>, k: nat, t: nat) returns (m: Move)
    requires IsRun(ss, ms) && Initial(ss[0]) && k < |ss|
    requires t < |ss[k].pcs| && (ss[k].pcs[t].WantsWrite? || ss[k].pcs[t].WantsRead?)
    ensures Enabled(ss[k], m) && !m.a.BeginWrite? && !m.a.BeginRead?
  {
    InitialInv();
    RunKeepsInv(ss, ms, k);
    var s := ss[k];
    SumCovers(s.pcs, t, t, WantsWriteW);
    SumCovers(s.pcs, t, t, WantsReadW);
    if Writers(s) > 0 {
      var i := SumWitness(s.pcs, WritingW);
      m := Move(i, BeginRelease);
    } else if Readers(s) > 0 {
      var i := SumWitness(s.pcs, ReadingW);
      m := Move(i, BeginRelease);
    } else if Sum(s.pcs, WriterTokenW) > 0 {
      var i := SumWitness(s.pcs, WriterTokenW);
      m := Move(i, SendSignal);
    } else if Sum(s.pcs, ReaderTokenW) > 0 {
      var i := SumWitness(s.pcs, ReaderTokenW);
      m := Move(i, SendSignal);
    } else if s.event {
      var i := SumWitness(s.pcs, WantsWriteW);
      m := Move(i, TakeEvent);
    } else {
      var i := SumWitness(s.pcs, WantsReadW);
      m := Move(i, TakeSemaphore);
    }
  }

  /** How many steps a thread may still take without beginning again. */
  function StepsLeft(p: Pc): nat {
    match p
    case Outside => 0
    case WantsWrite => 3
    case WantsRead => 3
    case Writing => 2
    case Reading => 2
    case Signalling(_) => 1
  }

  ghost function Rank(s: State): nat { Sum(s.pcs, StepsLeft) }

  /** While no acquire begins, the protocol takes at most three more steps for each thread. */
  lemma {:induction false} RunsOut(ss: seq<State>, ms: seq<Move>, j: nat, k: nat)
    requires IsRun(ss, ms) && j <= k < |ss|
    requires forall i {:trigger ms[i]} :: j <= i < k ==> !Begins(ms[i])
    ensures k - j + Rank(ss[k]) <= Rank(ss[j]) <= 3 * |ss[j].pcs|
  {
    if j < k {
      RunsOut(ss, ms, j, k - 1);
      var s, m := ss[k - 1], ms[k - 1];
      SumUpdate(s.pcs, m.t, Next(s, m).pcs[m.t], StepsLeft);
    } else {
      RankBounded(ss[j].pcs);
    }
  }

  lemma {:induction false} RankBounded(pcs: seq<Pc>)
    ensures Sum(pcs, StepsLeft) <= 3 * |pcs|
  {
    if pcs != [] { RankBounded(pcs[1..]); }
  }

  /** And when it can take no more steps, every thread, waiter or holder, has been in and out,
      and the lock is free. */
  lemma AllGetOut(ss: seq<State>, ms: seq<Move>, k: nat)
    requires IsRun(ss, ms) && Initial(ss[0]) && k < |ss|
    requires forall m :: Enabled(ss[k], m) ==> Begins(m)
    ensures forall t :: 0 <= t < |ss[k].pcs| ==> ss[k].pcs[t].Outside?
    ensures ss[k].c.lockCount == -1
  {
    var s := ss[k];
    forall t | 0 <= t < |s.pcs| ensures s.pcs[t].Outside? {
      if s.pcs[t].WantsWrite? || s.pcs[t].WantsRead? {
        var m := NoLostWakeUp(ss, ms, k, t);
        assert false;
      }
      assert !Enabled(s, Move(t, BeginRelease)) && !Enabled(s, Move(t, SendSignal));
    }
    ExactAccounting(ss, ms);
    SumZero(s.pcs, WritingW);
    SumZero(s.pcs, ReadingW);
    SumZero(s.pcs, WantsWriteW);
    SumZero(s.pcs, WantsReadW);
  }

  // ---------- phases ----------

  /** While a writer is registered, nobody joins a group of readers, and the writer stays
      registered for as long as the group lasts. */
  lemma NobodyJoins(s: State, m: Move)
    requires Inv(s) && Enabled(s, m) && s.c.writersWaiting > 0
    requires s.c.readersEntry > 0 && Next(s, m).c.readersEntry > 0
    ensures Next(s, m).c.readersEntry <= s.c.readersEntry && Next(s, m).c.writersWaiting > 0
  {
    Bounded(s);
  }

  /** While a writer is registered, a group of readers only shrinks until it is gone. */
  lemma {:induction false} ReaderGroupDrains(ss: seq<State>, ms: seq<Move>, j: nat, k: nat)
    requires IsRun(ss, ms) && Inv(ss[0]) && j <= k < |ss|
    requires ss[j].c.writersWaiting > 0
    requires forall i :: j <= i <= k ==> ss[i].c.readersEntry > 0
    ensures ss[k].c.readersEntry <= ss[j].c.readersEntry && ss[k].c.writersWaiting > 0
  {
    if j < k {
      ReaderGroupDrains(ss, ms, j, k - 1);
      RunKeepsInv(ss, ms, k - 1);
      assert ss[k - 1].c.readersEntry > 0 && ss[k].c.readersEntry > 0;
      assert Enabled(ss[k - 1], ms[k - 1]) && ss[k] == Next(ss[k - 1], ms[k - 1]);
      NobodyJoins(ss[k - 1], ms[k - 1]);
    }
  }

  /** The move takes a registered writer, or registered readers, off the count and calls them in. */
  predicate HandsToWriter(s: State, m: Move)
    requires Enabled(s, m)
  {
    Next(s, m).c.writersWaiting < s.c.writersWaiting
  }

  predicate HandsToReaders(s: State, m: Move)
    requires Enabled(s, m)
  {
    Next(s, m).c.readersWaiting < s.c.readersWaiting
  }

  /** How often the lock is handed to a waiting writer in the first k moves. */
  ghost function HandOffs(ss: seq<State>, ms: seq<Move>, k: nat): nat
    requires IsRun(ss, ms) && k <= |ms|
  {
    if k == 0 then 0
    else
      assert Enabled(ss[k - 1], ms[k - 1]);
      HandOffs(ss, ms, k - 1) + if HandsToWriter(ss[k - 1], ms[k - 1]) then 1 else 0
  }

  /** How often registered readers are called in. */
  ghost function GroupsCalled(ss: seq<State>, ms: seq<Move>, k: nat): nat
    requires IsRun(ss, ms) && k <= |ms|
  {
    if k == 0 then 0
    else
      assert Enabled(ss[k - 1], ms[k - 1]);
      GroupsCalled(ss, ms, k - 1) + if HandsToReaders(ss[k - 1], ms[k - 1]) then 1 else 0
  }

  lemma HandOffEndsReaderGroup(s: State, m: Move)
    requires Inv(s) && Enabled(s, m) && s.c.readersWaiting > 0 && Next(s, m).c.readersWaiting > 0
    ensures HandsToWriter(s, m) ==> s.c.readersEntry > 0
    ensures Next(s, m).c.readersEntry > 0 ==> s.c.readersEntry > 0 && !HandsToWriter(s, m)
  {
    Bounded(s);
  }

  /** As long as some reader stays registered, at most one writer is called in ahead of it:
      none when a writer has the lock, one when a group of readers has it. */
  lemma {:induction false} ReadersWaitForOneWriter(ss: seq<State>, ms: seq<Move>, k: nat)
    requires IsRun(ss, ms) && Inv(ss[0]) && k <= |ms|
    requires forall i :: 0 <= i <= k ==> ss[i].c.readersWaiting > 0
    ensures HandOffs(ss, ms, k) + (if ss[k].c.readersEntry > 0 then 1 else 0)
            <= if ss[0].c.readersEntry > 0 then 1 else 0
  {
    if k > 0 {
      ReadersWaitForOneWriter(ss, ms, k - 1);
      assert Inv(ss[k - 1]) by { RunKeepsInv(ss, ms, k - 1); }
      assert Enabled(ss[k - 1], ms[k - 1]) && ss[k] == Next(ss[k - 1], ms[k - 1]);
      HandOffEndsReaderGroup(ss[k - 1], ms[k - 1]);
    }
  }

  predicate ReaderReleases(s: State, m: Move) { Enabled(s, m) && m.a.BeginRelease? && s.pcs[m.t].Reading? }

  /** What a release by a reader does: whoever is registered as a reader stays so and gets no
      token. While others of the group are there nothing else happens; the last one gives the
      lock to exactly one registered writer, if there is one, and frees it otherwise. */
  ghost predicate ReaderHandsOver(s: State, s': State) {
    && s'.c.readersWaiting == s.c.readersWaiting && ReaderTokens(s') == ReaderTokens(s)
    && (Readers(s) + ReaderTokens(s) > 1 ==>
          s'.c.writersWaiting == s.c.writersWaiting && WriterTokens(s') == WriterTokens(s) == 0)
    && (Readers(s) + ReaderTokens(s) == 1 ==>
          if s.c.writersWaiting > 0
          then WriterTokens(s') == 1 && s'.c.writersWaiting == s.c.writersWaiting - 1
          else WriterTokens(s') == 0 && s'.c == INITIAL)
  }

  lemma ReadersHandOver(s: State)
    requires Inv(s)
    ensures forall m :: ReaderReleases(s, m) ==> ReaderHandsOver(s, Next(s, m))
  {
    hide Sum, Writers, WaitingWriters, WaitingReaders;
    forall m | ReaderReleases(s, m) ensures ReaderHandsOver(s, Next(s, m)) {
      var s' := Next(s, m);
      assert Inv(s') by { ReadersRelease(s); }
      Recount(s, m.t, s'.pcs[m.t], s');
      Bounded(s);
      SumCovers(s.pcs, m.t, m.t, ReadingW);
    }
  }

  /** Over every run: a release by a reader calls in no reader, and the last of a group calls in
      one writer if any is registered. */
  lemma LastReaderCallsWriter(ss: seq<State>, ms: seq<Move>)
    requires IsRun(ss, ms) && Initial(ss[0])
    ensures forall k {:trigger ms[k]} :: 0 <= k < |ms| && ReaderReleases(ss[k], ms[k]) ==>
              ReaderHandsOver(ss[k], ss[k + 1])
    ensures forall k :: 0 <= k < |ss| && ss[k].c.writersWaiting > 0 && ss[k].c.readersEntry == 0 ==>
              Writers(ss[k]) + WriterTokens(ss[k]) == 1
  {
    InitialInv();
    RunKeepsInv(ss, ms, |ms|);
    forall k {:trigger ms[k]} | 0 <= k < |ms| && ReaderReleases(ss[k], ms[k])
      ensures ReaderHandsOver(ss[k], ss[k + 1])
    {
      ReadersHandOver(ss[k]);
      assert ss[k + 1] == Next(ss[k], ms[k]);
    }
    forall k | 0 <= k < |ss| && ss[k].c.writersWaiting > 0 && ss[k].c.readersEntry == 0
      ensures Writers(ss[k]) + WriterTokens(ss[k]) == 1
    {
      assert Inv(ss[k]);
    }
  }

  /** While a writer stays registered, a group of registered readers is called in only by a
      writer, and such a group ends only by calling in a writer. */
  lemma GroupsAlternate(s: State, m: Move)
    requires Inv(s) && Enabled(s, m) && s.c.writersWaiting > 0 && Next(s, m).c.writersWaiting > 0
    ensures HandsToReaders(s, m) ==> s.c.readersEntry == 0 < Next(s, m).c.readersEntry && !HandsToWriter(s, m)
    ensures s.c.readersEntry == 0 < Next(s, m).c.readersEntry ==> HandsToReaders(s, m)
    ensures Next(s, m).c.readersEntry == 0 < s.c.readersEntry ==> HandsToWriter(s, m)
  {
    Bounded(s);
  }

  /** As long as some writer stays registered, between two hand-offs to writers at most one group
      of registered readers is called in ahead of it: none while such a group has the lock. */
  lemma {:induction false} WritersWaitForOneGroup(ss: seq<State>, ms: seq<Move>, k: nat)
    requires IsRun(ss, ms) && Inv(ss[0]) && k <= |ms|
    requires forall i :: 0 <= i <= k ==> ss[i].c.writersWaiting > 0
    ensures GroupsCalled(ss, ms, k) + (if ss[k].c.readersEntry == 0 then 1 else 0)
            <= HandOffs(ss, ms, k) + if ss[0].c.readersEntry == 0 then 1 else 0
  {
    if k > 0 {
      WritersWaitForOneGroup(ss, ms, k - 1);
      assert Inv(ss[k - 1]) && Inv(ss[k]) by { RunKeepsInv(ss, ms, k); }
      assert Enabled(ss[k - 1], ms[k - 1]) && ss[k] == Next(ss[k - 1], ms[k - 1]);
      GroupsAlternate(ss[k - 1], ms[k - 1]);
    }
  }

  /** Who has to wait, in terms of who is there: a writer unless the lock is free; a reader unless
      it is free or a group of readers has it and no writer waits to be called in. */
  lemma WaitsExactly(s: State, t: nat)
    requires Inv(s) && t < |s.pcs| && s.pcs[t].Outside?
    ensures var users := Writers(s) + Readers(s) + WaitingWriters(s) + WaitingReaders(s);
            var w, r := Next(s, Move(t, BeginWrite)), Next(s, Move(t, BeginRead));
            && w.pcs[t] == (if users == 0 then Writing else WantsWrite)
            && r.pcs[t] == (if users == 0 || (Readers(s) + ReaderTokens(s) > 0 && WaitingWriters(s) == 0)
                            then Reading else WantsRead)
  {
    hide Sum, Writers, Readers, WaitingWriters, WaitingReaders;
    Bounded(s);
    SomeoneOutside(s.pcs, t);
  }

  /** When a writer releases while readers are registered, all of them are admitted together,
      before any waiting writer. */
  lemma WriterAdmitsAllReaders(s: State)
    requires Inv(s) && s.c.readersWaiting > 0
    ensures forall m :: Enabled(s, m) && m.a.BeginRelease? && s.pcs[m.t].Writing? ==>
              && Next(s, m).c.readersWaiting == 0 && WriterTokens(Next(s, m)) == 0
              && ReaderTokens(Next(s, m)) == WaitingReaders(Next(s, m)) == WaitingReaders(s) > 0
  {
    hide Sum, Writers, Readers, WaitingWriters;
    forall m | Enabled(s, m) && m.a.BeginRelease? && s.pcs[m.t].Writing?
      ensures Next(s, m).c.readersWaiting == 0 && WriterTokens(Next(s, m)) == 0
      ensures ReaderTokens(Next(s, m)) == WaitingReaders(Next(s, m)) == WaitingReaders(s) > 0
    {
      WritersRelease(s);
      Recount(s, m.t, Next(s, m).pcs[m.t], Next(s, m));
      SumCovers(s.pcs, m.t, m.t, WritingW);
      Bounded(s);
    }
  }
}

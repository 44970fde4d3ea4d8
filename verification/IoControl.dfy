/** Device and file-system control requests, nboxkrnl/io/iop.cpp. */
module IoControl {
  // Modelled: IopControlFile, IopSynchronousService, IopCompleteRequest and the synchronous file
  // lock, together with the last part of IofCompleteRequest in nboxkrnl/io/io.cpp.
  //
  // Any number of requests share one file object that was opened for synchronous I/O. The books
  // count references and packets; what the driver does (whether it returns STATUS_PENDING, when
  // it completes the packet, with which status, and whether the packet arrives marked as pending)
  // is the environment's choice. A completion that is queued to a running thread is delivered
  // before the driver's call returns there.

  import opened Tally
  import opened Wrappers

  const MAXLONG := 0x7fff_ffff

  /** NT_ERROR: the two top bits of the status are set. */
  predicate NtError(status: nat) { status >= 0xC000_0000 }

  /** NT_SUCCESS: the top bit is clear. */
  predicate NtSuccess(status: nat) { status < 0x8000_0000 }

  /** Both look at the severity, the two top bits of the 32. */
  lemma SeverityDecides(status: nat)
    requires status <= 0xFFFF_FFFF
    ensures NtError(status) <==> status / 0x4000_0000 == 3
    ensures NtSuccess(status) <==> status / 0x4000_0000 <= 1
  {
  }

  const STATUS_INVALID_PARAMETER := 0xC000_000D
  const STATUS_INSUFFICIENT_RESOURCES := 0xC000_009A

  /** The file object: its lock (a count and an auto-reset event), the event and the status a
      pended request waits for, and the references that requests hold; `port` and `synchronize`
      are settled when the file is opened. */
  datatype File = File(
    lockCount: int, lock: bool, event: bool, final: nat,
    fileRefs: int, eventRefs: int, irps: int,
    port: bool, synchronize: bool)

  /** How far the thread that issued a request has come. */
  datatype Pc =
    | Begin
    | Referenced            // holds the file object
    | Acquire               // looked everything up, about to take the file lock
    | Waiting               // waits for the file lock
    | Holding               // has the lock, about to allocate the packet
    | Cleanup               // the allocation failed
    | InDriver
    | Serviced              // the driver has returned
    | Await                 // waits for the file object's event
    | Release               // about to decrement the lock count
    | Signal                // about to set the lock's event
    | Drop                  // about to dereference the file object after a failed allocation
    | Done

  /** How far the driver and the delivery of the completion have come. */
  datatype Io = NotIssued | InFlight | Queued | Delivered | Kept

  /** What the caller asks for, and what the lookups of its two handles return. */
  datatype Call = Call(wantsEvent: bool, apc: bool, fsctl: bool, fileStatus: nat, eventStatus: nat)

  datatype Driver = Driver(pends: bool, marked: bool, status: nat)

  /** What a request holds: taken, less given back. Zero is balanced, less is given back twice. */
  datatype Held = Held(files: int, events: int, irps: int)

  const NOTHING := Held(0, 0, 0)

  /** A request: what the caller asked for, what the driver chose, what it holds, how often its
      own APC routine is still to run, the status it returned, the status that was written to the
      caller's IO_STATUS_BLOCK, whether the caller's event was set, and how often its APC routine
      has been queued. */
  datatype Req = Req(call: Call, pc: Pc, io: Io, drv: Driver, held: Held, userApcs: int, failed: bool, result: nat,
                     iosb: Option<nat>, signalled: bool, apcs: int)

  function B(b: bool): int { if b then 1 else 0 }

  /** The reference that a request takes on the event it was given. */
  function EventOf(r: Req): int { if r.call.wantsEvent then 1 else 0 }

  // ---------- the operations ----------

  function Take(f: File, files: int, events: int, irps: int): File {
    f.(fileRefs := f.fileRefs + files, eventRefs := f.eventRefs + events, irps := f.irps + irps)
  }

  function Hold(h: Held, files: int, events: int, irps: int): Held {
    Held(h.files + files, h.events + events, h.irps + irps)
  }

  /** The lookup of the file handle. */
  function OpenFile(f: File, r: Req): (File, Req) {
    if NtSuccess(r.call.fileStatus)
    then (f.(fileRefs := f.fileRefs + 1), r.(pc := Referenced, held := r.held.(files := r.held.files + 1)))
    else (f, r.(pc := Done, result := r.call.fileStatus))
  }

  /** Refused after the file handle was looked up, so the file object is given back. */
  function Refused(f: File, r: Req, status: nat): (File, Req) {
    (f.(fileRefs := f.fileRefs - 1), r.(pc := Done, result := status, held := r.held.(files := r.held.files - 1)))
  }

  /** The completion port and then the event handle are checked. */
  function Lookup(f: File, r: Req): (File, Req) {
    if f.port && r.call.apc then Refused(f, r, STATUS_INVALID_PARAMETER)
    else if r.call.wantsEvent && !NtSuccess(r.call.eventStatus) then Refused(f, r, r.call.eventStatus)
    else (f.(eventRefs := f.eventRefs + EventOf(r)), r.(pc := Acquire, held := r.held.(events := r.held.events + EventOf(r))))
  }

  function AcquireLock(f: File): (File, bool) {
    (f.(lockCount := f.lockCount + 1), f.lockCount + 1 != 0)
  }

  function ReleaseLock(f: File): (File, bool) {
    (f.(lockCount := f.lockCount - 1), f.lockCount - 1 >= 0)
  }

  /** IopCompleteRequest: a caller's APC keeps the packet until it has run. */
  function CompleteRequest(f: File, r: Req): (File, Req) {
    var apc := r.call.apc && !NtError(r.drv.status);
    var irps := if apc then 0 else -1;
    var g := Take(f, -1, -EventOf(r), irps);
    var q := r.(held := Hold(r.held, -1, -EventOf(r), irps), userApcs := r.userApcs + B(apc), apcs := r.apcs + B(apc));
    if NtError(r.drv.status) then (g, q)
    else if r.call.wantsEvent then (g.(final := r.drv.status), q.(iosb := Some(r.drv.status), signalled := true))
    else if f.synchronize then (g.(event := true, final := r.drv.status), q.(iosb := Some(r.drv.status)))
    else (g, q.(iosb := Some(r.drv.status)))
  }

  function Finish(f: File, r: Req): (File, Req) {
    var (g, q) := if r.call.fsctl && !r.drv.pends then CompleteRequest(f, r) else (f, r);
    (g, q.(pc := if r.drv.pends then Await else Release, result := r.drv.status))
  }

  class FileObject {
    var LockCount: int
    var Lock: bool
    var Event: bool
    var FinalStatus: nat
    var FileReferences: int
    var EventReferences: int
    var Irps: int
    const CompletionContext: bool
    const Synchronize: bool

    ghost function View(): File
      reads this
    {
      File(LockCount, Lock, Event, FinalStatus, FileReferences, EventReferences, Irps, CompletionContext, Synchronize)
    }

    constructor (port: bool, synchronize: bool, references: int)
      ensures View() == File(-1, false, false, 0, references, 0, 0, port, synchronize)
    {
      LockCount, Lock, Event, FinalStatus := -1, false, false, 0;
      FileReferences, EventReferences, Irps := references, 0, 0;
      CompletionContext, Synchronize := port, synchronize;
    }

    method OpenHandle(r: Req) returns (r': Req)
      modifies this
      ensures (View(), r') == OpenFile(old(View()), r)
    {
      if !NtSuccess(r.call.fileStatus) {
        return r.(pc := Done, result := r.call.fileStatus);
      }
      FileReferences := FileReferences + 1;
      r' := r.(pc := Referenced, held := r.held.(files := r.held.files + 1));
    }

    /** The lookups of IopControlFile once the file handle has been referenced. */
    method LookUp(r: Req) returns (r': Req)
      modifies this
      ensures (View(), r') == Lookup(old(View()), r)
    {
      if CompletionContext && r.call.apc {
        FileReferences := FileReferences - 1;
        return r.(pc := Done, result := STATUS_INVALID_PARAMETER, held := r.held.(files := r.held.files - 1));
      }
      if r.call.wantsEvent {
        if !NtSuccess(r.call.eventStatus) {
          FileReferences := FileReferences - 1;
          return r.(pc := Done, result := r.call.eventStatus, held := r.held.(files := r.held.files - 1));
        }
        EventReferences := EventReferences + 1;
      }
      r' := r.(pc := Acquire, held := r.held.(events := r.held.events + EventOf(r)));
    }

    method IopAcquireSynchronousFileLock() returns (mustWait: bool)
      modifies this
      ensures (View(), mustWait) == AcquireLock(old(View()))
    {
      LockCount := LockCount + 1;
      mustWait := LockCount != 0;
    }

    method IopReleaseSynchronousFileLock() returns (signal: bool)
      modifies this
      ensures (View(), signal) == ReleaseLock(old(View()))
    {
      LockCount := LockCount - 1;
      signal := LockCount >= 0;
    }

    method IopCompleteRequest(r: Req) returns (r': Req)
      modifies this
      ensures (View(), r') == CompleteRequest(old(View()), r)
    {
      var files, events, irps, userApcs := 0, 0, 0, 0;
      r' := r;
      if !NtError(r.drv.status) {
        r' := r'.(iosb := Some(r.drv.status));
        if r.call.wantsEvent {
          r' := r'.(signalled := true);
          events := events - 1;
          FinalStatus := r.drv.status;
        } else if Synchronize {
          Event := true;
          FinalStatus := r.drv.status;
        }
        if r.call.apc {
          userApcs := 1;
        } else {
          irps := irps - 1;
        }
      } else {
        if r.call.wantsEvent {
          events := events - 1;
        }
        irps := irps - 1;
      }
      files := files - 1;
      FileReferences, EventReferences, Irps := FileReferences + files, EventReferences + events, Irps + irps;
      r' := r'.(held := Hold(r.held, files, events, irps), userApcs := r.userApcs + userApcs, apcs := r.apcs + userApcs);
    }

    /** IopSynchronousService between the driver's return and the wait for the event. */
    method FinishService(r: Req) returns (r': Req)
      modifies this
      ensures (View(), r') == Finish(old(View()), r)
    {
      r' := r;
      if r.call.fsctl {
        if !r.drv.pends {
          r' := IopCompleteRequest(r');
        }
      }
      r' := r'.(pc := if r.drv.pends then Await else Release, result := r.drv.status);
    }
  }

  // ---------- the transition system ----------

  datatype State = State(f: File, reqs: seq<Req>)

  datatype Action =
    | Open
    | LookUp
    | TakeLock
    | Wake
    | Allocate(ok: bool)
    | CleanUp
    | Dereference
    | Complete(marked: bool, status: nat)   // the driver completes the packet
    | Deliver                               // the completion APC runs
    | Return(pends: bool)                   // the driver returns to IopSynchronousService
    | FinishUp
    | Resume
    | Unlock
    | SetLock
    | UserApc                               // the caller's APC routine runs, or is run down

  datatype Move = Move(t: nat, a: Action)

  predicate Initial(s: State) {
    && s.f.lockCount == -1 && !s.f.lock && !s.f.event && s.f.eventRefs == 0 && s.f.irps == 0
    && |s.reqs| <= MAXLONG
    && forall i :: 0 <= i < |s.reqs| ==>
         s.reqs[i].pc.Begin? && s.reqs[i].io.NotIssued? && !s.reqs[i].failed
         && s.reqs[i].held == NOTHING && s.reqs[i].userApcs == 0 && s.reqs[i].iosb.None? && !s.reqs[i].signalled && s.reqs[i].apcs == 0
  }

  predicate CanMove(f: File, r: Req, a: Action) {
    match a
    case Open => r.pc.Begin?
    case LookUp => r.pc.Referenced?
    case TakeLock => r.pc.Acquire?
    case Wake => r.pc.Waiting? && f.lock
    case Allocate(_) => r.pc.Holding?
    case CleanUp => r.pc.Cleanup?
    case Dereference => r.pc.Drop?
    case Complete(_, _) => r.io.InFlight?
    case Deliver => r.io.Queued?
    case Return(pends) => r.pc.InDriver? && (pends || r.io.Delivered? || r.io.Kept?)
    case FinishUp => r.pc.Serviced?
    case Resume => r.pc.Await? && f.event
    case Unlock => r.pc.Release?
    case SetLock => r.pc.Signal?
    case UserApc => r.userApcs > 0
  }

  predicate Enabled(s: State, m: Move) {
    m.t < |s.reqs| && CanMove(s.f, s.reqs[m.t], m.a)
  }

  function After(r: Req): Pc { if r.failed then Drop else Done }

  /** The next file object and the next form of the request that moves. */
  function Moved(f: File, r: Req, a: Action): (File, Req) {
    match a
    case Open => OpenFile(f, r)
    case LookUp => Lookup(f, r)
    case TakeLock =>
      var (g, wait) := AcquireLock(f);
      (g, r.(pc := if wait then Waiting else Holding))
    case Wake => (f.(lock := false), r.(pc := Holding))
    case Allocate(ok) =>
      if ok then (f.(irps := f.irps + 1, event := false), r.(pc := InDriver, io := InFlight, held := r.held.(irps := r.held.irps + 1)))
      else (f, r.(pc := Cleanup, failed := true))
    case CleanUp =>
      (f.(eventRefs := f.eventRefs - EventOf(r)), r.(pc := Release, result := STATUS_INSUFFICIENT_RESOURCES,
                                                  held := r.held.(events := r.held.events - EventOf(r))))
    case Dereference => (f.(fileRefs := f.fileRefs - 1), r.(pc := Done, held := r.held.(files := r.held.files - 1)))
    case Complete(marked, status) =>
      (f, r.(io := if r.call.fsctl && !marked then Kept else Queued, drv := r.drv.(marked := marked, status := status)))
    case Deliver =>
      var (g, q) := CompleteRequest(f, r);
      (g, q.(io := Delivered))
    case Return(pends) => (f, r.(pc := Serviced, drv := r.drv.(pends := pends)))
    case FinishUp => Finish(f, r)
    case Resume => (f, r.(pc := Release, result := f.final))
    case Unlock =>
      var (g, signal) := ReleaseLock(f);
      (g, r.(pc := if signal then Signal else After(r)))
    case SetLock => (f.(lock := true), r.(pc := After(r)))
    case UserApc => (f.(irps := f.irps - 1), r.(userApcs := r.userApcs - 1, held := r.held.(irps := r.held.irps - 1)))
  }

  function Next(s: State, m: Move): State
    requires Enabled(s, m)
  {
    var (f, r) := Moved(s.f, s.reqs[m.t], m.a);
    State(f, s.reqs[m.t := r])
  }

  ghost predicate IsRun(ss: seq<State>, ms: seq<Move>) {
    && |ss| == |ms| + 1
    && forall i {:trigger ms[i]} :: 0 <= i < |ms| ==> Enabled(ss[i], ms[i]) && ss[i + 1] == Next(ss[i], ms[i])
  }

  // ---------- what each request holds ----------

  function HasLock(r: Req): bool {
    r.pc.Holding? || r.pc.Cleanup? || r.pc.InDriver? || r.pc.Serviced? || r.pc.Await? || r.pc.Release?
  }

  function LockW(r: Req): nat { if HasLock(r) then 1 else 0 }
  function WaitW(r: Req): nat { if r.pc.Waiting? then 1 else 0 }
  function SignalW(r: Req): nat { if r.pc.Signal? then 1 else 0 }

  function FilesOf(r: Req): int { r.held.files }
  function EventsOf(r: Req): int { r.held.events }
  function IrpsOf(r: Req): int { r.held.irps }

  predicate Issued(r: Req) { r.pc.InDriver? || r.pc.Serviced? || r.pc.Await? }

  /** The completion sets the file object's event: only a request without an event of its own,
      without an error, on a file opened with SYNCHRONIZE access does. */
  predicate Signals(f: File, r: Req) { !NtError(r.drv.status) && !r.call.wantsEvent && f.synchronize }

  /** What is held after IopCompleteRequest has run n times for an issued packet. */
  predicate Completed(r: Req, n: int) {
    && r.held.files == 1 - n
    && r.held.events == (if r.call.wantsEvent then 1 - n else 0)
    && r.held.irps == 1 - n + r.userApcs
  }

  /** Without a packet: what it holds. */
  predicate Bare(r: Req, files: int, events: int) {
    r.io.NotIssued? && r.userApcs == 0 && r.held.files == files && r.held.events == events && r.held.irps == 0
  }

  /** Holds the file object and the event, has no packet. */
  predicate Admitted(r: Req) { Bare(r, 1, EventOf(r)) && !r.failed }

  /** How often IopCompleteRequest has run for a request whose service is over. */
  function Completions(r: Req): int { B(r.io.Delivered?) + B(r.call.fsctl && !r.drv.pends) }

  predicate Over(f: File, r: Req) {
    && (r.io.Delivered? || r.io.Kept?)
    && (r.drv.pends ==> r.io.Delivered? && Signals(f, r))
    && Completed(r, Completions(r))
    && r.result == r.drv.status && !r.failed
  }

  predicate Running(r: Req) {
    !r.io.NotIssued? && !r.failed && Completed(r, B(r.io.Delivered?))
  }

  predicate AtPc(f: File, r: Req) {
    match r.pc
    case Begin => Bare(r, 0, 0) && !r.failed
    case Referenced => Bare(r, 1, 0) && !r.failed
    case Acquire => Admitted(r)
    case Waiting => Admitted(r)
    case Holding => Admitted(r)
    case Cleanup => Bare(r, 1, EventOf(r)) && r.failed
    case InDriver => Running(r)
    case Serviced => Running(r) && (r.drv.pends || r.io.Delivered? || r.io.Kept?)
    case Await => Running(r) && r.drv.pends
    case Release => if r.failed then Bare(r, 1, 0) else Over(f, r)
    case Signal => if r.failed then Bare(r, 1, 0) else Over(f, r)
    case Drop => Bare(r, 1, 0) && r.failed
    case Done => if r.io.NotIssued? then Bare(r, 0, 0) else Over(f, r)
  }

  /** What a request holds follows from how far it has come. */
  predicate Local(f: File, r: Req) {
    && r.userApcs >= 0
    && (r.io.Kept? ==> r.call.fsctl && !r.drv.marked)
    && (r.io.Queued? || r.io.Delivered? ==> !r.call.fsctl || r.drv.marked)
    && (r.io.InFlight? || r.io.Queued? ==> Issued(r))
    && AtPc(f, r)
  }

  ghost predicate Locals(s: State) {
    forall i :: 0 <= i < |s.reqs| ==> Local(s.f, s.reqs[i])
  }

  /** A set event is a grant nobody has taken yet; a count of at least 0 means one is due. */
  function Free(f: File): int { (if f.lock then 1 else 0) - (if f.lockCount >= 0 then 1 else 0) }

  ghost predicate LockInv(s: State) {
    && s.f.lockCount + 1 == Sum(s.reqs, LockW) + Sum(s.reqs, WaitW)
    && Sum(s.reqs, LockW) + Sum(s.reqs, SignalW) + Free(s.f) == 0
  }

  /** `base` is what others hold on the file object. */
  ghost predicate Books(s: State, base: int) {
    && s.f.fileRefs == base + Total(s.reqs, FilesOf)
    && s.f.eventRefs == Total(s.reqs, EventsOf)
    && s.f.irps == Total(s.reqs, IrpsOf)
  }

  /** While a request is with the driver, the event and the final status are its own. */
  predicate OwnsEvent(f: File, r: Req) {
    && f.event == (r.io.Delivered? && Signals(f, r))
    && (f.event ==> f.final == r.drv.status)
  }

  ghost predicate EventInv(s: State) {
    forall i :: 0 <= i < |s.reqs| && Issued(s.reqs[i]) ==> OwnsEvent(s.f, s.reqs[i])
  }

  ghost predicate Inv(s: State, base: int) {
    Locals(s) && LockInv(s) && Books(s, base) && EventInv(s)
  }

  // ---------- one request moves ----------

  /** What the moving request may assume of the lock. */
  predicate LockView(f: File, r: Req) {
    && f.lockCount >= -1
    && (HasLock(r) || r.pc.Signal? ==> f.lockCount >= 0 && !f.lock)
    && (f.lock ==> f.lockCount >= 0)
  }

  /** How a move must change the lock for the sums to stay right. */
  predicate LockStep(f: File, r: Req, f': File, r': Req) {
    && f'.lockCount - f.lockCount == LockW(r') + WaitW(r') - LockW(r) - WaitW(r)
    && LockW(r') + SignalW(r') + Free(f') == LockW(r) + SignalW(r) + Free(f)
  }

  predicate BooksStep(f: File, r: Req, f': File, r': Req) {
    && f'.fileRefs - f.fileRefs == r'.held.files - r.held.files
    && f'.eventRefs - f.eventRefs == r'.held.events - r.held.events
    && f'.irps - f.irps == r'.held.irps - r.held.irps
  }

  /** Only the holder of the lock touches the event. */
  predicate EventStep(f: File, r: Req, f': File, r': Req) {
    && f'.synchronize == f.synchronize && f'.port == f.port
    && (!HasLock(r) ==> f'.event == f.event && f'.final == f.final && !Issued(r'))
    && (Issued(r') ==> OwnsEvent(f', r'))
  }

  predicate GoodStep(f: File, r: Req, f': File, r': Req) {
    Local(f', r') && LockStep(f, r, f', r') && BooksStep(f, r, f', r') && EventStep(f, r, f', r')
  }

  predicate Ready(f: File, r: Req) {
    Local(f, r) && LockView(f, r) && (Issued(r) ==> OwnsEvent(f, r))
  }

  lemma OpenStep(f: File, r: Req)
    requires Ready(f, r) && CanMove(f, r, Open)
    ensures GoodStep(f, r, Moved(f, r, Open).0, Moved(f, r, Open).1)
  {
  }

  lemma LookUpStep(f: File, r: Req)
    requires Ready(f, r) && CanMove(f, r, LookUp)
    ensures GoodStep(f, r, Moved(f, r, LookUp).0, Moved(f, r, LookUp).1)
  {
  }

  lemma LockSteps(f: File, r: Req, a: Action)
    requires Ready(f, r) && CanMove(f, r, a) && (a.TakeLock? || a.Wake?)
    ensures GoodStep(f, r, Moved(f, r, a).0, Moved(f, r, a).1)
  {
  }

  lemma AllocateStep(f: File, r: Req, ok: bool)
    requires Ready(f, r) && CanMove(f, r, Allocate(ok))
    ensures GoodStep(f, r, Moved(f, r, Allocate(ok)).0, Moved(f, r, Allocate(ok)).1)
  {
  }

  lemma CleanUpSteps(f: File, r: Req, a: Action)
    requires Ready(f, r) && CanMove(f, r, a) && (a.CleanUp? || a.Dereference?)
    ensures GoodStep(f, r, Moved(f, r, a).0, Moved(f, r, a).1)
  {
  }

  lemma FailureDelivers(f: File, r: Req)
    requires Ready(f, r) && CanMove(f, r, Deliver) && NtError(r.drv.status)
    ensures GoodStep(f, r, Moved(f, r, Deliver).0, Moved(f, r, Deliver).1)
  {
  }

  lemma EventDelivers(f: File, r: Req)
    requires Ready(f, r) && CanMove(f, r, Deliver) && !NtError(r.drv.status) && r.call.wantsEvent
    ensures GoodStep(f, r, Moved(f, r, Deliver).0, Moved(f, r, Deliver).1)
  {
  }

  lemma SuccessDelivers(f: File, r: Req)
    requires Ready(f, r) && CanMove(f, r, Deliver) && !NtError(r.drv.status) && !r.call.wantsEvent
    ensures GoodStep(f, r, Moved(f, r, Deliver).0, Moved(f, r, Deliver).1)
  {
  }

  lemma DeliverStep(f: File, r: Req)
    requires Ready(f, r) && CanMove(f, r, Deliver)
    ensures GoodStep(f, r, Moved(f, r, Deliver).0, Moved(f, r, Deliver).1)
  {
    hide Ready, CanMove, GoodStep, Moved;
    if NtError(r.drv.status) { FailureDelivers(f, r); } else if r.call.wantsEvent { EventDelivers(f, r); } else { SuccessDelivers(f, r); }
  }

  lemma DriverSteps(f: File, r: Req, a: Action)
    requires Ready(f, r) && CanMove(f, r, a) && (a.Complete? || a.Return?)
    ensures GoodStep(f, r, Moved(f, r, a).0, Moved(f, r, a).1)
  {
  }

  lemma FinishAtOnce(f: File, r: Req)
    requires Ready(f, r) && CanMove(f, r, FinishUp) && r.call.fsctl && !r.drv.pends
    ensures GoodStep(f, r, Finish(f, r).0, Finish(f, r).1)
  {
    assert Running(r);
  }

  lemma FinishPlain(f: File, r: Req)
    requires Ready(f, r) && CanMove(f, r, FinishUp) && !(r.call.fsctl && !r.drv.pends)
    ensures GoodStep(f, r, Finish(f, r).0, Finish(f, r).1)
  {
    assert Running(r);
  }

  lemma FinishSteps(f: File, r: Req)
    requires Ready(f, r) && CanMove(f, r, FinishUp)
    ensures GoodStep(f, r, Finish(f, r).0, Finish(f, r).1)
  {
    hide Ready, CanMove, GoodStep, Finish;
    if r.call.fsctl && !r.drv.pends { FinishAtOnce(f, r); } else { FinishPlain(f, r); }
  }

  lemma ReleaseSteps(f: File, r: Req, a: Action)
    requires Ready(f, r) && CanMove(f, r, a) && (a.Unlock? || a.SetLock?)
    ensures GoodStep(f, r, Moved(f, r, a).0, Moved(f, r, a).1)
  {
  }

  lemma ResumeSteps(f: File, r: Req, a: Action)
    requires Ready(f, r) && CanMove(f, r, a) && (a.Resume? || a.UserApc?)
    ensures GoodStep(f, r, Moved(f, r, a).0, Moved(f, r, a).1)
  {
  }

  lemma AnyStep(f: File, r: Req, a: Action)
    requires Ready(f, r) && CanMove(f, r, a)
    ensures GoodStep(f, r, Moved(f, r, a).0, Moved(f, r, a).1)
  {
    if a.Open? {
      OpenStep(f, r);
    } else if a.LookUp? {
      LookUpStep(f, r);
    } else if a.TakeLock? || a.Wake? {
      LockSteps(f, r, a);
    } else if a.Allocate? {
      AllocateStep(f, r, a.ok);
    } else if a.CleanUp? || a.Dereference? {
      CleanUpSteps(f, r, a);
    } else if a.Deliver? {
      DeliverStep(f, r);
    } else if a.Complete? || a.Return? {
      DriverSteps(f, r, a);
    } else if a.Unlock? || a.SetLock? {
      ReleaseSteps(f, r, a);
    } else if a.FinishUp? {
      FinishSteps(f, r);
    } else {
      ResumeSteps(f, r, a);
    }
  }

  lemma SumsFollow(s: State, t: nat, base: int)
    requires t < |s.reqs| && LockInv(s) && Books(s, base)
    ensures forall f', r' :: LockStep(s.f, s.reqs[t], f', r') && BooksStep(s.f, s.reqs[t], f', r') ==>
              LockInv(State(f', s.reqs[t := r'])) && Books(State(f', s.reqs[t := r']), base)
  {
    forall f', r' | LockStep(s.f, s.reqs[t], f', r') && BooksStep(s.f, s.reqs[t], f', r')
      ensures LockInv(State(f', s.reqs[t := r'])) && Books(State(f', s.reqs[t := r']), base)
    {
      SumUpdate(s.reqs, t, r', LockW);
      SumUpdate(s.reqs, t, r', WaitW);
      SumUpdate(s.reqs, t, r', SignalW);
      TotalUpdate(s.reqs, t, r', FilesOf);
      TotalUpdate(s.reqs, t, r', EventsOf);
      TotalUpdate(s.reqs, t, r', IrpsOf);
    }
  }

  /** Two requests never hold the lock together; a pending signal means that none does. */
  lemma OneHolder(s: State, i: nat, j: nat)
    requires LockInv(s) && i < |s.reqs| && j < |s.reqs|
    ensures HasLock(s.reqs[i]) && HasLock(s.reqs[j]) ==> i == j
    ensures LockView(s.f, s.reqs[i])
  {
    SumCovers(s.reqs, i, j, LockW);
    SumCovers(s.reqs, i, i, SignalW);
  }

  lemma OthersKeep(s: State, t: nat, f': File, r': Req)
    requires t < |s.reqs| && Locals(s) && LockInv(s) && EventInv(s)
    requires Local(f', r') && EventStep(s.f, s.reqs[t], f', r')
    ensures Locals(State(f', s.reqs[t := r'])) && EventInv(State(f', s.reqs[t := r']))
  {
    var s' := State(f', s.reqs[t := r']);
    forall i | 0 <= i < |s'.reqs| ensures Local(f', s'.reqs[i]) && (Issued(s'.reqs[i]) ==> OwnsEvent(f', s'.reqs[i])) {
      if i != t {
        assert Local(s.f, s.reqs[i]);
        OneHolder(s, i, t);
        if Issued(s.reqs[i]) { assert OwnsEvent(s.f, s.reqs[i]); }
      }
    }
  }

  lemma StepKeepsInv(s: State, base: int)
    requires Inv(s, base)
    ensures forall m :: Enabled(s, m) ==> Inv(Next(s, m), base) && (m.a.SetLock? ==> !s.f.lock)
  {
    forall m | Enabled(s, m) ensures Inv(Next(s, m), base) && (m.a.SetLock? ==> !s.f.lock) {
      var r := s.reqs[m.t];
      var (f', r') := Moved(s.f, r, m.a);
      OneHolder(s, m.t, m.t);
      assert Local(s.f, r) && (Issued(r) ==> OwnsEvent(s.f, r));
      AnyStep(s.f, r, m.a);
      SumsFollow(s, m.t, base);
      OthersKeep(s, m.t, f', r');
    }
  }

  lemma {:induction false} RunKeepsInv(ss: seq<State>, ms: seq<Move>, k: nat)
    requires IsRun(ss, ms) && Initial(ss[0]) && k < |ss|
    ensures forall j :: 0 <= j <= k ==> Inv(ss[j], ss[0].f.fileRefs)
  {
    if k == 0 {
      SumZero(ss[0].reqs, LockW);
      SumZero(ss[0].reqs, WaitW);
      SumZero(ss[0].reqs, SignalW);
      TotalZero(ss[0].reqs, FilesOf);
      TotalZero(ss[0].reqs, EventsOf);
      TotalZero(ss[0].reqs, IrpsOf);
    } else {
      RunKeepsInv(ss, ms, k - 1);
      assert Enabled(ss[k - 1], ms[k - 1]) && ss[k] == Next(ss[k - 1], ms[k - 1]);
      StepKeepsInv(ss[k - 1], ss[0].f.fileRefs);
    }
  }

  // ---------- what holds over every run of any number of requests ----------

  /** The synchronous file lock: at most one request has it. */
  lemma OneRequestAtATime(ss: seq<State>, ms: seq<Move>, k: nat, i: nat, j: nat)
    requires IsRun(ss, ms) && Initial(ss[0]) && k < |ss|
    requires i < |ss[k].reqs| && j < |ss[k].reqs| && i != j
    ensures !(HasLock(ss[k].reqs[i]) && HasLock(ss[k].reqs[j]))
  {
    RunKeepsInv(ss, ms, k);
    OneHolder(ss[k], i, j);
  }

  /** The lock count is one less than the holders and waiters, and the lock's event is never
      set while it is set. */
  lemma LockIsExact(ss: seq<State>, ms: seq<Move>, k: nat)
    requires IsRun(ss, ms) && Initial(ss[0]) && k < |ss|
    ensures ss[k].f.lockCount + 1 == Sum(ss[k].reqs, LockW) + Sum(ss[k].reqs, WaitW)
    ensures k < |ms| && ms[k].a.SetLock? ==> !ss[k].f.lock
  {
    RunKeepsInv(ss, ms, k);
    if k < |ms| {
      assert Enabled(ss[k], ms[k]);
      StepKeepsInv(ss[k], ss[0].f.fileRefs);
    }
  }

  /** While a request waits for the lock, someone holds it, is about to pass it on, or has
      done so. */
  lemma LockIsNeverLost(ss: seq<State>, ms: seq<Move>, k: nat, t: nat) returns (i: nat)
    requires IsRun(ss, ms) && Initial(ss[0]) && k < |ss|
    requires t < |ss[k].reqs| && ss[k].reqs[t].pc.Waiting?
    ensures !ss[k].f.lock ==> i < |ss[k].reqs| && (HasLock(ss[k].reqs[i]) || ss[k].reqs[i].pc.Signal?)
  {
    RunKeepsInv(ss, ms, k);
    var s := ss[k];
    SumCovers(s.reqs, t, t, WaitW);
    i := 0;
    if !s.f.lock {
      if Sum(s.reqs, LockW) > 0 { i := SumWitness(s.reqs, LockW); } else { i := SumWitness(s.reqs, SignalW); }
    }
  }

  /** The one way to lose the balance: a file-system control request that the driver finishes at
      once, and whose packet arrives marked as pending all the same. */
  predicate Miscounted(r: Req) {
    !r.io.NotIssued? && r.call.fsctl && !r.drv.pends && r.drv.marked
  }

  /** A request that is over has given back exactly what it took, on every path, if and only if
      it is not miscounted; a miscounted one has given everything back twice. */
  lemma BalancedExactly(ss: seq<State>, ms: seq<Move>, k: nat, i: nat)
    requires IsRun(ss, ms) && Initial(ss[0]) && k < |ss| && i < |ss[k].reqs|
    requires ss[k].reqs[i].pc.Done? && ss[k].reqs[i].userApcs == 0
    ensures ss[k].reqs[i].held == NOTHING <==> !Miscounted(ss[k].reqs[i])
    ensures Miscounted(ss[k].reqs[i]) ==> ss[k].reqs[i].held == Held(-1, -EventOf(ss[k].reqs[i]), -1)
  {
    RunKeepsInv(ss, ms, k);
    assert Local(ss[k].f, ss[k].reqs[i]);
  }

  /** When all requests are over and none is miscounted, nothing is left: the file object has
      the references it had, no event and no packet is held, and the lock is free. */
  lemma NothingIsLeft(ss: seq<State>, ms: seq<Move>, k: nat)
    requires IsRun(ss, ms) && Initial(ss[0]) && k < |ss|
    requires forall i :: 0 <= i < |ss[k].reqs| ==>
               ss[k].reqs[i].pc.Done? && ss[k].reqs[i].userApcs == 0 && !Miscounted(ss[k].reqs[i])
    ensures ss[k].f == ss[k].f.(fileRefs := ss[0].f.fileRefs, eventRefs := 0, irps := 0, lockCount := -1, lock := false)
  {
    RunKeepsInv(ss, ms, k);
    var s := ss[k];
    forall i | 0 <= i < |s.reqs| ensures s.reqs[i].held == NOTHING {
      BalancedExactly(ss, ms, k, i);
    }
    TotalZero(s.reqs, FilesOf);
    TotalZero(s.reqs, EventsOf);
    TotalZero(s.reqs, IrpsOf);
    SumZero(s.reqs, LockW);
    SumZero(s.reqs, WaitW);
  }

  /** A request that the driver got returns the status of its own packet, whatever other
      requests on the file were doing. */
  lemma ReturnsItsOwnStatus(ss: seq<State>, ms: seq<Move>, k: nat, i: nat)
    requires IsRun(ss, ms) && Initial(ss[0]) && k < |ss| && i < |ss[k].reqs|
    requires ss[k].reqs[i].pc.Done? && !ss[k].reqs[i].io.NotIssued?
    ensures ss[k].reqs[i].result == ss[k].reqs[i].drv.status
  {
    RunKeepsInv(ss, ms, k);
    assert Local(ss[k].f, ss[k].reqs[i]);
  }

  // ---------- what a request answers ----------

  /** Both handles are good, and there is no APC on a file with a completion port. */
  predicate Admissible(f: File, c: Call) {
    NtSuccess(c.fileStatus) && !(f.port && c.apc) && (c.wantsEvent ==> NtSuccess(c.eventStatus))
  }

  /** Why a request that is over got no packet. */
  predicate RefusedRight(f: File, r: Req) {
    && (Admissible(f, r.call) <==> r.failed)
    && r.result ==
         if !NtSuccess(r.call.fileStatus) then r.call.fileStatus
         else if f.port && r.call.apc then STATUS_INVALID_PARAMETER
         else if !Admissible(f, r.call) then r.call.eventStatus
         else STATUS_INSUFFICIENT_RESOURCES
  }

  /** The packet was completed at once, by IopSynchronousService. */
  predicate FinishedAtOnce(r: Req) {
    r.call.fsctl && !r.drv.pends && !r.io.NotIssued? && (r.pc.Release? || r.pc.Signal? || r.pc.Done?)
  }

  /** The caller is told the status of its packet when that has been completed without an error,
      and its APC routine is queued then. */
  predicate Told(r: Req) {
    && r.iosb == (if (r.io.Delivered? || FinishedAtOnce(r)) && !NtError(r.drv.status) then Some(r.drv.status) else None)
    && (r.signalled <==> r.iosb.Some? && r.call.wantsEvent)
    && r.apcs == if r.call.apc && r.iosb.Some? then B(r.io.Delivered?) + B(FinishedAtOnce(r)) else 0
  }

  predicate Answered(f: File, r: Req) {
    Told(r) &&
    match r.pc
    case Begin => true
    case Referenced => NtSuccess(r.call.fileStatus)
    case Done => if r.io.NotIssued? then RefusedRight(f, r) else Admissible(f, r.call)
    case _ => Admissible(f, r.call) && (r.failed && !r.pc.Cleanup? ==> r.result == STATUS_INSUFFICIENT_RESOURCES)
  }

  lemma MovesTell(f: File, r: Req, a: Action)
    requires Local(f, r) && Told(r) && CanMove(f, r, a)
    ensures Told(Moved(f, r, a).1)
  {
    assert r.io.InFlight? || r.io.Queued? ==> Issued(r);
    assert r.pc.Begin? || r.pc.Referenced? || r.pc.Acquire? || r.pc.Waiting? || r.pc.Holding? || r.pc.Cleanup? || r.failed ==>
             r.io.NotIssued?;
    assert r.pc.Serviced? ==> r.drv.pends || r.io.Delivered? || r.io.Kept?;
    assert r.pc.Await? ==> r.drv.pends;
    hide AtPc, Completed, Bare, Hold, Take;
  }

  lemma CallStays(f: File, r: Req, a: Action)
    ensures CanMove(f, r, a) ==> Moved(f, r, a).0.port == f.port && Moved(f, r, a).1.call == r.call
  {
    hide Hold, B, EventOf;
  }

  lemma MovesAnswer(f: File, r: Req, a: Action)
    requires Local(f, r) && Answered(f, r) && CanMove(f, r, a)
    ensures Answered(Moved(f, r, a).0, Moved(f, r, a).1)
  {
    CallStays(f, r, a);
    MovesTell(f, r, a);
    assert r.pc.Begin? || r.pc.Referenced? || r.pc.Acquire? || r.pc.Waiting? || r.pc.Holding? || r.pc.Cleanup? || r.failed ==>
             r.io.NotIssued?;
    assert (r.pc.Release? || r.pc.Signal? || r.pc.Drop?) && r.io.NotIssued? ==> r.failed;
    assert r.pc.Begin? || r.pc.Referenced? ==> !r.failed;
    hide Told, Local, Hold, Take;
  }

  lemma {:induction false} RunAnswers(ss: seq<State>, ms: seq<Move>, k: nat)
    requires IsRun(ss, ms) && Initial(ss[0]) && k < |ss|
    ensures ss[k].f.port == ss[0].f.port && |ss[k].reqs| == |ss[0].reqs|
    ensures forall i :: 0 <= i < |ss[k].reqs| ==> Answered(ss[k].f, ss[k].reqs[i]) && ss[k].reqs[i].call == ss[0].reqs[i].call
  {
    if k > 0 {
      hide Answered, Moved, CanMove, Local;
      RunAnswers(ss, ms, k - 1);
      RunKeepsInv(ss, ms, k - 1);
      var s, m := ss[k - 1], ms[k - 1];
      assert Enabled(s, m) && ss[k] == Next(s, m);
      assert Local(s.f, s.reqs[m.t]);
      CallStays(s.f, s.reqs[m.t], m.a);
      MovesAnswer(s.f, s.reqs[m.t], m.a);
      forall i | 0 <= i < |ss[k].reqs| ensures Answered(ss[k].f, ss[k].reqs[i]) {
        if i != m.t { AnsweredStays(s.f, ss[k].f, s.reqs[i]); }
      }
    }
  }

  lemma AnsweredStays(f: File, f': File, r: Req)
    requires Answered(f, r) && f'.port == f.port
    ensures Answered(f', r)
  {
  }

  /** Over every run: when a request that got a packet is over, the caller's status block holds the
      status of the packet, the caller's event, if it gave one, is set, and its APC routine, if it
      gave one, has been queued, exactly if that status is no error: once, or twice if the request
      is miscounted. Nothing of the kind happens for a request that got no packet. */
  lemma CallersAreTold(ss: seq<State>, ms: seq<Move>, k: nat, i: nat)
    requires IsRun(ss, ms) && Initial(ss[0]) && k < |ss| && i < |ss[k].reqs| && ss[k].reqs[i].pc.Done?
    ensures var r := ss[k].reqs[i];
      && r.iosb == (if r.io.NotIssued? || NtError(r.drv.status) then None else Some(r.drv.status))
      && (r.signalled <==> r.iosb.Some? && r.call.wantsEvent)
      && r.apcs == if !r.call.apc || r.iosb.None? then 0 else if Miscounted(r) then 2 else 1
  {
    RunAnswers(ss, ms, k);
    RunKeepsInv(ss, ms, k);
    assert Local(ss[k].f, ss[k].reqs[i]) && Answered(ss[k].f, ss[k].reqs[i]);
  }

  /** Over every run: the driver gets a packet only for an admissible request, and every admissible
      request gets one unless there is none to allocate. A request that is over returns the status
      of the handle that was not found, STATUS_INVALID_PARAMETER for an APC on a file with a
      completion port, STATUS_INSUFFICIENT_RESOURCES without a packet, and else the status of its
      own packet. */
  lemma RequestsEndExactly(ss: seq<State>, ms: seq<Move>, k: nat, i: nat)
    requires IsRun(ss, ms) && Initial(ss[0]) && k < |ss| && i < |ss[k].reqs|
    ensures !ss[k].reqs[i].io.NotIssued? ==> Admissible(ss[k].f, ss[k].reqs[i].call)
    ensures ss[k].reqs[i].pc.Done? && ss[k].reqs[i].io.NotIssued? ==> RefusedRight(ss[k].f, ss[k].reqs[i])
    ensures ss[k].reqs[i].pc.Done? && !ss[k].reqs[i].io.NotIssued? ==> ss[k].reqs[i].result == ss[k].reqs[i].drv.status
  {
    RunAnswers(ss, ms, k);
    RunKeepsInv(ss, ms, k);
    assert Local(ss[k].f, ss[k].reqs[i]) && Answered(ss[k].f, ss[k].reqs[i]);
  }

  // ---------- the wait that does not end ----------

  predicate Settled(r: Req) { r.io.Delivered? || r.io.Kept? }

  /** A pended request whose completion has been dealt with goes on exactly when it supplied no
      event, did not fail, the file was opened with SYNCHRONIZE access, and a file-system
      control packet arrived marked as pending. */
  lemma WaitEndsExactly(ss: seq<State>, ms: seq<Move>, k: nat, i: nat)
    requires IsRun(ss, ms) && Initial(ss[0]) && k < |ss| && i < |ss[k].reqs|
    requires ss[k].reqs[i].pc.Await? && Settled(ss[k].reqs[i])
    ensures var r := ss[k].reqs[i];
            Enabled(ss[k], Move(i, Resume)) <==>
              !r.call.wantsEvent && !NtError(r.drv.status) && ss[k].f.synchronize && (r.call.fsctl ==> r.drv.marked)
  {
    RunKeepsInv(ss, ms, k);
    assert Local(ss[k].f, ss[k].reqs[i]);
    assert Issued(ss[k].reqs[i]) && OwnsEvent(ss[k].f, ss[k].reqs[i]);
  }

  predicate Stuck(f: File, r: Req) {
    r.pc.Await? && Settled(r) && !(r.io.Delivered? && Signals(f, r))
  }

  lemma StuckStays(s: State, m: Move, i: nat, base: int)
    requires Inv(s, base) && Enabled(s, m) && i < |s.reqs| && Stuck(s.f, s.reqs[i])
    ensures Stuck(Next(s, m).f, Next(s, m).reqs[i])
  {
    assert Local(s.f, s.reqs[i]) && OwnsEvent(s.f, s.reqs[i]);
    OneHolder(s, i, m.t);
    assert Local(s.f, s.reqs[m.t]);
    OneHolder(s, m.t, m.t);
    assert Issued(s.reqs[m.t]) ==> OwnsEvent(s.f, s.reqs[m.t]);
    AnyStep(s.f, s.reqs[m.t], m.a);
  }

  /** Request i never goes on and keeps all others from the lock. */
  ghost predicate Blocks(s: State, i: nat) {
    i < |s.reqs| && Stuck(s.f, s.reqs[i]) && forall t :: 0 <= t < |s.reqs| && t != i ==> !HasLock(s.reqs[t])
  }

  /** Otherwise it waits for ever, with the file lock: no other request on the file gets in. */
  lemma {:induction false} StuckForever(ss: seq<State>, ms: seq<Move>, j: nat, k: nat)
    requires IsRun(ss, ms) && Initial(ss[0]) && j <= k < |ss|
    ensures forall i :: 0 <= i < |ss[j].reqs| && Stuck(ss[j].f, ss[j].reqs[i]) ==> Blocks(ss[k], i)
    decreases k
  {
    if j < k {
      StuckForever(ss, ms, j, k - 1);
      assert Enabled(ss[k - 1], ms[k - 1]) && ss[k] == Next(ss[k - 1], ms[k - 1]);
    }
    RunKeepsInv(ss, ms, k);
    forall i | 0 <= i < |ss[j].reqs| && Stuck(ss[j].f, ss[j].reqs[i]) ensures Blocks(ss[k], i) {
      if j < k {
        assert Blocks(ss[k - 1], i);
        StuckStays(ss[k - 1], ms[k - 1], i, ss[0].f.fileRefs);
      }
      forall t | 0 <= t < |ss[k].reqs| && t != i ensures !HasLock(ss[k].reqs[t]) { OneHolder(ss[k], i, t); }
    }
  }

  // ---------- everything comes to an end ----------

  /** How many moves a request can still make, at most. */
  function MovesLeft(r: Req): int {
    r.userApcs +
    (match r.io
     case NotIssued => 3
     case InFlight => 3
     case Queued => 2
     case Delivered => 0
     case Kept => 0) +
    match r.pc
    case Begin => 12
    case Referenced => 11
    case Acquire => 10
    case Waiting => 9
    case Holding => 8
    case Cleanup => 7
    case InDriver => 7
    case Serviced => 6
    case Await => 4
    case Release => 3
    case Signal => 2
    case Drop => 1
    case Done => 0
  }

  lemma MovesRunOut(f: File, r: Req, a: Action)
    requires CanMove(f, r, a) && Local(f, r)
    ensures 0 <= MovesLeft(Moved(f, r, a).1) < MovesLeft(r)
  {
    assert r.userApcs >= 0;
    hide AtPc, Local;
  }

  /** Request i has begun with fifteen moves to make, and has made n of them. */
  predicate Budget(s: State, i: nat, n: nat) { i < |s.reqs| && 0 <= MovesLeft(s.reqs[i]) <= 15 - n }

  lemma StepRunsOut(s: State, m: Move, i: nat, n: nat, base: int)
    requires Inv(s, base) && Enabled(s, m) && Budget(s, i, n)
    ensures |Next(s, m).reqs| == |s.reqs| && Budget(Next(s, m), i, if m.t == i then n + 1 else n)
  {
    assert CanMove(s.f, s.reqs[m.t], m.a) && Local(s.f, s.reqs[m.t]);
    hide Inv, Local, CanMove, Moved, MovesLeft;
    if m.t == i { MovesRunOut(s.f, s.reqs[i], m.a); }
  }

  /** How many of the first k moves request i has made. */
  ghost function MovesOf(ms: seq<Move>, i: nat, k: nat): nat
    requires k <= |ms|
  {
    if k == 0 then 0 else MovesOf(ms, i, k - 1) + if ms[k - 1].t == i then 1 else 0
  }

  /** No request makes more than fifteen moves. */
  lemma {:induction false} RequestsRunOut(ss: seq<State>, ms: seq<Move>, k: nat, i: nat)
    requires IsRun(ss, ms) && Initial(ss[0]) && k < |ss| && i < |ss[0].reqs|
    ensures |ss[k].reqs| == |ss[0].reqs| && Budget(ss[k], i, MovesOf(ms, i, k)) && MovesOf(ms, i, k) <= 15
  {
    assert Budget(ss[0], i, 0);
    hide Inv, Next, Enabled, MovesLeft, Initial, Budget;
    if k > 0 {
      RequestsRunOut(ss, ms, k - 1, i);
      var s, m := ss[k - 1], ms[k - 1];
      assert Enabled(s, m) && ss[k] == Next(s, m);
      assert Inv(s, ss[0].f.fileRefs) by { RunKeepsInv(ss, ms, k - 1); }
      StepRunsOut(s, m, i, MovesOf(ms, i, k - 1), ss[0].f.fileRefs);
    }
    BudgetIsFifteen(ss[k], i, MovesOf(ms, i, k));
  }

  lemma BudgetIsFifteen(s: State, i: nat, n: nat)
    ensures Budget(s, i, n) ==> n <= 15
  {
  }

  /** No request that has begun can move. */
  ghost predicate AtRest(s: State) {
    forall m :: Enabled(s, m) ==> m.a.Open?
  }

  /** What can be left then: a request that is over, one that is stuck in its wait, or one that waits
      for the lock behind a stuck one. So with nobody stuck every request comes to its end. */
  lemma AllEndUnlessStuck(ss: seq<State>, ms: seq<Move>, k: nat, i: nat)
    requires IsRun(ss, ms) && Initial(ss[0]) && k < |ss| && AtRest(ss[k]) && i < |ss[k].reqs|
    ensures var r := ss[k].reqs[i];
      || r.pc.Begin? || r.pc.Done? || Stuck(ss[k].f, r)
      || (r.pc.Waiting? && exists j :: 0 <= j < |ss[k].reqs| && Stuck(ss[k].f, ss[k].reqs[j]))
  {
    RunKeepsInv(ss, ms, k);
    RestsIn(ss[k], i, ss[0].f.fileRefs);
    if ss[k].reqs[i].pc.Waiting? {
      var j := LockIsNeverLost(ss, ms, k, i);
      RestsIn(ss[k], j, ss[0].f.fileRefs);
    }
  }

  /** What a request that has begun does next. */
  function NextMove(r: Req): Action {
    match r.pc
    case Begin => Open
    case Referenced => LookUp
    case Acquire => TakeLock
    case Waiting => Wake
    case Holding => Allocate(true)
    case Cleanup => CleanUp
    case InDriver => Return(true)
    case Serviced => FinishUp
    case Await => if r.io.InFlight? then Complete(true, 0) else if r.io.Queued? then Deliver else Resume
    case Release => Unlock
    case Signal => SetLock
    case Drop => Dereference
    case Done => Open
  }

  lemma RestsIn(s: State, i: nat, base: int)
    requires Inv(s, base) && AtRest(s) && i < |s.reqs|
    ensures s.reqs[i].pc.Begin? || s.reqs[i].pc.Done? || s.reqs[i].pc.Waiting? || Stuck(s.f, s.reqs[i])
    ensures s.reqs[i].pc.Waiting? ==> !s.f.lock
  {
    assert Local(s.f, s.reqs[i]) && (Issued(s.reqs[i]) ==> OwnsEvent(s.f, s.reqs[i]));
    assert Enabled(s, Move(i, NextMove(s.reqs[i]))) ==> NextMove(s.reqs[i]).Open?;
    hide Inv, AtRest;
  }

  // ---------- the two failures do happen ----------

  /** Any run of a request that is alone on a file opened with SYNCHRONIZE access. */
  ghost predicate Alone(ss: seq<State>, ms: seq<Move>, call: Call, pc: Pc, io: Io) {
    && IsRun(ss, ms) && Initial(ss[0])
    && var s := ss[|ms|];
       |s.reqs| == 1 && s.reqs[0].call == call && s.reqs[0].pc == pc && s.reqs[0].io == io
       && s.reqs[0].userApcs == 0 && !s.reqs[0].failed && NtSuccess(call.fileStatus) && NtSuccess(call.eventStatus)
       && s.f.synchronize && !s.f.port && s.f.lockCount == if HasLock(s.reqs[0]) then 0 else -1
  }

  /** A request with an event of its own, that the driver pends and completes with success, gets
      stuck: nothing sets the file object's event. */
  lemma GetsStuck() returns (ss: seq<State>, ms: seq<Move>)
    ensures IsRun(ss, ms) && Initial(ss[0])
    ensures |ss[|ms|].reqs| == 1 && Stuck(ss[|ms|].f, ss[|ms|].reqs[0])
  {
    ss, ms := Completes(Call(true, false, false, 0, 0));
    ss, ms := Extend(ss, ms, Return(true));
    ss, ms := Extend(ss, ms, FinishUp);
  }

  lemma EndsShort(ss: seq<State>, ms: seq<Move>, k: nat)
    requires IsRun(ss, ms) && Initial(ss[0]) && k < |ss| && |ss[k].reqs| == 1
    requires ss[k].reqs[0].pc.Done? && ss[k].reqs[0].userApcs == 0 && Miscounted(ss[k].reqs[0])
    ensures ss[k].f.fileRefs == ss[0].f.fileRefs - 1
  {
    BalancedExactly(ss, ms, k, 0);
    var s := ss[k];
    assert Books(s, ss[0].f.fileRefs) by { RunKeepsInv(ss, ms, k); }
    assert Total(s.reqs, FilesOf) == FilesOf(s.reqs[0]) + Total(s.reqs[1..], FilesOf);
  }

  /** A file-system control request whose packet the driver finishes at once, but marked as
      pending, is over with one reference on the file fewer than there was before it. */
  lemma GivesBackTwice() returns (ss: seq<State>, ms: seq<Move>)
    ensures IsRun(ss, ms) && Initial(ss[0])
    ensures |ss[|ms|].reqs| == 1 && ss[|ms|].reqs[0].pc.Done? && Miscounted(ss[|ms|].reqs[0])
    ensures ss[|ms|].f.fileRefs == ss[0].f.fileRefs - 1
  {
    ss, ms := Completes(Call(false, false, true, 0, 0));
    ss, ms := Extend(ss, ms, Return(false));
    ss, ms := Extend(ss, ms, FinishUp);
    ss, ms := Extend(ss, ms, Unlock);
    EndsShort(ss, ms, |ms|);
  }

  lemma Extend(ss: seq<State>, ms: seq<Move>, a: Action) returns (ss': seq<State>, ms': seq<Move>)
    requires IsRun(ss, ms) && Enabled(ss[|ms|], Move(0, a))
    ensures IsRun(ss', ms') && ss'[0] == ss[0] && |ms'| == |ms| + 1 && ss'[|ms'|] == Next(ss[|ms|], Move(0, a))
  {
    ss', ms' := ss + [Next(ss[|ms|], Move(0, a))], ms + [Move(0, a)];
    forall i {:trigger ms'[i]} | 0 <= i < |ms'| ensures Enabled(ss'[i], ms'[i]) && ss'[i + 1] == Next(ss'[i], ms'[i]) {
      if i < |ms| { assert ms'[i] == ms[i]; }
    }
  }

  lemma Begins(call: Call) returns (ss: seq<State>, ms: seq<Move>)
    requires NtSuccess(call.fileStatus) && NtSuccess(call.eventStatus)
    ensures Alone(ss, ms, call, Begin, NotIssued)
  {
    ss := [State(File(-1, false, false, 0, 1, 0, 0, false, true),
                 [Req(call, Begin, NotIssued, Driver(false, false, 0), NOTHING, 0, false, 0, None, false, 0)])];
    ms := [];
  }

  lemma Enters(ss0: seq<State>, ms0: seq<Move>, call: Call) returns (ss: seq<State>, ms: seq<Move>)
    requires Alone(ss0, ms0, call, Begin, NotIssued)
    ensures Alone(ss, ms, call, Holding, NotIssued)
  {
    ss, ms := Extend(ss0, ms0, Open);
    ss, ms := Extend(ss, ms, LookUp);
    ss, ms := Extend(ss, ms, TakeLock);
  }

  /** A request without an APC is set up, its packet is completed with success and marked as
      pending, and the completion is delivered, all before the driver returns. */
  lemma Completes(call: Call) returns (ss: seq<State>, ms: seq<Move>)
    requires !call.apc && NtSuccess(call.fileStatus) && NtSuccess(call.eventStatus)
    ensures Alone(ss, ms, call, InDriver, Delivered)
    ensures ss[|ms|].reqs[0].drv.marked && ss[|ms|].reqs[0].drv.status == 0
  {
    ss, ms := Begins(call);
    ss, ms := Enters(ss, ms, call);
    ss, ms := Extend(ss, ms, Allocate(true));
    ss, ms := Extend(ss, ms, Complete(true, 0));
    ss, ms := Extend(ss, ms, Deliver);
  }
}

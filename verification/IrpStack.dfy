/** The stack of an I/O request packet, nboxkrnl/io/io.cpp. */
module IrpStack {
  // Modelled: IoInitializeIrp, IofCallDriver and IofCompleteRequest, with IoSetCompletionRoutine,
  // IoMarkIrpPending and ZeroIrpStackLocation of nboxkrnl/io/iop.cpp.
  //
  // Locations are numbered from 1; location i is stack[i - 1]. CurrentLocation starts one above
  // the last location, IofCallDriver moves it down and IofCompleteRequest moves it up again,
  // possibly pausing when a completion routine asks for it. It is a signed byte, and so is the
  // number of locations; the address of the current location beside it is not. The model keeps
  // the number of the location at that address, and takes the byte of it wherever the source
  // tests CurrentLocation.

  import opened Wrappers

  /** The Control byte, one field for each SL_ flag. */
  datatype Control = Control(pending: bool, mustComplete: bool, onCancel: bool, onSuccess: bool, onError: bool)

  const CLEAR := Control(false, false, false, false, false)

  datatype Location = Location(control: Control, routine: int)

  /** The value in a CHAR. */
  function CChar(n: int): (c: int)
    ensures c <= 127 && (n <= 127 ==> c == n)
    decreases n
  {
    if n <= 127 then n else CChar(n - 256)
  }

  function CharInc(c: int): int { if c == 127 then -128 else c + 1 }
  function CharDec(c: int): int { if c == -128 then 127 else c - 1 }

  lemma {:induction false} CharSteps(n: nat)
    ensures CChar(n + 1) == CharInc(CChar(n)) && CharDec(CChar(n + 1)) == CChar(n)
    decreases n
  {
    if n > 255 {
      CharSteps(n - 256);
    }
  }

  /** How many locations a packet may have for the signed byte to count them. */
  const LIMIT := 125

  datatype Irp = Irp(count: nat, current: nat, stack: seq<Location>, status: int, pendingReturned: bool)

  /** What a completion routine does: the status it leaves, whether it marks the packet pending,
      and whether it returns STATUS_MORE_PROCESSING_REQUIRED. */
  datatype Answer = Answer(status: int, mark: bool, more: bool)

  /** Overrun: the unwinding is about to touch a location that the packet does not have. */
  datatype Outcome = Paused | Finished | Bugcheck | MustComplete | Overrun

  predicate Shape(x: Irp) {
    |x.stack| == x.count <= 127 && 1 <= x.current
  }

  predicate Success(status: int) { status >= 0 }

  predicate Invokes(c: Control, status: int) {
    (Success(status) && c.onSuccess) || (!Success(status) && c.onError)
  }

  function Initialized(count: nat): Irp {
    Irp(count, count + 1, seq(count, _ => Location(CLEAR, 0)), 0, false)
  }

  /** IoSetCompletionRoutine: it writes the location of the next lower driver. */
  function SetRoutine(x: Irp, routine: int, onSuccess: bool, onError: bool, onCancel: bool): Irp
    requires Shape(x) && 2 <= x.current <= x.count + 1
  {
    x.(stack := x.stack[x.current - 2 := Location(Control(false, false, onCancel, onSuccess, onError), routine)])
  }

  function CallDriver(x: Irp): Irp
    requires Shape(x) && 2 <= x.current <= x.count + 1
  {
    x.(current := x.current - 1)
  }

  function MarkPending(x: Irp): Irp
    requires Shape(x) && x.current <= x.count
  {
    var l := x.stack[x.current - 1];
    x.(stack := x.stack[x.current - 1 := l.(control := l.control.(pending := true))])
  }

  function AfterRoutine(x: Irp, a: Answer): Irp
    requires Shape(x)
  {
    var y := x.(status := a.status);
    if a.mark && y.current <= y.count then MarkPending(y) else y
  }

  /** One round of the unwinding loop, for the location below CurrentLocation. */
  function Unwind(x: Irp, a: Answer): (y: Irp)
    requires Shape(x) && 2 <= x.current <= x.count + 1
    ensures Shape(y) && y.count == x.count && y.current == x.current
  {
    var l := x.stack[x.current - 2];
    var p := x.(pendingReturned := l.control.pending);
    if Invokes(l.control, x.status) then
      AfterRoutine(p.(stack := p.stack[x.current - 2 := l.(control := CLEAR)]), a)
    else
      var q := if l.control.pending && x.current <= x.count then MarkPending(p) else p;
      q.(stack := q.stack[x.current - 2 := l.(control := CLEAR)])
  }

  predicate Stops(x: Irp, a: Answer)
    requires Shape(x) && 2 <= x.current <= x.count + 1
  {
    Invokes(x.stack[x.current - 2].control, x.status) && a.more
  }

  /** The test of the unwinding loop. */
  predicate Goes(x: Irp) { CChar(x.current) <= CChar(x.count + 1) }

  /** The pending bit is about to be passed on to a location that is not there. */
  predicate MarksOutside(x: Irp)
    requires Shape(x) && 2 <= x.current <= x.count + 1
  {
    var c := x.stack[x.current - 2].control;
    !Invokes(c, x.status) && c.pending && CChar(x.current) <= x.count < x.current
  }

  /** How one round of the loop ends the unwinding, if it does. */
  function EndOf(x: Irp, a: Answer): (o: Option<Outcome>)
    requires Shape(x) && 2 <= x.current
    ensures o.None? ==> x.current <= x.count + 1
  {
    if !Goes(x) then Some(Finished)
    else if x.current > x.count + 1 then Some(Overrun)
    else if x.stack[x.current - 2].control.mustComplete then Some(MustComplete)
    else if MarksOutside(x) then Some(Overrun)
    else if Stops(x, a) then Some(Paused)
    else None
  }

  /** The packet after that round. */
  function AfterRound(x: Irp, a: Answer): (y: Irp)
    requires Shape(x) && 2 <= x.current
    ensures Shape(y) && y.count == x.count
    ensures y.current == if EndOf(x, a).None? then x.current + 1 else x.current
  {
    match EndOf(x, a)
    case None => var y := Unwind(x, a); y.(current := x.current + 1)
    case Some(o) => if o.Paused? then Unwind(x, a) else x
  }

  /** The unwinding loop from its test on; `oracle` answers for the routine of each location. */
  function CompleteFrom(x: Irp, oracle: nat -> Answer): (r: (Irp, Outcome))
    requires Shape(x) && 2 <= x.current
    ensures Shape(r.0) && r.0.count == x.count && x.current <= r.0.current
    ensures x.current <= x.count + 2 ==> r.0.current <= x.count + 2
    decreases if x.current <= x.count + 1 then x.count + 2 - x.current else 0
  {
    var a := oracle(x.current - 1);
    var end, y := EndOf(x, a), AfterRound(x, a);
    if end.Some? then (y, end.value) else CompleteFrom(y, oracle)
  }

  lemma CompleteRound(x: Irp, oracle: nat -> Answer)
    requires Shape(x) && 2 <= x.current
    ensures var a := oracle(x.current - 1);
      CompleteFrom(x, oracle) ==
        if EndOf(x, a).Some? then (AfterRound(x, a), EndOf(x, a).value) else CompleteFrom(AfterRound(x, a), oracle)
  {
  }

  function Complete(x: Irp, oracle: nat -> Answer): (r: (Irp, Outcome))
    requires Shape(x)
    ensures Shape(r.0) && r.0.count == x.count
  {
    if CChar(x.current) > x.count + 1 then (x, Bugcheck) else CompleteFrom(x.(current := x.current + 1), oracle)
  }

  class IRP {
    const StackCount: nat
    var CurrentLocation: int      // a CHAR
    var CurrentStackLocation: nat // the pointer, as the number of the location it points to
    const Stack: array<Location>
    var Status: int
    var PendingReturned: bool

    ghost function View(): Irp
      reads this, Stack
    {
      Irp(StackCount, CurrentStackLocation, Stack[..], Status, PendingReturned)
    }

    /** The location number is that of the pointer, as far as a byte goes. */
    ghost predicate Valid()
      reads this, Stack
    {
      Shape(View()) && CurrentLocation == CChar(CurrentStackLocation)
    }

    constructor (stackSize: nat)
      requires stackSize <= 127
      ensures Valid() && View() == Initialized(stackSize) && fresh(Stack)
    {
      StackCount, CurrentLocation, CurrentStackLocation := stackSize, CChar(stackSize + 1), stackSize + 1;
      Status, PendingReturned := 0, false;
      Stack := new Location[stackSize](_ => Location(CLEAR, 0));
      new;
      assert Stack[..] == seq(stackSize, _ => Location(CLEAR, 0));
    }

    method IoSetCompletionRoutine(routine: int, onSuccess: bool, onError: bool, onCancel: bool)
      requires Valid() && 2 <= CurrentStackLocation <= StackCount + 1
      modifies Stack
      ensures Valid() && View() == SetRoutine(old(View()), routine, onSuccess, onError, onCancel)
    {
      var control := CLEAR;
      if onSuccess { control := CLEAR.(onSuccess := true); }
      if onError { control := control.(onError := true); }
      if onCancel { control := control.(onCancel := true); }
      Stack[CurrentStackLocation - 2] := Location(control, routine);
    }

    method IofCallDriver()
      requires Valid() && 2 <= CurrentStackLocation <= StackCount + 1
      modifies this
      ensures Valid() && View() == CallDriver(old(View()))
    {
      CharSteps(CurrentStackLocation - 1);
      CurrentLocation := CharDec(CurrentLocation);
      CurrentStackLocation := CurrentStackLocation - 1;
    }

    method IoMarkIrpPending()
      requires Valid() && CurrentStackLocation <= StackCount
      modifies Stack
      ensures Valid() && View() == MarkPending(old(View()))
    {
      var l := Stack[CurrentStackLocation - 1];
      Stack[CurrentStackLocation - 1] := l.(control := l.control.(pending := true));
    }

    method ZeroIrpStackLocation(i: nat)
      requires Valid() && 1 <= i <= StackCount
      modifies Stack
      ensures Valid() && Stack[..] == old(Stack[..])[i - 1 := old(Stack[i - 1]).(control := CLEAR)]
    {
      Stack[i - 1] := Stack[i - 1].(control := CLEAR);
    }

    /** The completion routine runs inside the loop; what it does is given by `answer`. */
    method RunCompletionRoutine(answer: Answer)
      requires Valid()
      modifies this`Status, Stack
      ensures Valid() && View() == AfterRoutine(old(View()), answer)
    {
      Status := answer.status;
      if answer.mark && CurrentStackLocation <= StackCount {
        IoMarkIrpPending();
      }
    }

    /** The body of the unwinding loop for the location that `pointer` names. */
    method UnwindLocation(pointer: nat, answer: Answer) returns (stops: bool)
      requires Valid() && 2 <= CurrentStackLocation <= StackCount + 1 && pointer + 1 == CurrentStackLocation
      requires !MarksOutside(View())
      modifies this`PendingReturned, this`Status, Stack
      ensures Valid() && View() == Unwind(old(View()), answer) && stops == Stops(old(View()), answer)
    {
      var control := Stack[pointer - 1].control;
      PendingReturned := control.pending;
      if (Status >= 0 && control.onSuccess) || (Status < 0 && control.onError) {
        ZeroIrpStackLocation(pointer);
        RunCompletionRoutine(answer);
        return answer.more;
      }
      if PendingReturned && CurrentLocation <= StackCount {
        IoMarkIrpPending();
      }
      ZeroIrpStackLocation(pointer);
      return false;
    }

    /** One round of the loop; stops short of a location that the packet does not have. */
    method UnwindRound(oracle: nat -> Answer) returns (end: Option<Outcome>)
      requires Valid() && 2 <= CurrentStackLocation
      modifies this, Stack
      ensures var a := oracle(old(CurrentStackLocation) - 1);
        Valid() && end == EndOf(old(View()), a) && View() == AfterRound(old(View()), a)
    {
      var pointer := CurrentStackLocation - 1;
      if CurrentLocation > CChar(StackCount + 1) {
        return Some(Finished);
      }
      if pointer > StackCount {
        return Some(Overrun);
      }
      var control := Stack[pointer - 1].control;
      if control.mustComplete {
        return Some(MustComplete);
      }
      if !Invokes(control, Status) && control.pending && CurrentLocation <= StackCount && pointer == StackCount {
        return Some(Overrun);
      }
      var stops := UnwindLocation(pointer, oracle(pointer));
      if stops {
        return Some(Paused);
      }
      CharSteps(CurrentStackLocation);
      CurrentLocation, CurrentStackLocation := CharInc(CurrentLocation), CurrentStackLocation + 1;
      return None;
    }

    method UnwindLocations(oracle: nat -> Answer) returns (outcome: Outcome)
      requires Valid() && 2 <= CurrentStackLocation
      modifies this, Stack
      ensures Valid() && (View(), outcome) == CompleteFrom(old(View()), oracle)
    {
      hide CompleteFrom, EndOf, AfterRound;
      ghost var result := CompleteFrom(View(), oracle);
      var end := None;
      while end.None?
        invariant Valid() && 2 <= CurrentStackLocation
        invariant result == if end.None? then CompleteFrom(View(), oracle) else (View(), end.value)
        decreases if end.Some? then 0 else if CurrentStackLocation <= StackCount + 1 then StackCount + 3 - CurrentStackLocation else 1
      {
        CompleteRound(View(), oracle);
        end := UnwindRound(oracle);
      }
      return end.value;
    }

    method IofCompleteRequest(oracle: nat -> Answer) returns (outcome: Outcome)
      requires Valid()
      modifies this, Stack
      ensures Valid() && (View(), outcome) == Complete(old(View()), oracle)
    {
      if CurrentLocation > StackCount + 1 {
        return Bugcheck;
      }
      CharSteps(CurrentStackLocation);
      CurrentLocation, CurrentStackLocation := CharInc(CurrentLocation), CurrentStackLocation + 1;
      outcome := UnwindLocations(oracle);
    }
  }

  // ---------- histories of one packet ----------

  /** What IoSetCompletionRoutine last put on a location, if anything since it was unwound. */
  datatype Registration = Registration(routine: int, onSuccess: bool, onError: bool, onCancel: bool)

  /** A call of IofCallDriver: its number, and the registration its location had. */
  datatype Slot = Slot(id: nat, reg: Option<Registration>)

  /** Unwinding a call: whether its routine ran and which, the value of PendingReturned that the
      routine, or else the loop, then sees, and what the routine would answer. */
  datatype Event =
    | Called(slot: Slot)
    | Marked
    | StatusSet(status: int)
    | Unwound(id: nat, invoked: bool, routine: int, seen: bool, answer: Answer)

  datatype Hist = Hist(x: Irp, registered: seq<Option<Registration>>, slots: seq<Slot>, calls: nat, trace: seq<Event>)

  /** What the drivers that own the packet may do between two completions. */
  datatype Op =
    | OpSetRoutine(routine: int, onSuccess: bool, onError: bool, onCancel: bool)
    | OpCall
    | OpMarkPending
    | OpSetStatus(status: int)
    | OpComplete(oracle: nat -> Answer)

  predicate Lengths(h: Hist) {
    Shape(h.x) && |h.registered| == |h.slots| == h.x.count <= LIMIT && h.x.current <= h.x.count + 2
  }

  function Begin(count: nat): Hist {
    Hist(Initialized(count), seq(count, _ => None), seq(count, _ => Slot(0, None)), 0, [])
  }

  predicate Allowed(h: Hist, op: Op) {
    && Lengths(h)
    && match op {
      case OpSetRoutine(_, _, _, _) => 2 <= h.x.current <= h.x.count + 1
      case OpCall => 2 <= h.x.current <= h.x.count + 1
      case OpMarkPending => h.x.current <= h.x.count
      case OpSetStatus(_) => h.x.current <= h.x.count + 1
      case OpComplete(_) => true
    }
  }

  function UnwindHist(h: Hist, a: Answer): Hist
    requires Lengths(h) && 2 <= h.x.current <= h.x.count + 1
  {
    h.(x := Unwind(h.x, a), registered := h.registered[h.x.current - 2 := None],
       trace := h.trace + [UnwindingOf(h, a)])
  }

  function UnwindingOf(h: Hist, a: Answer): Event
    requires Lengths(h) && 2 <= h.x.current <= h.x.count + 1
  {
    var j := h.x.current - 2;
    var l := h.x.stack[j];
    Unwound(h.slots[j].id, Invokes(l.control, h.x.status), l.routine, Unwind(h.x, a).pendingReturned, a)
  }

  /** Within the limit a round ends in one of three ways. */
  lemma EndsWithinLimit(h: Hist, a: Answer)
    requires Lengths(h) && 2 <= h.x.current
    ensures h.x.current == h.x.count + 2 ==> EndOf(h.x, a) == Some(Finished)
    ensures h.x.current <= h.x.count + 1 ==>
              EndOf(h.x, a) ==
              if h.x.stack[h.x.current - 2].control.mustComplete then Some(MustComplete)
              else if Stops(h.x, a) then Some(Paused) else None
  {
  }

  function CompleteHist(h: Hist, oracle: nat -> Answer): (r: (Hist, Outcome))
    requires Lengths(h) && 2 <= h.x.current
    ensures Lengths(r.0) && (r.0.x, r.1) == CompleteFrom(h.x, oracle)
    decreases h.x.count + 2 - h.x.current
  {
    var a := oracle(h.x.current - 1);
    EndsWithinLimit(h, a);
    if h.x.current == h.x.count + 2 then (h, Finished)
    else if h.x.stack[h.x.current - 2].control.mustComplete then (h, MustComplete)
    else
      var g := UnwindHist(h, a);
      if Stops(h.x, a) then (g, Paused) else CompleteHist(Upward(g), oracle)
  }

  /** The loop moves on to the next location. */
  function Upward(h: Hist): Hist { h.(x := h.x.(current := h.x.current + 1)) }

  function Step(h: Hist, op: Op): Hist
    requires Allowed(h, op)
  {
    match op
    case OpSetRoutine(routine, onSuccess, onError, onCancel) =>
      h.(x := SetRoutine(h.x, routine, onSuccess, onError, onCancel),
         registered := h.registered[h.x.current - 2 := Some(Registration(routine, onSuccess, onError, onCancel))])
    case OpCall =>
      var slot := Slot(h.calls, h.registered[h.x.current - 2]);
      h.(x := CallDriver(h.x), slots := h.slots[h.x.current - 2 := slot], calls := h.calls + 1,
         trace := h.trace + [Called(slot)])
    case OpMarkPending => h.(x := MarkPending(h.x), trace := h.trace + [Marked])
    case OpSetStatus(status) => h.(x := h.x.(status := status), trace := h.trace + [StatusSet(status)])
    case OpComplete(oracle) =>
      if h.x.current > h.x.count + 1 then h
      else CompleteHist(Upward(h), oracle).0
  }

  ghost predicate IsRun(hs: seq<Hist>, ops: seq<Op>) {
    && |hs| == |ops| + 1
    && forall i {:trigger ops[i]} :: 0 <= i < |ops| ==> Allowed(hs[i], ops[i]) && hs[i + 1] == Step(hs[i], ops[i])
  }

  // ---------- the reference: a stack of calls that knows nothing of locations ----------

  predicate Wants(reg: Option<Registration>, status: int) {
    reg.Some? && if status >= 0 then reg.value.onSuccess else reg.value.onError
  }

  /** A call that is open: its number, its registration, and whether it has been marked pending. */
  datatype Open = Open(id: nat, reg: Option<Registration>, pending: bool)

  /** The open calls, the latest one last, with the status and PendingReturned of the packet. */
  datatype Calls = Calls(st: seq<Open>, status: int, returned: bool)

  function MarkTop(st: seq<Open>): seq<Open> {
    if st == [] then [] else st[..|st| - 1] + [st[|st| - 1].(pending := true)]
  }

  /** A call is pushed, the latest call marked, the status set. Unwinding takes the latest call:
      PendingReturned is its mark, and its routine runs exactly when the one registered for it
      wants the status at that point. The call below is marked by the routine if it runs, and
      inherits the mark if none runs. */
  function React(c: Calls, e: Event): Option<Calls> {
    match e
    case Called(slot) => Some(c.(st := c.st + [Open(slot.id, slot.reg, false)]))
    case Marked => if c.st == [] then None else Some(c.(st := MarkTop(c.st)))
    case StatusSet(status) => Some(c.(status := status))
    case Unwound(id, invoked, routine, seen, answer) =>
      if c.st == [] then None
      else
        var top, rest := c.st[|c.st| - 1], c.st[..|c.st| - 1];
        if id == top.id && seen == top.pending && invoked == Wants(top.reg, c.status)
           && (invoked ==> routine == top.reg.value.routine)
        then
          var marks := if invoked then answer.mark else top.pending;
          Some(Calls(if marks then MarkTop(rest) else rest, if invoked then answer.status else c.status, seen))
        else None
  }

  /** The open calls after the first n events, if they make sense. */
  function Replay(trace: seq<Event>, n: nat): Option<Calls>
    requires n <= |trace|
  {
    if n == 0 then Some(Calls([], 0, false))
    else if Replay(trace, n - 1).None? then None
    else React(Replay(trace, n - 1).value, trace[n - 1])
  }

  /** The calls that hold the locations with index lo and above, the latest one last. */
  function Live(slots: seq<Slot>, stack: seq<Location>, lo: nat): seq<Open>
    requires |slots| == |stack|
    decreases |slots| - lo
  {
    if lo >= |slots| then []
    else Live(slots, stack, lo + 1) + [Open(slots[lo].id, slots[lo].reg, stack[lo].control.pending)]
  }

  /** What the packet amounts to while the locations from lo on are in use. */
  function Seen(h: Hist, lo: nat): Calls
    requires Lengths(h)
  {
    Calls(Live(h.slots, h.x.stack, lo), h.x.status, h.x.pendingReturned)
  }

  predicate Matches(l: Location, reg: Option<Registration>) {
    && !l.control.mustComplete
    && (if reg.Some? then
          && l.control.onSuccess == reg.value.onSuccess && l.control.onError == reg.value.onError
          && l.control.onCancel == reg.value.onCancel && l.routine == reg.value.routine
        else !l.control.onSuccess && !l.control.onError && !l.control.onCancel)
  }

  /** Below lo a location carries what was registered and no pending bit. */
  ghost predicate Below(h: Hist, lo: nat)
    requires Lengths(h) && lo <= h.x.count
  {
    forall j :: 0 <= j < lo ==> Matches(h.x.stack[j], h.registered[j]) && !h.x.stack[j].control.pending
  }

  /** From lo on a location carries what its call was made with. */
  ghost predicate Above(h: Hist, lo: nat)
    requires Lengths(h) && lo <= h.x.count
  {
    forall j :: lo <= j < h.x.count ==> Matches(h.x.stack[j], h.slots[j].reg)
  }

  /** And the trace replays to exactly the calls that are live. */
  ghost predicate InvAt(h: Hist, lo: nat) {
    && Lengths(h) && lo <= h.x.count
    && Below(h, lo) && Above(h, lo)
    && Replay(h.trace, |h.trace|) == Some(Seen(h, lo))
  }

  ghost function Lowest(h: Hist): nat {
    if 1 <= h.x.current <= h.x.count then h.x.current - 1 else h.x.count
  }

  ghost predicate Inv(h: Hist) {
    InvAt(h, Lowest(h))
  }

  /** Live looks at the pending bits and the slots from lo on. */
  lemma {:induction false} LiveKeeps(slots: seq<Slot>, stack: seq<Location>, slots': seq<Slot>, stack': seq<Location>, lo: nat)
    requires |slots| == |slots'| == |stack| == |stack'|
    requires forall j :: lo <= j < |slots| ==> slots[j] == slots'[j] && stack[j].control.pending == stack'[j].control.pending
    ensures Live(slots, stack, lo) == Live(slots', stack', lo)
    decreases |slots| - lo
  {
    if lo < |slots| {
      LiveKeeps(slots, stack, slots', stack', lo + 1);
    }
  }

  lemma LivePops(slots: seq<Slot>, stack: seq<Location>, lo: nat)
    requires lo < |slots| == |stack|
    ensures var l := Live(slots, stack, lo);
      && l != [] && l[..|l| - 1] == Live(slots, stack, lo + 1)
      && l[|l| - 1] == Open(slots[lo].id, slots[lo].reg, stack[lo].control.pending)
  {
  }

  /** Marking a location marks the call on top. */
  lemma LiveMarked(slots: seq<Slot>, stack: seq<Location>, stack': seq<Location>, lo: nat)
    requires |slots| == |stack| == |stack'| && lo < |slots| && stack'[lo].control.pending
    requires forall j :: lo < j < |slots| ==> stack'[j].control.pending == stack[j].control.pending
    ensures Live(slots, stack', lo) == MarkTop(Live(slots, stack, lo))
  {
    LiveKeeps(slots, stack, slots, stack', lo + 1);
    var rest := Live(slots, stack, lo + 1);
    assert Live(slots, stack, lo)[..|rest|] == rest;
  }

  lemma {:induction false} ReplaySame(trace: seq<Event>, e: Event, n: nat)
    requires n <= |trace|
    ensures Replay(trace + [e], n) == Replay(trace, n)
  {
    hide React;
    if n > 0 {
      ReplaySame(trace, e, n - 1);
      assert (trace + [e])[n - 1] == trace[n - 1];
    }
  }

  lemma ReplayExtends(trace: seq<Event>, e: Event)
    requires Replay(trace, |trace|).Some?
    ensures Replay(trace + [e], |trace + [e]|) == React(Replay(trace, |trace|).value, e)
  {
    hide React;
    ReplaySame(trace, e, |trace|);
    assert (trace + [e])[|trace|] == e;
  }

  /** The locations above one that is unwound: the next one may have been marked. */
  lemma UnwindLive(h: Hist, a: Answer)
    requires Lengths(h) && 2 <= h.x.current <= h.x.count + 1
    ensures var x, c := h.x, h.x.stack[h.x.current - 2].control;
            var rest := Live(h.slots, x.stack, x.current - 1);
            Live(h.slots, Unwind(x, a).stack, x.current - 1)
            == if (if Invokes(c, x.status) then a.mark else c.pending) then MarkTop(rest) else rest
  {
    var x, y, lo := h.x, Unwind(h.x, a), h.x.current - 1;
    var c := x.stack[lo - 1].control;
    if lo < x.count && (if Invokes(c, x.status) then a.mark else c.pending) {
      LiveMarked(h.slots, x.stack, y.stack, lo);
    } else {
      LiveKeeps(h.slots, x.stack, h.slots, y.stack, lo);
    }
  }

  lemma UnwindSets(x: Irp, a: Answer)
    requires Shape(x) && 2 <= x.current <= x.count + 1
    ensures Unwind(x, a).pendingReturned == x.stack[x.current - 2].control.pending
    ensures Unwind(x, a).status == if Invokes(x.stack[x.current - 2].control, x.status) then a.status else x.status
  {
  }

  /** An unwinding is what the reference does to the latest call. */
  lemma UnwindReacts(h: Hist, a: Answer)
    requires Lengths(h) && 2 <= h.x.current <= h.x.count + 1
    requires Matches(h.x.stack[h.x.current - 2], h.slots[h.x.current - 2].reg)
    ensures Lengths(UnwindHist(h, a))
    ensures React(Seen(h, h.x.current - 2), UnwindingOf(h, a)) == Some(Seen(UnwindHist(h, a), h.x.current - 1))
  {
    hide Live, MarkTop, Unwind;
    LivePops(h.slots, h.x.stack, h.x.current - 2);
    UnwindSets(h.x, a);
    UnwindLive(h, a);
  }

  lemma UnwindReplays(h: Hist, a: Answer)
    requires 2 <= h.x.current <= h.x.count + 1 && InvAt(h, h.x.current - 2)
    ensures var g := UnwindHist(h, a); Replay(g.trace, |g.trace|) == Some(Seen(g, h.x.current - 1))
  {
    assert Matches(h.x.stack[h.x.current - 2], h.slots[h.x.current - 2].reg);
    hide Below, Above, Matches, Seen, React, Unwind, Replay, UnwindingOf;
    ReplayExtends(h.trace, UnwindingOf(h, a));
    UnwindReacts(h, a);
  }

  lemma UnwindKeepsInv(h: Hist, a: Answer)
    requires 2 <= h.x.current <= h.x.count + 1 && InvAt(h, h.x.current - 2)
    ensures InvAt(UnwindHist(h, a), h.x.current - 1)
  {
    var g := UnwindHist(h, a);
    assert Below(g, h.x.current - 1);
    assert Above(g, h.x.current - 1);
    assert Replay(g.trace, |g.trace|) == Some(Seen(g, h.x.current - 1)) by { UnwindReplays(h, a); }
  }

  lemma RoundKeepsInv(h: Hist, a: Answer)
    requires 2 <= h.x.current <= h.x.count + 1 && InvAt(h, h.x.current - 2)
    ensures !h.x.stack[h.x.current - 2].control.mustComplete
    ensures if Stops(h.x, a) then Inv(UnwindHist(h, a)) else InvAt(Upward(UnwindHist(h, a)), h.x.current - 1)
  {
    var g := UnwindHist(h, a);
    assert Matches(h.x.stack[h.x.current - 2], h.slots[h.x.current - 2].reg);
    assert InvAt(g, h.x.current - 1) by { UnwindKeepsInv(h, a); }
    assert Below(Upward(g), h.x.current - 1) && Above(Upward(g), h.x.current - 1);
  }

  lemma CompleteHistRound(h: Hist, oracle: nat -> Answer)
    requires Lengths(h) && 2 <= h.x.current <= h.x.count + 1 && !h.x.stack[h.x.current - 2].control.mustComplete
    ensures var a := oracle(h.x.current - 1);
      var g := UnwindHist(h, a);
      CompleteHist(h, oracle) == if Stops(h.x, a) then (g, Paused) else CompleteHist(Upward(g), oracle)
  {
  }

  /** What the unwinding keeps, of its two results. */
  ghost predicate Kept(r: (Hist, Outcome)) { Inv(r.0) && !r.1.MustComplete? }

  lemma FinishKeepsInv(h: Hist, oracle: nat -> Answer)
    requires h.x.current == h.x.count + 2 && InvAt(h, h.x.count)
    ensures Kept(CompleteHist(h, oracle))
  {
    assert CompleteHist(h, oracle) == (h, Finished);
  }

  /** What one unwinding adds to the trace. */
  lemma UnwindEvent(h: Hist, a: Answer)
    requires Lengths(h) && 2 <= h.x.current <= h.x.count + 1
    ensures var g := UnwindHist(h, a);
      && Lengths(g) && g.x.count == h.x.count && g.x.current == h.x.current
      && |g.trace| == |h.trace| + 1 && g.trace[..|h.trace|] == h.trace
      && var e := g.trace[|h.trace|];
         g.trace == h.trace + [e] && e.Unwound? && e.answer == a && e.seen == g.x.pendingReturned && (Pauses(e) <==> Stops(h.x, a))
  {
  }

  lemma {:induction false} CompleteKeepsInv(h: Hist, oracle: nat -> Answer)
    requires Lengths(h) && 2 <= h.x.current && InvAt(h, h.x.current - 2)
    ensures Kept(CompleteHist(h, oracle))
    decreases h.x.count + 2 - h.x.current
  {
    hide InvAt, UnwindHist, Stops;
    if h.x.current == h.x.count + 2 {
      FinishKeepsInv(h, oracle);
    } else {
      hide CompleteHist;
      var a := oracle(h.x.current - 1);
      var g := UnwindHist(h, a);
      RoundKeepsInv(h, a);
      UnwindEvent(h, a);
      CompleteHistRound(h, oracle);
      if !Stops(h.x, a) { CompleteKeepsInv(Upward(g), oracle); }
    }
  }

  lemma CallReplays(h: Hist)
    requires Inv(h) && Allowed(h, OpCall)
    ensures var g := Step(h, OpCall); Replay(g.trace, |g.trace|) == Some(Seen(g, h.x.current - 2))
  {
    var j, g := h.x.current - 2, Step(h, OpCall);
    ReplayExtends(h.trace, g.trace[|h.trace|]);
    LiveKeeps(h.slots, h.x.stack, g.slots, g.x.stack, j + 1);
  }

  lemma CallKeepsInv(h: Hist)
    requires Inv(h) && Allowed(h, OpCall)
    ensures Inv(Step(h, OpCall))
  {
    var g := Step(h, OpCall);
    assert Below(g, h.x.current - 2) && Above(g, h.x.current - 2);
    assert Replay(g.trace, |g.trace|) == Some(Seen(g, h.x.current - 2)) by { CallReplays(h); }
  }

  lemma MarkReplays(h: Hist)
    requires Inv(h) && Allowed(h, OpMarkPending)
    ensures var g := Step(h, OpMarkPending); Replay(g.trace, |g.trace|) == Some(Seen(g, h.x.current - 1))
  {
    hide Below, Above;
    assert Live(h.slots, h.x.stack, h.x.current - 1) != [];
    hide Live;
    ReplayExtends(h.trace, Marked);
    LiveMarked(h.slots, h.x.stack, Step(h, OpMarkPending).x.stack, h.x.current - 1);
  }

  lemma MarkKeepsInv(h: Hist)
    requires Inv(h) && Allowed(h, OpMarkPending)
    ensures Inv(Step(h, OpMarkPending))
  {
    MarkReplays(h);
    hide Replay, Live;
  }

  lemma RegisterKeepsInv(h: Hist, op: Op)
    requires Inv(h) && Allowed(h, op) && op.OpSetRoutine?
    ensures Inv(Step(h, op))
  {
    LiveKeeps(h.slots, h.x.stack, h.slots, Step(h, op).x.stack, Lowest(h));
  }

  lemma StepKeepsInv(h: Hist, op: Op)
    requires Inv(h) && Allowed(h, op)
    ensures Inv(Step(h, op))
  {
    hide Inv, Step, Allowed;
    match op
    case OpSetRoutine(_, _, _, _) => RegisterKeepsInv(h, op);
    case OpCall => CallKeepsInv(h);
    case OpMarkPending => MarkKeepsInv(h);
    case OpSetStatus(status) => StatusKeepsInv(h, status);
    case OpComplete(oracle) => CompletionKeepsInv(h, oracle);
  }

  lemma StatusKeepsInv(h: Hist, status: int)
    requires Inv(h) && Allowed(h, OpSetStatus(status))
    ensures Inv(Step(h, OpSetStatus(status)))
  {
    hide Matches, Live, Replay;
    ReplayExtends(h.trace, StatusSet(status));
  }

  lemma CompletionKeepsInv(h: Hist, oracle: nat -> Answer)
    requires Inv(h) && Allowed(h, OpComplete(oracle))
    ensures Inv(Step(h, OpComplete(oracle)))
  {
    hide CompleteHist, Matches, Live, Replay;
    if h.x.current <= h.x.count + 1 {
      assert InvAt(Upward(h), h.x.current - 1);
      CompleteKeepsInv(Upward(h), oracle);
    }
  }

  lemma BeginInv(count: nat)
    requires count <= LIMIT
    ensures Inv(Begin(count))
  {
    assert Live(Begin(count).slots, Begin(count).x.stack, count) == [];
  }

  lemma {:induction false} RunKeepsInv(hs: seq<Hist>, ops: seq<Op>, count: nat, i: nat)
    requires IsRun(hs, ops) && hs[0] == Begin(count) && count <= LIMIT && i < |hs|
    ensures forall j :: 0 <= j <= i ==> Inv(hs[j]) && hs[j].x.count == count
  {
    if i > 0 {
      RunKeepsInv(hs, ops, count, i - 1);
      assert Inv(hs[i]) && hs[i].x.count == count by {
        assert Allowed(hs[i - 1], ops[i - 1]) && hs[i] == Step(hs[i - 1], ops[i - 1]);
        StepKeepsInv(hs[i - 1], ops[i - 1]);
      }
    } else {
      BeginInv(count);
    }
  }

  /** Over every run with any number of pauses and resumed completions, the locations behave
      as a stack of calls: each unwinding takes the latest call that is still open, its routine
      runs exactly when it was registered for the status at that moment, and PendingReturned is
      whether that call had been marked, by its driver, by the routine of the call below it or,
      if that had none to run, by inheriting its mark. */
  lemma UnwindingIsAStack(hs: seq<Hist>, ops: seq<Op>, count: nat, i: nat)
    requires IsRun(hs, ops) && hs[0] == Begin(count) && count <= LIMIT && i < |hs|
    ensures Lengths(hs[i]) && Replay(hs[i].trace, |hs[i].trace|) == Some(Seen(hs[i], Lowest(hs[i])))
    ensures |Seen(hs[i], Lowest(hs[i])).st| == if hs[i].x.current <= count then count + 1 - hs[i].x.current else 0
  {
    RunKeepsInv(hs, ops, count, i);
    LiveLength(hs[i].slots, hs[i].x.stack, Lowest(hs[i]));
  }

  lemma {:induction false} LiveLength(slots: seq<Slot>, stack: seq<Location>, lo: nat)
    requires lo <= |slots| == |stack|
    ensures |Live(slots, stack, lo)| == |slots| - lo
    decreases |slots| - lo
  {
    if lo < |slots| {
      LiveLength(slots, stack, lo + 1);
    }
  }

  /** The routine of this event asks for a pause. */
  predicate Pauses(e: Event) { e.Unwound? && e.invoked && e.answer.more }

  /** One completion from trace t to trace u: it only unwinds, location after location from
      `first` on, with the answers of their routines; it pauses at the first routine that asks for
      it, and is finished when no call is open any more. PendingReturned is what was seen last. */
  ghost predicate Completes(t: seq<Event>, u: seq<Event>, first: nat, oracle: nat -> Answer, g: Hist, o: Outcome)
    requires Lengths(g) && u == g.trace
  {
    && |t| <= |u| && u[..|t|] == t
    && (forall p :: |t| <= p < |u| ==> u[p].Unwound? && u[p].answer == oracle(first + p - |t|))
    && (forall p :: |t| <= p < |u| - 1 ==> !Pauses(u[p]))
    && (|t| < |u| ==> g.x.pendingReturned == u[|u| - 1].seen)
    && (o.Paused? || o.Finished?)
    && (o.Paused? <==> |t| < |u| && Pauses(u[|u| - 1]))
    && (o.Finished? ==> Seen(g, Lowest(g)).st == [])
  }

  lemma CompletesOneMore(t: seq<Event>, e: Event, u: seq<Event>, first: nat, oracle: nat -> Answer, g: Hist, o: Outcome)
    requires Lengths(g) && u == g.trace && Completes(t + [e], u, first + 1, oracle, g, o)
    requires e.Unwound? && !Pauses(e) && e.answer == oracle(first) && (u == t + [e] ==> g.x.pendingReturned == e.seen)
    ensures Completes(t, u, first, oracle, g, o)
  {
    assert u[..|t|] == (t + [e])[..|t|] == t;
    assert u[|t|] == (t + [e])[|t|] == e;
  }

  lemma CompletesAtTheEnd(h: Hist, oracle: nat -> Answer)
    requires h.x.current == h.x.count + 2 && InvAt(h, h.x.count)
    ensures Completes(h.trace, h.trace, h.x.current - 1, oracle, h, Finished)
  {
  }

  lemma CompletesPaused(h: Hist, a: Answer, oracle: nat -> Answer)
    requires Lengths(h) && 2 <= h.x.current <= h.x.count + 1 && a == oracle(h.x.current - 1) && Stops(h.x, a)
    ensures var g := UnwindHist(h, a); Lengths(g) && Completes(h.trace, g.trace, h.x.current - 1, oracle, g, Paused)
  {
    UnwindEvent(h, a);
  }

  /** After the last unwinding nothing has changed PendingReturned. */
  lemma {:induction false} CompletesFrom(h: Hist, oracle: nat -> Answer)
    requires Lengths(h) && 2 <= h.x.current && InvAt(h, h.x.current - 2)
    ensures var r := CompleteHist(h, oracle);
      && Completes(h.trace, r.0.trace, h.x.current - 1, oracle, r.0, r.1)
      && (r.0.trace == h.trace ==> r.0.x.pendingReturned == h.x.pendingReturned)
    decreases h.x.count + 2 - h.x.current
  {
    hide InvAt, Completes, UnwindHist, Stops;
    if h.x.current == h.x.count + 2 {
      assert CompleteHist(h, oracle) == (h, Finished);
      CompletesAtTheEnd(h, oracle);
    } else {
      hide CompleteHist;
      var a, r := oracle(h.x.current - 1), CompleteHist(h, oracle);
      var g := UnwindHist(h, a);
      UnwindEvent(h, a);
      RoundKeepsInv(h, a);
      CompleteHistRound(h, oracle);
      if Stops(h.x, a) {
        CompletesPaused(h, a, oracle);
      } else {
        CompletesFrom(Upward(g), oracle);
        CompletesOneMore(h.trace, g.trace[|h.trace|], r.0.trace, h.x.current - 1, oracle, r.0, r.1);
        assert |g.trace| <= |r.0.trace| by { OnlyGrows(g.trace, r.0.trace, h.x.current, oracle, r.0, r.1); }
      }
    }
  }

  lemma OnlyGrows(t: seq<Event>, u: seq<Event>, first: nat, oracle: nat -> Answer, g: Hist, o: Outcome)
    requires Lengths(g) && u == g.trace && Completes(t, u, first, oracle, g, o)
    ensures |t| <= |u|
  {
  }

  lemma CompletionIs(h: Hist, op: Op)
    requires Inv(h) && Allowed(h, op) && op.OpComplete? && h.x.current <= h.x.count + 1
    ensures Lengths(Step(h, op)) && Completes(h.trace, Step(h, op).trace, h.x.current, op.oracle, Step(h, op), OutcomeOf(h, op))
  {
    hide Completes, CompleteHist, CompleteFrom, Matches, Live, Replay;
    assert InvAt(Upward(h), h.x.current - 1);
    CompletesFrom(Upward(h), op.oracle);
  }

  /** Over every run, each completion is such a one. */
  lemma CompletionsPauseExactly(hs: seq<Hist>, ops: seq<Op>, count: nat, i: nat)
    requires IsRun(hs, ops) && hs[0] == Begin(count) && count <= LIMIT && i < |ops|
    requires ops[i].OpComplete? && hs[i].x.current <= count + 1
    ensures Lengths(hs[i]) && Lengths(hs[i + 1]) && hs[i].x.count == count
    ensures Completes(hs[i].trace, hs[i + 1].trace, hs[i].x.current, ops[i].oracle, hs[i + 1], OutcomeOf(hs[i], ops[i]))
  {
    hide Completes, Step, InvAt, OutcomeOf;
    RunKeepsInv(hs, ops, count, i);
    assert Allowed(hs[i], ops[i]) && hs[i + 1] == Step(hs[i], ops[i]);
    CompletionIs(hs[i], ops[i]);
  }

  /** How many of the first n events are calls. */
  function CallsIn(trace: seq<Event>, n: nat): nat
    requires n <= |trace|
  {
    if n == 0 then 0 else CallsIn(trace, n - 1) + if trace[n - 1].Called? then 1 else 0
  }

  /** Calls carry the numbers 0, 1, 2, ... in the order they were made. */
  predicate Numbered(trace: seq<Event>) {
    forall p :: 0 <= p < |trace| && trace[p].Called? ==> trace[p].slot.id == CallsIn(trace, p)
  }

  /** The call is unwound by one of the first n events. */
  predicate UnwoundIn(trace: seq<Event>, n: nat, id: nat)
    requires n <= |trace|
  {
    exists p :: 0 <= p < n && trace[p].Unwound? && trace[p].id == id
  }

  function Ids(st: seq<Open>): (ids: seq<nat>)
    ensures |ids| == |st| && forall i :: 0 <= i < |st| ==> ids[i] == st[i].id
  {
    seq(|st|, i requires 0 <= i < |st| => st[i].id)
  }

  /** The calls on the stack carry growing numbers, all of calls that have been made. */
  ghost predicate Growing(ids: seq<nat>, calls: nat) {
    && (forall i, j :: 0 <= i < j < |ids| ==> ids[i] < ids[j])
    && (forall i :: 0 <= i < |ids| ==> ids[i] < calls)
  }

  /** Of the calls made so far each is either on the stack or unwound; later ones are neither. */
  ghost predicate Split(trace: seq<Event>, n: nat, ids: seq<nat>)
    requires n <= |trace|
  {
    && (forall id :: 0 <= id < CallsIn(trace, n) ==> (id in ids <==> !UnwoundIn(trace, n, id)))
    && (forall id :: id >= CallsIn(trace, n) ==> !UnwoundIn(trace, n, id))
  }

  lemma UnwoundByLast(trace: seq<Event>, n: nat)
    requires 0 < n <= |trace|
    ensures var e := trace[n - 1];
      forall id :: UnwoundIn(trace, n, id) <==> UnwoundIn(trace, n - 1, id) || (e.Unwound? && e.id == id)
  {
  }

  lemma CallSplits(trace: seq<Event>, n: nat, ids: seq<nat>)
    requires 0 < n <= |trace| && Numbered(trace) && trace[n - 1].Called?
    requires Growing(ids, CallsIn(trace, n - 1)) && Split(trace, n - 1, ids)
    ensures Growing(ids + [trace[n - 1].slot.id], CallsIn(trace, n)) && Split(trace, n, ids + [trace[n - 1].slot.id])
  {
    UnwoundByLast(trace, n);
  }

  lemma PopSplits(trace: seq<Event>, n: nat, ids: seq<nat>)
    requires 0 < n <= |trace| && trace[n - 1].Unwound? && ids != [] && ids[|ids| - 1] == trace[n - 1].id
    requires Growing(ids, CallsIn(trace, n - 1)) && Split(trace, n - 1, ids)
    ensures Growing(ids[..|ids| - 1], CallsIn(trace, n)) && Split(trace, n, ids[..|ids| - 1])
  {
    UnwoundByLast(trace, n);
    assert ids == ids[..|ids| - 1] + [ids[|ids| - 1]];
    assert trace[n - 1].id in ids;
  }

  lemma OtherSplits(trace: seq<Event>, n: nat, ids: seq<nat>)
    requires 0 < n <= |trace| && !trace[n - 1].Called? && !trace[n - 1].Unwound?
    requires Growing(ids, CallsIn(trace, n - 1)) && Split(trace, n - 1, ids)
    ensures Growing(ids, CallsIn(trace, n)) && Split(trace, n, ids)
  {
    UnwoundByLast(trace, n);
  }

  /** An event pushes the number of a call, takes the last one, or leaves the numbers as they are. */
  lemma ReactIds(c: Calls, e: Event)
    requires React(c, e).Some?
    ensures var st := React(c, e).value.st;
      match e
      case Called(slot) => Ids(st) == Ids(c.st) + [slot.id]
      case Unwound(id, _, _, _, _) => c.st != [] && Ids(c.st)[|c.st| - 1] == id && Ids(st) == Ids(c.st)[..|c.st| - 1]
      case _ => Ids(st) == Ids(c.st)
  {
  }

  /** A trace that replays splits its calls, after any number of events, into those on the
      stack, in the order they were made, and those that have been unwound. */
  lemma {:induction false} ReplaySplitsCalls(trace: seq<Event>, n: nat)
    requires n <= |trace| && Replay(trace, n).Some? && Numbered(trace)
    ensures var ids := Ids(Replay(trace, n).value.st); Growing(ids, CallsIn(trace, n)) && Split(trace, n, ids)
  {
    if n > 0 {
      ReplaySplitsCalls(trace, n - 1);
      var c, e := Replay(trace, n - 1).value, trace[n - 1];
      assert Replay(trace, n) == React(c, e);
      ReactIds(c, e);
      hide React, Ids, Replay, CallsIn, Numbered, Growing, Split;
      if e.Called? {
        CallSplits(trace, n, Ids(c.st));
      } else if e.Unwound? {
        PopSplits(trace, n, Ids(c.st));
      } else {
        OtherSplits(trace, n, Ids(c.st));
      }
    }
  }

  lemma {:induction false} PrefixReplays(trace: seq<Event>, m: nat, n: nat)
    requires m <= n <= |trace| && Replay(trace, n).Some?
    ensures Replay(trace, m).Some?
  {
    if m < n { PrefixReplays(trace, m, n - 1); }
  }

  /** The trace is numbered, and counts the calls. */
  predicate Counts(h: Hist) { Numbered(h.trace) && CallsIn(h.trace, |h.trace|) == h.calls }

  lemma {:induction false} CallsSame(trace: seq<Event>, e: Event, n: nat)
    requires n <= |trace|
    ensures CallsIn(trace + [e], n) == CallsIn(trace, n)
  {
    if n > 0 {
      CallsSame(trace, e, n - 1);
      assert (trace + [e])[n - 1] == trace[n - 1];
    }
  }

  lemma CountExtends(trace: seq<Event>, e: Event)
    requires Numbered(trace) && (e.Called? ==> e.slot.id == CallsIn(trace, |trace|))
    ensures Numbered(trace + [e])
    ensures CallsIn(trace + [e], |trace + [e]|) == CallsIn(trace, |trace|) + if e.Called? then 1 else 0
  {
    var t := trace + [e];
    CallsSame(trace, e, |trace|);
    forall p | 0 <= p < |t| && t[p].Called? ensures t[p].slot.id == CallsIn(t, p) {
      CallsSame(trace, e, p);
      if p < |trace| { assert t[p] == trace[p]; }
    }
  }

  lemma {:induction false} CompleteCounts(h: Hist, oracle: nat -> Answer)
    requires Lengths(h) && 2 <= h.x.current && Counts(h)
    ensures Counts(CompleteHist(h, oracle).0)
    decreases h.x.count + 2 - h.x.current
  {
    if h.x.current <= h.x.count + 1 && !h.x.stack[h.x.current - 2].control.mustComplete {
      var a := oracle(h.x.current - 1);
      var g := UnwindHist(h, a);
      CountExtends(h.trace, g.trace[|h.trace|]);
      if !Stops(h.x, a) { CompleteCounts(Upward(g), oracle); }
    }
  }

  lemma StepCounts(h: Hist)
    requires Counts(h)
    ensures forall op :: Allowed(h, op) ==> Counts(Step(h, op))
  {
    forall op | Allowed(h, op) ensures Counts(Step(h, op)) {
      match op
      case OpCall => CountExtends(h.trace, Called(Slot(h.calls, h.registered[h.x.current - 2])));
      case OpMarkPending => CountExtends(h.trace, Marked);
      case OpSetStatus(status) => CountExtends(h.trace, StatusSet(status));
      case OpComplete(oracle) => if h.x.current <= h.x.count + 1 { CompleteCounts(Upward(h), oracle); }
      case _ =>
    }
  }

  lemma {:induction false} RunCounts(hs: seq<Hist>, ops: seq<Op>, count: nat, i: nat)
    requires IsRun(hs, ops) && hs[0] == Begin(count) && count <= LIMIT && i < |hs|
    ensures forall j :: 0 <= j <= i ==> Counts(hs[j])
  {
    if i > 0 {
      RunCounts(hs, ops, count, i - 1);
      assert Allowed(hs[i - 1], ops[i - 1]) && hs[i] == Step(hs[i - 1], ops[i - 1]);
      StepCounts(hs[i - 1]);
    }
  }

  /** Each IofCallDriver is unwound at most once, and in reverse call order: when a call is
      unwound, it has not been unwound before, and every later call already has. */
  lemma EachCallUnwindsOnceInReverse(hs: seq<Hist>, ops: seq<Op>, count: nat, i: nat, u: nat, later: nat)
    requires IsRun(hs, ops) && hs[0] == Begin(count) && count <= LIMIT && i < |hs|
    requires u < |hs[i].trace| && hs[i].trace[u].Unwound?
    ensures !UnwoundIn(hs[i].trace, u, hs[i].trace[u].id)
    ensures hs[i].trace[u].id < CallsIn(hs[i].trace, u)
    ensures hs[i].trace[u].id < later < CallsIn(hs[i].trace, u) ==> UnwoundIn(hs[i].trace, u, later)
  {
    var trace := hs[i].trace;
    assert Replay(trace, |trace|).Some? by { UnwindingIsAStack(hs, ops, count, i); }
    RunCounts(hs, ops, count, i);
    PrefixReplays(trace, u, |trace|);
    PrefixReplays(trace, u + 1, |trace|);
    ReplaySplitsCalls(trace, u);
    var ids := Ids(Replay(trace, u).value.st);
    ReactIds(Replay(trace, u).value, trace[u]);
    hide Ids, React, CallsIn;
    assert ids[|ids| - 1] == trace[u].id && trace[u].id in ids;
  }

  // ---------- the end of the unwinding ----------

  /** Up to 125 locations completion ends the unwinding exactly when CurrentLocation reaches
      StackCount + 2, and it never leaves the packet. */
  lemma {:induction false} FinishedMeansPastTheEnd(x: Irp, oracle: nat -> Answer)
    requires Shape(x) && x.count <= LIMIT && 2 <= x.current <= x.count + 2
    ensures CompleteFrom(x, oracle).1.Finished? <==> CompleteFrom(x, oracle).0.current == x.count + 2
    ensures CompleteFrom(x, oracle).1 != Bugcheck && CompleteFrom(x, oracle).1 != Overrun
    decreases x.count + 2 - x.current
  {
    var a := oracle(x.current - 1);
    if EndOf(x, a).None? {
      FinishedMeansPastTheEnd(AfterRound(x, a), oracle);
    }
  }

  /** With 126 locations the loop's test is true of every signed byte: the unwinding never
      finishes, whatever the routines do. */
  lemma {:induction false} NeverFinishesAt126(x: Irp, oracle: nat -> Answer)
    requires Shape(x) && x.count == 126 && 2 <= x.current
    ensures !CompleteFrom(x, oracle).1.Finished?
    decreases if x.current <= x.count + 1 then x.count + 2 - x.current else 0
  {
    var a := oracle(x.current - 1);
    if EndOf(x, a).None? {
      NeverFinishesAt126(AfterRound(x, a), oracle);
    }
  }

  /** With 127 locations the bound itself wraps, to the lowest byte there is: a packet with two
      calls or more outstanding is finished at once, without unwinding any of them. */
  lemma FinishesTooEarlyAt127(x: Irp, oracle: nat -> Answer)
    requires Shape(x) && x.count == 127 && 2 <= x.current <= 127
    ensures CompleteFrom(x, oracle) == (x, Finished)
  {
  }

  /** From 126 locations on, no completion ever bugchecks. */
  lemma NoBugcheckBeyondLimit(x: Irp, oracle: nat -> Answer)
    requires Shape(x)
    ensures x.count > LIMIT ==> !Complete(x, oracle).1.Bugcheck?
  {
    if x.count > LIMIT { NoBugcheckFrom(x.(current := x.current + 1), oracle); }
  }

  lemma {:induction false} NoBugcheckFrom(x: Irp, oracle: nat -> Answer)
    requires Shape(x) && 2 <= x.current
    ensures !CompleteFrom(x, oracle).1.Bugcheck?
    decreases if x.current <= x.count + 1 then x.count + 2 - x.current else 0
  {
    var a := oracle(x.current - 1);
    if EndOf(x, a).None? {
      NoBugcheckFrom(AfterRound(x, a), oracle);
    }
  }

  function OutcomeOf(h: Hist, op: Op): Outcome
    requires Allowed(h, op) && op.OpComplete?
  {
    Complete(h.x, op.oracle).1
  }

  lemma {:induction false} PastTheEndStays(hs: seq<Hist>, ops: seq<Op>, i: nat, j: nat)
    requires IsRun(hs, ops) && i <= j < |hs| && hs[i].x.current == hs[i].x.count + 2
    ensures hs[j].x.current == hs[j].x.count + 2
  {
    if i < j {
      PastTheEndStays(hs, ops, i, j - 1);
      assert Allowed(hs[j - 1], ops[j - 1]) && hs[j] == Step(hs[j - 1], ops[j - 1]);
    }
  }

  lemma StepPastTheEnd(h: Hist, op: Op)
    requires Allowed(h, op)
    ensures Step(h, op).x.count == h.x.count && 1 <= Step(h, op).x.current <= h.x.count + 2
    ensures Step(h, op).x.current == h.x.count + 2 <==>
              h.x.current == h.x.count + 2 || (op.OpComplete? && OutcomeOf(h, op).Finished?)
  {
    hide CompleteHist, CompleteFrom;
    if op.OpComplete? && h.x.current <= h.x.count + 1 { FinishedMeansPastTheEnd(Upward(h).x, op.oracle); }
  }

  /** Some operation before the i-th state has finished the packet. */
  ghost predicate FinishedBefore(hs: seq<Hist>, ops: seq<Op>, i: nat)
    requires |hs| == |ops| + 1 && i <= |ops|
  {
    exists k :: 0 <= k < i && ops[k].OpComplete? && Allowed(hs[k], ops[k]) && OutcomeOf(hs[k], ops[k]).Finished?
  }

  lemma FinishedByLast(hs: seq<Hist>, ops: seq<Op>, i: nat)
    requires |hs| == |ops| + 1 && 0 < i <= |ops| && Allowed(hs[i - 1], ops[i - 1])
    ensures FinishedBefore(hs, ops, i) <==>
              FinishedBefore(hs, ops, i - 1) || (ops[i - 1].OpComplete? && OutcomeOf(hs[i - 1], ops[i - 1]).Finished?)
  {
  }

  /** A packet takes as many calls as it has locations, and is past its end only if a completion
      has finished it. */
  lemma {:induction false} PastTheEndIsFinished(hs: seq<Hist>, ops: seq<Op>, count: nat, i: nat)
    requires IsRun(hs, ops) && hs[0] == Begin(count) && count <= LIMIT && i < |hs|
    ensures hs[i].x.count == count && 1 <= hs[i].x.current <= count + 2
    ensures hs[i].x.current == count + 2 <==> FinishedBefore(hs, ops, i)
  {
    if i > 0 {
      hide Step, Allowed, OutcomeOf, FinishedBefore;
      PastTheEndIsFinished(hs, ops, count, i - 1);
      assert Allowed(hs[i - 1], ops[i - 1]) && hs[i] == Step(hs[i - 1], ops[i - 1]);
      StepPastTheEnd(hs[i - 1], ops[i - 1]);
      FinishedByLast(hs, ops, i);
    }
  }

  /** A packet, which in a history has at most 125 locations, is finished at most once: every
      completion after the one that finished it bugchecks and changes nothing. */
  lemma FinishedAtMostOnce(hs: seq<Hist>, ops: seq<Op>, i: nat, j: nat)
    requires IsRun(hs, ops) && i < j < |ops| && ops[i].OpComplete? && ops[j].OpComplete?
    requires Allowed(hs[i], ops[i]) && OutcomeOf(hs[i], ops[i]).Finished?
    ensures hs[i + 1].x.current == hs[i].x.count + 2
    ensures Allowed(hs[j], ops[j]) && OutcomeOf(hs[j], ops[j]).Bugcheck? && hs[j + 1] == hs[j]
  {
    assert hs[i + 1].x.current == hs[i + 1].x.count + 2 && hs[i + 1].x.count == hs[i].x.count by {
      assert hs[i + 1] == Step(hs[i], ops[i]);
      FinishedMeansPastTheEnd(Upward(hs[i]).x, ops[i].oracle);
    }
    PastTheEndStays(hs, ops, i + 1, j);
    assert Allowed(hs[j], ops[j]) && hs[j + 1] == Step(hs[j], ops[j]);
  }

  predicate NoRoutines(x: Irp)
    requires Shape(x) && 2 <= x.current
  {
    forall j :: x.current - 2 <= j < x.count ==>
      !x.stack[j].control.mustComplete && !x.stack[j].control.onSuccess && !x.stack[j].control.onError
  }

  /** With no completion routines left, a packet within the limit is finished and PendingReturned
      is the OR of the pending bits of all locations it went through. */
  lemma {:induction false} PendingIsTheOrOfAll(x: Irp, oracle: nat -> Answer)
    requires Shape(x) && x.count <= LIMIT && 2 <= x.current <= x.count + 1 && NoRoutines(x)
    ensures CompleteFrom(x, oracle).1.Finished?
    ensures CompleteFrom(x, oracle).0.pendingReturned
            <==> exists j :: x.current - 2 <= j < x.count && x.stack[j].control.pending
    decreases x.count - x.current
  {
    var a := oracle(x.current - 1);
    var next := AfterRound(x, a);
    assert EndOf(x, a).None?;
    if x.current <= x.count {
      assert forall j :: x.current - 1 <= j < x.count ==>
        next.stack[j].control.pending ==
        (x.stack[j].control.pending || (j == x.current - 1 && x.stack[x.current - 2].control.pending));
      PendingIsTheOrOfAll(next, oracle);
    }
  }

  /** Without completion routines the unwinding gets past the end, for a packet of any size,
      exactly when it has at most 125 locations, or it has 127 and only the last is outstanding
      and not pending. */
  lemma UnwindsToTheEndExactly(x: Irp, oracle: nat -> Answer)
    requires Shape(x) && 2 <= x.current <= x.count + 1 && NoRoutines(x)
    ensures CompleteFrom(x, oracle).1.Finished? && CompleteFrom(x, oracle).0.current == x.count + 2
            <==> x.count <= LIMIT || (x.count == 127 && x.current == 128 && !x.stack[126].control.pending)
  {
    if x.count <= LIMIT {
      PendingIsTheOrOfAll(x, oracle);
      FinishedMeansPastTheEnd(x, oracle);
    } else if x.count == 126 {
      NeverFinishesAt126(x, oracle);
    } else if x.current <= 127 {
      FinishesTooEarlyAt127(x, oracle);
    } else {
      LastOfAll127(x, oracle);
    }
  }

  lemma LastOfAll127(x: Irp, oracle: nat -> Answer)
    requires Shape(x) && x.count == 127 && x.current == 128 && NoRoutines(x)
    ensures CompleteFrom(x, oracle).1 == if x.stack[126].control.pending then Overrun else Finished
    ensures CompleteFrom(x, oracle).0.current == if x.stack[126].control.pending then 128 else 129
  {
    var a := oracle(127);
    assert CChar(128) == -128 && CChar(129) == -127;
    if !x.stack[126].control.pending {
      assert EndOf(x, a).None? && !Goes(AfterRound(x, a));
    }
  }
}

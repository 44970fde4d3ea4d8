/** Kernel APCs of the running thread, nboxkrnl/ke/apc.cpp. */
module ApcQueue {
  // KiExecuteApcQueue runs at APC_LEVEL, decides with IRQL raised to SYNC_LEVEL, and lowers it
  // again around the routines it calls. A normal routine runs at PASSIVE_LEVEL, so the delivery
  // can be interrupted by another one. Everything done at SYNC_LEVEL is one step; insertions,
  // removals and critical regions may come between any two steps at a lower level.

  import opened Tally

  const PASSIVE_LEVEL := 0
  const APC_LEVEL := 1
  const SYNC_LEVEL := 28

  /** A queued APC. It is special when it has no normal routine. `stamp` orders insertions. */
  datatype Apc = Apc(id: nat, special: bool, stamp: nat)

  datatype Pc =
    | Entering                 // interrupt taken, at APC_LEVEL
    | Looping                  // at the loop test, at SYNC_LEVEL
    | InKernelRoutine(apc: Apc)
    | InNormalRoutine(apc: Apc)
    | Leaving                  // returned to the interrupt handler, at APC_LEVEL

  /** One activation of KiExecuteApcQueue; `disable` is KernelApcDisable when it last dequeued. */
  datatype Frame = Frame(pc: Pc, oldIrql: int, disable: int)

  datatype Thread = Thread(
    list: seq<Apc>,            // ApcListHead[KernelMode]
    pending: bool,             // KernelApcPending
    requested: bool,           // an APC_LEVEL software interrupt is outstanding
    inProgress: bool,          // KernelApcInProgress
    disable: int,              // KernelApcDisable
    irql: int,
    frames: seq<Frame>,        // innermost last
    clock: nat,                // next stamp
    lastSpecial: int,          // stamps of the APCs dequeued last, of each kind
    lastNormal: int)

  // ---------- the queue ----------

  predicate Queued(list: seq<Apc>, id: nat) {
    exists i :: 0 <= i < |list| && list[i].id == id
  }

  /** How many special APCs stand before the first normal one. */
  function LeadingSpecials(list: seq<Apc>): (n: nat)
    ensures n <= |list|
    ensures forall i :: 0 <= i < n ==> list[i].special
    ensures n < |list| ==> !list[n].special
  {
    if list == [] || !list[0].special then 0 else 1 + LeadingSpecials(list[1..])
  }

  function InsertApc(list: seq<Apc>, apc: Apc): seq<Apc> {
    if apc.special then list[..LeadingSpecials(list)] + [apc] + list[LeadingSpecials(list)..]
    else list + [apc]
  }

  function RemoveApc(list: seq<Apc>, id: nat): seq<Apc> {
    if list == [] then [] else if list[0].id == id then list[1..] else [list[0]] + RemoveApc(list[1..], id)
  }

  /** Whether the delivery loop may take the first APC now. */
  predicate CanDeliver(list: seq<Apc>, inProgress: bool, disable: int) {
    list != [] && (list[0].special || (!inProgress && disable == 0))
  }

  class KThread {
    var ApcList: seq<Apc>
    var KernelApcPending: bool
    var InterruptRequested: bool
    var KernelApcInProgress: bool
    var KernelApcDisable: int
    var Clock: nat

    constructor ()
      ensures ApcList == [] && !KernelApcPending && !InterruptRequested && !KernelApcInProgress && KernelApcDisable == 0
    {
      ApcList, KernelApcPending, InterruptRequested, KernelApcInProgress, KernelApcDisable := [], false, false, false, 0;
      Clock := 0;
    }

    predicate IsInserted(id: nat)
      reads this
    {
      exists i :: 0 <= i < |ApcList| && ApcList[i].id == id
    }

    method KiInsertQueueApc(id: nat, special: bool) returns (inserted: bool)
      modifies this
      ensures inserted == !Queued(old(ApcList), id)
      ensures ApcList == if inserted then InsertApc(old(ApcList), Apc(id, special, old(Clock))) else old(ApcList)
      ensures KernelApcPending == (inserted || old(KernelApcPending))
      ensures InterruptRequested == (inserted || old(InterruptRequested))
      ensures Clock == old(Clock) + if inserted then 1 else 0
      ensures KernelApcInProgress == old(KernelApcInProgress) && KernelApcDisable == old(KernelApcDisable)
    {
      inserted := false;
      if !IsInserted(id) {
        var apc := Apc(id, special, Clock);
        if !special {
          ApcList := ApcList + [apc];
        } else {
          var entry := 0;
          while entry < |ApcList|
            invariant 0 <= entry <= LeadingSpecials(ApcList)
            invariant ApcList == old(ApcList)
          {
            if !ApcList[entry].special { break; }
            entry := entry + 1;
          }
          assert entry == LeadingSpecials(ApcList);
          ApcList := ApcList[..entry] + [apc] + ApcList[entry..];
        }
        Clock := Clock + 1;
        KernelApcPending := true;
        InterruptRequested := true;
        inserted := true;
      }
    }

    method KeRemoveQueueApc(id: nat) returns (inserted: bool)
      modifies this
      ensures inserted == Queued(old(ApcList), id)
      ensures ApcList == RemoveApc(old(ApcList), id)
      ensures KernelApcPending == (old(KernelApcPending) && !(inserted && ApcList == []))
      ensures InterruptRequested == old(InterruptRequested) && Clock == old(Clock)
      ensures KernelApcInProgress == old(KernelApcInProgress) && KernelApcDisable == old(KernelApcDisable)
    {
      inserted := IsInserted(id);
      RemoveAbsent(ApcList, id);
      if inserted {
        ApcList := RemoveApc(ApcList, id);
        if ApcList == [] {
          KernelApcPending := false;
        }
      }
    }

    method KeEnterCriticalRegion()
      requires KernelApcDisable <= 0 && KernelApcDisable != -32768
      modifies this`KernelApcDisable
      ensures KernelApcDisable == old(KernelApcDisable) - 1
    {
      KernelApcDisable := KernelApcDisable - 1;
    }

    method KeLeaveCriticalRegion()
      requires KernelApcDisable < 0
      modifies this`KernelApcDisable, this`KernelApcPending, this`InterruptRequested
      ensures KernelApcDisable == old(KernelApcDisable) + 1
      ensures KernelApcPending == (old(KernelApcPending) || (KernelApcDisable == 0 && ApcList != []))
      ensures InterruptRequested == (old(InterruptRequested) || (KernelApcDisable == 0 && ApcList != []))
    {
      KernelApcDisable := KernelApcDisable + 1;
      if KernelApcDisable == 0 && ApcList != [] {
        KernelApcPending := true;
        InterruptRequested := true;
      }
    }

    /** One test of the delivery loop: takes the first APC off the list if it may run. */
    method TakeFirst() returns (apc: seq<Apc>)
      modifies this`ApcList
      ensures if CanDeliver(old(ApcList), KernelApcInProgress, KernelApcDisable)
              then apc == old(ApcList)[..1] && ApcList == old(ApcList)[1..]
              else apc == [] && ApcList == old(ApcList)
    {
      apc := [];
      if ApcList != [] {
        if ApcList[0].special {
          apc, ApcList := ApcList[..1], ApcList[1..];
        } else if !KernelApcInProgress && KernelApcDisable == 0 {
          apc, ApcList := ApcList[..1], ApcList[1..];
        }
      }
    }
  }

  lemma {:induction false} RemoveAbsent(list: seq<Apc>, id: nat)
    ensures !Queued(list, id) ==> RemoveApc(list, id) == list
  {
    if list != [] && list[0].id != id {
      RemoveAbsent(list[1..], id);
      if Queued(list[1..], id) {
        var i :| 0 <= i < |list[1..]| && list[1..][i].id == id;
        assert list[i + 1].id == id;
      }
    }
  }

  // ---------- the thread as a transition system ----------

  datatype Action =
    | Insert(id: nat, special: bool)
    | Remove(id: nat)
    | EnterRegion
    | LeaveRegion
    | Interrupt              // the software interrupt is taken, at PASSIVE_LEVEL
    | SwapIn                 // the thread is switched to at PASSIVE_LEVEL with KernelApcPending set
    | Begin                  // KiExecuteApcQueue raises IRQL and clears KernelApcPending
    | LoopTest
    | KernelReturns(keep: bool)  // the kernel routine returns; does it leave a normal routine?
    | NormalReturns
    | HandlerReturns

  function Top(s: Thread): Pc
    requires s.frames != []
  {
    s.frames[|s.frames| - 1].pc
  }

  /** The thread's own code is running: outside any delivery, or in a routine of one. */
  predicate InCode(s: Thread) {
    s.frames == [] || Top(s).InKernelRoutine? || Top(s).InNormalRoutine?
  }

  /** Routines return at the IRQL they were called at. */
  predicate Enabled(s: Thread, a: Action) {
    match a
    case Insert(_, _) => s.irql != SYNC_LEVEL
    case Remove(_) => s.irql != SYNC_LEVEL
    case EnterRegion => InCode(s) && -32768 < s.disable <= 0
    case LeaveRegion => InCode(s) && s.disable < 0
    case Interrupt => InCode(s) && s.irql == PASSIVE_LEVEL && s.requested
    case SwapIn => InCode(s) && s.irql == PASSIVE_LEVEL && s.pending
    case Begin => s.frames != [] && Top(s).Entering?
    case LoopTest => s.frames != [] && Top(s).Looping?
    case KernelReturns(keep) =>
      s.frames != [] && Top(s).InKernelRoutine? && (keep ==> !Top(s).apc.special)
    case NormalReturns => s.frames != [] && Top(s).InNormalRoutine?
    case HandlerReturns => s.frames != [] && Top(s).Leaving?
  }

  function WithTop(s: Thread, f: Frame): Thread
    requires s.frames != []
  {
    s.(frames := s.frames[|s.frames| - 1 := f])
  }

  function Next(s: Thread, a: Action): Thread
    requires Enabled(s, a)
  {
    match a
    case Insert(id, special) =>
      if Queued(s.list, id) then s
      else s.(list := InsertApc(s.list, Apc(id, special, s.clock)), clock := s.clock + 1, pending := true, requested := true)
    case Remove(id) =>
      var l := RemoveApc(s.list, id);
      s.(list := l, pending := s.pending && !(Queued(s.list, id) && l == []))
    case EnterRegion => s.(disable := s.disable - 1)
    case LeaveRegion =>
      var wake := s.disable + 1 == 0 && s.list != [];
      s.(disable := s.disable + 1, pending := s.pending || wake, requested := s.requested || wake)
    case Interrupt =>
      s.(requested := false, irql := APC_LEVEL, frames := s.frames + [Frame(Entering, APC_LEVEL, 0)])
    case SwapIn =>
      s.(irql := APC_LEVEL, frames := s.frames + [Frame(Entering, APC_LEVEL, 0)])
    case Begin =>
      WithTop(s, Frame(Looping, s.irql, 0)).(irql := SYNC_LEVEL, pending := false)
    case LoopTest =>
      var f := s.frames[|s.frames| - 1];
      if CanDeliver(s.list, s.inProgress, s.disable) then
        var apc := s.list[0];
        var t := WithTop(s, Frame(InKernelRoutine(apc), f.oldIrql, s.disable)).(list := s.list[1..], irql := f.oldIrql);
        if apc.special then t.(lastSpecial := apc.stamp) else t.(lastNormal := apc.stamp)
      else WithTop(s, f.(pc := Leaving)).(irql := f.oldIrql)
    case KernelReturns(keep) =>
      var apc := Top(s).apc;
      var f := s.frames[|s.frames| - 1];
      if keep then WithTop(s, f.(pc := InNormalRoutine(apc))).(inProgress := true, irql := PASSIVE_LEVEL)
      else
        var t := WithTop(s, f.(pc := Looping, oldIrql := s.irql)).(irql := SYNC_LEVEL);
        if apc.special then t else t.(inProgress := false)
    case NormalReturns =>
      WithTop(s, s.frames[|s.frames| - 1].(pc := Looping, oldIrql := APC_LEVEL)).(irql := SYNC_LEVEL, inProgress := false)
    case HandlerReturns =>
      s.(frames := s.frames[..|s.frames| - 1], irql := PASSIVE_LEVEL)
  }

  const IDLE := Thread([], false, false, false, 0, PASSIVE_LEVEL, [], 0, -1, -1)

  ghost predicate IsRun(ss: seq<Thread>, acts: seq<Action>) {
    && |ss| == |acts| + 1
    && forall i {:trigger acts[i]} :: 0 <= i < |acts| ==> Enabled(ss[i], acts[i]) && ss[i + 1] == Next(ss[i], acts[i])
  }

  // ---------- invariants ----------

  /** Specials before normals, each kind in insertion order, no APC queued twice. */
  ghost predicate Ordered(list: seq<Apc>) {
    forall i, j :: 0 <= i < j < |list| ==>
      && list[i].id != list[j].id
      && (list[j].special ==> list[i].special)
      && (list[i].special == list[j].special ==> list[i].stamp < list[j].stamp)
  }

  ghost predicate Stamps(s: Thread) {
    && s.lastSpecial < s.clock && s.lastNormal < s.clock
    && forall i :: 0 <= i < |s.list| ==>
      s.list[i].stamp < s.clock && (if s.list[i].special then s.lastSpecial else s.lastNormal) < s.list[i].stamp
  }

  ghost predicate HasSpecial(list: seq<Apc>) {
    exists i :: 0 <= i < |list| && list[i].special
  }

  /** The innermost delivery is going to test the list again. */
  predicate WillLook(s: Thread) {
    s.frames != [] && (Top(s).Entering? || Top(s).Looping? || Top(s).InKernelRoutine?)
  }

  function LevelOf(p: Pc): int {
    match p
    case Entering => APC_LEVEL
    case Looping => SYNC_LEVEL
    case InKernelRoutine(_) => APC_LEVEL
    case InNormalRoutine(_) => PASSIVE_LEVEL
    case Leaving => APC_LEVEL
  }

  ghost predicate Nesting(s: Thread) {
    && |s.frames| <= 2
    && (s.frames == [] ==> s.irql == PASSIVE_LEVEL && !s.inProgress)
    && (s.frames != [] ==> s.irql == LevelOf(Top(s)))
    && (|s.frames| == 2 ==> s.frames[0].pc.InNormalRoutine? && !Top(s).InNormalRoutine? && s.inProgress)
    && (|s.frames| == 1 ==> s.inProgress == Top(s).InNormalRoutine?)
    && (s.frames != [] && Top(s).InKernelRoutine? && !Top(s).apc.special ==>
          |s.frames| == 1 && s.frames[0].disable == 0 && (HasSpecial(s.list) ==> s.pending))
    && (forall i :: 0 <= i < |s.frames| ==> s.frames[i].oldIrql == APC_LEVEL)
  }

  ghost predicate NotStranded(s: Thread) {
    && (s.pending ==> s.requested || (s.frames != [] && Top(s).Entering?))
    && (s.list != [] && !s.pending && !WillLook(s) ==> s.disable != 0 || s.inProgress)
    && (HasSpecial(s.list) && !s.pending ==> WillLook(s))
  }

  ghost predicate Inv(s: Thread) {
    Ordered(s.list) && Stamps(s) && Nesting(s) && NotStranded(s) && s.disable <= 0
  }

  lemma SpliceKeepsOrder(list: seq<Apc>, k: nat, apc: Apc, l: seq<Apc>)
    requires Ordered(list) && k <= |list| && l == list[..k] + [apc] + list[k..]
    requires forall i :: 0 <= i < |list| ==> list[i].stamp < apc.stamp && list[i].id != apc.id
    requires forall i :: 0 <= i < k ==> apc.special ==> list[i].special
    requires forall i :: k <= i < |list| ==> !list[i].special && apc.special
    ensures Ordered(l)
  {
    forall i, j | 0 <= i < j < |l|
      ensures l[i].id != l[j].id && (l[j].special ==> l[i].special)
      ensures l[i].special == l[j].special ==> l[i].stamp < l[j].stamp
    {
      var x := if i < k then list[i] else if i == k then apc else list[i - 1];
      var y := if j < k then list[j] else if j == k then apc else list[j - 1];
      assert l[i] == x && l[j] == y;
    }
  }

  lemma InsertKeepsOrder(list: seq<Apc>, apc: Apc)
    requires Ordered(list) && !Queued(list, apc.id)
    requires forall i :: 0 <= i < |list| ==> list[i].stamp < apc.stamp
    ensures Ordered(InsertApc(list, apc))
  {
    var k := if apc.special then LeadingSpecials(list) else |list|;
    assert InsertApc(list, apc) == list[..k] + [apc] + list[k..];
    forall j | k <= j < |list| ensures !list[j].special {
      assert !list[k].special;
    }
    SpliceKeepsOrder(list, k, apc, InsertApc(list, apc));
  }

  lemma InsertMembers(list: seq<Apc>, apc: Apc)
    ensures forall x :: x in InsertApc(list, apc) <==> x == apc || x in list
    ensures HasSpecial(InsertApc(list, apc)) == (apc.special || HasSpecial(list))
  {
    var k := if apc.special then LeadingSpecials(list) else |list|;
    var l := InsertApc(list, apc);
    assert list == list[..k] + list[k..];
    assert l == list[..k] + [apc] + list[k..];
    assert HasSpecial(list) <==> exists x :: x in list && x.special;
    assert HasSpecial(l) <==> exists x :: x in l && x.special;
  }

  lemma {:induction false} RemoveAt(list: seq<Apc>, k: nat)
    requires k < |list| && forall i :: 0 <= i < k ==> list[i].id != list[k].id
    ensures RemoveApc(list, list[k].id) == list[..k] + list[k + 1..]
  {
    if k > 0 {
      assert list[0].id != list[k].id;
      RemoveAt(list[1..], k - 1);
      assert list[..k] == [list[0]] + list[1..][..k - 1];
    }
  }

  lemma CutKeepsOrder(list: seq<Apc>, k: nat, r: seq<Apc>)
    requires Ordered(list) && k < |list| && r == list[..k] + list[k + 1..]
    ensures Ordered(r)
    ensures forall x :: x in r ==> x in list
    ensures HasSpecial(r) ==> HasSpecial(list)
  {
    forall i, j | 0 <= i < j < |r|
      ensures r[i].id != r[j].id && (r[j].special ==> r[i].special)
      ensures r[i].special == r[j].special ==> r[i].stamp < r[j].stamp
    {
      var i', j' := if i < k then i else i + 1, if j < k then j else j + 1;
      assert r[i] == list[i'] && r[j] == list[j'];
    }
  }

  lemma RemoveKeepsOrder(list: seq<Apc>, id: nat)
    requires Ordered(list)
    ensures Ordered(RemoveApc(list, id))
    ensures forall x :: x in RemoveApc(list, id) ==> x in list
    ensures HasSpecial(RemoveApc(list, id)) ==> HasSpecial(list)
    ensures RemoveApc(list, id) == [] ==> list == [] || Queued(list, id)
  {
    RemoveAbsent(list, id);
    if Queued(list, id) {
      var k :| 0 <= k < |list| && list[k].id == id;
      RemoveAt(list, k);
      CutKeepsOrder(list, k, RemoveApc(list, id));
    }
  }

  lemma InsertKeepsInv(s: Thread, id: nat, special: bool)
    requires Inv(s) && Enabled(s, Insert(id, special))
    ensures Inv(Next(s, Insert(id, special)))
  {
    if !Queued(s.list, id) {
      InsertKeepsOrder(s.list, Apc(id, special, s.clock));
      InsertMembers(s.list, Apc(id, special, s.clock));
      var l := InsertApc(s.list, Apc(id, special, s.clock));
      forall i | 0 <= i < |l|
        ensures l[i].stamp < s.clock + 1
        ensures (if l[i].special then s.lastSpecial else s.lastNormal) < l[i].stamp
      {
        assert l[i] in l;
      }
    }
  }

  lemma RemoveKeepsInv(s: Thread)
    requires Inv(s)
    ensures forall id :: Enabled(s, Remove(id)) ==> Inv(Next(s, Remove(id)))
  {
    forall id | Enabled(s, Remove(id)) ensures Inv(Next(s, Remove(id))) {
      RemoveKeepsOrder(s.list, id);
      RemoveAbsent(s.list, id);
      var l := RemoveApc(s.list, id);
      forall i | 0 <= i < |l|
        ensures l[i].stamp < s.clock && (if l[i].special then s.lastSpecial else s.lastNormal) < l[i].stamp
      {
        assert l[i] in s.list;
      }
    }
  }

  lemma DequeueKeepsInv(s: Thread)
    requires Inv(s) && Enabled(s, LoopTest) && CanDeliver(s.list, s.inProgress, s.disable)
    ensures Inv(Next(s, LoopTest))
  {
    var t := Next(s, LoopTest);
    assert forall i :: 0 <= i < |t.list| ==> t.list[i] == s.list[i + 1];
    assert Ordered(t.list) && Stamps(t);
    assert HasSpecial(t.list) ==> s.list[0].special by {
      if HasSpecial(t.list) {
        var i :| 0 <= i < |t.list| && t.list[i].special;
        assert s.list[i + 1].special;
      }
    }
  }

  lemma LoopEndKeepsInv(s: Thread)
    requires Inv(s) && Enabled(s, LoopTest) && !CanDeliver(s.list, s.inProgress, s.disable)
    ensures Inv(Next(s, LoopTest)) && Next(s, LoopTest).irql == APC_LEVEL && !HasSpecial(s.list)
  {
    var t := Next(s, LoopTest);
    assert Ordered(t.list) && Stamps(t);
    assert !HasSpecial(s.list) by { assert forall i :: 0 <= i < |s.list| && s.list[i].special ==> s.list[0].special; }
  }

  /** What is left of the invariant when the list stays as it is. */
  ghost predicate InvRest(s: Thread) { Nesting(s) && NotStranded(s) && s.disable <= 0 }

  lemma RegionsKeepInv(s: Thread, a: Action)
    requires Inv(s) && Enabled(s, a) && (a.EnterRegion? || a.LeaveRegion?)
    ensures InvRest(Next(s, a))
  {
  }

  lemma ArrivalsKeepInv(s: Thread, a: Action)
    requires Inv(s) && Enabled(s, a) && (a.Interrupt? || a.SwapIn? || a.Begin?)
    ensures InvRest(Next(s, a))
  {
  }

  lemma KernelReturnsKeepsInv(s: Thread, a: Action)
    requires Inv(s) && Enabled(s, a) && a.KernelReturns?
    ensures InvRest(Next(s, a))
  {
  }

  lemma OtherReturnsKeepInv(s: Thread, a: Action)
    requires Inv(s) && Enabled(s, a) && (a.NormalReturns? || a.HandlerReturns?)
    ensures InvRest(Next(s, a))
  {
  }

  /** The actions that leave the list alone. */
  predicate Quiet(a: Action) { !a.Insert? && !a.Remove? && !a.LoopTest? }

  lemma QuietKeepsList(s: Thread, a: Action)
    requires Inv(s) && Enabled(s, a) && Quiet(a)
    ensures Ordered(Next(s, a).list) && Stamps(Next(s, a))
  {
  }

  lemma QuietKeepsRest(s: Thread, a: Action)
    requires Inv(s) && Enabled(s, a) && Quiet(a)
    ensures InvRest(Next(s, a))
  {
    if a.EnterRegion? || a.LeaveRegion? { RegionsKeepInv(s, a); }
    else if a.Interrupt? || a.SwapIn? || a.Begin? { ArrivalsKeepInv(s, a); }
    else if a.KernelReturns? { KernelReturnsKeepsInv(s, a); }
    else { OtherReturnsKeepInv(s, a); }
  }

  lemma LoopTestKeepsInv(s: Thread)
    requires Inv(s) && Enabled(s, LoopTest)
    ensures Inv(Next(s, LoopTest))
  {
    if CanDeliver(s.list, s.inProgress, s.disable) { DequeueKeepsInv(s); } else { LoopEndKeepsInv(s); }
  }

  lemma StepKeepsInv(s: Thread, a: Action)
    requires Inv(s) && Enabled(s, a)
    ensures Inv(Next(s, a))
  {
    match a
    case Insert(id, special) => InsertKeepsInv(s, id, special);
    case Remove(id) => RemoveKeepsInv(s);
    case LoopTest => LoopTestKeepsInv(s);
    case _ =>
      QuietKeepsList(s, a);
      QuietKeepsRest(s, a);
  }

  lemma {:induction false} RunKeepsInv(ss: seq<Thread>, acts: seq<Action>, i: nat)
    requires IsRun(ss, acts) && ss[0] == IDLE && i < |ss|
    ensures forall j :: 0 <= j <= i ==> Inv(ss[j])
  {
    if i > 0 {
      RunKeepsInv(ss, acts, i - 1);
      StepKeepsInv(ss[i - 1], acts[i - 1]);
    }
  }

  // ---------- what delivery promises, over every run ----------

  /** At most one normal routine is active, however deliveries nest, and KernelApcInProgress
      says exactly whether one is. */
  lemma OneNormalRoutine(ss: seq<Thread>, acts: seq<Action>, i: nat, f: nat, g: nat)
    requires IsRun(ss, acts) && ss[0] == IDLE && i < |ss|
    requires f < |ss[i].frames| && g < |ss[i].frames|
    requires ss[i].frames[f].pc.InNormalRoutine? && ss[i].frames[g].pc.InNormalRoutine?
    ensures f == g && ss[i].inProgress
  {
    RunKeepsInv(ss, acts, i);
  }

  /** A normal routine starts only when no other one is active, for an APC that was taken off the
      list with normal APCs enabled; and they are enabled when it starts if and only if its
      kernel routine left KernelApcDisable as it found it. */
  lemma NormalRoutinesStartEnabled(ss: seq<Thread>, acts: seq<Action>, i: nat)
    requires IsRun(ss, acts) && ss[0] == IDLE && i < |acts|
    requires acts[i] == KernelReturns(true)
    ensures !ss[i].inProgress && ss[i + 1].inProgress && ss[i + 1].irql == PASSIVE_LEVEL
    ensures |ss[i].frames| == 1 && ss[i].frames[0].disable == 0
    ensures ss[i + 1].disable == 0 <==> ss[i].disable == ss[i].frames[0].disable
  {
    RunKeepsInv(ss, acts, i);
    assert Enabled(ss[i], acts[i]) && ss[i + 1] == Next(ss[i], acts[i]);
  }

  /** A kernel routine that enters a critical region and does not leave it makes the normal
      routine start with normal APCs disabled. */
  lemma StartsDisabled(s: Thread)
    requires Inv(s) && s.frames != [] && Top(s).InKernelRoutine? && !Top(s).apc.special && s.disable > -32768
    ensures Enabled(s, EnterRegion) && Enabled(Next(s, EnterRegion), KernelReturns(true))
    ensures var t := Next(Next(s, EnterRegion), KernelReturns(true)); t.inProgress && t.disable < 0
  {
  }

  /** And a normal APC that is inserted into an idle thread gets there. */
  lemma ReachesKernelRoutine(id: nat) returns (ss: seq<Thread>, acts: seq<Action>)
    ensures IsRun(ss, acts) && ss[0] == IDLE && |acts| == 4
    ensures ss[4].frames != [] && Top(ss[4]).InKernelRoutine? && !Top(ss[4]).apc.special && ss[4].disable == 0
  {
    acts := [Insert(id, false), Interrupt, Begin, LoopTest];
    var s1 := Next(IDLE, acts[0]);
    var s2 := Next(s1, acts[1]);
    var s3 := Next(s2, acts[2]);
    ss := [IDLE, s1, s2, s3, Next(s3, acts[3])];
  }

  /** Every delivery, nested or not, returns at APC_LEVEL with no special APC left, and leaves a
      normal one only if normal APCs are disabled or an outer delivery has one in progress. */
  lemma DeliveryReturnsClean(ss: seq<Thread>, acts: seq<Action>, i: nat)
    requires IsRun(ss, acts) && ss[0] == IDLE && i < |acts| && acts[i] == LoopTest
    requires ss[i + 1].frames != [] && Top(ss[i + 1]).Leaving?
    ensures ss[i + 1].irql == APC_LEVEL && !HasSpecial(ss[i + 1].list)
    ensures ss[i + 1].list == [] || ss[i + 1].disable != 0 ||
            (|ss[i + 1].frames| == 2 && ss[i + 1].frames[0].pc.InNormalRoutine?)
  {
    RunKeepsInv(ss, acts, i);
    assert Enabled(ss[i], acts[i]) && ss[i + 1] == Next(ss[i], acts[i]);
    LoopEndKeepsInv(ss[i]);
  }

  /** No APC is stranded: one that is queued while KernelApcPending is clear is waiting for
      normal APCs to be enabled, or for a delivery that will test the list again; and one that
      could be delivered now has an interrupt on its way or such a delivery. */
  lemma NoStrandedApc(ss: seq<Thread>, acts: seq<Action>, i: nat)
    requires IsRun(ss, acts) && ss[0] == IDLE && i < |ss|
    ensures ss[i].list != [] && !ss[i].pending ==>
              ss[i].disable != 0 || exists f :: 0 <= f < |ss[i].frames| && !ss[i].frames[f].pc.Leaving?
    ensures CanDeliver(ss[i].list, ss[i].inProgress, ss[i].disable) ==> ss[i].requested || WillLook(ss[i])
  {
    RunKeepsInv(ss, acts, i);
    var s := ss[i];
    if s.list != [] && !s.pending && s.disable == 0 {
      if WillLook(s) {
        assert !s.frames[|s.frames| - 1].pc.Leaving?;
      } else {
        assert !s.frames[0].pc.Leaving?;
      }
    }
    if CanDeliver(s.list, s.inProgress, s.disable) && s.list[0].special {
      assert HasSpecial(s.list);
    }
  }

  /** The list is always the specials followed by the normals, each in insertion order, and
      each kind is delivered in that order. */
  lemma DeliveredInOrder(ss: seq<Thread>, acts: seq<Action>, i: nat, x: Apc)
    requires IsRun(ss, acts) && ss[0] == IDLE && i < |acts| && acts[i] == LoopTest
    requires x in ss[i].list && ss[i + 1].list != ss[i].list
    ensures Ordered(ss[i].list)
    ensures ss[i + 1].list == ss[i].list[1..] && ss[i].list[0].stamp > if ss[i].list[0].special then ss[i].lastSpecial else ss[i].lastNormal
    ensures x.special ==> ss[i].list[0].special
    ensures x.special == ss[i].list[0].special ==> ss[i].list[0].stamp <= x.stamp
  {
    RunKeepsInv(ss, acts, i);
    assert Enabled(ss[i], acts[i]) && ss[i + 1] == Next(ss[i], acts[i]);
    var j :| 0 <= j < |ss[i].list| && ss[i].list[j] == x;
  }

  // ---------- what becomes of each insertion ----------

  function Is(x: Apc): Apc -> nat { (y: Apc) => if y == x then 1 else 0 }

  /** Where the APC of this name is, or the end of the list. */
  function Find(list: seq<Apc>, id: nat): (k: nat)
    ensures k <= |list| && forall i :: 0 <= i < k ==> list[i].id != id
    ensures k < |list| ==> list[k].id == id
  {
    if list == [] || list[0].id == id then 0 else 1 + Find(list[1..], id)
  }

  /** What may happen to an APC. */
  datatype Fate = Inserted | Delivered | Dropped

  /** Whether an action puts x on the list, takes it off to deliver it, or drops it. */
  predicate Happens(f: Fate, x: Apc, s: Thread, a: Action) {
    match f
    case Inserted => a.Insert? && Find(s.list, a.id) == |s.list| && x == Apc(a.id, a.special, s.clock)
    case Delivered => a.LoopTest? && CanDeliver(s.list, s.inProgress, s.disable) && x == s.list[0]
    case Dropped => a.Remove? && Find(s.list, a.id) < |s.list| && x == s.list[Find(s.list, a.id)]
  }

  function One(b: bool): nat { if b then 1 else 0 }

  /** How often it does in the first n actions of a run. */
  ghost function Times(f: Fate, x: Apc, ss: seq<Thread>, acts: seq<Action>, n: nat): nat
    requires n <= |acts| < |ss|
  {
    if n == 0 then 0 else Times(f, x, ss, acts, n - 1) + One(Happens(f, x, ss[n - 1], acts[n - 1]))
  }

  lemma InsertCounts(list: seq<Apc>, apc: Apc, x: Apc)
    ensures Sum(InsertApc(list, apc), Is(x)) == Sum(list, Is(x)) + Is(x)(apc)
  {
    var k := if apc.special then LeadingSpecials(list) else |list|;
    var l := list[..k] + [apc] + list[k..];
    assert InsertApc(list, apc) == l && l[..k] + l[k + 1..] == list;
    SumRemove(l, k, Is(x));
  }

  lemma RemoveCounts(list: seq<Apc>, id: nat, x: Apc)
    ensures var k := Find(list, id);
            Sum(list, Is(x)) == Sum(RemoveApc(list, id), Is(x)) + if k < |list| then Is(x)(list[k]) else 0
  {
    var k := Find(list, id);
    if k < |list| {
      RemoveAt(list, k);
      SumRemove(list, k, Is(x));
    } else {
      RemoveAbsent(list, id);
    }
  }

  lemma StepCounts(s: Thread, a: Action, x: Apc)
    requires Enabled(s, a)
    ensures Sum(s.list, Is(x)) + One(Happens(Inserted, x, s, a))
            == Sum(Next(s, a).list, Is(x)) + One(Happens(Delivered, x, s, a)) + One(Happens(Dropped, x, s, a))
  {
    if a.Insert? {
      assert Queued(s.list, a.id) <==> Find(s.list, a.id) < |s.list|;
      InsertCounts(s.list, Apc(a.id, a.special, s.clock), x);
    } else if a.Remove? {
      RemoveCounts(s.list, a.id, x);
    } else {
      assert Next(s, a).list == s.list || (s.list != [] && Next(s, a).list == s.list[1..]);
    }
  }

  lemma StepPuts(s: Thread, a: Action, x: Apc)
    requires Enabled(s, a)
    ensures s.clock <= Next(s, a).clock
    ensures Happens(Inserted, x, s, a) ==> x.stamp == s.clock < Next(s, a).clock
  {
    if a.Insert? { assert Queued(s.list, a.id) <==> Find(s.list, a.id) < |s.list|; }
  }

  /** No two insertions are the same: the clock tells them apart. */
  lemma {:induction false} InsertedOnce(ss: seq<Thread>, acts: seq<Action>, n: nat, x: Apc)
    requires IsRun(ss, acts) && n <= |acts|
    ensures Times(Inserted, x, ss, acts, n) <= One(x.stamp < ss[n].clock)
  {
    if n > 0 {
      InsertedOnce(ss, acts, n - 1, x);
      assert Enabled(ss[n - 1], acts[n - 1]) && ss[n] == Next(ss[n - 1], acts[n - 1]);
      StepPuts(ss[n - 1], acts[n - 1], x);
    }
  }

  /** Conservation, over every run: an insertion is still queued, or was dropped by a removal, or
      was delivered, in exactly one of these ways and once; and nothing else is queued, dropped
      or delivered. */
  lemma {:induction false} EachInsertionOnce(ss: seq<Thread>, acts: seq<Action>, n: nat, x: Apc)
    requires IsRun(ss, acts) && ss[0] == IDLE && n <= |acts|
    ensures Times(Inserted, x, ss, acts, n)
            == Sum(ss[n].list, Is(x)) + Times(Delivered, x, ss, acts, n) + Times(Dropped, x, ss, acts, n)
    ensures Times(Inserted, x, ss, acts, n) <= 1
  {
    if n > 0 {
      EachInsertionOnce(ss, acts, n - 1, x);
      assert Enabled(ss[n - 1], acts[n - 1]) && ss[n] == Next(ss[n - 1], acts[n - 1]);
      StepCounts(ss[n - 1], acts[n - 1], x);
    }
    InsertedOnce(ss, acts, n, x);
  }

  // ---------- what becomes of each delivery ----------

  /** The stages of a delivery of x: its kernel routine returns, with a normal routine to call or
      without one, and its normal routine returns. */
  datatype Stage = KernelOver | Kept | NormalOver

  predicate Reaches(g: Stage, x: Apc, s: Thread, a: Action) {
    s.frames != [] &&
    match g
    case KernelOver => a.KernelReturns? && Top(s) == InKernelRoutine(x)
    case Kept => a == KernelReturns(true) && Top(s) == InKernelRoutine(x)
    case NormalOver => a.NormalReturns? && Top(s) == InNormalRoutine(x)
  }

  ghost function Reached(g: Stage, x: Apc, ss: seq<Thread>, acts: seq<Action>, n: nat): nat
    requires n <= |acts| < |ss|
  {
    if n == 0 then 0 else Reached(g, x, ss, acts, n - 1) + One(Reaches(g, x, ss[n - 1], acts[n - 1]))
  }

  /** How many deliveries on the stack are there. */
  function InPc(p: Pc): Frame -> nat { (f: Frame) => if f.pc == p then 1 else 0 }

  function On(s: Thread, p: Pc): nat { Sum(s.frames, InPc(p)) }

  lemma FramesMove(s: Thread, a: Action)
    requires Enabled(s, a)
    ensures var fs, gs := s.frames, Next(s, a).frames;
      if a.Interrupt? || a.SwapIn? then gs == fs + [Frame(Entering, APC_LEVEL, 0)]
      else if a.HandlerReturns? then fs != [] && gs == fs[..|fs| - 1]
      else gs == fs || (fs != [] && |gs| == |fs| && gs == fs[|fs| - 1 := gs[|fs| - 1]])
  {
  }

  /** What a step does to the deliveries on the stack: one begins, one ends, or the innermost goes on. */
  lemma FramesCount(s: Thread, a: Action, p: Pc)
    requires Enabled(s, a) && (p.InKernelRoutine? || p.InNormalRoutine?)
    ensures var t := Next(s, a);
      if a.Interrupt? || a.SwapIn? || s.frames == [] then On(t, p) == On(s, p)
      else if a.HandlerReturns? then On(t, p) == On(s, p) - One(Top(s) == p)
      else t.frames != [] && On(t, p) == On(s, p) - One(Top(s) == p) + One(Top(t) == p)
  {
    FramesMove(s, a);
    var fs, gs := s.frames, Next(s, a).frames;
    hide Sum, Next, Enabled;
    if a.Interrupt? || a.SwapIn? {
      SumAppend(fs, gs[|fs|], InPc(p));
    } else if a.HandlerReturns? {
      assert gs == fs[..|fs| - 1] + fs[|fs|..];
      SumRemove(fs, |fs| - 1, InPc(p));
    } else if gs != fs {
      SumUpdate(fs, |fs| - 1, gs[|fs| - 1], InPc(p));
    }
  }

  lemma KernelRoutineRuns(s: Thread, a: Action, x: Apc)
    requires Enabled(s, a)
    ensures On(Next(s, a), InKernelRoutine(x))
            == On(s, InKernelRoutine(x)) + One(Happens(Delivered, x, s, a)) - One(Reaches(KernelOver, x, s, a))
  {
    hide On;
    FramesCount(s, a, InKernelRoutine(x));
  }

  lemma NormalRoutineRuns(s: Thread, a: Action, x: Apc)
    requires Enabled(s, a)
    ensures On(Next(s, a), InNormalRoutine(x))
            == On(s, InNormalRoutine(x)) + One(Reaches(Kept, x, s, a)) - One(Reaches(NormalOver, x, s, a))
  {
    hide On;
    FramesCount(s, a, InNormalRoutine(x));
  }

  /** Over every run: of each APC that is delivered the kernel routine runs, once; and the normal
      routine runs, once, exactly if the kernel routine has left one. */
  lemma {:induction false} RoutinesRun(ss: seq<Thread>, acts: seq<Action>, n: nat, x: Apc)
    requires IsRun(ss, acts) && ss[0] == IDLE && n <= |acts|
    ensures Times(Delivered, x, ss, acts, n) == Reached(KernelOver, x, ss, acts, n) + On(ss[n], InKernelRoutine(x))
    ensures Reached(Kept, x, ss, acts, n) == Reached(NormalOver, x, ss, acts, n) + On(ss[n], InNormalRoutine(x))
  {
    hide Enabled, Next, Happens, Reaches;
    if n > 0 {
      RoutinesRun(ss, acts, n - 1, x);
      assert Enabled(ss[n - 1], acts[n - 1]) && ss[n] == Next(ss[n - 1], acts[n - 1]);
      KernelRoutineRuns(ss[n - 1], acts[n - 1], x);
      NormalRoutineRuns(ss[n - 1], acts[n - 1], x);
    }
  }

  // ---------- order, regions and requests over whole runs ----------

  function LastOf(s: Thread, special: bool): int { if special then s.lastSpecial else s.lastNormal }

  lemma {:induction false} LastStays(ss: seq<Thread>, acts: seq<Action>, i: nat, j: nat, x: Apc)
    requires IsRun(ss, acts) && ss[0] == IDLE && i < j < |ss| && Happens(Delivered, x, ss[i], acts[i])
    ensures LastOf(ss[j], x.special) >= x.stamp
    decreases j
  {
    RunKeepsInv(ss, acts, j - 1);
    assert Enabled(ss[j - 1], acts[j - 1]) && ss[j] == Next(ss[j - 1], acts[j - 1]);
    if i + 1 < j {
      LastStays(ss, acts, i, j - 1, x);
      LastGrows(ss[j - 1], acts[j - 1], x.special);
    }
  }

  lemma LastGrows(s: Thread, a: Action, special: bool)
    requires Inv(s) && Enabled(s, a)
    ensures LastOf(Next(s, a), special) >= LastOf(s, special)
  {
  }

  /** Over every run: of two APCs of the same kind, the one that is delivered first was inserted
      first. */
  lemma DeliveredAsInserted(ss: seq<Thread>, acts: seq<Action>, i: nat, j: nat, x: Apc, y: Apc)
    requires IsRun(ss, acts) && ss[0] == IDLE && i < j < |acts| && x.special == y.special
    requires Happens(Delivered, x, ss[i], acts[i]) && Happens(Delivered, y, ss[j], acts[j])
    ensures x.stamp < y.stamp
  {
    LastStays(ss, acts, i, j, x);
    RunKeepsInv(ss, acts, j);
  }

  /** How often one of the first n actions leaves a critical region, less how often one enters. */
  function Balance(acts: seq<Action>, n: nat): int
    requires n <= |acts|
  {
    if n == 0 then 0
    else Balance(acts, n - 1) + if acts[n - 1].LeaveRegion? then 1 else if acts[n - 1].EnterRegion? then -1 else 0
  }

  /** How often one may raise the software interrupt, and how often it is taken. */
  function Causes(acts: seq<Action>, n: nat): nat
    requires n <= |acts|
  {
    if n == 0 then 0 else Causes(acts, n - 1) + One(acts[n - 1].Insert? || acts[n - 1].LeaveRegion?)
  }

  function Taken(acts: seq<Action>, n: nat): nat
    requires n <= |acts|
  {
    if n == 0 then 0 else Taken(acts, n - 1) + One(acts[n - 1].Interrupt?)
  }

  /** Over every run: KernelApcDisable is the number of regions left less those entered, so that
      leaving as many as were entered enables normal APCs again; and the software interrupt is not
      taken more often than insertions and leavings ask for it. */
  lemma {:induction false} RegionsBalance(ss: seq<Thread>, acts: seq<Action>, n: nat)
    requires IsRun(ss, acts) && ss[0] == IDLE && n <= |acts|
    ensures ss[n].disable == Balance(acts, n)
    ensures Taken(acts, n) + One(ss[n].requested) <= Causes(acts, n)
  {
    if n > 0 {
      RegionsBalance(ss, acts, n - 1);
      assert Enabled(ss[n - 1], acts[n - 1]) && ss[n] == Next(ss[n - 1], acts[n - 1]);
    }
  }

  lemma RemovesOne(list: seq<Apc>, id: nat)
    requires forall i, j :: 0 <= i < j < |list| ==> list[i].id != list[j].id
    ensures forall x :: x in RemoveApc(list, id) <==> x in list && x.id != id
  {
    RemoveAbsent(list, id);
    var k := Find(list, id);
    if k < |list| {
      RemoveAt(list, k);
      var t := list[..k] + list[k + 1..];
      forall x | x in list && x.id != id ensures x in t {
        var j :| 0 <= j < |list| && list[j] == x;
        assert t[if j < k then j else j - 1] == x;
      }
    }
  }

  /** Removing a queued APC takes out that one and no other, and leaves no pending flag behind if the
      list is empty then; removing one that is not queued changes nothing. */
  lemma RemovalIsExact(s: Thread, id: nat)
    requires Inv(s) && Enabled(s, Remove(id))
    ensures var t := Next(s, Remove(id));
      && (!Queued(s.list, id) ==> t == s)
      && (forall x :: x in t.list <==> x in s.list && x.id != id)
      && (Queued(s.list, id) && t.list == [] ==> !t.pending)
      && (t.list != [] ==> t.pending == s.pending)
      && t == s.(list := t.list, pending := t.pending)
  {
    assert forall i, j :: 0 <= i < j < |s.list| ==> s.list[i].id != s.list[j].id;
    hide Inv, Ordered, RemoveApc;
    RemoveAbsent(s.list, id);
    RemovesOne(s.list, id);
  }

  /** Entering and leaving a critical region change KernelApcDisable by one; only leaving the last one
      with something queued asks for delivery. */
  lemma RegionsAreExact(s: Thread)
    requires Inv(s)
    ensures Enabled(s, EnterRegion) ==> Next(s, EnterRegion) == s.(disable := s.disable - 1)
    ensures Enabled(s, LeaveRegion) && (s.disable != -1 || s.list == []) ==>
              Next(s, LeaveRegion) == s.(disable := s.disable + 1)
    ensures Enabled(s, LeaveRegion) && s.disable == -1 && s.list != [] ==>
              Next(s, LeaveRegion) == s.(disable := 0, pending := true, requested := true)
  {
  }
}

/** Device queues, nboxkrnl/ke/device_queue.cpp.

    Modelled with the packet services on top of them in nboxkrnl/io/io.cpp: IoStartPacket,
    IopStartNextPacket, IopStartNextPacketByKey. Each operation is one step, and DriverStartIo is
    called as its last act. The queue operations and IoStartPacket raise the level to
    DISPATCH_LEVEL; the other two only assert that it is no higher, and the model takes them to be
    called at that level. */
module DeviceQueue {
  import opened Seqs
  import opened Wrappers

  /** A packet: its number in the order of submission, and the sort key of its queue entry. */
  datatype Packet = Packet(id: nat, key: nat)

  type Queue = seq<Packet>

  /** `submitted` counts the packets so far, `started` is what DriverStartIo was called with. */
  datatype Device = Device(busy: bool, queue: Queue, current: Option<nat>, submitted: nat, started: seq<nat>)

  const IDLE := Device(false, [], None, 0, [])

  // ---------- where the search loops stop ----------

  function FirstAbove(q: Queue, key: nat): (i: nat)
    ensures i <= |q| && (forall j :: 0 <= j < i ==> q[j].key <= key) && (i < |q| ==> q[i].key > key)
  {
    if q == [] || q[0].key > key then 0 else 1 + FirstAbove(q[1..], key)
  }

  function FirstAtLeast(q: Queue, key: nat): (i: nat)
    ensures i <= |q| && (forall j :: 0 <= j < i ==> q[j].key < key) && (i < |q| ==> q[i].key >= key)
  {
    if q == [] || q[0].key >= key then 0 else 1 + FirstAtLeast(q[1..], key)
  }

  /** The last key is looked at first; only if it is higher is the list searched. */
  function InsertionPoint(q: Queue, key: nat): (i: nat)
    ensures i <= |q|
  {
    if q == [] || q[|q| - 1].key <= key then |q| else FirstAbove(q, key)
  }

  function RemovalPoint(q: Queue, key: nat): (i: nat)
    requires q != []
    ensures i < |q|
  {
    if q[|q| - 1].key <= key then 0 else FirstAtLeast(q, key)
  }

  function InsertedByKey(q: Queue, x: Packet): Queue { InsertAt(q, InsertionPoint(q, x.key), x) }

  // ---------- specification of the services ----------

  function Submit(d: Device, key: Option<nat>, stale: nat): Device {
    var x := Packet(d.submitted, if key.Some? then key.value else stale);
    var e := d.(submitted := d.submitted + 1);
    if !d.busy then e.(busy := true, current := Some(x.id), started := d.started + [x.id])
    else e.(queue := if key.Some? then InsertedByKey(d.queue, x) else d.queue + [x])
  }

  function StartAt(d: Device, i: nat): Device
    requires d.queue == [] || i < |d.queue|
  {
    if d.queue == [] then d.(busy := false, current := None)
    else d.(queue := DropAt(d.queue, i), current := Some(d.queue[i].id), started := d.started + [d.queue[i].id])
  }

  function StartNext(d: Device): Device { StartAt(d, 0) }

  function StartNextByKey(d: Device, key: nat): Device {
    StartAt(d, if d.queue == [] then 0 else RemovalPoint(d.queue, key))
  }

  // ---------- the services in the form of the source ----------

  class DeviceObject {
    var Busy: bool
    var DeviceList: Queue
    var CurrentIrp: Option<nat>
    var Submitted: nat
    var Started: seq<nat>

    ghost function View(): Device
      reads this
    {
      Device(Busy, DeviceList, CurrentIrp, Submitted, Started)
    }

    constructor ()
      ensures View() == IDLE
    {
      Busy, DeviceList, CurrentIrp, Submitted, Started := false, [], None, 0, [];
    }

    method DriverStartIo(irp: nat)
      modifies this`Started
      ensures Started == old(Started) + [irp]
    {
      Started := Started + [irp];
    }

    method KeInsertDeviceQueue(x: Packet) returns (inserted: bool)
      modifies this`Busy, this`DeviceList
      ensures Busy && inserted == old(Busy)
      ensures DeviceList == if inserted then old(DeviceList) + [x] else old(DeviceList)
    {
      if !Busy {
        inserted := false;
        Busy := true;
      } else {
        inserted := true;
        DeviceList := DeviceList + [x];
      }
    }

    method KeInsertByKeyDeviceQueue(x: Packet) returns (inserted: bool)
      modifies this`Busy, this`DeviceList
      ensures Busy && inserted == old(Busy)
      ensures DeviceList == if inserted then InsertedByKey(old(DeviceList), x) else old(DeviceList)
    {
      if !Busy {
        inserted := false;
        Busy := true;
      } else {
        var list := DeviceList;
        var next := |list|;
        if list != [] && x.key < list[|list| - 1].key {
          ghost var first := FirstAbove(list, x.key);
          next := 0;
          while x.key >= list[next].key
            invariant 0 <= next <= first < |list|
            decreases first - next
          {
            next := next + 1;
          }
        }
        assert next == InsertionPoint(list, x.key);
        DeviceList := list[..next] + [x] + list[next..];
        inserted := true;
      }
    }

    method KeRemoveDeviceQueue() returns (entry: Option<Packet>)
      requires Busy
      modifies this`Busy, this`DeviceList
      ensures if old(DeviceList) == [] then entry == None && !Busy && DeviceList == []
              else entry == Some(old(DeviceList)[0]) && Busy && DeviceList == DropAt(old(DeviceList), 0)
    {
      if DeviceList == [] {
        Busy := false;
        return None;
      }
      entry := Some(DeviceList[0]);
      DeviceList := DeviceList[1..];
    }

    method KeRemoveByKeyDeviceQueue(key: nat) returns (entry: Option<Packet>)
      requires Busy
      modifies this`Busy, this`DeviceList
      ensures if old(DeviceList) == [] then entry == None && !Busy && DeviceList == []
              else var i := RemovalPoint(old(DeviceList), key);
                   entry == Some(old(DeviceList)[i]) && Busy && DeviceList == DropAt(old(DeviceList), i)
    {
      if DeviceList == [] {
        Busy := false;
        return None;
      }
      var next := 0;
      if DeviceList[|DeviceList| - 1].key > key {
        while key > DeviceList[next].key
          invariant 0 <= next <= FirstAtLeast(DeviceList, key) < |DeviceList|
          invariant DeviceList == old(DeviceList) && Busy
          decreases |DeviceList| - next
        {
          next := next + 1;
        }
      }
      entry := Some(DeviceList[next]);
      DeviceList := DeviceList[..next] + DeviceList[next + 1..];
    }

    /** `stale` is what an unkeyed packet's entry happens to hold as its key. */
    method IoStartPacket(key: Option<nat>, stale: nat)
      modifies this
      ensures View() == Submit(old(View()), key, stale)
    {
      var x := Packet(Submitted, if key.Some? then key.value else stale);
      Submitted := Submitted + 1;
      var stat: bool;
      if key.Some? {
        stat := KeInsertByKeyDeviceQueue(x);
      } else {
        stat := KeInsertDeviceQueue(x);
      }
      if !stat {
        CurrentIrp := Some(x.id);
        DriverStartIo(x.id);
      }
    }

    method IopStartNextPacket()
      requires Busy
      modifies this
      ensures View() == StartNext(old(View()))
    {
      CurrentIrp := None;
      var entry := KeRemoveDeviceQueue();
      if entry.Some? {
        CurrentIrp := Some(entry.value.id);
        DriverStartIo(entry.value.id);
      }
    }

    method IopStartNextPacketByKey(key: nat)
      requires Busy
      modifies this
      ensures View() == StartNextByKey(old(View()), key)
    {
      CurrentIrp := None;
      var entry := KeRemoveByKeyDeviceQueue(key);
      if entry.Some? {
        CurrentIrp := Some(entry.value.id);
        DriverStartIo(entry.value.id);
      }
    }
  }

  // ---------- runs ----------

  datatype Op =
    | Start(key: Option<nat>, stale: nat)
    | Next
    | NextByKey(from: nat)

  /** The next packet is asked for by a driver that is through with the current one. */
  predicate Allowed(d: Device, op: Op) { op.Start? || d.busy }

  function Step(d: Device, op: Op): Device
    requires Allowed(d, op)
  {
    match op
    case Start(key, stale) => Submit(d, key, stale)
    case Next => StartNext(d)
    case NextByKey(key) => StartNextByKey(d, key)
  }

  ghost predicate IsRun(ds: seq<Device>, ops: seq<Op>) {
    && |ds| == |ops| + 1 && ds[0] == IDLE
    && forall i {:trigger ops[i]} :: 0 <= i < |ops| ==> Allowed(ds[i], ops[i]) && ds[i + 1] == Step(ds[i], ops[i])
  }

  predicate Waits(q: Queue, id: nat) { exists i :: 0 <= i < |q| && q[i].id == id }

  ghost predicate Distinct(q: Queue) { forall i, j :: 0 <= i < j < |q| ==> q[i].id != q[j].id }

  /** No packet is waiting or started twice, and all that were submitted are one or the other. */
  ghost predicate Inv(d: Device) {
    && (d.busy <==> d.current.Some?)
    && (!d.busy ==> d.queue == [])
    && (d.busy ==> d.started != [] && d.current == Some(d.started[|d.started| - 1]))
    && NoDup(d.started)
    && Distinct(d.queue)
    && (forall i :: 0 <= i < |d.queue| ==> d.queue[i].id !in d.started)
    && (forall x :: x in d.started ==> x < d.submitted)
    && (forall i :: 0 <= i < |d.queue| ==> d.queue[i].id < d.submitted)
    && (forall id :: 0 <= id < d.submitted ==> id in d.started || Waits(d.queue, id))
  }

  lemma SpliceWaits(q: Queue, i: nat, x: Packet)
    requires i <= |q|
    ensures forall id :: Waits(InsertAt(q, i, x), id) <==> Waits(q, id) || id == x.id
  {
    var r := InsertAt(q, i, x);
    InsertedIs(q, i, x);
    forall id | Waits(q, id) ensures Waits(r, id) {
      var j :| 0 <= j < |q| && q[j].id == id;
      assert r[if j < i then j else j + 1].id == id;
    }
    assert r[i].id == x.id;
  }

  lemma CutWaits(q: Queue, i: nat)
    requires i < |q|
    ensures forall id :: Waits(q, id) ==> Waits(DropAt(q, i), id) || id == q[i].id
  {
    var r := DropAt(q, i);
    DroppedIs(q, i);
    forall id | Waits(q, id) && id != q[i].id ensures Waits(r, id) {
      var j :| 0 <= j < |q| && q[j].id == id;
      assert r[if j < i then j else j - 1].id == id;
    }
  }

  lemma SpliceDistinct(q: Queue, i: nat, x: Packet)
    requires Distinct(q) && i <= |q| && forall j :: 0 <= j < |q| ==> q[j].id < x.id
    ensures Distinct(InsertAt(q, i, x)) && forall j :: 0 <= j <= |q| ==> InsertAt(q, i, x)[j].id <= x.id
  {
    InsertedIs(q, i, x);
  }

  lemma SpliceKeeps(d: Device, i: nat, key: nat)
    requires Inv(d) && d.busy && i <= |d.queue|
    ensures Inv(d.(queue := InsertAt(d.queue, i, Packet(d.submitted, key)), submitted := d.submitted + 1))
  {
    var x := Packet(d.submitted, key);
    SpliceDistinct(d.queue, i, x);
    SpliceWaits(d.queue, i, x);
    var r := InsertAt(d.queue, i, x);
    forall j | 0 <= j < |r| ensures r[j].id !in d.started {
      InsertedIs(d.queue, i, x);
    }
  }

  lemma StartAtKeeps(d: Device, i: nat)
    requires Inv(d) && d.busy && (d.queue == [] || i < |d.queue|)
    ensures Inv(StartAt(d, i))
  {
    if d.queue != [] {
      DroppedIs(d.queue, i);
      CutWaits(d.queue, i);
    }
  }

  lemma IdleKeeps(d: Device, key: Option<nat>, stale: nat)
    requires Inv(d) && !d.busy
    ensures Inv(Submit(d, key, stale))
  {
    assert forall i :: 0 <= i < |d.started| ==> d.started[i] in d.started;
  }

  lemma BusyKeeps(d: Device, key: Option<nat>, stale: nat)
    requires Inv(d) && d.busy
    ensures Inv(Submit(d, key, stale))
  {
    var k := if key.Some? then key.value else stale;
    assert InsertAt(d.queue, |d.queue|, Packet(d.submitted, k)) == d.queue + [Packet(d.submitted, k)];
    SpliceKeeps(d, if key.Some? then InsertionPoint(d.queue, k) else |d.queue|, k);
  }

  lemma StepKeepsInv(d: Device, op: Op)
    requires Inv(d) && Allowed(d, op)
    ensures Inv(Step(d, op))
  {
    match op
    case Start(key, stale) => if d.busy { BusyKeeps(d, key, stale); } else { IdleKeeps(d, key, stale); }
    case Next => StartAtKeeps(d, 0);
    case NextByKey(key) => StartAtKeeps(d, if d.queue == [] then 0 else RemovalPoint(d.queue, key));
  }

  lemma {:induction false} RunKeepsInv(ds: seq<Device>, ops: seq<Op>, i: nat)
    requires IsRun(ds, ops) && i < |ds|
    ensures forall j :: 0 <= j <= i ==> Inv(ds[j])
  {
    if i > 0 {
      RunKeepsInv(ds, ops, i - 1);
      StepKeepsInv(ds[i - 1], ops[i - 1]);
      assert ds[i] == Step(ds[i - 1], ops[i - 1]);
    }
  }

  function Ids(q: Queue): (s: seq<nat>)
    ensures |s| == |q| && forall i :: 0 <= i < |q| ==> s[i] == q[i].id
  {
    seq(|q|, i requires 0 <= i < |q| => q[i].id)
  }

  /** Each packet waits or has been started, once; an idle device has nothing waiting; the packet
      in service is the one started last. */
  ghost predicate Exact(d: Device) {
    && NoDup(d.started) && NoDup(Ids(d.queue))
    && (forall id :: 0 <= id < d.submitted ==> (id in d.started <==> !Waits(d.queue, id)))
    && (!d.busy ==> d.queue == [] && d.current == None)
    && (d.busy ==> d.started != [] && d.current == Some(d.started[|d.started| - 1]))
  }

  /** Over every run of submissions and requests for the next packet: each packet is either
      waiting or has been started, never both and neither of them twice, so none is lost and
      none reaches DriverStartIo again; a device that is not busy has nothing waiting; and the
      one packet in service is the one started last. */
  lemma EveryPacketOnce(ds: seq<Device>, ops: seq<Op>)
    requires IsRun(ds, ops)
    ensures forall i :: 0 <= i < |ds| ==> Exact(ds[i])
  {
    forall i | 0 <= i < |ds| ensures Exact(ds[i]) {
      RunKeepsInv(ds, ops, i);
    }
  }

  /** The packet goes behind all others unless it has a key and the last one has a higher key; it
      then goes before the first with a higher key. The others keep their order. */
  ghost predicate Queues(q: Queue, q': Queue, id: nat, key: Option<nat>) {
    exists k :: 0 <= k < |q'| && q'[k].id == id && q'[..k] + q'[k + 1..] == q
                && (key.Some? ==> q'[k].key == key.value) && GoesTo(q, key, k)
  }

  ghost predicate GoesTo(q: Queue, key: Option<nat>, k: nat) {
    if q == [] || key.None? || q[|q| - 1].key <= key.value then k == |q|
    else k < |q| && q[k].key > key.value && forall j :: 0 <= j < k ==> q[j].key <= key.value
  }

  /** What a request does: a packet for an idle device is started, for a busy one it waits; asking for
      the next packet starts one of those that wait, and only that one, the first of the list unless
      a key is given; with none waiting the device becomes idle. */
  ghost predicate Serves(d: Device, d': Device, op: Op) {
    if op.Start? then
      && d'.busy && d'.submitted == d.submitted + 1
      && if d.busy
         then d'.started == d.started && Queues(d.queue, d'.queue, d.submitted, op.key)
         else d'.started == d.started + [d.submitted] && d'.queue == []
    else if d.queue == [] then d' == d.(busy := false, current := None)
    else
      && d'.busy && d'.submitted == d.submitted && |d'.queue| == |d.queue| - 1
      && exists x :: 0 <= x < |d.queue| && d'.started == d.started + [d.queue[x].id]
                     && (op.Next? ==> x == 0) && (op.NextByKey? ==> x == RemovalPoint(d.queue, op.from))
                     && forall id :: Waits(d'.queue, id) <==> Waits(d.queue, id) && id != d.queue[x].id
  }

  lemma TakenOut(q: Queue, k: nat, x: Packet)
    requires k <= |q|
    ensures var q' := InsertAt(q, k, x);
      && |q'| == |q| + 1 && q'[k] == x && q'[..k] + q'[k + 1..] == q && (k == |q| ==> q' == q + [x])
  {
    var q' := InsertAt(q, k, x);
    assert q'[..k] == q[..k] && q'[k + 1..] == q[k..];
  }

  lemma InsertedQueues(q: Queue, x: Packet, key: Option<nat>)
    requires key.Some? ==> x.key == key.value
    ensures Queues(q, if key.Some? then InsertedByKey(q, x) else q + [x], x.id, key)
  {
    var k := if key.Some? then InsertionPoint(q, x.key) else |q|;
    assert GoesTo(q, key, k);
    hide GoesTo, InsertionPoint, InsertAt;
    TakenOut(q, k, x);
    assert InsertAt(q, k, x)[k].id == x.id;
  }

  lemma SubmitServes(d: Device, op: Op)
    requires Inv(d) && op.Start?
    ensures Serves(d, Step(d, op), op)
  {
    hide Queues, InsertedByKey;
    InsertedQueues(d.queue, Packet(d.submitted, if op.key.Some? then op.key.value else op.stale), op.key);
  }

  lemma NextServes(d: Device, op: Op)
    requires Inv(d) && !op.Start? && Allowed(d, op)
    ensures Serves(d, Step(d, op), op)
  {
    if d.queue != [] {
      var x := if op.Next? then 0 else RemovalPoint(d.queue, op.from);
      DroppedIs(d.queue, x);
      CutWaits(d.queue, x);
      assert Step(d, op).started == d.started + [d.queue[x].id];
    }
  }

  /** Over every run each request does that, and the packets started and those waiting are as many as
      were submitted. */
  lemma {:induction false} EachRequestServes(ds: seq<Device>, ops: seq<Op>, n: nat)
    requires IsRun(ds, ops) && n <= |ops|
    ensures forall k {:trigger ops[k]} :: 0 <= k < n ==> Serves(ds[k], ds[k + 1], ops[k])
    ensures |ds[n].started| + |ds[n].queue| == ds[n].submitted
  {
    if n > 0 {
      EachRequestServes(ds, ops, n - 1);
      RunKeepsInv(ds, ops, n - 1);
      var d, op := ds[n - 1], ops[n - 1];
      assert Allowed(d, op) && ds[n] == Step(d, op);
      if op.Start? { SubmitServes(d, op); } else { NextServes(d, op); }
    }
  }

  // ---------- first come, first served ----------

  /** The packets started are the first ones submitted, in order, and the rest follows in the queue. */
  ghost predicate InSubmissionOrder(d: Device) {
    && (forall j :: 0 <= j < |d.started| ==> d.started[j] == j)
    && (forall j :: 0 <= j < |d.queue| ==> d.queue[j].id == |d.started| + j)
    && d.submitted == |d.started| + |d.queue| && (!d.busy ==> d.queue == [])
  }

  /** Without keys packets are started in the order of submission. */
  lemma {:induction false} UnkeyedIsFifo(ds: seq<Device>, ops: seq<Op>, i: nat)
    requires IsRun(ds, ops) && i < |ds|
    requires forall j {:trigger ops[j]} :: 0 <= j < i ==> ops[j].Next? || (ops[j].Start? && ops[j].key.None?)
    ensures forall k :: 0 <= k <= i ==> InSubmissionOrder(ds[k])
  {
    if i > 0 {
      UnkeyedIsFifo(ds, ops, i - 1);
      assert ops[i - 1].Next? || (ops[i - 1].Start? && ops[i - 1].key.None?);
      assert ds[i] == Step(ds[i - 1], ops[i - 1]);
    }
  }

  // ---------- keyed queues ----------

  /** By key, and packets with the same key in the order of submission. */
  ghost predicate StablySorted(q: Queue) {
    forall i, j :: 0 <= i < j < |q| ==> q[i].key < q[j].key || (q[i].key == q[j].key && q[i].id < q[j].id)
  }

  /** On a sorted list the insertion point parts the lower and equal keys from the higher ones. */
  lemma InsertionPointParts(q: Queue, key: nat)
    requires StablySorted(q)
    ensures forall j :: 0 <= j < InsertionPoint(q, key) ==> q[j].key <= key
    ensures forall j :: InsertionPoint(q, key) <= j < |q| ==> q[j].key > key
  {
    var n := InsertionPoint(q, key);
    if n < |q| {
      forall j | n < j < |q| ensures q[j].key >= q[n].key { }
    } else if q != [] {
      forall j | 0 <= j < n - 1 ensures q[j].key <= q[n - 1].key { }
    }
  }

  lemma InsertKeepsSorted(q: Queue, x: Packet)
    requires StablySorted(q) && forall i :: 0 <= i < |q| ==> q[i].id < x.id
    ensures StablySorted(InsertedByKey(q, x))
  {
    InsertionPointParts(q, x.key);
    InsertedIs(q, InsertionPoint(q, x.key), x);
  }

  lemma RemoveKeepsSorted(q: Queue, i: nat)
    requires StablySorted(q) && i < |q|
    ensures StablySorted(DropAt(q, i))
  {
    DroppedIs(q, i);
  }

  /** Over every run with keys only, however it mixes the two ways to ask for the next packet,
      the list stays sorted by key, and by arrival among equal keys. */
  lemma {:induction false} KeyedStaysSorted(ds: seq<Device>, ops: seq<Op>, i: nat)
    requires IsRun(ds, ops) && i < |ds|
    requires forall j {:trigger ops[j]} :: 0 <= j < i && ops[j].Start? ==> ops[j].key.Some?
    ensures StablySorted(ds[i].queue)
  {
    if i > 0 {
      KeyedStaysSorted(ds, ops, i - 1);
      var d, op := ds[i - 1], ops[i - 1];
      assert forall j :: 0 <= j < |d.queue| ==> d.queue[j].id < d.submitted by {
        RunKeepsInv(ds, ops, i - 1);
        assert Inv(d);
      }
      assert d.busy || d.queue == [] by { RunKeepsInv(ds, ops, i - 1); }
      assert ds[i] == Step(d, op);
      match op {
        case Start(key, stale) => InsertKeepsSorted(d.queue, Packet(d.submitted, key.value));
        case Next => if d.queue != [] { RemoveKeepsSorted(d.queue, 0); }
        case NextByKey(key) => if d.queue != [] { RemoveKeepsSorted(d.queue, RemovalPoint(d.queue, key)); }
      }
    }
  }

  /** What NextByKey serves on a sorted list: if some key exceeds the given one, the packet with
      the least key not below it, and the oldest of these; otherwise the least key of all. */
  lemma ServesInSweeps(q: Queue, key: nat)
    requires StablySorted(q) && q != []
    ensures var x := q[RemovalPoint(q, key)];
            && ((exists j :: 0 <= j < |q| && q[j].key > key) ==>
                  x.key >= key && forall j :: 0 <= j < |q| && q[j].key >= key ==>
                    x.key < q[j].key || (x.key == q[j].key && x.id <= q[j].id))
            && ((forall j :: 0 <= j < |q| ==> q[j].key <= key) ==>
                  forall j :: 0 <= j < |q| ==> x.key < q[j].key || (x.key == q[j].key && x.id <= q[j].id))
  {
    var n := |q| - 1;
    assert forall j :: 0 <= j < n ==> q[j].key <= q[n].key;
  }
}

/** Share access of files, nboxkrnl/io/io.cpp.

    Modelled: IoSetShareAccess, IoCheckShareAccess and IoRemoveShareAccess. Seven byte counters
    stand for all files that are open. */
module ShareAccess {
  import opened Tally

  const FILE_READ_DATA: bv32 := 0x1
  const FILE_WRITE_DATA: bv32 := 0x2
  const FILE_APPEND_DATA: bv32 := 0x4
  const FILE_EXECUTE: bv32 := 0x20
  const DELETE: bv32 := 0x1_0000
  const SYNCHRONIZE: bv32 := 0x10_0000
  const FILE_SHARE_READ: bv32 := 0x1
  const FILE_SHARE_WRITE: bv32 := 0x2
  const FILE_SHARE_DELETE: bv32 := 0x4

  const MAXUCHAR := 255

  /** Counting in a byte. */
  function Inc(x: int, step: bool): int { if !step then x else if x == MAXUCHAR then 0 else x + 1 }
  function Dec(x: int, step: bool): int { if !step then x else if x == 0 then MAXUCHAR else x - 1 }

  lemma BytesWrap(x: int, step: bool)
    requires 0 <= x <= MAXUCHAR
    ensures Inc(x, step) == (x + if step then 1 else 0) % 256 && Dec(x, step) == (x - if step then 1 else 0) % 256
    ensures Dec(Inc(x, step), step) == x == Inc(Dec(x, step), step)
  {
  }

  /** The flags of a file object. */
  datatype File = File(read: bool, write: bool, delete: bool, synchronize: bool, shareRead: bool, shareWrite: bool, shareDelete: bool)

  datatype Counters = Counters(open: int, read: int, write: int, delete: int, shareRead: int, shareWrite: int, shareDelete: int)

  const ZERO := Counters(0, 0, 0, 0, 0, 0, 0)

  predicate Accesses(f: File) { f.read || f.write || f.delete }

  /** The flags after a request; the sharing flags are left alone when nothing is accessed. */
  function Requested(f: File, access: bv32, share: bv32): File {
    var g := f.(read := access & (FILE_EXECUTE | FILE_READ_DATA) != 0,
                write := access & (FILE_WRITE_DATA | FILE_APPEND_DATA) != 0,
                delete := access & DELETE != 0,
                synchronize := access & SYNCHRONIZE != 0);
    if Accesses(g) then
      g.(shareRead := share & FILE_SHARE_READ != 0, shareWrite := share & FILE_SHARE_WRITE != 0,
         shareDelete := share & FILE_SHARE_DELETE != 0)
    else g
  }

  /** The test on the counters. */
  predicate Violates(c: Counters, f: File) {
    || c.open == MAXUCHAR
    || (f.read && c.shareRead < c.open) || (f.write && c.shareWrite < c.open) || (f.delete && c.shareDelete < c.open)
    || (c.read != 0 && !f.shareRead) || (c.write != 0 && !f.shareWrite) || (c.delete != 0 && !f.shareDelete)
  }

  function Counted(c: Counters, f: File): Counters {
    Counters(Inc(c.open, true), Inc(c.read, f.read), Inc(c.write, f.write), Inc(c.delete, f.delete),
             Inc(c.shareRead, f.shareRead), Inc(c.shareWrite, f.shareWrite), Inc(c.shareDelete, f.shareDelete))
  }

  function Uncounted(c: Counters, f: File): Counters {
    if !Accesses(f) then c
    else Counters(Dec(c.open, true), Dec(c.read, f.read), Dec(c.write, f.write), Dec(c.delete, f.delete),
                  Dec(c.shareRead, f.shareRead), Dec(c.shareWrite, f.shareWrite), Dec(c.shareDelete, f.shareDelete))
  }

  /** What the counters of a first open are. */
  function Single(f: File): Counters { if Accesses(f) then Counted(ZERO, f) else ZERO }

  // ---------- the operations in the form of the source ----------

  class FileFlags {
    var ReadAccess: bool
    var WriteAccess: bool
    var DeleteAccess: bool
    var Synchronize: bool
    var SharedRead: bool
    var SharedWrite: bool
    var SharedDelete: bool

    ghost function Flags(): File
      reads this
    {
      File(ReadAccess, WriteAccess, DeleteAccess, Synchronize, SharedRead, SharedWrite, SharedDelete)
    }

    constructor ()
      ensures Flags() == File(false, false, false, false, false, false, false)
    {
      ReadAccess, WriteAccess, DeleteAccess, Synchronize := false, false, false, false;
      SharedRead, SharedWrite, SharedDelete := false, false, false;
    }

    /** How both ways to open a file set the flags. */
    method SetFlags(access: bv32, share: bv32) returns (accesses: bool)
      modifies this
      ensures Flags() == Requested(old(Flags()), access, share) && accesses == Accesses(Flags())
    {
      ReadAccess := access & (FILE_EXECUTE | FILE_READ_DATA) != 0;
      WriteAccess := access & (FILE_WRITE_DATA | FILE_APPEND_DATA) != 0;
      DeleteAccess := access & DELETE != 0;
      Synchronize := access & SYNCHRONIZE != 0;
      accesses := ReadAccess || WriteAccess || DeleteAccess;
      if accesses {
        SharedRead := share & FILE_SHARE_READ != 0;
        SharedWrite := share & FILE_SHARE_WRITE != 0;
        SharedDelete := share & FILE_SHARE_DELETE != 0;
      }
    }
  }

  class SHARE_ACCESS {
    var OpenCount: int
    var ReadAccess: int
    var WriteAccess: int
    var DeleteAccess: int
    var SharedRead: int
    var SharedWrite: int
    var SharedDelete: int

    ghost function View(): Counters
      reads this
    {
      Counters(OpenCount, ReadAccess, WriteAccess, DeleteAccess, SharedRead, SharedWrite, SharedDelete)
    }

    constructor ()
      ensures View() == ZERO
    {
      OpenCount, ReadAccess, WriteAccess, DeleteAccess := 0, 0, 0, 0;
      SharedRead, SharedWrite, SharedDelete := 0, 0, 0;
    }

    method IoCheckShareAccess(access: bv32, share: bv32, file: FileFlags, update: bool) returns (ok: bool)
      modifies this, file
      ensures file.Flags() == Requested(old(file.Flags()), access, share)
      ensures ok <==> !Accesses(file.Flags()) || !Violates(old(View()), file.Flags())
      ensures View() == if ok && update && Accesses(file.Flags()) then Counted(old(View()), file.Flags()) else old(View())
    {
      hide Requested, Inc;
      var accesses := file.SetFlags(access, share);
      if accesses {
        if OpenCount == 255
           || (file.ReadAccess && SharedRead < OpenCount)
           || (file.WriteAccess && SharedWrite < OpenCount)
           || (file.DeleteAccess && SharedDelete < OpenCount)
           || (ReadAccess != 0 && !file.SharedRead)
           || (WriteAccess != 0 && !file.SharedWrite)
           || (DeleteAccess != 0 && !file.SharedDelete)
        {
          return false;
        } else if update {
          OpenCount := Inc(OpenCount, true);
          ReadAccess := Inc(ReadAccess, file.ReadAccess);
          WriteAccess := Inc(WriteAccess, file.WriteAccess);
          DeleteAccess := Inc(DeleteAccess, file.DeleteAccess);
          SharedRead := Inc(SharedRead, file.SharedRead);
          SharedWrite := Inc(SharedWrite, file.SharedWrite);
          SharedDelete := Inc(SharedDelete, file.SharedDelete);
        }
      }
      return true;
    }

    method IoSetShareAccess(access: bv32, share: bv32, file: FileFlags)
      modifies this, file
      ensures file.Flags() == Requested(old(file.Flags()), access, share)
      ensures View() == Single(file.Flags())
    {
      var accesses := file.SetFlags(access, share);
      if accesses {
        OpenCount := 1;
        ReadAccess := if file.ReadAccess then 1 else 0;
        WriteAccess := if file.WriteAccess then 1 else 0;
        DeleteAccess := if file.DeleteAccess then 1 else 0;
        SharedRead := if file.SharedRead then 1 else 0;
        SharedWrite := if file.SharedWrite then 1 else 0;
        SharedDelete := if file.SharedDelete then 1 else 0;
      } else {
        OpenCount, ReadAccess, WriteAccess, DeleteAccess := 0, 0, 0, 0;
        SharedRead, SharedWrite, SharedDelete := 0, 0, 0;
      }
    }

    method IoRemoveShareAccess(file: FileFlags)
      modifies this
      ensures View() == Uncounted(old(View()), file.Flags())
    {
      if file.ReadAccess || file.WriteAccess || file.DeleteAccess {
        OpenCount := Dec(OpenCount, true);
        if file.ReadAccess { ReadAccess := Dec(ReadAccess, true); }
        if file.WriteAccess { WriteAccess := Dec(WriteAccess, true); }
        if file.DeleteAccess { DeleteAccess := Dec(DeleteAccess, true); }
        if file.SharedRead { SharedRead := Dec(SharedRead, true); }
        if file.SharedWrite { SharedWrite := Dec(SharedWrite, true); }
        if file.SharedDelete { SharedDelete := Dec(SharedDelete, true); }
      }
    }
  }

  // ---------- the files that are open ----------

  /** `opens` are the flags of the file objects that are open. */
  datatype State = State(c: Counters, opens: seq<File>)

  function B(b: bool): nat { if b then 1 else 0 }

  function OpenW(f: File): nat { B(Accesses(f)) }
  function ReadW(f: File): nat { B(f.read) }
  function WriteW(f: File): nat { B(f.write) }
  function DeleteW(f: File): nat { B(f.delete) }
  function ShareReadW(f: File): nat { B(Accesses(f) && f.shareRead) }
  function ShareWriteW(f: File): nat { B(Accesses(f) && f.shareWrite) }
  function ShareDeleteW(f: File): nat { B(Accesses(f) && f.shareDelete) }

  /** Counted from scratch. */
  ghost function Census(opens: seq<File>): Counters {
    Counters(Sum(opens, OpenW), Sum(opens, ReadW), Sum(opens, WriteW), Sum(opens, DeleteW),
             Sum(opens, ShareReadW), Sum(opens, ShareWriteW), Sum(opens, ShareDeleteW))
  }

  /** Neither file does what the other one does not share; a file that accesses nothing is
      compatible with everything. */
  predicate Compatible(f: File, g: File) {
    Accesses(f) && Accesses(g) ==>
      && (f.read ==> g.shareRead) && (f.write ==> g.shareWrite) && (f.delete ==> g.shareDelete)
      && (g.read ==> f.shareRead) && (g.write ==> f.shareWrite) && (g.delete ==> f.shareDelete)
  }

  ghost predicate Inv(s: State) {
    && s.c == Census(s.opens)
    && s.c.open <= MAXUCHAR
    && forall i, j :: 0 <= i < j < |s.opens| ==> Compatible(s.opens[i], s.opens[j])
  }

  datatype Op =
    | SetFirst(access: bv32, share: bv32, before: File)             // the first open of a file
    | Check(access: bv32, share: bv32, before: File, update: bool)  // every other open, or a mere test
    | Remove(i: nat)

  /** Drivers set the counters when OpenCount is 0, and check them otherwise. */
  predicate Allowed(s: State, op: Op) {
    match op
    case SetFirst(_, _, _) => s.c.open == 0
    case Check(_, _, _, _) => true
    case Remove(i) => i < |s.opens|
  }

  predicate Accepts(c: Counters, f: File) { !Accesses(f) || !Violates(c, f) }

  function Step(s: State, op: Op): State
    requires Allowed(s, op)
  {
    match op
    case SetFirst(access, share, before) =>
      var f := Requested(before, access, share);
      State(Single(f), s.opens + [f])
    case Check(access, share, before, update) =>
      var f := Requested(before, access, share);
      if !Accepts(s.c, f) || !update then s
      else State(if Accesses(f) then Counted(s.c, f) else s.c, s.opens + [f])
    case Remove(i) => State(Uncounted(s.c, s.opens[i]), s.opens[..i] + s.opens[i + 1..])
  }

  ghost predicate IsRun(ss: seq<State>, ops: seq<Op>) {
    && |ss| == |ops| + 1 && ss[0] == State(ZERO, [])
    && forall i {:trigger ops[i]} :: 0 <= i < |ops| ==> Allowed(ss[i], ops[i]) && ss[i + 1] == Step(ss[i], ops[i])
  }

  lemma CensusAppend(opens: seq<File>, f: File)
    ensures var c, d := Census(opens), Census(opens + [f]);
            d == Counters(c.open + OpenW(f), c.read + ReadW(f), c.write + WriteW(f), c.delete + DeleteW(f),
                          c.shareRead + ShareReadW(f), c.shareWrite + ShareWriteW(f), c.shareDelete + ShareDeleteW(f))
  {
    SumAppend(opens, f, OpenW);
    SumAppend(opens, f, ReadW);
    SumAppend(opens, f, WriteW);
    SumAppend(opens, f, DeleteW);
    SumAppend(opens, f, ShareReadW);
    SumAppend(opens, f, ShareWriteW);
    SumAppend(opens, f, ShareDeleteW);
  }

  lemma CensusRemove(opens: seq<File>, i: nat)
    requires i < |opens|
    ensures var c, d, f := Census(opens), Census(opens[..i] + opens[i + 1..]), opens[i];
            d == Counters(c.open - OpenW(f), c.read - ReadW(f), c.write - WriteW(f), c.delete - DeleteW(f),
                          c.shareRead - ShareReadW(f), c.shareWrite - ShareWriteW(f), c.shareDelete - ShareDeleteW(f))
  {
    SumRemove(opens, i, OpenW);
    SumRemove(opens, i, ReadW);
    SumRemove(opens, i, WriteW);
    SumRemove(opens, i, DeleteW);
    SumRemove(opens, i, ShareReadW);
    SumRemove(opens, i, ShareWriteW);
    SumRemove(opens, i, ShareDeleteW);
  }

  /** No counter exceeds the number of opens. */
  lemma CensusBounded(opens: seq<File>)
    ensures var c := Census(opens);
            && c.read <= c.open && c.write <= c.open && c.delete <= c.open
            && c.shareRead <= c.open && c.shareWrite <= c.open && c.shareDelete <= c.open
  {
    hide Sum;
    SumCompare(opens, ReadW, OpenW);
    SumCompare(opens, WriteW, OpenW);
    SumCompare(opens, DeleteW, OpenW);
    SumCompare(opens, ShareReadW, OpenW);
    SumCompare(opens, ShareWriteW, OpenW);
    SumCompare(opens, ShareDeleteW, OpenW);
  }

  lemma AnyOf(opens: seq<File>, w: File -> nat)
    ensures Sum(opens, w) != 0 <==> exists i :: 0 <= i < |opens| && w(opens[i]) > 0
  {
    if Sum(opens, w) != 0 {
      var i := SumWitness(opens, w);
    } else {
      forall i | 0 <= i < |opens| ensures w(opens[i]) == 0 { SumCovers(opens, i, i, w); }
    }
  }

  /** Fewer files share than are open exactly when some open file does not. */
  lemma SharingIsGeneral(opens: seq<File>, w: File -> nat)
    requires forall i :: 0 <= i < |opens| ==> w(opens[i]) <= OpenW(opens[i])
    ensures Sum(opens, w) < Sum(opens, OpenW) <==> exists i :: 0 <= i < |opens| && w(opens[i]) < OpenW(opens[i])
  {
    SumCompare(opens, w, OpenW);
  }

  /** What the counters tell about the open files, one by one. */
  lemma CountersSpeakForAll(opens: seq<File>, f: File)
    requires Accesses(f)
    ensures Violates(Census(opens), f) <==>
              Census(opens).open == MAXUCHAR || exists i :: 0 <= i < |opens| && !Compatible(opens[i], f)
  {
    hide Sum;
    AnyOf(opens, ReadW);
    AnyOf(opens, WriteW);
    AnyOf(opens, DeleteW);
    SharingIsGeneral(opens, ShareReadW);
    SharingIsGeneral(opens, ShareWriteW);
    SharingIsGeneral(opens, ShareDeleteW);
    if exists i :: 0 <= i < |opens| && !Compatible(opens[i], f) {
      var i :| 0 <= i < |opens| && !Compatible(opens[i], f);
      SomeClash(opens, i, f);
    }
  }

  lemma SomeClash(opens: seq<File>, i: nat, f: File)
    requires i < |opens| && !Compatible(opens[i], f)
    ensures Violates(Census(opens), f)
  {
    hide Sum;
    var g := opens[i];
    AnyOf(opens, ReadW);
    AnyOf(opens, WriteW);
    AnyOf(opens, DeleteW);
    SharingIsGeneral(opens, ShareReadW);
    SharingIsGeneral(opens, ShareWriteW);
    SharingIsGeneral(opens, ShareDeleteW);
    assert g.read ==> ReadW(opens[i]) > 0;
    assert g.write ==> WriteW(opens[i]) > 0;
    assert g.delete ==> DeleteW(opens[i]) > 0;
    assert !g.shareRead ==> ShareReadW(opens[i]) < OpenW(opens[i]);
    assert !g.shareWrite ==> ShareWriteW(opens[i]) < OpenW(opens[i]);
    assert !g.shareDelete ==> ShareDeleteW(opens[i]) < OpenW(opens[i]);
  }

  lemma OpenKeepsInv(s: State, f: File)
    requires Inv(s) && Accepts(s.c, f)
    ensures Inv(State(if Accesses(f) then Counted(s.c, f) else s.c, s.opens + [f]))
  {
    hide Sum;
    CensusAppend(s.opens, f);
    CensusBounded(s.opens);
    if Accesses(f) { CountersSpeakForAll(s.opens, f); }
    var opens := s.opens + [f];
    forall i | 0 <= i < |s.opens| ensures Compatible(opens[i], f) {
      if Accesses(f) { assert Compatible(s.opens[i], f); }
    }
  }

  lemma RemovalKeepsInv(s: State, i: nat)
    requires Inv(s) && i < |s.opens|
    ensures Inv(State(Uncounted(s.c, s.opens[i]), s.opens[..i] + s.opens[i + 1..]))
  {
    hide Sum, Compatible;
    CensusRemove(s.opens, i);
    CensusBounded(s.opens);
    var r := s.opens[..i] + s.opens[i + 1..];
    CensusBounded(r);
    forall a, b | 0 <= a < b < |r| ensures Compatible(r[a], r[b]) {
      assert r[a] == s.opens[if a < i then a else a + 1] && r[b] == s.opens[if b < i then b else b + 1];
    }
  }

  lemma StepKeepsInv(s: State, op: Op)
    requires Inv(s) && Allowed(s, op)
    ensures Inv(Step(s, op))
  {
    hide Sum, Compatible;
    match op
    case SetFirst(access, share, before) =>
      CensusBounded(s.opens);
      assert s.c == ZERO;
      OpenKeepsInv(s, Requested(before, access, share));
    case Check(access, share, before, update) =>
      var f := Requested(before, access, share);
      if Accepts(s.c, f) { OpenKeepsInv(s, f); }
    case Remove(i) => RemovalKeepsInv(s, i);
  }

  lemma {:induction false} RunKeepsInv(ss: seq<State>, ops: seq<Op>, k: nat)
    requires IsRun(ss, ops) && k < |ss|
    ensures forall j :: 0 <= j <= k ==> Inv(ss[j])
  {
    if k > 0 {
      hide Inv, Step;
      RunKeepsInv(ss, ops, k - 1);
      assert Allowed(ss[k - 1], ops[k - 1]) && ss[k] == Step(ss[k - 1], ops[k - 1]);
      StepKeepsInv(ss[k - 1], ops[k - 1]);
    }
  }

  // ---------- what share access promises ----------

  /** The flags of a file object after any number of checks, accepted or not. */
  function FlagsAfter(f: File, requests: seq<(bv32, bv32)>, n: nat): File
    requires n <= |requests|
  {
    if n == 0 then f else Requested(FlagsAfter(f, requests, n - 1), requests[n - 1].0, requests[n - 1].1)
  }

  /** A request bit by bit. */
  predicate AsksRead(access: bv32) { access & FILE_READ_DATA != 0 || access & FILE_EXECUTE != 0 }
  predicate AsksWrite(access: bv32) { access & FILE_WRITE_DATA != 0 || access & FILE_APPEND_DATA != 0 }
  predicate AsksDelete(access: bv32) { access & DELETE != 0 }
  predicate AsksAccess(access: bv32) { AsksRead(access) || AsksWrite(access) || AsksDelete(access) }
  predicate Offers(share: bv32, bit: bv32) { share & bit != 0 }

  lemma EitherBit(x: bv32, a: bv32, b: bv32)
    ensures x & (a | b) != 0 <==> x & a != 0 || x & b != 0
  {
  }

  lemma FlagsAreBits(f: File, access: bv32, share: bv32)
    ensures var g := Requested(f, access, share);
      && g.read == AsksRead(access) && g.write == AsksWrite(access) && g.delete == AsksDelete(access)
      && g.synchronize == (access & SYNCHRONIZE != 0)
      && (AsksAccess(access) ==> g.shareRead == Offers(share, FILE_SHARE_READ)
                                 && g.shareWrite == Offers(share, FILE_SHARE_WRITE)
                                 && g.shareDelete == Offers(share, FILE_SHARE_DELETE))
      && (!AsksAccess(access) ==> g.shareRead == f.shareRead && g.shareWrite == f.shareWrite && g.shareDelete == f.shareDelete)
  {
    EitherBit(access, FILE_EXECUTE, FILE_READ_DATA);
    EitherBit(access, FILE_WRITE_DATA, FILE_APPEND_DATA);
  }

  /** One of two opens asks for something that the other one does not offer. */
  predicate Clash(access: bv32, share: bv32) {
    || (AsksRead(access) && !Offers(share, FILE_SHARE_READ))
    || (AsksWrite(access) && !Offers(share, FILE_SHARE_WRITE))
    || (AsksDelete(access) && !Offers(share, FILE_SHARE_DELETE))
  }

  /** A file that has been opened once with some access can be opened again, by other file objects,
      exactly if neither open asks for what the other one does not offer, bit by bit; an open that
      asks for no access is always accepted. */
  lemma SecondOpenExactly(f: File, access: bv32, share: bv32, f': File, access': bv32, share': bv32)
    requires AsksAccess(access)
    ensures var s := Step(State(ZERO, []), SetFirst(access, share, f));
      Accepts(s.c, Requested(f', access', share')) <==>
        !AsksAccess(access') || (!Clash(access, share') && !Clash(access', share))
  {
    FlagsAreBits(f, access, share);
    FlagsAreBits(f', access', share');
    hide Requested;
  }

  /** Whatever was asked before, the access flags are those of the last request, and the sharing
      flags those of the last one that asked for any access: later requests that ask for none do
      not touch them. */
  lemma {:induction false} SharingIsOfTheLastAccess(f: File, requests: seq<(bv32, bv32)>, j: nat, n: nat)
    requires j < n <= |requests| && AsksAccess(requests[j].0)
    requires forall i :: j < i < n ==> !AsksAccess(requests[i].0)
    ensures var g, share := FlagsAfter(f, requests, n), requests[j].1;
            && (Accesses(g) <==> j == n - 1)
            && g.read == AsksRead(requests[n - 1].0) && g.write == AsksWrite(requests[n - 1].0)
            && g.delete == AsksDelete(requests[n - 1].0) && g.synchronize == (requests[n - 1].0 & SYNCHRONIZE != 0)
            && g.shareRead == (share & FILE_SHARE_READ != 0) && g.shareWrite == (share & FILE_SHARE_WRITE != 0)
            && g.shareDelete == (share & FILE_SHARE_DELETE != 0)
  {
    FlagsAreBits(FlagsAfter(f, requests, n - 1), requests[n - 1].0, requests[n - 1].1);
    hide Requested;
    if j < n - 1 { SharingIsOfTheLastAccess(f, requests, j, n - 1); }
  }

  predicate InBytes(c: Counters) {
    && 0 <= c.open <= MAXUCHAR && 0 <= c.read <= MAXUCHAR && 0 <= c.write <= MAXUCHAR && 0 <= c.delete <= MAXUCHAR
    && 0 <= c.shareRead <= MAXUCHAR && 0 <= c.shareWrite <= MAXUCHAR && 0 <= c.shareDelete <= MAXUCHAR
  }

  /** After any history the seven counters are the counts over the open files, taken without
      wrapping, and the open files are pairwise compatible. */
  lemma CountersAreExact(ss: seq<State>, ops: seq<Op>)
    requires IsRun(ss, ops)
    ensures forall k :: 0 <= k < |ss| ==> ss[k].c == Census(ss[k].opens) && InBytes(ss[k].c)
    ensures forall k, i, j :: 0 <= k < |ss| && 0 <= i < j < |ss[k].opens| ==> Compatible(ss[k].opens[i], ss[k].opens[j])
  {
    RunKeepsInv(ss, ops, |ops|);
    forall k | 0 <= k < |ss| ensures ss[k].c == Census(ss[k].opens) && InBytes(ss[k].c) {
      assert Inv(ss[k]);
      CensusBounded(ss[k].opens);
    }
  }

  /** After any history the counters accept a newcomer that accesses something exactly when
      fewer than 255 files that access something are open and it is compatible with every one. */
  lemma AcceptsExactlyTheCompatible(ss: seq<State>, ops: seq<Op>, k: nat, f: File)
    requires IsRun(ss, ops) && k < |ss| && Accesses(f)
    ensures Accepts(ss[k].c, f) <==>
              Sum(ss[k].opens, OpenW) < MAXUCHAR && forall i :: 0 <= i < |ss[k].opens| ==> Compatible(ss[k].opens[i], f)
  {
    RunKeepsInv(ss, ops, k);
    CountersSpeakForAll(ss[k].opens, f);
  }

  /** Removing what was just added restores the counters. */
  lemma RemoveUndoesOpen(ss: seq<State>, ops: seq<Op>, k: nat, f: File)
    requires IsRun(ss, ops) && k < |ss| && Accesses(f) && Accepts(ss[k].c, f)
    ensures Uncounted(Counted(ss[k].c, f), f) == ss[k].c
  {
    RunKeepsInv(ss, ops, k);
    CensusBounded(ss[k].opens);
  }

  /** Two files count alike. */
  predicate Alike(f: File, g: File) {
    && OpenW(f) == OpenW(g) && ReadW(f) == ReadW(g) && WriteW(f) == WriteW(g) && DeleteW(f) == DeleteW(g)
    && ShareReadW(f) == ShareReadW(g) && ShareWriteW(f) == ShareWriteW(g) && ShareDeleteW(f) == ShareDeleteW(g)
  }

  lemma CensusReplace(opens: seq<File>, i: nat, f: File)
    requires i < |opens|
    ensures var c, d, g := Census(opens), Census(opens[i := f]), opens[i];
            d == Counters(c.open - OpenW(g) + OpenW(f), c.read - ReadW(g) + ReadW(f), c.write - WriteW(g) + WriteW(f),
                          c.delete - DeleteW(g) + DeleteW(f), c.shareRead - ShareReadW(g) + ShareReadW(f),
                          c.shareWrite - ShareWriteW(g) + ShareWriteW(f), c.shareDelete - ShareDeleteW(g) + ShareDeleteW(f))
  {
    SumUpdate(opens, i, f, OpenW);
    SumUpdate(opens, i, f, ReadW);
    SumUpdate(opens, i, f, WriteW);
    SumUpdate(opens, i, f, DeleteW);
    SumUpdate(opens, i, f, ShareReadW);
    SumUpdate(opens, i, f, ShareWriteW);
    SumUpdate(opens, i, f, ShareDeleteW);
  }

  /** A check sets the flags of its file object in any case. If that file object is open, the
      counters stay exact without an update exactly when the new flags count like the old ones,
      and with an update exactly when the file accessed nothing before. */
  lemma RecheckIsExact(ss: seq<State>, ops: seq<Op>, k: nat, i: nat, access: bv32, share: bv32)
    requires IsRun(ss, ops) && k < |ss| && i < |ss[k].opens|
    ensures var c, g, f := ss[k].c, ss[k].opens[i], Requested(ss[k].opens[i], access, share);
            && (c == Census(ss[k].opens[i := f]) <==> Alike(f, g))
            && (Accesses(f) && Accepts(c, f) ==> (Counted(c, f) == Census(ss[k].opens[i := f]) <==> !Accesses(g)))
  {
    hide Sum, Requested;
    RunKeepsInv(ss, ops, k);
    CensusBounded(ss[k].opens);
    CensusReplace(ss[k].opens, i, Requested(ss[k].opens[i], access, share));
  }

  /** It does change them: after one file has been opened for reading without sharing, a check
      that refuses a second one leaves it marked as reading. */
  lemma RefusedCheckChangesFlags() returns (ss: seq<State>, ops: seq<Op>)
    ensures IsRun(ss, ops) && |ops| == 1
    ensures var f := File(false, false, false, false, false, false, false);
            !Accepts(ss[1].c, Requested(f, FILE_READ_DATA, 0)) && Requested(f, FILE_READ_DATA, 0) != f
  {
    var f := File(false, false, false, false, false, false, false);
    var s0 := State(ZERO, []);
    ops := [SetFirst(FILE_READ_DATA, 0, f)];
    ss := [s0, Step(s0, ops[0])];
    assert FILE_READ_DATA & (FILE_EXECUTE | FILE_READ_DATA) != 0;
    assert ss[1].c == Single(Requested(f, FILE_READ_DATA, 0));
  }
}

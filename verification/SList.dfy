/** Sequenced lists, nboxkrnl/ex/exinterlocked.cpp. */
module SList {
  // Push and flush read the eight-byte header, in two halves and in either order, and then try
  // to exchange it until nothing has changed in between; pop runs with interrupts disabled.
  // Each load, each store and each exchange is one step, and the steps of all threads
  // interleave. Entries are numbered from 1; 0 is the null pointer.

  import opened Links
  import opened Seqs
  import opened Tally
  import opened Wrappers

  datatype Header = Header(next: nat, depth: nat, sequence: nat)

  const EMPTY := Header(0, 0, 0)

  /** Counting in a USHORT. */
  function UshortInc(x: nat): nat { if x == 0xFFFF then 0 else x + 1 }
  function UshortDec(x: nat): nat { if x == 0 then 0xFFFF else x - 1 }

  function PushedHeader(h: Header, e: nat): Header { Header(e, UshortInc(h.depth), UshortInc(h.sequence)) }

  function FlushedHeader(h: Header): Header { Header(0, 0, h.sequence) }

  function First(list: seq<nat>): nat { if list == [] then 0 else list[0] }

  /** What the entries' Next fields hold. */
  function Memory(links: seq<nat>): map<nat, nat> { map e: nat | 0 < e < |links| :: links[e] }

  /** The header and the links in memory represent the stack. */
  ghost predicate Represents(h: Header, links: seq<nat>, stack: seq<nat>) {
    && Chained(Memory(links), h.next, stack)
    && NoDup(stack)
    && h.depth == |stack| % 0x1_0000
  }

  /** Writing the link of an entry that is not on the list leaves the list alone. */
  lemma LinkElsewhere(links: seq<nat>, e: nat, next: nat, head: nat, list: seq<nat>)
    requires Chained(Memory(links), head, list) && e !in list && 0 < e < |links|
    ensures Chained(Memory(links[e := next]), head, list)
  {
    ChainedElsewhere(Memory(links), e, next, head, list);
    assert Memory(links[e := next]) == Memory(links)[e := next];
  }

  lemma {:induction false} ChainedInside(word: map<nat, nat>, head: nat, list: seq<nat>)
    requires Chained(word, head, list)
    ensures forall e :: e in list ==> 0 < e && e in word
    decreases |list|
  {
    if list != [] {
      ChainedInside(word, word[head], list[1..]);
      assert list == [list[0]] + list[1..];
    }
  }

  lemma DepthWraps(n: nat)
    ensures UshortInc(n % 0x1_0000) == (n + 1) % 0x1_0000
    ensures n > 0 ==> UshortDec(n % 0x1_0000) == (n - 1) % 0x1_0000
  {
  }

  lemma PushRepresents(h: Header, links: seq<nat>, stack: seq<nat>, e: nat)
    requires Represents(h, links, stack) && 0 < e < |links| && links[e] == h.next && e !in stack
    ensures Represents(PushedHeader(h, e), links, [e] + stack)
  {
    DepthWraps(|stack|);
    assert ([e] + stack)[1..] == stack;
  }

  lemma PopRepresents(h: Header, links: seq<nat>, stack: seq<nat>)
    requires Represents(h, links, stack) && h.next != 0
    ensures stack != [] && h.next == stack[0] && 0 < h.next < |links|
    ensures Represents(Header(links[h.next], UshortDec(h.depth), h.sequence), links, stack[1..])
  {
    DepthWraps(|stack|);
  }

  /** The operations in the form of the source, when nothing interferes. */
  class SListHeader {
    var Word: Header
    var Links: seq<nat>
    ghost var Stack: seq<nat>

    ghost predicate Valid()
      reads this
    {
      Represents(Word, Links, Stack)
    }

    constructor (entries: nat)
      ensures Valid() && Stack == [] && |Links| == entries + 1
    {
      Word, Links, Stack := EMPTY, seq(entries + 1, _ => 0), [];
    }

    method InterlockedCompareExchange64(exchange: Header, comparand: Header) returns (initial: Header)
      modifies this`Word
      ensures initial == old(Word) && Word == if initial == comparand then exchange else initial
    {
      initial := Word;
      if initial == comparand {
        Word := exchange;
      }
    }

    method InterlockedPushEntrySList(entry: nat) returns (previous: nat)
      requires Valid() && 0 < entry < |Links| && entry !in Stack
      modifies this
      ensures Valid() && Stack == [entry] + old(Stack) && |Links| == |old(Links)|
      ensures Word.sequence == UshortInc(old(Word.sequence))
      ensures previous == First(old(Stack))
    {
      var oldHeader, compare := Word, Word;
      ghost var before := Stack;
      ghost var header := Word;
      var done := false;
      while !done
        invariant Stack == before && |Links| == |old(Links)| && 0 < entry < |Links| && entry !in before
        invariant !done ==> Valid() && Word == header && oldHeader == header
        invariant done ==> oldHeader == header && Represents(Word, Links, [entry] + before)
        invariant Word.sequence == if done then UshortInc(header.sequence) else header.sequence
        decreases if done then 0 else 1
      {
        LinkElsewhere(Links, entry, oldHeader.next, Word.next, Stack);
        Links := Links[entry := oldHeader.next];
        var newHeader := PushedHeader(oldHeader, entry);
        compare := oldHeader;
        PushRepresents(Word, Links, Stack, entry);
        oldHeader := InterlockedCompareExchange64(newHeader, compare);
        done := oldHeader == compare;
      }
      Stack := [entry] + Stack;
      return oldHeader.next;
    }

    method InterlockedFlushSList() returns (first: nat)
      requires Valid()
      modifies this
      ensures Valid() && Stack == [] && Links == old(Links) && Word.sequence == old(Word.sequence)
      ensures first == First(old(Stack)) && Chained(Memory(Links), first, old(Stack))
    {
      var oldHeader := Word;
      ghost var header := Word;
      var done := false;
      while !done
        invariant Stack == old(Stack) && Links == old(Links) && oldHeader == header == old(Word)
        invariant Word == if done then FlushedHeader(header) else header
        decreases if done then 0 else 1
      {
        if oldHeader.next == 0 {
          return 0;
        }
        var newHeader := oldHeader.(next := 0, depth := 0);
        var compare := oldHeader;
        oldHeader := InterlockedCompareExchange64(newHeader, compare);
        done := oldHeader == compare;
      }
      Stack := [];
      return oldHeader.next;
    }

    method InterlockedPopEntrySList() returns (entry: nat)
      requires Valid()
      modifies this
      ensures Valid() && Links == old(Links) && entry == First(old(Stack)) && Word.sequence == old(Word.sequence)
      ensures Stack == if old(Stack) == [] then [] else old(Stack)[1..]
    {
      var oldHeader := Word;
      ghost var header := Word;
      var done := false;
      while !done
        invariant Stack == old(Stack) && Links == old(Links) && oldHeader == header == old(Word)
        invariant !done ==> Word == header
        invariant done ==> header.next != 0 && 0 < header.next < |Links| &&
                           Word == Header(Links[header.next], UshortDec(header.depth), header.sequence)
        decreases if done then 0 else 1
      {
        if oldHeader.next == 0 {
          return 0;
        }
        PopRepresents(oldHeader, Links, Stack);
        var newHeader := oldHeader.(next := Links[oldHeader.next]);
        newHeader := newHeader.(depth := UshortDec(newHeader.depth));
        var compare := oldHeader;
        oldHeader := InterlockedCompareExchange64(newHeader, compare);
        done := oldHeader == compare;
      }
      PopRepresents(header, Links, Stack);
      Stack := Stack[1..];
      return oldHeader.next;
    }
  }

  // ---------- the threads ----------

  datatype Op = Push(e: nat) | Flush

  datatype Pc =
    | Idle
    | Called(op: Op)
    | HasNext(op: Op, next: nat)                        // has read the first half of the header
    | HasRest(op: Op, depth: nat, sequence: nat)        // has read the second half
    | HasHeader(op: Op, h: Header)                      // OldHeader, perhaps torn
    | Linked(e: nat, h: Header)                         // has stored SListEntry->Next

  /** A thread, the entries that it may push, and how many operations it has returned from. */
  datatype Thread = Thread(pc: Pc, held: set<nat>, returned: nat)

  /** When an operation takes effect, with what it returns. */
  datatype Event = Pushed(t: nat, e: nat, previous: nat) | Popped(t: nat, e: nat) | Flushed(t: nat, first: nat)

  /** `stack` and `log` only record history. */
  datatype State = State(header: Header, links: seq<nat>, threads: seq<Thread>, stack: seq<nat>, log: seq<Event>)

  datatype Action = CallPush(e: nat) | CallFlush | PopEntry | ReadNext | ReadRest | LinkEntry | Exchange | ReturnNull

  datatype Move = Move(t: nat, a: Action)

  function OpOf(pc: Pc): Op
    requires !pc.Idle?
  {
    if pc.Linked? then Push(pc.e) else pc.op
  }

  /** Pushing asks for an entry that the thread holds. */
  predicate Enabled(s: State, m: Move) {
    && m.t < |s.threads|
    && var th := s.threads[m.t];
       match m.a {
         case CallPush(e) => th.pc.Idle? && e in th.held
         case CallFlush => th.pc.Idle?
         case PopEntry => th.pc.Idle? && s.header.next < |s.links|
         case ReadNext => th.pc.Called? || th.pc.HasRest?
         case ReadRest => th.pc.Called? || th.pc.HasNext?
         case LinkEntry => th.pc.HasHeader? && th.pc.op.Push? && th.pc.op.e < |s.links|
         case Exchange => th.pc.Linked? || (th.pc.HasHeader? && th.pc.op.Flush? && th.pc.h.next != 0)
         case ReturnNull => th.pc.HasHeader? && th.pc.op.Flush? && th.pc.h.next == 0
       }
  }

  function At(s: State, t: nat, th: Thread): State
    requires t < |s.threads|
  {
    s.(threads := s.threads[t := th])
  }

  function Done(th: Thread): Thread { th.(pc := Idle, returned := th.returned + 1) }

  /** A flush that finds a null pointer takes effect at that moment. */
  function SeesNext(s: State, t: nat, op: Op): State {
    if op.Flush? && s.header.next == 0 then s.(log := s.log + [Flushed(t, 0)]) else s
  }

  function NextRead(s: State, t: nat): State
    requires Enabled(s, Move(t, ReadNext))
  {
    var th := s.threads[t];
    var pc := if th.pc.Called? then HasNext(th.pc.op, s.header.next)
              else HasHeader(th.pc.op, Header(s.header.next, th.pc.depth, th.pc.sequence));
    At(SeesNext(s, t, th.pc.op), t, th.(pc := pc))
  }

  function NextRest(s: State, t: nat): State
    requires Enabled(s, Move(t, ReadRest))
  {
    var th := s.threads[t];
    var pc := if th.pc.Called? then HasRest(th.pc.op, s.header.depth, s.header.sequence)
              else HasHeader(th.pc.op, Header(th.pc.next, s.header.depth, s.header.sequence));
    At(s, t, th.(pc := pc))
  }

  function NextExchange(s: State, t: nat): State
    requires Enabled(s, Move(t, Exchange))
  {
    var th := s.threads[t];
    if s.header != th.pc.h then
      At(SeesNext(s, t, OpOf(th.pc)), t, th.(pc := HasHeader(OpOf(th.pc), s.header)))
    else if th.pc.Linked? then
      At(s.(header := PushedHeader(th.pc.h, th.pc.e), stack := [th.pc.e] + s.stack,
            log := s.log + [Pushed(t, th.pc.e, th.pc.h.next)]), t, Done(th))
    else
      At(s.(header := FlushedHeader(th.pc.h), stack := [], log := s.log + [Flushed(t, th.pc.h.next)]), t,
         Done(th.(held := th.held + set e | e in s.stack)))
  }

  function NextPop(s: State, t: nat): State
    requires Enabled(s, Move(t, PopEntry))
  {
    var th, e := s.threads[t], s.header.next;
    if e == 0 then At(s.(log := s.log + [Popped(t, 0)]), t, Done(th))
    else At(s.(header := Header(s.links[e], UshortDec(s.header.depth), s.header.sequence),
               stack := if s.stack == [] then [] else s.stack[1..], log := s.log + [Popped(t, e)]), t,
            Done(th.(held := th.held + {e})))
  }

  function Next(s: State, m: Move): State
    requires Enabled(s, m)
  {
    var th := s.threads[m.t];
    match m.a
    case CallPush(e) => At(s, m.t, th.(pc := Called(Push(e)), held := th.held - {e}))
    case CallFlush => At(s, m.t, th.(pc := Called(Flush)))
    case PopEntry => NextPop(s, m.t)
    case ReadNext => NextRead(s, m.t)
    case ReadRest => NextRest(s, m.t)
    case LinkEntry => At(s.(links := s.links[th.pc.op.e := th.pc.h.next]), m.t, th.(pc := Linked(th.pc.op.e, th.pc.h)))
    case Exchange => NextExchange(s, m.t)
    case ReturnNull => At(s, m.t, Done(th))
  }

  ghost predicate IsRun(ss: seq<State>, ms: seq<Move>) {
    && |ss| == |ms| + 1
    && forall i {:trigger ms[i]} :: 0 <= i < |ms| ==> Enabled(ss[i], ms[i]) && ss[i + 1] == Next(ss[i], ms[i])
  }

  // ---------- the reference: a stack whose operations are atomic ----------

  function Apply(stack: seq<nat>, e: Event): Option<seq<nat>> {
    match e
    case Pushed(_, entry, previous) => if previous == First(stack) then Some([entry] + stack) else None
    case Popped(_, entry) =>
      if entry != First(stack) then None else if stack == [] then Some([]) else Some(stack[1..])
    case Flushed(_, first) => if first == First(stack) then Some([]) else None
  }

  /** What an atomic stack holds after the first n operations, if each returned what it should. */
  function Through(log: seq<Event>, n: nat): Option<seq<nat>>
    requires n <= |log|
  {
    if n == 0 then Some([])
    else if Through(log, n - 1).None? then None
    else Apply(Through(log, n - 1).value, log[n - 1])
  }

  function Replay(log: seq<Event>): Option<seq<nat>> { Through(log, |log|) }

  /** How many of the first n operations are those of thread t. */
  function CountTo(log: seq<Event>, t: nat, n: nat): nat
    requires n <= |log|
  {
    if n == 0 then 0 else CountTo(log, t, n - 1) + if log[n - 1].t == t then 1 else 0
  }

  function EventsOf(log: seq<Event>, t: nat): nat { CountTo(log, t, |log|) }

  lemma {:induction false} ThroughSame(log: seq<Event>, e: Event, n: nat)
    requires n <= |log|
    ensures Through(log + [e], n) == Through(log, n)
  {
    if n > 0 {
      ThroughSame(log, e, n - 1);
      assert (log + [e])[n - 1] == log[n - 1];
    }
  }

  lemma {:induction false} CountSame(log: seq<Event>, e: Event, t: nat, n: nat)
    requires n <= |log|
    ensures CountTo(log + [e], t, n) == CountTo(log, t, n)
  {
    if n > 0 {
      CountSame(log, e, t, n - 1);
      assert (log + [e])[n - 1] == log[n - 1];
    }
  }

  lemma Extends(log: seq<Event>, e: Event)
    ensures Replay(log + [e]) == if Replay(log).None? then None else Apply(Replay(log).value, e)
    ensures forall t: nat :: EventsOf(log + [e], t) == EventsOf(log, t) + if e.t == t then 1 else 0
  {
    ThroughSame(log, e, |log|);
    assert (log + [e])[|log|] == e;
    forall t: nat ensures EventsOf(log + [e], t) == EventsOf(log, t) + if e.t == t then 1 else 0 {
      CountSame(log, e, t, |log|);
    }
  }

  // ---------- invariants ----------

  /** In how many places entry e is: with a thread that holds it, or that is pushing it. */
  function PlacesIn(e: nat, th: Thread): nat {
    (if e in th.held then 1 else 0) + if !th.pc.Idle? && OpOf(th.pc) == Push(e) then 1 else 0
  }

  function PlacesW(e: nat): Thread -> nat { (th: Thread) => PlacesIn(e, th) }

  ghost function Places(s: State, e: nat): nat {
    Sum(s.threads, PlacesW(e)) + if e in s.stack then 1 else 0
  }

  /** The list is empty and every entry is held by one thread. */
  ghost predicate Initial(s: State) {
    && s.header == EMPTY && s.stack == [] && s.log == []
    && |s.links| > 0
    && (forall t :: 0 <= t < |s.threads| ==> s.threads[t].pc.Idle? && s.threads[t].returned == 0)
    && (forall t, e :: 0 <= t < |s.threads| && e in s.threads[t].held ==> 0 < e < |s.links|)
    && (forall e :: 0 < e < |s.links| ==> Places(s, e) == 1)
  }

  /** A flush that has seen the null pointer has taken effect but not returned. */
  predicate SawNull(pc: Pc) {
    (pc.HasNext? && pc.op.Flush? && pc.next == 0) || (pc.HasHeader? && pc.op.Flush? && pc.h.next == 0)
  }

  predicate PcValid(links: seq<nat>, pc: Pc) {
    (!pc.Idle? && OpOf(pc).Push? ==> 0 < OpOf(pc).e < |links|) && (pc.Linked? ==> links[pc.e] == pc.h.next)
  }

  ghost predicate ThreadInv(s: State, t: nat)
    requires t < |s.threads|
  {
    && PcValid(s.links, s.threads[t].pc)
    && (forall e :: e in s.threads[t].held ==> 0 < e < |s.links|)
    && EventsOf(s.log, t) == s.threads[t].returned + if SawNull(s.threads[t].pc) then 1 else 0
  }

  ghost predicate Inv(s: State) {
    && |s.links| > 0
    && Represents(s.header, s.links, s.stack)
    && Replay(s.log) == Some(s.stack)
    && (forall e :: 0 < e < |s.links| ==> Places(s, e) == 1)
    && (forall t :: 0 <= t < |s.threads| ==> ThreadInv(s, t))
  }

  // ---------- every step keeps the invariant ----------

  /** Thread t changes; everyone else keeps what it has. */
  lemma Moves(s: State, s': State, t: nat)
    requires Inv(s) && t < |s.threads| && |s'.threads| == |s.threads| && s'.threads == s.threads[t := s'.threads[t]]
    requires |s'.links| == |s.links|
    requires forall e :: 0 < e < |s.links| && s'.links[e] != s.links[e] ==> PlacesIn(e, s.threads[t]) > 0
    requires ThreadInv(s', t)
    requires forall u: nat :: u != t ==> EventsOf(s'.log, u) == EventsOf(s.log, u)
    requires forall e :: 0 < e < |s.links| ==>
               PlacesIn(e, s'.threads[t]) + (if e in s'.stack then 1 else 0)
               == PlacesIn(e, s.threads[t]) + if e in s.stack then 1 else 0
    ensures forall e :: 0 < e < |s'.links| ==> Places(s', e) == 1
    ensures forall u :: 0 <= u < |s'.threads| ==> ThreadInv(s', u)
  {
    forall e | 0 < e < |s'.links| ensures Places(s', e) == 1 {
      assert Places(s, e) == 1;
      SumUpdate(s.threads, t, s'.threads[t], PlacesW(e));
    }
    forall u | 0 <= u < |s'.threads| ensures ThreadInv(s', u) {
      if u != t {
        assert ThreadInv(s, u);
        var pc := s.threads[u].pc;
        if pc.Linked? {
          assert Places(s, pc.e) == 1;
          SumCovers(s.threads, t, u, PlacesW(pc.e));
        }
      }
    }
  }

  /** Whatever thread t holds or is pushing is not on the list. */
  lemma OwnIsOff(s: State, t: nat, e: nat)
    requires Inv(s) && t < |s.threads| && 0 < e < |s.links| && PlacesIn(e, s.threads[t]) > 0
    ensures e !in s.stack && PlacesIn(e, s.threads[t]) == 1
  {
    assert Places(s, e) == 1;
    SumCovers(s.threads, t, t, PlacesW(e));
  }

  /** What is on the list is held and pushed by nobody. */
  lemma ListedIsFree(s: State, t: nat, e: nat)
    requires Inv(s) && t < |s.threads| && e in s.stack
    ensures 0 < e < |s.links| && PlacesIn(e, s.threads[t]) == 0
  {
    ChainedInside(Memory(s.links), s.header.next, s.stack);
    assert Places(s, e) == 1;
    SumCovers(s.threads, t, t, PlacesW(e));
  }

  lemma CallKeepsInv(s: State, m: Move)
    requires Inv(s) && Enabled(s, m) && (m.a.CallPush? || m.a.CallFlush? || m.a.ReturnNull?)
    ensures Inv(Next(s, m))
  {
    assert ThreadInv(s, m.t);
    if m.a.CallPush? { OwnIsOff(s, m.t, m.a.e); }
    Moves(s, Next(s, m), m.t);
  }

  lemma NullMeansEmpty(s: State)
    requires Inv(s)
    ensures s.header.next == First(s.stack) && (s.header.next == 0 <==> s.stack == [])
  {
    ChainedInside(Memory(s.links), s.header.next, s.stack);
  }

  /** A thread goes on with the same operation, and perhaps a flush takes effect. */
  lemma GoesOn(s: State, t: nat, log: seq<Event>, pc: Pc)
    requires Inv(s) && t < |s.threads| && !s.threads[t].pc.Idle? && !pc.Idle? && !pc.Linked?
    requires OpOf(pc) == OpOf(s.threads[t].pc)
    requires Replay(log) == Some(s.stack) && forall u: nat :: u != t ==> EventsOf(log, u) == EventsOf(s.log, u)
    requires EventsOf(log, t) == s.threads[t].returned + if SawNull(pc) then 1 else 0
    ensures Inv(At(s.(log := log), t, s.threads[t].(pc := pc)))
  {
    assert ThreadInv(s, t);
    Moves(s, At(s.(log := log), t, s.threads[t].(pc := pc)), t);
  }

  /** Seeing the next entry: for a flush a null pointer is the effect. */
  lemma SeesKeeps(s: State, t: nat, op: Op)
    requires Inv(s) && t < |s.threads|
    ensures var log := SeesNext(s, t, op).log;
      && SeesNext(s, t, op) == s.(log := log) && Replay(log) == Some(s.stack)
      && (forall u: nat :: u != t ==> EventsOf(log, u) == EventsOf(s.log, u))
      && EventsOf(log, t) == EventsOf(s.log, t) + if op.Flush? && s.header.next == 0 then 1 else 0
  {
    NullMeansEmpty(s);
    Extends(s.log, Flushed(t, 0));
  }

  lemma ReadNextKeepsInv(s: State)
    requires Inv(s)
    ensures forall t: nat :: Enabled(s, Move(t, ReadNext)) ==> Inv(NextRead(s, t))
  {
    forall t: nat | Enabled(s, Move(t, ReadNext)) ensures Inv(NextRead(s, t)) {
      var th := s.threads[t];
      assert ThreadInv(s, t);
      SeesKeeps(s, t, th.pc.op);
      GoesOn(s, t, SeesNext(s, t, th.pc.op).log, NextRead(s, t).threads[t].pc);
    }
  }

  lemma ReadRestKeepsInv(s: State, t: nat)
    requires Inv(s) && Enabled(s, Move(t, ReadRest))
    ensures Inv(NextRest(s, t))
  {
    assert ThreadInv(s, t);
    GoesOn(s, t, s.log, NextRest(s, t).threads[t].pc);
  }

  lemma LinkKeepsInv(s: State)
    requires Inv(s)
    ensures forall m :: Enabled(s, m) && m.a.LinkEntry? ==> Inv(Next(s, m))
  {
    forall m | Enabled(s, m) && m.a.LinkEntry? ensures Inv(Next(s, m)) {
      assert ThreadInv(s, m.t);
      var pc := s.threads[m.t].pc;
      OwnIsOff(s, m.t, pc.op.e);
      LinkElsewhere(s.links, pc.op.e, pc.h.next, s.header.next, s.stack);
      Moves(s, Next(s, m), m.t);
    }
  }

  lemma RetryKeepsInv(s: State)
    requires Inv(s)
    ensures forall t: nat :: Enabled(s, Move(t, Exchange)) && s.header != s.threads[t].pc.h ==> Inv(NextExchange(s, t))
  {
    forall t: nat | Enabled(s, Move(t, Exchange)) && s.header != s.threads[t].pc.h ensures Inv(NextExchange(s, t)) {
      var op := OpOf(s.threads[t].pc);
      assert ThreadInv(s, t);
      SeesKeeps(s, t, op);
      GoesOn(s, t, SeesNext(s, t, op).log, HasHeader(op, s.header));
    }
  }

  lemma PushKeepsInv(s: State)
    requires Inv(s)
    ensures forall t: nat :: Enabled(s, Move(t, Exchange)) && s.threads[t].pc.Linked? && s.header == s.threads[t].pc.h ==>
              Inv(NextExchange(s, t))
  {
    forall t: nat | Enabled(s, Move(t, Exchange)) && s.threads[t].pc.Linked? && s.header == s.threads[t].pc.h
      ensures Inv(NextExchange(s, t))
    {
      assert ThreadInv(s, t);
      NullMeansEmpty(s);
      var e := s.threads[t].pc.e;
      OwnIsOff(s, t, e);
      PushRepresents(s.header, s.links, s.stack, e);
      Extends(s.log, Pushed(t, e, s.header.next));
      Moves(s, NextExchange(s, t), t);
    }
  }

  lemma FlushKeepsInv(s: State)
    requires Inv(s)
    ensures forall t: nat :: Enabled(s, Move(t, Exchange)) && !s.threads[t].pc.Linked? && s.header == s.threads[t].pc.h ==>
              Inv(NextExchange(s, t))
  {
    forall t: nat | Enabled(s, Move(t, Exchange)) && !s.threads[t].pc.Linked? && s.header == s.threads[t].pc.h
      ensures Inv(NextExchange(s, t))
    {
      assert ThreadInv(s, t);
      NullMeansEmpty(s);
      Extends(s.log, Flushed(t, s.header.next));
      forall e | e in s.stack ensures 0 < e < |s.links| && PlacesIn(e, s.threads[t]) == 0 { ListedIsFree(s, t, e); }
      Moves(s, NextExchange(s, t), t);
    }
  }

  lemma PopKeepsInv(s: State)
    requires Inv(s)
    ensures forall t: nat :: Enabled(s, Move(t, PopEntry)) ==> Inv(NextPop(s, t))
  {
    forall t: nat | Enabled(s, Move(t, PopEntry)) ensures Inv(NextPop(s, t)) {
      assert ThreadInv(s, t);
      NullMeansEmpty(s);
      Extends(s.log, Popped(t, s.header.next));
      if s.header.next != 0 {
        PopRepresents(s.header, s.links, s.stack);
        ListedIsFree(s, t, s.header.next);
        assert s.stack == [s.stack[0]] + s.stack[1..];
      }
      Moves(s, NextPop(s, t), t);
    }
  }

  lemma StepKeepsInv(s: State)
    requires Inv(s)
    ensures forall m :: Enabled(s, m) ==> Inv(Next(s, m))
  {
    forall m | Enabled(s, m) ensures Inv(Next(s, m)) {
      match m.a
      case CallPush(_) => CallKeepsInv(s, m);
      case CallFlush => CallKeepsInv(s, m);
      case ReturnNull => CallKeepsInv(s, m);
      case ReadNext => ReadNextKeepsInv(s);
      case ReadRest => ReadRestKeepsInv(s, m.t);
      case LinkEntry => LinkKeepsInv(s);
      case PopEntry => PopKeepsInv(s);
      case Exchange =>
        if s.header != s.threads[m.t].pc.h { RetryKeepsInv(s); }
        else if s.threads[m.t].pc.Linked? { PushKeepsInv(s); }
        else { FlushKeepsInv(s); }
    }
  }

  lemma {:induction false} RunKeepsInv(ss: seq<State>, ms: seq<Move>, k: nat)
    requires IsRun(ss, ms) && Initial(ss[0]) && k < |ss|
    ensures forall j :: 0 <= j <= k ==> Inv(ss[j])
  {
    if k > 0 {
      RunKeepsInv(ss, ms, k - 1);
      assert Enabled(ss[k - 1], ms[k - 1]) && ss[k] == Next(ss[k - 1], ms[k - 1]);
      StepKeepsInv(ss[k - 1]);
    }
  }

  // ---------- what the list promises, over every interleaving ----------

  /** The list is an atomic stack: at every moment the operations that have taken effect, in
      that order and with the values they return, are a history of an atomic stack, and memory
      holds exactly what that stack holds, with Depth its length modulo 65536. */
  lemma RefinesAtomicStack(ss: seq<State>, ms: seq<Move>)
    requires IsRun(ss, ms) && Initial(ss[0])
    ensures forall k :: 0 <= k < |ss| ==>
              Replay(ss[k].log).Some? && Represents(ss[k].header, ss[k].links, Replay(ss[k].log).value)
  {
    RunKeepsInv(ss, ms, |ms|);
    forall k | 0 <= k < |ss|
      ensures Replay(ss[k].log).Some? && Represents(ss[k].header, ss[k].links, Replay(ss[k].log).value)
    {
      assert Inv(ss[k]);
    }
  }

  lemma OthersAreStill(s: State, m: Move, t: nat)
    requires Enabled(s, m) && t < |s.threads| && m.t != t
    ensures |Next(s, m).threads| == |s.threads| && Next(s, m).threads[t] == s.threads[t]
  {
  }

  /** Each operation takes effect exactly once, between its call and its return: a thread that
      is not in a call has caused one event for each return, and a thread in a call has caused
      at most one more; and only a thread's own steps make its events. */
  lemma OneEffectPerCall(ss: seq<State>, ms: seq<Move>, k: nat, t: nat)
    requires IsRun(ss, ms) && Initial(ss[0]) && k < |ss| && t < |ss[k].threads|
    ensures EventsOf(ss[k].log, t) - ss[k].threads[t].returned == if SawNull(ss[k].threads[t].pc) then 1 else 0
    ensures k < |ms| && ms[k].t != t ==> EventsOf(ss[k + 1].log, t) == EventsOf(ss[k].log, t)
  {
    RunKeepsInv(ss, ms, k);
    assert ThreadInv(ss[k], t);
    if k < |ms| && ms[k].t != t {
      assert Enabled(ss[k], ms[k]) && ss[k + 1] == Next(ss[k], ms[k]);
      OthersAreStill(ss[k], ms[k], t);
      StepKeepsInv(ss[k]);
      assert ThreadInv(ss[k + 1], t);
    }
  }

  /** The event is what this thread is in the middle of, and says of itself. */
  predicate Fits(s: State, m: Move, e: Event)
    requires Enabled(s, m)
  {
    var th := s.threads[m.t];
    && e.t == m.t
    && match e
       case Popped(_, _) => m.a.PopEntry?
       case Pushed(_, entry, _) => !th.pc.Idle? && OpOf(th.pc) == Push(entry)
       case Flushed(_, _) => !th.pc.Idle? && OpOf(th.pc) == Flush
  }

  /** A step causes one event at most, and that is one of the operation its thread has called. */
  lemma EventsFitCalls(s: State, m: Move)
    requires Inv(s) && Enabled(s, m)
    ensures Next(s, m).log == s.log || (Next(s, m).log == s.log + [Next(s, m).log[|s.log|]] && Fits(s, m, Next(s, m).log[|s.log|]))
  {
    assert ThreadInv(s, m.t);
  }

  function Pushes(log: seq<Event>, n: nat): nat
    requires n <= |log|
  {
    if n == 0 then 0 else Pushes(log, n - 1) + if log[n - 1].Pushed? then 1 else 0
  }

  lemma {:induction false} PushesSame(log: seq<Event>, log': seq<Event>, n: nat)
    requires n <= |log| <= |log'| && log'[..|log|] == log
    ensures Pushes(log', n) == Pushes(log, n)
  {
    if n > 0 {
      PushesSame(log, log', n - 1);
      assert log'[n - 1] == log'[..|log|][n - 1];
    }
  }

  /** The sequence number of the header moves with pushes only, by one each. */
  lemma SequenceMoves(s: State, m: Move)
    requires Inv(s) && Enabled(s, m)
    ensures var s' := Next(s, m);
      s'.header.sequence == if |s'.log| == |s.log| + 1 && s'.log[|s.log|].Pushed?
                            then UshortInc(s.header.sequence) else s.header.sequence
  {
  }

  /** Over every interleaving the sequence number is the number of pushes modulo 65536. */
  lemma {:induction false} SequenceCountsPushes(ss: seq<State>, ms: seq<Move>, k: nat)
    requires IsRun(ss, ms) && Initial(ss[0]) && k < |ss|
    ensures ss[k].header.sequence == Pushes(ss[k].log, |ss[k].log|) % 0x1_0000
  {
    if k > 0 {
      SequenceCountsPushes(ss, ms, k - 1);
      RunKeepsInv(ss, ms, k - 1);
      var s, m := ss[k - 1], ms[k - 1];
      assert Enabled(s, m) && ss[k] == Next(s, m);
      assert Inv(s);
      hide Inv, Next, Enabled, Fits;
      EventsFitCalls(s, m);
      SequenceMoves(s, m);
      PushesSame(s.log, ss[k].log, |s.log|);
      DepthWraps(Pushes(s.log, |s.log|));
    }
  }

  /** No entry is lost or duplicated: each is on the list, held by one thread, or being pushed
      by one thread, and in exactly one of these places; and it is on the list only once. */
  lemma NothingLostOrDuplicated(ss: seq<State>, ms: seq<Move>, k: nat, e: nat)
    requires IsRun(ss, ms) && Initial(ss[0]) && k < |ss| && 0 < e < |ss[k].links|
    ensures Places(ss[k], e) == 1 && NoDup(ss[k].stack)
  {
    RunKeepsInv(ss, ms, k);
  }

  /** Thread t has the whole chain that was on the list, and nothing is left there. */
  ghost predicate HandsOver(s: State, s': State, t: nat)
    requires t < |s.threads| && s.threads[t].pc.HasHeader?
  {
    && Chained(Memory(s'.links), s.threads[t].pc.h.next, s.stack) && s'.stack == []
    && |s'.threads| > t && forall e :: e in s.stack ==> e in s'.threads[t].held
  }

  /** A flush hands over the whole chain: from the entry it returns, the links lead through
      everything that was on the list, and all of it is now the caller's. */
  lemma FlushTakesTheChain(ss: seq<State>, ms: seq<Move>, k: nat)
    requires IsRun(ss, ms) && Initial(ss[0]) && k < |ms| && Enabled(ss[k], ms[k])
    ensures forall t: nat ::
              ms[k] == Move(t, Exchange) && ss[k].threads[t].pc.HasHeader? && ss[k].header == ss[k].threads[t].pc.h ==>
                HandsOver(ss[k], ss[k + 1], t)
  {
    RunKeepsInv(ss, ms, k);
    assert ss[k + 1] == Next(ss[k], ms[k]);
  }

  /** A thread goes round its loop again only because another thread changed the header since
      it read it; left alone, its next exchange succeeds. */
  lemma RetryThenSucceeds(s: State, t: nat)
    requires Inv(s) && Enabled(s, Move(t, Exchange)) && s.threads[t].pc.Linked? && s.header != s.threads[t].pc.h
    ensures Enabled(Next(s, Move(t, Exchange)), Move(t, LinkEntry))
    ensures Enabled(Next(Next(s, Move(t, Exchange)), Move(t, LinkEntry)), Move(t, Exchange))
    ensures Next(Next(Next(s, Move(t, Exchange)), Move(t, LinkEntry)), Move(t, Exchange)).stack
            == [s.threads[t].pc.e] + s.stack
  {
    assert ThreadInv(s, t);
  }

  // ---------- progress ----------

  /** What the thread has read of the header is not so any more. */
  predicate Stale(pc: Pc, h: Header) {
    match pc
    case Idle => false
    case Called(_) => false
    case HasNext(_, next) => next != h.next
    case HasRest(_, depth, sequence) => depth != h.depth || sequence != h.sequence
    case HasHeader(_, g) => g != h
    case Linked(_, g) => g != h
  }

  /** How many steps its call still takes if nobody interferes, at most. */
  function StepsLeft(pc: Pc, h: Header): nat {
    (if Stale(pc, h) then 2 else 0) +
    match pc
    case Idle => 0
    case Called(_) => 4
    case HasNext(_, _) => 3
    case HasRest(_, _, _) => 3
    case HasHeader(_, _) => 2
    case Linked(_, _) => 1
  }

  predicate Starts(a: Action) { a.CallPush? || a.CallFlush? || a.PopEntry? }

  /** Each own step brings a call nearer to its end; only an operation of another thread that takes
      effect meanwhile can set it back, by two steps. */
  lemma StepsRunOut(s: State, m: Move, t: nat)
    requires Inv(s) && Enabled(s, m) && t < |s.threads|
    ensures var s' := Next(s, m);
      && |s'.threads| == |s.threads| && |s'.log| >= |s.log|
      && var before, after := StepsLeft(s.threads[t].pc, s.header), StepsLeft(s'.threads[t].pc, s'.header);
         if m.t != t then after <= before + 2 * (|s'.log| - |s.log|)
         else if Starts(m.a) then before == 0 && after == if m.a.PopEntry? then 0 else 4
         else after < before
  {
    hide Inv;
  }

  /** A thread that is in a call can always take its next step. */
  lemma CallsGoOn(s: State, t: nat) returns (a: Action)
    requires Inv(s) && t < |s.threads| && !s.threads[t].pc.Idle?
    ensures Enabled(s, Move(t, a)) && !Starts(a)
  {
    assert ThreadInv(s, t);
    match s.threads[t].pc
    case Called(_) => a := ReadNext;
    case HasNext(_, _) => a := ReadRest;
    case HasRest(_, _, _) => a := ReadNext;
    case HasHeader(op, h) => a := if op.Push? then LinkEntry else if h.next == 0 then ReturnNull else Exchange;
    case Linked(_, _) => a := Exchange;
  }

  /** How many operations thread t starts, and how many other steps it takes, in the first k moves. */
  function Started(ms: seq<Move>, t: nat, k: nat): nat
    requires k <= |ms|
  {
    if k == 0 then 0 else Started(ms, t, k - 1) + if ms[k - 1].t == t && Starts(ms[k - 1].a) then 1 else 0
  }

  function Taken(ms: seq<Move>, t: nat, k: nat): nat
    requires k <= |ms|
  {
    if k == 0 then 0 else Taken(ms, t, k - 1) + if ms[k - 1].t == t && !Starts(ms[k - 1].a) then 1 else 0
  }

  /** The list is lock-free: over every interleaving a thread takes at most four steps for each
      operation it starts and two for each operation that takes effect, so that threads cannot keep
      each other going round without any of them getting through. */
  lemma {:induction false} LockFree(ss: seq<State>, ms: seq<Move>, k: nat, t: nat)
    requires IsRun(ss, ms) && Initial(ss[0]) && k < |ss| && t < |ss[0].threads|
    ensures |ss[k].threads| == |ss[0].threads|
    ensures Taken(ms, t, k) + StepsLeft(ss[k].threads[t].pc, ss[k].header) <= 4 * Started(ms, t, k) + 2 * |ss[k].log|
  {
    hide Inv, Next, Enabled, Starts;
    assert Initial(ss[0]) && k == 0 ==> StepsLeft(ss[k].threads[t].pc, ss[k].header) == 0;
    hide Initial, StepsLeft;
    if k > 0 {
      LockFree(ss, ms, k - 1, t);
      RunKeepsInv(ss, ms, k - 1);
      assert Inv(ss[k - 1]) && Enabled(ss[k - 1], ms[k - 1]) && ss[k] == Next(ss[k - 1], ms[k - 1]);
      StepsRunOut(ss[k - 1], ms[k - 1], t);
    }
  }
}

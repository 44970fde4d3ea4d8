/** Reading the interrupt time, nboxkrnl/ke/kernel.cpp.

    KeQueryInterruptTime runs against its writer, HalpClockIsr in nboxkrnl/hal/interrupt.cpp. The
    64-bit time is kept in three 32-bit words; the writer stores High2, Low and High in this order,
    the reader loads High, Low and High2. */
module InterruptTime {
  import opened Wrappers

  const WORD := 0x1_0000_0000

  /** A 64-bit time as two words. */
  datatype Time = Time(high: nat, low: nat)

  predicate Fits(t: Time) { t.high < WORD && t.low < WORD }

  function Units(t: Time): nat { t.high * WORD + t.low }

  predicate NotAfter(t: Time, u: Time) { t.high < u.high || (t.high == u.high && t.low <= u.low) }

  /** add and adc on the two halves; the carry out of the upper half is lost. */
  function Add(t: Time, increment: Time): Time {
    var low := t.low + increment.low;
    var carry := if low >= WORD then 1 else 0;
    var high := t.high + increment.high + carry;
    Time(if high >= WORD then high - WORD else high, if low >= WORD then low - WORD else low)
  }

  datatype Pc = Quiet | High2Stored | LowStored

  /** The three words; `target` is the time being stored, and `value` the time whose low word
      was stored last: the update takes effect with that store. */
  datatype Clock = Clock(low: nat, high: nat, high2: nat, value: Time, target: Time, pc: Pc)

  function Started(t: Time): Clock { Clock(t.low, t.high, t.high, t, t, Quiet) }

  /** The interrupt reads Low and High, adds, and stores High2. It must not run past 2^64. */
  predicate CanBegin(c: Clock, increment: Time) {
    c.pc.Quiet? && Fits(increment) && Units(Time(c.high, c.low)) + Units(increment) < WORD * WORD
  }

  function Begun(c: Clock, increment: Time): Clock {
    var t := Add(Time(c.high, c.low), increment);
    c.(high2 := t.high, target := t, pc := High2Stored)
  }

  function StoredLow(c: Clock): Clock { c.(low := c.target.low, value := c.target, pc := LowStored) }

  function StoredHigh(c: Clock): Clock { c.(high := c.target.high, pc := Quiet) }

  /** One store of the writer, or nothing. */
  ghost predicate Steps(c: Clock, d: Clock) {
    || d == c
    || (exists increment :: CanBegin(c, increment) && d == Begun(c, increment))
    || (c.pc.High2Stored? && d == StoredLow(c))
    || (c.pc.LowStored? && d == StoredHigh(c))
  }

  ghost predicate StepAt(mem: seq<Clock>, i: nat)
    requires 1 <= i < |mem|
  {
    Steps(mem[i - 1], mem[i])
  }

  /** Memory at successive moments. */
  ghost predicate IsTrace(mem: seq<Clock>) {
    && mem != [] && mem[0] == Started(mem[0].value) && Fits(mem[0].value)
    && forall i {:trigger StepAt(mem, i)} :: 1 <= i < |mem| ==> StepAt(mem, i)
  }

  ghost predicate Inv(c: Clock) {
    && Fits(c.value) && Fits(c.target) && NotAfter(c.value, c.target)
    && c.low == c.value.low
    && match c.pc {
      case Quiet => c.value == c.target && c.high == c.high2 == c.value.high
      case High2Stored => c.high == c.value.high && c.high2 == c.target.high
      case LowStored => c.value == c.target && c.high <= c.value.high && c.high2 == c.value.high
    }
  }

  /** The addition is that of 64-bit numbers, and without overflow the time does not go back. */
  lemma AddIsRight(t: Time, increment: Time)
    requires Fits(t) && Fits(increment)
    ensures var sum := Units(t) + Units(increment);
      && Fits(Add(t, increment)) && Units(Add(t, increment)) == (if sum < WORD * WORD then sum else sum - WORD * WORD)
      && (sum < WORD * WORD ==> NotAfter(t, Add(t, increment)))
  {
    assert t.high + increment.high < WORD <==> (t.high + increment.high) * WORD < WORD * WORD;
  }

  lemma OrderIsNumeric(t: Time, u: Time)
    requires Fits(t) && Fits(u)
    ensures NotAfter(t, u) <==> Units(t) <= Units(u)
  {
    if t.high < u.high { assert u.high >= t.high + 1; } else if t.high > u.high { assert t.high >= u.high + 1; }
  }

  lemma StepKeepsInv(c: Clock, d: Clock)
    requires Inv(c) && Steps(c, d)
    ensures Inv(d) && NotAfter(c.value, d.value)
  {
    if exists increment :: CanBegin(c, increment) && d == Begun(c, increment) {
      var increment :| CanBegin(c, increment) && d == Begun(c, increment);
      AddIsRight(c.value, increment);
    }
  }

  /** An update is over after its three stores; the time has gone on by the increment, and the two
      copies of the upper word agree again. */
  lemma UpdatesAdd(c: Clock, increment: Time)
    requires Inv(c) && CanBegin(c, increment)
    ensures var d := StoredHigh(StoredLow(Begun(c, increment)));
      && d == Started(d.value) && Units(d.value) == Units(c.value) + Units(increment)
  {
    AddIsRight(c.value, increment);
  }

  lemma {:induction false} TraceKeepsInv(mem: seq<Clock>, i: nat)
    requires IsTrace(mem) && i < |mem|
    ensures forall j :: 0 <= j <= i ==> Inv(mem[j])
  {
    if i > 0 {
      TraceKeepsInv(mem, i - 1);
      assert StepAt(mem, i);
      StepKeepsInv(mem[i - 1], mem[i]);
    }
  }

  /** The clock never goes back. */
  lemma {:induction false} Monotone(mem: seq<Clock>, i: nat, j: nat)
    requires IsTrace(mem) && i <= j < |mem|
    ensures NotAfter(mem[i].value, mem[j].value) && Units(mem[i].value) <= Units(mem[j].value)
  {
    TraceKeepsInv(mem, i);
    TraceKeepsInv(mem, j);
    if i < j {
      Monotone(mem, i, j - 1);
      TraceKeepsInv(mem, j - 1);
      assert StepAt(mem, j);
      StepKeepsInv(mem[j - 1], mem[j]);
    }
    OrderIsNumeric(mem[i].value, mem[j].value);
  }

  /** Three loads at moments a, b and c that agree on the upper word give the time of moment b,
      however many updates begin, end or stand half-way in between. */
  lemma AgreeingLoads(mem: seq<Clock>, a: nat, b: nat, c: nat)
    requires IsTrace(mem) && a <= b <= c < |mem|
    requires mem[a].high == mem[c].high2
    ensures Time(mem[a].high, mem[b].low) == mem[b].value
  {
    TraceKeepsInv(mem, a);
    TraceKeepsInv(mem, b);
    TraceKeepsInv(mem, c);
    Monotone(mem, a, b);
    Monotone(mem, b, c);
  }

  /** Loads that disagree have seen an update in progress, or one that came in between. */
  lemma DisagreeingLoads(mem: seq<Clock>, a: nat, c: nat)
    requires IsTrace(mem) && a <= c < |mem|
    requires mem[a].high != mem[c].high2
    ensures mem[a].pc != Quiet || mem[c].pc != Quiet || mem[a].value != mem[c].value
  {
    TraceKeepsInv(mem, a);
    TraceKeepsInv(mem, c);
  }

  ghost predicate Moments(mem: seq<Clock>, at: seq<nat>) {
    && (forall i :: 0 <= i < |at| ==> at[i] < |mem|)
    && (forall i, j :: 0 <= i <= j < |at| ==> at[i] <= at[j])
  }

  /** The read loop, with the moments of its loads. It returns only a time that the clock really
      had during the call, and it goes round again only if the clock was being changed. */
  method KeQueryInterruptTime(mem: seq<Clock>, at: seq<nat>) returns (r: Option<Time>)
    requires IsTrace(mem) && Moments(mem, at)
    ensures r.Some? ==> at != [] && exists m :: at[0] <= m <= at[|at| - 1] && m < |mem| && r.value == mem[m].value
    ensures r.None? ==> forall k {:trigger at[3 * k]} :: 0 <= k && 3 * k + 2 < |at| ==>
              var c, d := mem[at[3 * k]], mem[at[3 * k + 2]];
              c.pc != Quiet || d.pc != Quiet || c.value != d.value
  {
    var n := 0;
    ghost var rounds := 0;
    while n + 2 < |at|
      invariant n == 3 * rounds && 0 <= n
      invariant forall k {:trigger at[3 * k]} :: 0 <= k < rounds ==>
                  3 * k + 2 < |at| &&
                  (mem[at[3 * k]].pc != Quiet || mem[at[3 * k + 2]].pc != Quiet
                   || mem[at[3 * k]].value != mem[at[3 * k + 2]].value)
    {
      var high := mem[at[n]].high;
      var low := mem[at[n + 1]].low;
      if high == mem[at[n + 2]].high2 {
        AgreeingLoads(mem, at[n], at[n + 1], at[n + 2]);
        assert at[0] <= at[n + 1] <= at[|at| - 1];
        return Some(Time(high, low));
      }
      DisagreeingLoads(mem, at[n], at[n + 2]);
      n := n + 3;
      rounds := rounds + 1;
    }
    return None;
  }
}

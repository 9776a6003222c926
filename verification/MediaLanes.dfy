/** Lane data of a media jack: reading it until its bits are stable, and the swap of the two groups of
    four lanes (media/sl_media_jack.c). */
module MediaLanes {

  import opened Common

  const MAX_LANES: nat := 4
  const MAX_READS: nat := 4

  /** Loss of signal and loss of lock, one bit a lane. */
  datatype Signal = Signal(txLos: bv8, txLol: bv8, rxLos: bv8, rxLol: bv8)

  datatype Which = TxLos | TxLol | RxLos | RxLol

  function Map(s: Signal, w: Which): bv8 {
    match w case TxLos => s.txLos case TxLol => s.txLol case RxLos => s.rxLos case RxLol => s.rxLol
  }

  /** `dp` packs the data path states of two lanes a byte; `changed` has one bit a lane. */
  datatype Lanes = Lanes(dp: seq<bv8>, changed: bv8, signal: Signal)

  type LaneData = d: Lanes | |d.dp| == 4 witness Lanes([0, 0, 0, 0], 0, Signal(0, 0, 0, 0))

  // ------------------------------------------------------------------ per-lane views

  function Mask(lane: nat): bv8
    requires lane < 8
  {
    match lane
    case 0 => 0x01 case 1 => 0x02 case 2 => 0x04 case 3 => 0x08
    case 4 => 0x10 case 5 => 0x20 case 6 => 0x40 case _ => 0x80
  }

  /** Is some bit of the mask set? */
  predicate Lit(bits: bv8, mask: bv8) { bits & mask != 0 }

  predicate Bit(bits: bv8, lane: nat)
    requires lane < 8
  {
    Lit(bits, Mask(lane))
  }

  /** The state of a lane is the low or the high nibble of its byte. */
  function DpState(d: LaneData, lane: nat): bv8
    requires lane < 8
  {
    if lane % 2 == 0 then d.dp[lane / 2] & 0x0F else (d.dp[lane / 2] >> 4) & 0x0F
  }

  lemma LowAndHigh(b: bv8)
    ensures b == (b & 0x0F) | (((b >> 4) & 0x0F) << 4) && b & 0x0F <= 15
  {
  }

  /** A byte holds the states of an even lane and the odd one after it, the even one's in its low half. */
  lemma StatesPacked(d: LaneData, i: nat)
    requires i < 4
    ensures d.dp[i] == DpState(d, 2 * i) | (DpState(d, 2 * i + 1) << 4) && DpState(d, 2 * i) <= 15
  {
    LowAndHigh(d.dp[i]);
  }

  /** Activated, turning on or off, initialized. */
  predicate Allowed(dpState: bv8) { dpState == 4 || dpState == 5 || dpState == 6 || dpState == 7 }

  predicate ValidBelow(d: LaneData, lanes: bv8, n: nat)
    requires n <= 8
  {
    n == 0 || (ValidBelow(d, lanes, n - 1) && (Bit(lanes, n - 1) ==> Allowed(DpState(d, n - 1))))
  }

  lemma {:induction false} ValidBelowLess(d: LaneData, lanes: bv8, n: nat, m: nat)
    requires n <= m <= 8 && ValidBelow(d, lanes, m)
    ensures ValidBelow(d, lanes, n)
    decreases m
  {
    if n < m {
      ValidBelowLess(d, lanes, n, m - 1);
    }
  }

  /** No requested lane has just changed its state, and those the ASIC has are in a state where their
      signal means something. */
  predicate ValidOn(d: LaneData, lanes: bv8) {
    !Lit(d.changed, lanes) && ValidBelow(d, lanes, MAX_LANES)
  }

  lemma {:induction false} ValidBelowAre(d: LaneData, lanes: bv8, n: nat)
    requires n <= 8
    ensures ValidBelow(d, lanes, n) <==> forall l :: 0 <= l < n && Bit(lanes, l) ==> 4 <= DpState(d, l) <= 7
  {
    if n > 0 {
      ValidBelowAre(d, lanes, n - 1);
    }
  }

  /** Usable lane data: no lane asked for has changed its state, and each of the four lanes there are that is
      asked for is in one of the four states from activated to initialized. */
  lemma ValidExactly(d: LaneData, lanes: bv8)
    ensures ValidOn(d, lanes) <==>
      d.changed & lanes == 0 && forall l :: 0 <= l < 4 && Bit(lanes, l) ==> 4 <= DpState(d, l) <= 7
  {
    ValidBelowAre(d, lanes, 4);
  }

  // ------------------------------------------------------------------ the swap

  function SwapNibbles(x: bv8): bv8 { ((x & 0x0F) << 4) | ((x & 0xF0) >> 4) }

  function SwapSignal(s: Signal): Signal {
    Signal(SwapNibbles(s.txLos), SwapNibbles(s.txLol), SwapNibbles(s.rxLos), SwapNibbles(s.rxLol))
  }

  function Swapped(d: LaneData): LaneData {
    Lanes([d.dp[2], d.dp[3], d.dp[0], d.dp[1]], SwapNibbles(d.changed), SwapSignal(d.signal))
  }

  lemma SwapLit(bits: bv8, mask: bv8)
    ensures Lit(SwapNibbles(bits), mask) <==> Lit(bits, SwapNibbles(mask))
  {
  }

  function Across(lane: nat): nat
    requires lane < 8
  {
    (lane + 4) % 8
  }

  lemma SwapMask(lane: nat)
    requires lane < 8
    ensures SwapNibbles(Mask(lane)) == Mask(Across(lane))
  {
    match lane
    case 0 => case 1 => case 2 => case 3 => case 4 => case 5 => case 6 => case _ =>
  }

  lemma SwapMovesBit(bits: bv8, lane: nat)
    requires lane < 8
    ensures Bit(SwapNibbles(bits), lane) <==> Bit(bits, Across(lane))
  {
    SwapLit(bits, Mask(lane));
    SwapMask(lane);
  }

  lemma SwapMovesState(d: LaneData, lane: nat)
    requires lane < 8
    ensures DpState(Swapped(d), lane) == DpState(d, Across(lane))
  {
    var e := Swapped(d);
    assert Across(lane) % 2 == lane % 2;
    assert e.dp[lane / 2] == d.dp[Across(lane) / 2];
  }

  /** Every view of lane i, the state nibble, the changed bit and the four signal bits, shows what that of
      lane i + 4 modulo 8 showed before. */
  lemma SwapMovesLanes(d: LaneData, lane: nat, w: Which)
    requires lane < 8
    ensures DpState(Swapped(d), lane) == DpState(d, Across(lane))
    ensures Bit(Swapped(d).changed, lane) <==> Bit(d.changed, Across(lane))
    ensures Bit(Map(Swapped(d).signal, w), lane) <==> Bit(Map(d.signal, w), Across(lane))
  {
    SwapMovesState(d, lane);
    SwapMovesBit(d.changed, lane);
    SwapMovesBit(Map(d.signal, w), lane);
    assert Map(Swapped(d).signal, w) == SwapNibbles(Map(d.signal, w));
  }

  lemma SwapTwice(d: LaneData)
    ensures Swapped(Swapped(d)) == d
  {
    assert Swapped(Swapped(d)).dp == d.dp;
  }

  // ------------------------------------------------------------------ accumulation

  function Or(a: Signal, b: Signal): Signal {
    Signal(a.txLos | b.txLos, a.txLol | b.txLol, a.rxLos | b.rxLos, a.rxLol | b.rxLol)
  }

  predicate AllSet(s: Signal) { s == Signal(0xFF, 0xFF, 0xFF, 0xFF) }

  type EightBytes = b: seq<bv8> | |b| == 8 witness [0, 0, 0, 0, 0, 0, 0, 0]

  /** The three bus reads that make up a sample: the transmit and the receive maps, loss of signal first,
      and the data path states. Each can fail. */
  datatype Reply = Reply(tx: Option<(bv8, bv8)>, rx: Option<(bv8, bv8)>, states: Option<EightBytes>)

  function Answered(b: Reply): Option<LaneData> {
    if b.tx.None? || b.rx.None? || b.states.None? then None
    else
      var states := b.states.value;
      Some(Lanes([states[0], states[1], states[2], states[3]], states[6],
                 Signal(b.tx.value.0, b.tx.value.1, b.rx.value.0, b.rx.value.1)))
  }

  /** What the hardware does at the j-th sample. */
  type Reads = nat -> Reply

  /** The samples from the n-th on. */
  function From(hw: Reads, n: nat): Reads { (j: nat) => hw(n + j) }

  /** The j-th sample, swapped if the link's lanes are. */
  function Sample(hw: Reads, swap: bool, j: nat): LaneData {
    match Answered(hw(j))
    case None => Lanes([0, 0, 0, 0], 0, Signal(0, 0, 0, 0))
    case Some(d) => if swap then Swapped(d) else d
  }

  /** The bits of samples 1 to j together; sample 0 only clears what was latched. */
  function OrUpTo(hw: Reads, swap: bool, j: nat): Signal
    requires j >= 1
  {
    if j == 1 then Sample(hw, swap, 1).signal
    else Or(OrUpTo(hw, swap, j - 1), Sample(hw, swap, j).signal)
  }

  /** Sample j cannot be followed by a new bit, or added none. */
  predicate Stable(hw: Reads, swap: bool, j: nat)
    requires j >= 1
  {
    if j == 1 then AllSet(Sample(hw, swap, 1).signal)
    else OrUpTo(hw, swap, j) == OrUpTo(hw, swap, j - 1)
  }

  predicate Usable(hw: Reads, swap: bool, lanes: bv8, j: nat) {
    Answered(hw(j)).Some? && (j >= 1 ==> ValidOn(Sample(hw, swap, j), lanes))
  }

  /** The first k samples were usable and left the bits unstable. */
  predicate Unsettled(hw: Reads, swap: bool, lanes: bv8, k: nat) {
    forall j: nat :: j < k ==> Usable(hw, swap, lanes, j) && (j >= 1 ==> !Stable(hw, swap, j))
  }

  datatype Outcome = Got(data: LaneData) | ReadFailed | NotValid | Unstable

  /** What the buffer holds once samples 1 to j are in it. */
  function Accumulated(hw: Reads, swap: bool, j: nat): LaneData
    requires j >= 1
  {
    Sample(hw, swap, 1).(signal := OrUpTo(hw, swap, j))
  }

  /** What the caller may be told after `count` reads. */
  predicate Answers(hw: Reads, swap: bool, lanes: bv8, o: Outcome, count: nat) {
    && 1 <= count <= MAX_READS + 1
    && Unsettled(hw, swap, lanes, count - 1)
    && match o
       case Got(d) =>
         && count >= 2 && Usable(hw, swap, lanes, count - 1) && Stable(hw, swap, count - 1)
         && d == Accumulated(hw, swap, count - 1)
       case ReadFailed => Answered(hw(count - 1)).None?
       case NotValid => Answered(hw(count - 1)).Some? && !Usable(hw, swap, lanes, count - 1)
       case Unstable => count == MAX_READS + 1 && Unsettled(hw, swap, lanes, count)
  }

  lemma AccumulatedStep(hw: Reads, swap: bool, j: nat)
    requires j >= 1
    ensures var a := Accumulated(hw, swap, j); var b := Accumulated(hw, swap, j + 1);
      && b == a.(signal := Or(a.signal, Sample(hw, swap, j + 1).signal))
      && (b.signal == a.signal <==> Stable(hw, swap, j + 1))
  {
  }

  lemma UnsettledStep(hw: Reads, swap: bool, lanes: bv8, k: nat)
    requires Unsettled(hw, swap, lanes, k) && Usable(hw, swap, lanes, k) && (k >= 1 ==> !Stable(hw, swap, k))
    ensures Unsettled(hw, swap, lanes, k + 1)
  {
  }

  /** The answers that end the reading at sample k. */
  lemma EndsAt(hw: Reads, swap: bool, lanes: bv8, k: nat)
    requires Unsettled(hw, swap, lanes, k) && k <= MAX_READS
    ensures Answered(hw(k)).None? ==> Answers(hw, swap, lanes, ReadFailed, k + 1)
    ensures Answered(hw(k)).Some? && !Usable(hw, swap, lanes, k) ==> Answers(hw, swap, lanes, NotValid, k + 1)
    ensures k >= 1 && Usable(hw, swap, lanes, k) && Stable(hw, swap, k) ==>
              Answers(hw, swap, lanes, Got(Accumulated(hw, swap, k)), k + 1)
    ensures k >= 1 && Usable(hw, swap, lanes, k) && !Stable(hw, swap, k) ==> Unsettled(hw, swap, lanes, k + 1)
    ensures k == 0 && Usable(hw, swap, lanes, k) ==> Unsettled(hw, swap, lanes, k + 1)
  {
  }

  /** The bus to the jack; `pos` counts the samples taken from it. */
  class Bus {
    const hw: Reads
    var pos: nat

    constructor (hw: Reads)
      ensures this.hw == hw && pos == 0
    {
      this.hw := hw;
      pos := 0;
    }

    method Read() returns (r: Reply)
      modifies this
      ensures r == hw(old(pos)) && pos == old(pos) + 1
    {
      r := hw(pos);
      pos := pos + 1;
    }
  }

  class Buffer {
    const dp: array<bv8>
    var changed: bv8
    var txLos: bv8
    var txLol: bv8
    var rxLos: bv8
    var rxLol: bv8

    constructor ()
      ensures dp.Length == 4 && fresh(dp)
    {
      dp := new bv8[4];
      changed, txLos, txLol, rxLos, rxLol := 0, 0, 0, 0, 0;
    }

    function View(): LaneData
      requires dp.Length == 4
      reads this, dp
    {
      Lanes(dp[..], changed, Signal(txLos, txLol, rxLos, rxLol))
    }

    predicate Full()
      requires dp.Length == 4
      reads this, dp
      ensures Full() <==> AllSet(View().signal)
    {
      rxLos == 0xFF && txLos == 0xFF && rxLol == 0xFF && txLol == 0xFF
    }

    method Set(d: LaneData)
      requires dp.Length == 4
      modifies this, dp
      ensures View() == d
    {
      dp[0], dp[1], dp[2], dp[3] := d.dp[0], d.dp[1], d.dp[2], d.dp[3];
      changed := d.changed;
      txLos, txLol, rxLos, rxLol := d.signal.txLos, d.signal.txLol, d.signal.rxLos, d.signal.rxLol;
      assert dp[..] == d.dp;
    }

    method Swap()
      requires dp.Length == 4
      modifies this, dp
      ensures View() == Swapped(old(View()))
    {
      rxLos := SwapNibbles(rxLos);
      txLos := SwapNibbles(txLos);
      rxLol := SwapNibbles(rxLol);
      txLol := SwapNibbles(txLol);
      changed := SwapNibbles(changed);
      var states := dp[2];
      dp[2] := dp[0];
      dp[0] := states;
      states := dp[3];
      dp[3] := dp[1];
      dp[1] := states;
      assert dp[..] == Swapped(old(View())).dp;
    }

    method SignalOr(s: Signal)
      requires dp.Length == 4
      modifies this`txLos, this`txLol, this`rxLos, this`rxLol
      ensures View() == old(View()).(signal := Or(old(View()).signal, s))
    {
      rxLos := rxLos | s.rxLos;
      txLos := txLos | s.txLos;
      rxLol := rxLol | s.rxLol;
      txLol := txLol | s.txLol;
    }
  }

  class Jack {
    var cached: bool
    var cache: LaneData

    constructor ()
      ensures !cached
    {
      cached := false;
      cache := Lanes([0, 0, 0, 0], 0, Signal(0, 0, 0, 0));
    }

    /** A read takes one sample and fills the buffer only when the hardware answered. */
    method LaneDataRead(bus: Bus, swap: bool, into: Buffer) returns (ok: bool)
      requires into.dp.Length == 4
      modifies bus, into, into.dp
      ensures bus.pos == old(bus.pos) + 1
      ensures ok <==> Answered(bus.hw(old(bus.pos))).Some?
      ensures into.View() == if ok then Sample(bus.hw, swap, old(bus.pos)) else old(into.View())
    {
      var b := bus.Read();
      if b.tx.None? { return false; }
      if b.rx.None? { return false; }
      if b.states.None? { return false; }
      into.Set(Answered(b).value);
      if swap {
        into.Swap();
      }
      return true;
    }

    method IsLaneDataValid(lanes: bv8, data: Buffer) returns (valid: bool)
      requires data.dp.Length == 4
      ensures valid <==> ValidOn(data.View(), lanes)
    {
      if data.changed & lanes != 0 {
        return false;
      }
      for l := 0 to MAX_LANES
        invariant ValidBelow(data.View(), lanes, l)
      {
        if Bit(lanes, l) && !Allowed(DpState(data.View(), l)) {
          if ValidBelow(data.View(), lanes, MAX_LANES) {
            ValidBelowLess(data.View(), lanes, l + 1, MAX_LANES);
          }
          return false;
        }
      }
      return true;
    }

    method CacheSet(data: Buffer)
      requires data.dp.Length == 4
      modifies this
      ensures cached && cache == data.View()
    {
      cache := data.View();
      cached := true;
    }

    /** `first` is where the reads of this call begin on the bus, `j` counts the samples taken after the first. */
    method PollOnce(bus: Bus, ghost first: nat, swap: bool, lanes: bv8, ghost j: nat, data: Buffer)
        returns (ok: bool, valid: bool, stable: bool)
      requires data.dp.Length == 4 && j >= 1 && bus.pos == first + j + 1
      requires data.View() == Accumulated(From(bus.hw, first), swap, j)
      modifies bus, data, data.dp
      ensures bus.pos == old(bus.pos) + 1
      ensures ok <==> Answered(From(bus.hw, first)(j + 1)).Some?
      ensures ok ==> (valid <==> Usable(From(bus.hw, first), swap, lanes, j + 1))
      ensures ok && valid ==>
                && data.View() == Accumulated(From(bus.hw, first), swap, j + 1)
                && (stable <==> Stable(From(bus.hw, first), swap, j + 1))
    {
      ghost var samples := From(bus.hw, first);
      var current := new Buffer();
      valid, stable := false, false;
      ok := LaneDataRead(bus, swap, current);
      if !ok { return; }
      assert current.View() == Sample(samples, swap, j + 1);
      valid := IsLaneDataValid(lanes, current);
      if !valid { return; }
      AccumulatedStep(samples, swap, j);
      var prev := data.View().signal;
      data.SignalOr(current.View().signal);
      stable := data.View().signal == prev;
    }

    method Poll(bus: Bus, ghost first: nat, swap: bool, lanes: bv8, data: Buffer) returns (o: Outcome)
      requires data.dp.Length == 4 && bus.pos == first + 2
      requires data.View() == Accumulated(From(bus.hw, first), swap, 1)
      requires Unsettled(From(bus.hw, first), swap, lanes, 2)
      modifies bus, data, data.dp
      ensures old(bus.pos) < bus.pos && Answers(From(bus.hw, first), swap, lanes, o, bus.pos - first)
      ensures o.Got? ==> o.data == data.View()
    {
      ghost var samples := From(bus.hw, first);
      var readCount, stable := 1, false;
      while readCount < MAX_READS
        invariant 1 <= readCount <= MAX_READS && bus.pos == first + readCount + 1
        invariant Unsettled(samples, swap, lanes, readCount + 1)
        invariant data.View() == Accumulated(samples, swap, readCount) && !stable
      {
        var ok, valid;
        ok, valid, stable := PollOnce(bus, first, swap, lanes, readCount, data);
        if !ok { return ReadFailed; }
        if !valid { return NotValid; }
        readCount := readCount + 1;
        if stable { break; }
        UnsettledStep(samples, swap, lanes, readCount);
      }
      if !stable { return Unstable; }
      return Got(data.View());
    }

    /** The polling loop: each further sample adds its bits until one adds none. */
    method Accumulate(bus: Bus, ghost first: nat, swap: bool, lanes: bv8, data: Buffer) returns (o: Outcome)
      requires data.dp.Length == 4 && bus.pos == first + 2
      requires data.View() == Accumulated(From(bus.hw, first), swap, 1)
      requires Unsettled(From(bus.hw, first), swap, lanes, 2)
      modifies this, bus, data, data.dp
      ensures old(bus.pos) < bus.pos <= old(bus.pos) + 3
      ensures Answers(From(bus.hw, first), swap, lanes, o, bus.pos - first)
      ensures if o.Got? then cached && cache == o.data == data.View()
              else cached == old(cached) && cache == old(cache)
    {
      o := Poll(bus, first, swap, lanes, data);
      if o.Got? {
        CacheSet(data);
      }
    }

    /** From the second sample on, which is the first that counts. */
    method TakeSamples(bus: Bus, ghost first: nat, swap: bool, lanes: bv8, data: Buffer) returns (o: Outcome)
      requires data.dp.Length == 4 && bus.pos == first + 1
      requires Unsettled(From(bus.hw, first), swap, lanes, 1)
      modifies this, bus, data, data.dp
      ensures old(bus.pos) < bus.pos <= old(bus.pos) + 4
      ensures Answers(From(bus.hw, first), swap, lanes, o, bus.pos - first)
      ensures if o.Got? then cached && cache == o.data == data.View()
              else cached == old(cached) && cache == old(cache)
    {
      ghost var samples := From(bus.hw, first);
      EndsAt(samples, swap, lanes, 1);
      var ok := LaneDataRead(bus, swap, data);
      if !ok { return ReadFailed; }
      assert data.View() == Sample(samples, swap, 1) == Accumulated(samples, swap, 1);
      var valid := IsLaneDataValid(lanes, data);
      if !valid { return NotValid; }
      if data.Full() {
        CacheSet(data);
        return Got(data.View());
      }
      o := Accumulate(bus, first, swap, lanes, data);
    }

    /** At most five samples are taken from the bus; the cache takes exactly what the caller gets and is left
        alone otherwise. */
    method LaneDataGet(bus: Bus, swap: bool, lanes: bv8, data: Buffer) returns (o: Outcome)
      requires data.dp.Length == 4
      modifies this, bus, data, data.dp
      ensures old(bus.pos) < bus.pos <= old(bus.pos) + 5
      ensures Answers(From(bus.hw, old(bus.pos)), swap, lanes, o, bus.pos - old(bus.pos))
      ensures if o.Got? then cached && cache == o.data == data.View()
              else cached == old(cached) && cache == old(cache)
    {
      ghost var first := bus.pos;
      EndsAt(From(bus.hw, first), swap, lanes, 0);
      var ok := LaneDataRead(bus, swap, data);
      if !ok { return ReadFailed; }
      o := TakeSamples(bus, first, swap, lanes, data);
    }
  }

  // ------------------------------------------------------------------ what the answer means

  /** Bit by bit, a sample shows what its three bus reads did. */
  lemma AnsweredAs(b: Reply)
    ensures Answered(b).Some? <==> b.tx.Some? && b.rx.Some? && b.states.Some?
    ensures Answered(b).Some? ==>
      var d := Answered(b).value;
      && d.signal == Signal(b.tx.value.0, b.tx.value.1, b.rx.value.0, b.rx.value.1)
      && d.dp == b.states.value[..4] && d.changed == b.states.value[6]
  {
  }

  lemma UnsettledRuns(hw: Reads, swap: bool, lanes: bv8, o: Outcome, count: nat, later: nat)
    requires Answers(hw, swap, lanes, o, count) && later >= count
    ensures !o.Unstable? ==> !Unsettled(hw, swap, lanes, later)
    ensures o.Unstable? ==> count == MAX_READS + 1
  {
    assert !o.Unstable? ==> !Usable(hw, swap, lanes, count - 1) || (count >= 2 && Stable(hw, swap, count - 1));
  }

  /** An answer takes two to five samples, one if the first read failed; two give data only when every bit is
      set, and five were taken when the bits never settled. */
  lemma AnswerCount(hw: Reads, swap: bool, lanes: bv8, o: Outcome, count: nat)
    requires Answers(hw, swap, lanes, o, count)
    ensures 1 <= count <= 5 && (count == 1 ==> o.ReadFailed?) && (o.Unstable? ==> count == 5)
    ensures o.Got? && count == 2 ==> o.data.signal == Signal(0xFF, 0xFF, 0xFF, 0xFF)
  {
  }

  /** The reads decide the answer and how many of them are made. */
  lemma AnswersUnique(hw: Reads, swap: bool, lanes: bv8, o: Outcome, n: nat, p: Outcome, m: nat)
    requires Answers(hw, swap, lanes, o, n) && Answers(hw, swap, lanes, p, m)
    ensures o == p && n == m
  {
    if n < m { UnsettledRuns(hw, swap, lanes, o, n, m - 1); }
    if m < n { UnsettledRuns(hw, swap, lanes, p, m, n - 1); }
    assert n == m;
    UnsettledRuns(hw, swap, lanes, o, n, n);
    UnsettledRuns(hw, swap, lanes, p, m, m);
  }

  function Touched(s: Signal, of: Signal): bv8 {
    (s.txLos & of.txLos) | (s.txLol & of.txLol) | (s.rxLos & of.rxLos) | (s.rxLol & of.rxLol)
  }

  /** The signal shows a loss that the group of bits `of` contains. */
  predicate Touches(s: Signal, of: Signal) { Touched(s, of) != 0 }

  lemma MaskOr(a: bv8, b: bv8, mask: bv8)
    ensures (a | b) & mask == (a & mask) | (b & mask)
  {
  }

  lemma Regroup(p: bv8, q: bv8, r: bv8, s: bv8, t: bv8, u: bv8, v: bv8, w: bv8)
    ensures (p | t) | (q | u) | (r | v) | (s | w) == (p | q | r | s) | (t | u | v | w)
  {
  }

  lemma OrZero(a: bv8, b: bv8)
    ensures a | b == 0 <==> a == 0 && b == 0
  {
  }

  lemma OrTouches(a: Signal, b: Signal, of: Signal)
    ensures Touches(Or(a, b), of) <==> Touches(a, of) || Touches(b, of)
  {
    MaskOr(a.txLos, b.txLos, of.txLos);
    MaskOr(a.txLol, b.txLol, of.txLol);
    MaskOr(a.rxLos, b.rxLos, of.rxLos);
    MaskOr(a.rxLol, b.rxLol, of.rxLol);
    Regroup(a.txLos & of.txLos, a.txLol & of.txLol, a.rxLos & of.rxLos, a.rxLol & of.rxLol,
            b.txLos & of.txLos, b.txLol & of.txLol, b.rxLos & of.rxLos, b.rxLol & of.rxLol);
    OrZero(Touched(a, of), Touched(b, of));
    assert Touched(Or(a, b), of) == Touched(a, of) | Touched(b, of);
  }

  predicate Shows(hw: Reads, swap: bool, j: nat, of: Signal) {
    Touches(Sample(hw, swap, j).signal, of)
  }

  predicate ShownUpTo(hw: Reads, swap: bool, j: nat, of: Signal) {
    exists i: nat :: 1 <= i <= j && Shows(hw, swap, i, of)
  }

  lemma ShownMore(hw: Reads, swap: bool, j: nat, of: Signal)
    requires j > 1
    ensures ShownUpTo(hw, swap, j, of) <==> ShownUpTo(hw, swap, j - 1, of) || Shows(hw, swap, j, of)
  {
    if ShownUpTo(hw, swap, j, of) && !Shows(hw, swap, j, of) {
      var i: nat :| 1 <= i <= j && Shows(hw, swap, i, of);
      assert i <= j - 1;
    }
  }

  lemma {:induction false} BitsOfOr(hw: Reads, swap: bool, j: nat, of: Signal)
    requires j >= 1
    ensures Touches(OrUpTo(hw, swap, j), of) <==> ShownUpTo(hw, swap, j, of)
  {
    if j > 1 {
      BitsOfOr(hw, swap, j - 1, of);
      OrTouches(OrUpTo(hw, swap, j - 1), Sample(hw, swap, j).signal, of);
      ShownMore(hw, swap, j, of);
    } else {
      assert Shows(hw, swap, 1, of) <==> Touches(OrUpTo(hw, swap, 1), of);
    }
  }

  /** On success any group of bits shows a loss exactly when some sample after the first showed it, and
      the last sample, if it was not the only one, showed nothing new. */
  lemma AnswerBits(hw: Reads, swap: bool, lanes: bv8, o: Outcome, count: nat, of: Signal)
    requires Answers(hw, swap, lanes, o, count) && o.Got?
    ensures Touches(o.data.signal, of) <==> ShownUpTo(hw, swap, count - 1, of)
    ensures count > 2 && Shows(hw, swap, count - 1, of) ==> ShownUpTo(hw, swap, count - 2, of)
  {
    BitsOfOr(hw, swap, count - 1, of);
    if count > 2 {
      BitsOfOr(hw, swap, count - 2, of);
    }
  }

  lemma SwapOr(a: Signal, b: Signal)
    ensures SwapSignal(Or(a, b)) == Or(SwapSignal(a), SwapSignal(b))
  {
  }

  lemma {:induction false} SwapCommutes(hw: Reads, j: nat)
    requires j >= 1 && forall i: nat :: 1 <= i <= j ==> Answered(hw(i)).Some?
    ensures OrUpTo(hw, true, j) == SwapSignal(OrUpTo(hw, false, j))
  {
    if j > 1 {
      SwapCommutes(hw, j - 1);
      SwapOr(OrUpTo(hw, false, j - 1), Sample(hw, false, j).signal);
    }
  }

  /** Swapping every read or the accumulated answer makes no difference. */
  lemma AnswerSwapped(hw: Reads, lanes: bv8, o: Outcome, count: nat)
    requires Answers(hw, true, lanes, o, count) && o.Got?
    ensures o.data == Swapped(Accumulated(hw, false, count - 1))
  {
    forall j: nat | j < count ensures Answered(hw(j)).Some? {
      assert Usable(hw, true, lanes, j);
    }
    SwapCommutes(hw, count - 1);
    assert Answered(hw(1)).Some?;
  }
}

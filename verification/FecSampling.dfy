/** The two counter buffers of the FEC monitor and the deltas taken between them
    (ctrl/sl_ctrl_link_fec_priv.c). */
module FecSampling {

  import opened Common

  const NUM_LANES: nat := 16
  const NUM_BINS: nat := 15
  const NUM_COUNTERS: nat := 3 + NUM_LANES + NUM_BINS

  /** One reading of the hardware counters. */
  datatype Sample = Sample(ccw: U64, ucw: U64, gcw: U64, lanes: seq<U64>, bins: seq<U64>) {
    predicate Valid() { |lanes| == NUM_LANES && |bins| == NUM_BINS }

    /** The counters as one list: codewords, lanes, tail bins. */
    function Counter(k: nat): U64
      requires Valid() && k < NUM_COUNTERS
    {
      if k == 0 then ccw else if k == 1 then ucw else if k == 2 then gcw
      else if k < 3 + NUM_LANES then lanes[k - 3]
      else bins[k - 3 - NUM_LANES]
    }
  }

  function Zeros(n: nat): (z: seq<U64>)
    ensures |z| == n && forall i :: 0 <= i < n ==> z[i] == 0
  {
    if n == 0 then [] else Zeros(n - 1) + [0]
  }

  type ValidSample = s: Sample | s.Valid() witness Sample(0, 0, 0, Zeros(NUM_LANES), Zeros(NUM_BINS))

  /** What both buffers hold before the first sample. */
  function Cleared(): ValidSample { Sample(0, 0, 0, Zeros(NUM_LANES), Zeros(NUM_BINS)) }

  function Minus(a: U64, b: U64): U64 { (a - b) % TWO_64 }

  function MinusAll(a: seq<U64>, b: seq<U64>): (d: seq<U64>)
    requires |a| == |b|
    ensures |d| == |a| && forall i :: 0 <= i < |d| ==> d[i] == Minus(a[i], b[i])
  {
    if a == [] then []
    else MinusAll(a[..|a| - 1], b[..|b| - 1]) + [Minus(a[|a| - 1], b[|b| - 1])]
  }

  function Delta(curr: ValidSample, prev: ValidSample): (d: ValidSample)
    ensures forall k :: 0 <= k < NUM_COUNTERS ==> d.Counter(k) == Minus(curr.Counter(k), prev.Counter(k))
  {
    Sample(Minus(curr.ccw, prev.ccw), Minus(curr.ucw, prev.ucw), Minus(curr.gcw, prev.gcw),
           MinusAll(curr.lanes, prev.lanes), MinusAll(curr.bins, prev.bins))
  }

  /** One stored sample and how often deltas were calculated before the next one was stored. */
  datatype Interval = Interval(sample: ValidSample, calcs: nat)

  /** The buffers start out zeroed. */
  function Last(history: seq<Interval>): ValidSample {
    if history == [] then Cleared() else history[|history| - 1].sample
  }

  function BeforeLast(history: seq<Interval>): ValidSample {
    if history == [] then Cleared() else Last(history[..|history| - 1])
  }

  /** The true growth of counter k over the latest interval. */
  function Growth(history: seq<Interval>, k: nat): U64
    requires k < NUM_COUNTERS
  {
    Minus(Last(history).Counter(k), BeforeLast(history).Counter(k))
  }

  /** What the calculations of a whole history reported for counter k, added up. */
  function Reported(history: seq<Interval>, k: nat): nat
    requires k < NUM_COUNTERS
  {
    if history == [] then 0
    else Reported(history[..|history| - 1], k) + history[|history| - 1].calcs * Growth(history, k)
  }

  /** Growth never reported, less growth reported again. */
  function Missed(history: seq<Interval>, k: nat): int
    requires k < NUM_COUNTERS
  {
    if history == [] then 0
    else Missed(history[..|history| - 1], k) + (1 - history[|history| - 1].calcs) * Growth(history, k)
  }

  function Sum(ds: seq<ValidSample>, k: nat): nat
    requires k < NUM_COUNTERS
  {
    if ds == [] then 0 else Sum(ds[..|ds| - 1], k) + ds[|ds| - 1].Counter(k)
  }

  /** The history after one more calculation; before the first sample there is nothing to count. */
  function Calculated(history: seq<Interval>): (h: seq<Interval>)
    ensures Last(h) == Last(history) && BeforeLast(h) == BeforeLast(history)
  {
    if history == [] then [] else
      var n := |history| - 1;
      assert (history[..n] + [Interval(history[n].sample, history[n].calcs + 1)])[..n] == history[..n];
      history[..n] + [Interval(history[n].sample, history[n].calcs + 1)]
  }

  lemma Distribute(c: nat, g: nat)
    ensures (c + 1) * g == c * g + g
    ensures c * g + (1 - c as int) * g == g
  {
  }

  lemma CalculatedGrows(history: seq<Interval>, k: nat)
    requires k < NUM_COUNTERS
    ensures Reported(Calculated(history), k) == Reported(history, k) + Growth(history, k)
  {
    if history != [] {
      var n := |history| - 1;
      var h := Calculated(history);
      var g := Growth(history, k);
      var base := Reported(history[..n], k);
      assert |h| == |history| && h[n].calcs == history[n].calcs + 1;
      assert Reported(h, k) == base + h[n].calcs * g by {
        assert h[..n] == history[..n];
        assert Growth(h, k) == g;
      }
      assert Reported(history, k) == base + history[n].calcs * g;
      Distribute(history[n].calcs, g);
    } else {
      assert Last(history) == BeforeLast(history);
    }
  }

  lemma CalculatedReports(history: seq<Interval>, deltas: seq<ValidSample>, info: ValidSample)
    requires forall k :: 0 <= k < NUM_COUNTERS ==> Sum(deltas, k) == Reported(history, k)
    requires info == Delta(Last(history), BeforeLast(history))
    ensures forall k :: 0 <= k < NUM_COUNTERS ==> Sum(deltas + [info], k) == Reported(Calculated(history), k)
  {
    forall k | 0 <= k < NUM_COUNTERS ensures Sum(deltas + [info], k) == Reported(Calculated(history), k) {
      assert (deltas + [info])[..|deltas|] == deltas;
      assert Sum(deltas, k) == Reported(history, k);
      CalculatedGrows(history, k);
    }
  }

  class Counters {
    var ccw: U64
    var ucw: U64
    var gcw: U64
    var lanes: seq<U64>
    var bins: seq<U64>
    var timestamp: U64

    ghost predicate Valid() reads this { |lanes| == NUM_LANES && |bins| == NUM_BINS }

    function Reading(): (s: ValidSample)
      reads this
      requires Valid()
    {
      Sample(ccw, ucw, gcw, lanes, bins)
    }

    constructor ()
      ensures Valid() && Reading() == Cleared() && timestamp == 0
    {
      ccw, ucw, gcw, timestamp := 0, 0, 0, 0;
      lanes, bins := Zeros(NUM_LANES), Zeros(NUM_BINS);
    }
  }

  /** `history` is what was stored and calculated so far, `deltas` every value `info` has had;
      `toMsecs` is the kernel's conversion of jiffies to milliseconds. */
  class FecData {
    const first: Counters
    const second: Counters
    const toMsecs: nat -> U32
    var curr: Counters
    var prev: Counters
    var info: ValidSample
    var periodMs: U32
    ghost var history: seq<Interval>
    ghost var deltas: seq<ValidSample>

    /** The two pointers name different buffers, holding the last two samples stored, and what was
        reported is what the history says. */
    ghost predicate Valid() reads this, first, second {
      && first != second
      && ((curr == first && prev == second) || (curr == second && prev == first))
      && first.Valid() && second.Valid()
      && curr.Reading() == Last(history) && prev.Reading() == BeforeLast(history)
      && forall k :: 0 <= k < NUM_COUNTERS ==> Sum(deltas, k) == Reported(history, k)
    }

    constructor (toMsecs: nat -> U32)
      ensures Valid() && history == [] && deltas == [] && this.toMsecs == toMsecs
      ensures fresh(first) && fresh(second)
    {
      var a := new Counters();
      var b := new Counters();
      this.toMsecs := toMsecs;
      first, second, curr, prev := a, b, a, b;
      info, periodMs := Cleared(), 0;
      history, deltas := [], [];
    }

    /** The older buffer takes the sample and becomes the current one; the other keeps what it held. */
    method DataStore(s: ValidSample, jiffies: U64)
      requires Valid()
      modifies this`curr, this`prev, this`history, first, second
      ensures Valid() && history == old(history) + [Interval(s, 0)]
      ensures curr == old(prev) && prev == old(curr) && curr != prev
      ensures curr.Reading() == s && curr.timestamp == jiffies
      ensures prev.Reading() == old(curr.Reading()) && prev.timestamp == old(curr.timestamp)
    {
      var tmp := prev;
      prev := curr;
      curr := tmp;
      curr.ccw, curr.ucw, curr.gcw := s.ccw, s.ucw, s.gcw;
      curr.lanes := s.lanes;
      curr.bins := s.bins;
      curr.timestamp := jiffies;
      ghost var before := history;
      history := before + [Interval(s, 0)];
      assert history[..|history| - 1] == before;
      forall k | 0 <= k < NUM_COUNTERS ensures Sum(deltas, k) == Reported(history, k) {
        assert Reported(before, k) == Sum(deltas, k);
      }
    }

    /** Reports, counter by counter, what the current buffer holds less what the other holds. */
    method DataCalc()
      requires Valid()
      modifies this`info, this`periodMs, this`history, this`deltas
      ensures Valid() && history == Calculated(old(history))
      ensures info == Delta(Last(history), BeforeLast(history)) && deltas == old(deltas) + [info]
      ensures periodMs == toMsecs(Minus(curr.timestamp, prev.timestamp))
      ensures |info.lanes| == 16 && |info.bins| == 15
    {
      var lanes: seq<U64> := [];
      for x := 0 to NUM_LANES
        invariant |lanes| == x
        invariant forall i :: 0 <= i < x ==> lanes[i] == Minus(curr.lanes[i], prev.lanes[i])
      {
        lanes := lanes + [Minus(curr.lanes[x], prev.lanes[x])];
      }
      var bins: seq<U64> := [];
      for x := 0 to NUM_BINS
        invariant |bins| == x
        invariant forall i :: 0 <= i < x ==> bins[i] == Minus(curr.bins[i], prev.bins[i])
      {
        bins := bins + [Minus(curr.bins[x], prev.bins[x])];
      }
      info := Sample(Minus(curr.ccw, prev.ccw), Minus(curr.ucw, prev.ucw), Minus(curr.gcw, prev.gcw), lanes, bins);
      periodMs := toMsecs(Minus(curr.timestamp, prev.timestamp));
      assert info == Delta(Last(history), BeforeLast(history));
      CalculatedReports(history, deltas, info);
      deltas := deltas + [info];
      history := Calculated(history);
    }

    /** One pass of the monitor's work: a sample that is stored and calculated once. */
    method Monitor(s: ValidSample, jiffies: U64)
      requires Valid()
      modifies this`curr, this`prev, this`history, this`info, this`periodMs, this`deltas, first, second
      ensures Valid() && history == old(history) + [Interval(s, 1)]
      ensures info == Delta(s, old(Last(history))) && deltas == old(deltas) + [info]
      ensures periodMs == toMsecs(Minus(jiffies, old(curr.timestamp)))
    {
      DataStore(s, jiffies);
      assert history[..|history| - 1] == old(history);
      DataCalc();
    }
  }

  lemma MinusThenPlus(a: U64, b: U64, sum: int)
    requires sum % TWO_64 == b
    ensures (sum + Minus(a, b)) % TWO_64 == a
  {
    var q := sum / TWO_64;
    if a >= b {
      assert sum + Minus(a, b) == q * TWO_64 + a;
    } else {
      assert Minus(a, b) == a - b + TWO_64;
      assert sum + Minus(a, b) == (q + 1) * TWO_64 + a;
    }
  }

  /** For every codeword counter, lane and tail bin, whatever the order of stores and calculations and
      however the counters wrapped or were cleared: what was reported and what was missed add up,
      modulo 2^64, to the last sample. */
  lemma {:induction false} NothingLost(history: seq<Interval>, k: nat)
    requires k < NUM_COUNTERS
    ensures (Reported(history, k) + Missed(history, k)) % TWO_64 == Last(history).Counter(k)
  {
    if history == [] {
      assert Cleared().Counter(k) == 0;
    } else {
      var n := |history| - 1;
      NothingLost(history[..n], k);
      Distribute(history[n].calcs, Growth(history, k));
      MinusThenPlus(Last(history).Counter(k), BeforeLast(history).Counter(k),
                    Reported(history[..n], k) + Missed(history[..n], k));
    }
  }

  predicate Passes(history: seq<Interval>) {
    forall i :: 0 <= i < |history| ==> history[i].calcs == 1
  }

  lemma {:induction false} PassesMissNothing(before: seq<Interval>, passes: seq<Interval>, k: nat)
    requires k < NUM_COUNTERS && Passes(passes)
    ensures Missed(before + passes, k) == Missed(before, k)
    ensures Reported(before + passes, k) >= Reported(before, k)
    decreases |passes|
  {
    if passes == [] {
      assert before + passes == before;
    } else {
      var n := |passes| - 1;
      assert (before + passes)[..|before| + n] == before + passes[..n];
      PassesMissNothing(before, passes[..n], k);
    }
  }

  lemma Shift(a: int, d: int)
    ensures (a % TWO_64 + d) % TWO_64 == (a + d) % TWO_64
  {
    assert a + d == a % TWO_64 + d + a / TWO_64 * TWO_64;
  }

  /** From any point on, the deltas reported by monitor passes add up to the growth of the counter since. */
  lemma DeltasAddUp(before: seq<Interval>, passes: seq<Interval>, k: nat)
    requires k < NUM_COUNTERS && Passes(passes)
    ensures (Last(before).Counter(k) + Reported(before + passes, k) - Reported(before, k)) % TWO_64
         == Last(before + passes).Counter(k)
  {
    PassesMissNothing(before, passes, k);
    NothingLost(before, k);
    NothingLost(before + passes, k);
    Shift(Reported(before, k) + Missed(before, k), Reported(before + passes, k) - Reported(before, k));
  }

  /** The link-up path stores its settling sample without calculating, so from the very first sample on
      the reports fall short by what the counters had grown by then. */
  lemma SettleSampleMissed() returns (history: seq<Interval>)
    ensures |history| == 2 && history[0].calcs == 0 && history[1].calcs == 1
    ensures Reported(history, 1) % TWO_64 != Last(history).Counter(1)
  {
    var settle := Sample(0, 3, 0, Zeros(NUM_LANES), Zeros(NUM_BINS));
    var check := Sample(0, 5, 0, Zeros(NUM_LANES), Zeros(NUM_BINS));
    history := [Interval(settle, 0), Interval(check, 1)];
    assert history[..1] == [Interval(settle, 0)];
    assert history[..1][..0] == [];
    assert Growth(history, 1) == 2;
    assert Reported(history[..1], 1) == 0;
  }

  lemma Congruent(a: U64, b: U64, c: U64, r: int)
    requires (b + r) % TWO_64 == c
    ensures (a + r) % TWO_64 == c <==> a == b
  {
    if (a + r) % TWO_64 == c {
      var p, q := (a + r) / TWO_64, (b + r) / TWO_64;
      assert a - b == (p - q) * TWO_64;
      assert p == q;
    }
  }

  /** The reports after a link-up's settling sample miss nothing exactly when that sample is the same as
      the one stored before it. */
  lemma SettleExact(before: seq<Interval>, settle: ValidSample, passes: seq<Interval>, k: nat)
    requires k < NUM_COUNTERS && Passes(passes)
    ensures var h := before + [Interval(settle, 0)] + passes;
            (Last(before).Counter(k) + Reported(h, k) - Reported(before, k)) % TWO_64 == Last(h).Counter(k)
            <==> settle.Counter(k) == Last(before).Counter(k)
  {
    var settled := before + [Interval(settle, 0)];
    assert settled[..|before|] == before;
    assert Reported(settled, k) == Reported(before, k);
    DeltasAddUp(settled, passes, k);
    var h := settled + passes;
    Congruent(Last(before).Counter(k), settle.Counter(k), Last(h).Counter(k), Reported(h, k) - Reported(before, k));
  }
}

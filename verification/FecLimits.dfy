/** Limits of the FEC monitor, the three-chance checks that bring a link down, and the bit error rate
    (ctrl/sl_ctrl_link_fec_priv.h, ctrl/sl_ctrl_link_fec_priv.c, ctrl/sl_ctrl_link_fec.c). */
module FecLimits {

  import opened Common

  // ------------------------------------------------------------------ the limit check

  /** The check as written: both products are taken in 64 bits, a negative limit sign-extends. */
  predicate LimitCheck(limit: S32, count: U64, period: U32) {
    if limit != 0 && period != 0 then (limit % TWO_64) * period % TWO_64 <= count * 1000 % TWO_64 else false
  }

  /** What it stands for: the rate count / (period / 1000) has reached a limit that is set. */
  predicate OverLimit(limit: S32, count: U64, period: U32) {
    limit != 0 && period != 0 && limit * period <= count * 1000
  }

  lemma Monotone(a: nat, b: nat, c: nat, d: nat)
    requires a <= c && b <= d
    ensures a * b <= c * d
  {
  }

  lemma ThresholdFits(limit: nat, period: U32)
    requires limit <= INT_MAX + 1
    ensures 0 <= limit * period <= (INT_MAX + 1) * TWO_32 < TWO_64
  {
    Monotone(0, 0, limit, period);
    Monotone(limit, period, INT_MAX + 1, TWO_32);
    assert (INT_MAX + 1) * TWO_32 == 0x8000_0000_0000_0000;
  }

  /** The threshold the code compares with; a negative limit makes it a very large one. */
  lemma Threshold(limit: S32, period: U32)
    requires limit != 0 && period != 0
    ensures (limit % TWO_64) * period % TWO_64 == if limit > 0 then limit * period else TWO_64 + limit * period
  {
    if limit > 0 {
      ThresholdFits(limit, period);
    } else {
      var l: int := limit;
      ThresholdFits(-l, period);
      Monotone(1, 1, -l, period);
      var t := -l * period;
      assert limit % TWO_64 == TWO_64 + limit;
      assert (TWO_64 + limit) * period == (period - 1) * TWO_64 + (TWO_64 - t);
    }
  }

  /** The check means what it stands for exactly when no limit applies, or the limit is positive and
      either the product with the count does not wrap or what is left of it still reaches the threshold,
      or the limit is negative and what is left reaches even the threshold that makes. */
  lemma LimitCheckExact(limit: S32, count: U64, period: U32)
    ensures (LimitCheck(limit, count, period) <==> OverLimit(limit, count, period))
       <==> || limit == 0 || period == 0
            || (limit > 0 && (count <= U64_MAX / 1000 || limit * period <= count * 1000 % TWO_64))
            || (limit < 0 && TWO_64 + limit * period <= count * 1000 % TWO_64)
  {
    if limit != 0 && period != 0 {
      Threshold(limit, period);
      var l: int := limit;
      if limit < 0 { Monotone(1, 1, -l, period); }
    }
  }

  /** Among counts that do not wrap, a count over the limit stays over it when it grows. */
  lemma LimitCheckMonotone(limit: S32, low: U64, high: U64, period: U32)
    requires low <= high <= U64_MAX / 1000 && LimitCheck(limit, low, period)
    ensures LimitCheck(limit, high, period)
  {
    assert low * 1000 % TWO_64 == low * 1000 && high * 1000 % TWO_64 == high * 1000;
  }

  /** Beyond them it need not. */
  lemma LimitCheckNotMonotone() returns (low: U64, high: U64)
    ensures low < high && LimitCheck(1, low, 500) && !LimitCheck(1, high, 500)
  {
    low, high := 1, U64_MAX / 1000 + 1;
    assert high * 1000 % TWO_64 == 384;
  }

  // ------------------------------------------------------------------ limits from the rate

  const LIMIT_25: nat := 25781250000
  const LIMIT_50: nat := 53125000000
  const LIMIT_100: nat := 106250000000

  /** Bits per second for the technologies in the map, where the map holds bit numbers. */
  function Rate(tech: set<nat>): nat {
    if 18 in tech then LIMIT_100 * 4
    else if 17 in tech then LIMIT_100 * 2
    else if 15 in tech then LIMIT_50 * 4
    else if 16 in tech then LIMIT_100
    else if 8 in tech then LIMIT_25 * 4
    else if 14 in tech then LIMIT_50 * 2
    else if 13 in tech then LIMIT_50
    else LIMIT_100
  }

  /** Bits per second of one technology: CK_400G, CK_200G, CK_100G, BS_200G, CD_100G, CD_50G, BJ_100G. */
  function RateOf(bit: nat): nat {
    match bit
    case 18 => 425_000_000_000
    case 17 => 212_500_000_000
    case 16 => 106_250_000_000
    case 15 => 212_500_000_000
    case 14 => 106_250_000_000
    case 13 => 53_125_000_000
    case 8 => 103_125_000_000
    case _ => 0
  }

  predicate NoneRated(tech: set<nat>) { tech !! {8, 13, 14, 15, 16, 17, 18} }

  /** The rate is that of one of the technologies, or of CK_100G when none is known. It is that of the fastest
      unless BJ_100G and CD_100G are there and nothing faster: then it is the lower of the two. */
  lemma RateFastest(tech: set<nat>)
    ensures if NoneRated(tech) then Rate(tech) == 106_250_000_000
            else exists b :: b in tech && Rate(tech) == RateOf(b) && RateOf(b) > 0
    ensures (forall b :: b in tech ==> RateOf(b) <= Rate(tech)) <==>
              !(8 in tech && 14 in tech && tech !! {15, 16, 17, 18})
  {
    if !NoneRated(tech) {
      var b := if 18 in tech then 18 else if 17 in tech then 17 else if 15 in tech then 15 else if 16 in tech then 16
               else if 8 in tech then 8 else if 14 in tech then 14 else 13;
      assert b in tech && Rate(tech) == RateOf(b);
    }
    if 8 in tech && 14 in tech && tech !! {15, 16, 17, 18} {
      assert RateOf(14) > Rate(tech);
    }
  }

  function Pow10(n: nat): (p: nat)
    ensures p > 0
  {
    if n == 0 then 1 else 10 * Pow10(n - 1)
  }

  lemma Expand(q: nat, c: nat, r: nat, b: nat)
    ensures (q * c + r) * b == q * (b * c) + r * b
  {
  }

  lemma Strictly(a: nat, b: nat, d: nat)
    ensures a < b ==> a * d + d <= b * d
  {
    if a < b {
      Monotone(a + 1, d, b, d);
    }
  }

  lemma Quotient(a: nat, d: nat, q: nat, r: nat)
    requires r < d && a == q * d + r
    ensures a / d == q
  {
    Strictly(q, a / d, d);
    Strictly(a / d, q, d);
  }

  lemma DivTwice(a: nat, b: nat, c: nat)
    requires b > 0 && c > 0
    ensures b * c > 0 && a / b / c == a / (b * c)
  {
    var q := a / b / c;
    var r := a / b % c;
    var s := a % b;
    assert a / b == q * c + r;
    assert a == (q * c + r) * b + s;
    assert (q * c + r) * b == q * (b * c) + r * b by { Expand(q, c, r, b); }
    assert r * b + s < b * c by { Monotone(r + 1, b, c, b); }
    Quotient(a, b * c, q, r * b + s);
  }

  function Min(a: nat, b: nat): nat { if a <= b then a else b }

  function Quot(x: nat, d: nat): nat
    requires d > 0
  {
    x / d
  }

  function Tenths(x: nat, k: nat): nat { Quot(x, Pow10(k)) }

  /** x / 10^k, saturated. */
  function Saturated(x: nat, k: nat): U32 { Min(INT_MAX, Tenths(x, k)) }

  /** A limit that does not fit is the largest 32-bit number with a sign. */
  lemma SaturatedAs(x: nat, k: nat)
    ensures Saturated(x, k) == if x / Pow10(k) > 0x7FFF_FFFF then 0x7FFF_FFFF else x / Pow10(k)
  {
  }

  function Product(tech: set<nat>, mant: U32): nat { Rate(tech) * mant }

  lemma TenthsStep(x: nat, k: nat)
    ensures Tenths(x, k) / 10 == Tenths(x, k + 1)
  {
    DivTwice(x, Pow10(k), 10);
  }

  /** Dividing by ten step by step loses nothing: the result is the one quotient, saturated. */
  method LimitCalc(tech: set<nat>, mant: U32, exp: int) returns (limit: U32)
    ensures limit == Saturated(Product(tech, mant) % TWO_64, if exp < 0 then -exp else 0)
  {
    var l := Product(tech, mant) % TWO_64;
    ghost var whole := l;
    var x := exp;
    while x < 0
      invariant exp <= x && (x <= 0 || x == exp)
      invariant l == Tenths(whole, x - exp)
      decreases -x
    {
      TenthsStep(whole, x - exp);
      l := l / 10;
      x := x + 1;
    }
    limit := if l > INT_MAX then INT_MAX else l;
  }

  /** The mantissas in use are 1 and 2; far larger ones still leave the product exact. */
  lemma ProductFits(tech: set<nat>, mant: U32)
    requires mant <= U64_MAX / (4 * LIMIT_100)
    ensures Product(tech, mant) % TWO_64 == Product(tech, mant)
  {
    Monotone(Rate(tech), mant, 4 * LIMIT_100, U64_MAX / (4 * LIMIT_100));
  }

  /** A mantissa that is too large for the rate wraps and the limit comes out too low. */
  lemma ProductWraps() returns (mant: U32)
    ensures Saturated(Product({18}, mant) % TWO_64, 9) < Saturated(Product({18}, mant), 9)
  {
    mant := 43404104;
    assert Product({18}, mant) == 18446744200000000000;
    assert Product({18}, mant) % TWO_64 == 126290448384;
    assert Pow10(9) == 1000000000 by { assert Pow10(9) == 1000 * Pow10(6); assert Pow10(6) == 1000 * Pow10(3); }
  }

  datatype Policy = Policy(ucwDown: S32, ucwWarn: S32, ccwDown: S32, ccwWarn: S32, period: S32)

  datatype Limits = Limits(ucwDown: S32, ucwWarn: S32, ccwDown: S32, ccwWarn: S32, period: U32)

  /** The limits in use for a policy, by the exact quotients: a policy entry counts when it is not
      negative, and otherwise there is no limit for corrected codewords, one uncorrected codeword per
      10^10 bits for the others, half the rate for both warnings, and a period of 500 ms. */
  function InUse(policy: Policy, tech: set<nat>): Limits {
    var ucw := Saturated(Product(tech, 1), 10);
    var ccw := Saturated(Product(tech, 2), 5);
    Limits(
      if policy.ucwDown < 0 then ucw else policy.ucwDown,
      if policy.ucwWarn < 0 then ucw / 2 else policy.ucwWarn,
      if policy.ccwDown < 0 then 0 else policy.ccwDown,
      if policy.ccwWarn < 0 then ccw / 2 else policy.ccwWarn,
      if policy.period < 0 then 500 else policy.period)
  }

  lemma Halves(r: nat)
    ensures r / 10_000_000_000 / 2 == r / 20_000_000_000
    ensures r * 2 / 100_000 / 2 == r / 100_000
  {
    DivTwice(r, 10_000_000_000, 2);
    DivTwice(r * 2, 100_000, 2);
    DivTwice(r * 2, 2, 100_000);
  }

  /** With everything left to the driver: no limit for corrected codewords, the others by the rate, and a
      period of half a second. */
  lemma InUseByRate(policy: Policy, tech: set<nat>)
    requires policy.ucwDown < 0 && policy.ucwWarn < 0 && policy.ccwDown < 0 && policy.ccwWarn < 0 && policy.period < 0
    ensures var u := InUse(policy, tech); var r := Rate(tech);
      && u.ccwDown == 0 && u.period == 500
      && u.ucwDown == r / 10_000_000_000 && u.ucwWarn == r / 20_000_000_000 && u.ccwWarn == r / 100_000
    ensures tech == {18} ==> InUse(policy, tech) == Limits(42, 21, 0, 4_250_000, 500)
    ensures tech == {13} ==> InUse(policy, tech) == Limits(5, 2, 0, 531_250, 500)
  {
    assert Pow10(5) == 100000;
    assert Pow10(10) == 10000000000 by { assert Pow10(10) == 100000 * Pow10(5); }
    assert Rate(tech) <= 4 * LIMIT_100;
    Halves(Rate(tech));
  }

  /** A policy entry that is not negative is in force as it is. */
  lemma InUseByPolicy(policy: Policy, tech: set<nat>)
    ensures var u := InUse(policy, tech);
      && (policy.ucwDown >= 0 ==> u.ucwDown == policy.ucwDown) && (policy.ucwWarn >= 0 ==> u.ucwWarn == policy.ucwWarn)
      && (policy.ccwDown >= 0 ==> u.ccwDown == policy.ccwDown) && (policy.ccwWarn >= 0 ==> u.ccwWarn == policy.ccwWarn)
      && (policy.period >= 0 ==> u.period == policy.period)
  {
  }

  lemma InUseSane(policy: Policy, tech: set<nat>)
    ensures var u := InUse(policy, tech);
      && u.ucwDown >= 0 && u.ucwWarn >= 0 && u.ccwDown >= 0 && u.ccwWarn >= 0
      && (policy.ucwDown < 0 && policy.ucwWarn < 0 ==> 0 < u.ucwWarn < u.ucwDown)
      && (policy.ccwWarn < 0 ==> 0 < u.ccwWarn < INT_MAX)
      && (u.period == 0 <==> policy.period == 0)
  {
    assert Pow10(5) == 100000;
    assert Pow10(10) == 10000000000 by { assert Pow10(10) == 100000 * Pow10(5); }
    assert Rate(tech) >= LIMIT_50;
  }

  // ------------------------------------------------------------------ three chances

  /** What one check saw: were the uncorrected and the corrected codewords over their down limits? */
  datatype Seen = Seen(ucw: bool, ccw: bool)

  datatype Verdict = Fine | DownUcw | DownCcw

  datatype Warning = UcwWarn | CcwWarn

  const EIO: int := -5

  /** How many samples in a row, up to the last, were over the limit. */
  function RunLength(over: seq<bool>): nat {
    if over == [] || !over[|over| - 1] then 0 else 1 + RunLength(over[..|over| - 1])
  }

  predicate Third(run: nat) { run > 0 && run % 3 == 0 }

  function UcwSamples(seen: seq<Seen>): seq<bool> {
    if seen == [] then [] else UcwSamples(seen[..|seen| - 1]) + [seen[|seen| - 1].ucw]
  }

  function UcwRun(seen: seq<Seen>): nat { RunLength(UcwSamples(seen)) }

  /** The samples the corrected-codeword check gets to see: those where the other one did not trip. */
  function CcwSamples(seen: seq<Seen>): seq<bool> {
    if seen == [] then []
    else if Third(UcwRun(seen)) then CcwSamples(seen[..|seen| - 1])
    else CcwSamples(seen[..|seen| - 1]) + [seen[|seen| - 1].ccw]
  }

  function CcwRun(seen: seq<Seen>): nat { RunLength(CcwSamples(seen)) }

  /** What the last of these checks decides. */
  function Decided(seen: seq<Seen>): Verdict
    requires seen != []
  {
    if Third(UcwRun(seen)) then DownUcw
    else if Third(CcwRun(seen)) then DownCcw
    else Fine
  }

  lemma NextChance(run: nat)
    ensures Third(run + 1) <==> run % 3 == 2
    ensures (run + 1) % 3 == if run % 3 == 2 then 0 else run % 3 + 1
  {
  }

  lemma RunGrows(over: seq<bool>, now: bool)
    ensures RunLength(over + [now]) == if now then RunLength(over) + 1 else 0
  {
    assert (over + [now])[..|over|] == over;
  }

  lemma UcwGrows(before: seq<Seen>, now: Seen)
    ensures UcwRun(before + [now]) == if now.ucw then UcwRun(before) + 1 else 0
  {
    assert (before + [now])[..|before|] == before;
    assert UcwSamples(before + [now]) == UcwSamples(before) + [now.ucw];
    RunGrows(UcwSamples(before), now.ucw);
  }

  lemma CcwGrows(before: seq<Seen>, now: Seen)
    ensures CcwRun(before + [now]) == if Third(UcwRun(before + [now])) then CcwRun(before)
                                      else if now.ccw then CcwRun(before) + 1 else 0
  {
    assert (before + [now])[..|before|] == before;
    RunGrows(CcwSamples(before), now.ccw);
  }

  lemma SeenGrows(before: seq<Seen>, now: Seen)
    ensures var after := before + [now];
            var u, c := UcwRun(before) % 3, CcwRun(before) % 3;
            var trips := now.ucw && u == 2;
      && Decided(after) == (if trips then DownUcw else if now.ccw && c == 2 then DownCcw else Fine)
      && UcwRun(after) % 3 == (if trips || !now.ucw then 0 else u + 1)
      && CcwRun(after) % 3 == (if trips then c else if now.ccw && c < 2 then c + 1 else 0)
  {
    UcwGrows(before, now);
    CcwGrows(before, now);
    NextChance(UcwRun(before));
    NextChance(CcwRun(before));
  }

  class Checker {
    var limits: Limits
    var ucwChance: nat
    var ccwChance: nat
    var ucwWarned: bool
    var ccwWarned: bool
    ghost var seen: seq<Seen>
    ghost var told: multiset<Warning>

    /** Each counter is the length of the present run of over-limit samples, modulo three. Since the
        link last started up each warning was told once if its limit was crossed, and otherwise never. */
    ghost predicate Valid() reads this {
      && ucwChance == UcwRun(seen) % 3
      && ccwChance == CcwRun(seen) % 3
      && told[UcwWarn] == (if ucwWarned then 1 else 0)
      && told[CcwWarn] == (if ccwWarned then 1 else 0)
    }

    constructor ()
      ensures Valid() && seen == [] && told == multiset{} && limits == Limits(0, 0, 0, 0, 0)
    {
      limits := Limits(0, 0, 0, 0, 0);
      ucwChance, ccwChance, ucwWarned, ccwWarned := 0, 0, false, false;
      seen, told := [], multiset{};
    }

    /** Starting the link up forgets the warnings; the chances stay. */
    method LinkStartsUp()
      requires Valid()
      modifies this`ucwWarned, this`ccwWarned, this`told
      ensures Valid() && told == multiset{}
    {
      ucwWarned, ccwWarned := false, false;
      told := multiset{};
    }

    method LimitsCalc(policy: Policy, tech: set<nat>)
      modifies this`limits
      ensures limits == InUse(policy, tech)
    {
      var period: U32 := if policy.period < 0 then 500 else policy.period;
      var ccwDown: S32 := if policy.ccwDown < 0 then 0 else policy.ccwDown;
      var ccwWarn: S32 := policy.ccwWarn;
      if policy.ccwWarn < 0 {
        var l := LimitCalc(tech, 2, -5);
        ProductFits(tech, 2);
        ccwWarn := l / 2;
      }
      var ucwDown: S32 := policy.ucwDown;
      if policy.ucwDown < 0 {
        ucwDown := LimitCalc(tech, 1, -10);
        ProductFits(tech, 1);
      }
      var ucwWarn: S32 := policy.ucwWarn;
      if policy.ucwWarn < 0 {
        var l := LimitCalc(tech, 1, -10);
        ProductFits(tech, 1);
        ucwWarn := l / 2;
      }
      limits := Limits(ucwDown, ucwWarn, ccwDown, ccwWarn, period);
    }

    /** The counters are 8 bits wide; neither ever holds more than three. */
    method UcwChance(ucw: U64, period: U32) returns (trips: bool)
      requires ucwChance <= 2
      modifies this`ucwChance
      ensures ucwChance == (if LimitCheck(limits.ucwDown, ucw, period) then old(ucwChance) + 1 else 0) <= 3
      ensures trips <==> ucwChance == 3
    {
      if LimitCheck(limits.ucwDown, ucw, period) {
        ucwChance := (ucwChance + 1) % 256;
      } else {
        ucwChance := 0;
      }
      trips := ucwChance > 2;
    }

    method CcwChance(ccw: U64, period: U32) returns (trips: bool)
      requires ccwChance <= 2
      modifies this`ccwChance
      ensures ccwChance == (if LimitCheck(limits.ccwDown, ccw, period) then old(ccwChance) + 1 else 0) <= 3
      ensures trips <==> ccwChance == 3
    {
      if LimitCheck(limits.ccwDown, ccw, period) {
        ccwChance := (ccwChance + 1) % 256;
      } else {
        ccwChance := 0;
      }
      trips := ccwChance > 2;
    }

    /** Each warning whose limit is crossed is told unless it has been. */
    method WarnCheck(ucw: U64, ccw: U64, period: U32) returns (warnings: seq<Warning>)
      requires Valid()
      modifies this`ucwWarned, this`ccwWarned, this`told
      ensures Valid() && told == old(told) + multiset(warnings)
      ensures warnings ==
        (if LimitCheck(limits.ucwWarn, ucw, period) && old(told)[UcwWarn] == 0 then [UcwWarn] else [])
        + (if LimitCheck(limits.ccwWarn, ccw, period) && old(told)[CcwWarn] == 0 then [CcwWarn] else [])
    {
      warnings := [];
      if LimitCheck(limits.ucwWarn, ucw, period) {
        if !ucwWarned { warnings := [UcwWarn]; }
        ucwWarned := true;
      }
      if LimitCheck(limits.ccwWarn, ccw, period) {
        if !ccwWarned { warnings := warnings + [CcwWarn]; }
        ccwWarned := true;
      }
      told := told + multiset(warnings);
    }

    method DownCheck(ucw: U64, ccw: U64, period: U32) returns (v: Verdict)
      requires Valid()
      modifies this`ucwChance, this`ccwChance, this`seen
      ensures Valid()
      ensures seen == old(seen) + [Seen(LimitCheck(limits.ucwDown, ucw, period),
                                        LimitCheck(limits.ccwDown, ccw, period))]
      ensures v == Decided(seen)
    {
      ghost var now := Seen(LimitCheck(limits.ucwDown, ucw, period), LimitCheck(limits.ccwDown, ccw, period));
      SeenGrows(seen, now);
      seen := seen + [now];
      var ucwTrips := UcwChance(ucw, period);
      if ucwTrips {
        ucwChance := 0;
        return DownUcw;
      }
      var ccwTrips := CcwChance(ccw, period);
      if ccwTrips {
        ccwChance := 0;
        return DownCcw;
      }
      return Fine;
    }

    /** The verdict of a check is what the whole history of checks calls for; only a check that brings
        nothing down goes on to the warnings. `asyncRtn` is what the async-down of the link returns. */
    method DataCheck(ucw: U64, ccw: U64, period: U32, asyncRtn: int)
        returns (v: Verdict, rtn: int, warnings: seq<Warning>)
      requires Valid()
      modifies this`ucwChance, this`ccwChance, this`ucwWarned, this`ccwWarned, this`seen, this`told
      ensures Valid()
      ensures seen == old(seen) + [Seen(LimitCheck(limits.ucwDown, ucw, period),
                                        LimitCheck(limits.ccwDown, ccw, period))]
      ensures v == Decided(seen) && told == old(told) + multiset(warnings)
      ensures rtn == (if v.Fine? then 0 else if asyncRtn != 0 then asyncRtn else -5)
      ensures !v.Fine? ==> warnings == []
      ensures v.Fine? ==>
        && (var ucwNew := LimitCheck(limits.ucwWarn, ucw, period) && old(told)[UcwWarn] == 0;
            var ccwNew := LimitCheck(limits.ccwWarn, ccw, period) && old(told)[CcwWarn] == 0;
            warnings == (if ucwNew then [UcwWarn] else []) + (if ccwNew then [CcwWarn] else []))
    {
      warnings := [];
      v := DownCheck(ucw, ccw, period);
      if !v.Fine? {
        return v, if asyncRtn != 0 then asyncRtn else EIO, [];
      }
      warnings := WarnCheck(ucw, ccw, period);
      rtn := 0;
    }
  }

  lemma {:induction false} RunLengthIs(over: seq<bool>)
    ensures RunLength(over) <= |over|
    ensures forall i :: |over| - RunLength(over) <= i < |over| ==> over[i]
    ensures RunLength(over) < |over| ==> !over[|over| - RunLength(over) - 1]
  {
    if over != [] {
      RunLengthIs(over[..|over| - 1]);
    }
  }

  predicate Stretch(over: seq<bool>, start: nat) {
    && start <= |over|
    && (start > 0 ==> !over[start - 1])
    && (forall i :: start <= i < |over| ==> over[i])
  }

  /** In samples terms: a link goes down for uncorrected codewords exactly when the samples since the
      last good one are all over the limit and number a positive multiple of three, that is on the third
      since the last good sample or the last time it went down. */
  lemma DownOnThird(seen: seq<Seen>, start: nat)
    requires seen != [] && Stretch(UcwSamples(seen), start)
    ensures Decided(seen) == DownUcw <==> start < |UcwSamples(seen)| && (|UcwSamples(seen)| - start) % 3 == 0
  {
    RunLengthIs(UcwSamples(seen));
  }

  lemma DownOnThirdCcw(seen: seq<Seen>, start: nat)
    requires seen != [] && Stretch(CcwSamples(seen), start) && Decided(seen) != DownUcw
    ensures Decided(seen) == DownCcw <==> start < |CcwSamples(seen)| && (|CcwSamples(seen)| - start) % 3 == 0
  {
    RunLengthIs(CcwSamples(seen));
  }

  lemma {:induction false} UcwSamplesAre(seen: seq<Seen>)
    ensures |UcwSamples(seen)| == |seen|
    ensures forall i :: 0 <= i < |seen| ==> UcwSamples(seen)[i] == seen[i].ucw
  {
    if seen != [] {
      UcwSamplesAre(seen[..|seen| - 1]);
    }
  }

  // ------------------------------------------------------------------ bit error rate

  const CCW_MULT: nat := 1000000
  const UCW_MULT: nat := 1000000000000
  const BITS_PER_CW: nat := 5440

  const CCW_EXP: nat := 6
  const UCW_EXP: nat := 12

  datatype Rated = Rated(mant: nat, mag: nat)

  /** What is stored for a rate: mant * 10^exp. */
  datatype Stored = Stored(mant: U32, exp: S32)

  datatype Ber = Invalid | DivideByZero | Rates(ucw: Stored, ccw: Stored)

  /** r is the normalised form of the quotient num / den: at most three digits, at least two unless the
      quotient has fewer, and the quotient lies between mant and mant + 1 units of 10^mag. */
  predicate Normal(r: Rated, num: nat, den: nat) {
    && r.mant < 1000 && r.mag % 2 == 0 && (r.mag > 0 ==> r.mant >= 10)
    && r.mant * Pow10(r.mag) * den <= num < (r.mant + 1) * Pow10(r.mag) * den
  }

  lemma {:induction false} Pow10Grows(a: nat, b: nat)
    requires a <= b
    ensures Pow10(a) <= Pow10(b)
    ensures a + 2 <= b ==> 100 * Pow10(a) <= Pow10(b)
    decreases b
  {
    if a == b {
    } else {
      Pow10Grows(a, b - 1);
      if a + 1 < b { assert Pow10(b) == 10 * Pow10(b - 1); }
      if a + 2 == b { assert Pow10(b) == 10 * Pow10(a + 1) && Pow10(a + 1) == 10 * Pow10(a); }
    }
  }

  lemma NormalBelow(r: Rated, s: Rated, num: nat, den: nat)
    requires den > 0 && Normal(r, num, den) && Normal(s, num, den)
    ensures r.mag >= s.mag
  {
    if r.mag < s.mag {
      var p, q := Pow10(r.mag), Pow10(s.mag);
      Pow10Grows(r.mag, s.mag);
      Monotone(r.mant + 1, p, 1000, p);
      Monotone(10, q, s.mant, q);
      Monotone((r.mant + 1) * p, den, s.mant * q, den);
      assert false;
    }
  }

  /** The normalised form of a quotient is unique, so Normal says everything about a result. */
  lemma NormalUnique(r: Rated, s: Rated, num: nat, den: nat)
    requires den > 0 && Normal(r, num, den) && Normal(s, num, den)
    ensures r == s
  {
    NormalBelow(r, s, num, den);
    NormalBelow(s, r, num, den);
    var p := Pow10(r.mag);
    if r.mant < s.mant {
      Monotone(r.mant + 1, p, s.mant, p);
      Monotone((r.mant + 1) * p, den, s.mant * p, den);
    }
    if s.mant < r.mant {
      Monotone(s.mant + 1, p, r.mant, p);
      Monotone((s.mant + 1) * p, den, r.mant * p, den);
    }
  }

  /** The digits so far and the power of ten taken out of them. */
  predicate Between(rate: nat, mag: nat, whole: nat) {
    rate * Pow10(mag) <= whole < (rate + 1) * Pow10(mag)
  }

  lemma Hundredth(rate: nat, p: nat, whole: nat)
    requires rate * p <= whole < (rate + 1) * p
    ensures rate / 100 * (100 * p) <= whole < (rate / 100 + 1) * (100 * p)
  {
    Monotone(rate / 100 * 100, p, rate, p);
    Monotone(rate + 1, p, (rate / 100 + 1) * 100, p);
    assert rate / 100 * (100 * p) == rate / 100 * 100 * p;
    assert (rate / 100 + 1) * (100 * p) == (rate / 100 + 1) * 100 * p;
  }

  lemma BetweenStep(rate: nat, mag: nat, whole: nat)
    requires Between(rate, mag, whole)
    ensures Between(rate / 100, mag + 2, whole)
  {
    assert Pow10(mag + 2) == 100 * Pow10(mag) by { assert Pow10(mag + 1) == 10 * Pow10(mag); }
    Hundredth(rate, Pow10(mag), whole);
  }

  lemma ScaleUp(num: nat, den: nat, mant: nat, p: nat)
    requires den > 0 && mant * p <= num / den < (mant + 1) * p
    ensures mant * p * den <= num < (mant + 1) * p * den
  {
    var rate := num / den;
    Monotone(mant * p, den, rate, den);
    Monotone(rate + 1, den, (mant + 1) * p, den);
    assert rate * den <= num < (rate + 1) * den;
  }

  lemma BetweenNormal(num: nat, den: nat, r: Rated)
    requires den > 0 && Between(r.mant, r.mag, num / den)
    requires r.mant < 1000 && r.mag % 2 == 0 && (r.mag > 0 ==> r.mant >= 10)
    ensures Normal(r, num, den)
  {
    ScaleUp(num, den, r.mant, Pow10(r.mag));
  }

  lemma BetweenStart(whole: nat)
    ensures Between(whole, 0, whole)
  {
  }

  method Normalise(num: nat, den: nat) returns (r: Rated)
    requires den > 0
    ensures Normal(r, num, den)
  {
    var rate := Quot(num, den);
    ghost var whole := rate;
    var mag := 0;
    BetweenStart(whole);
    while rate / 100 > 9
      invariant mag % 2 == 0 && (mag > 0 ==> rate >= 10)
      invariant Between(rate, mag, whole)
      decreases rate
    {
      BetweenStep(rate, mag, whole);
      rate := rate / 100;
      mag := mag + 2;
    }
    r := Rated(rate, mag);
    BetweenNormal(num, den, r);
  }

  /** The bits of the interval, 5440 to a codeword, times the milliseconds, before any wrapping. */
  function Bits(ccw: U64, gcw: U64, period: U32): nat { (ccw + gcw * BITS_PER_CW) * period }

  /** Both counts pass their guards and some codeword was seen. */
  predicate Guarded(ucw: U64, ccw: U64, gcw: U64, hz: nat)
    requires 0 < hz
  {
    && (ccw + gcw) % TWO_64 != 0
    && ccw <= U64_MAX / (hz * CCW_MULT)
    && ucw <= U64_MAX / (hz * UCW_MULT)
  }

  lemma GuardExact(count: nat, factor: nat)
    requires factor > 0
    ensures count <= U64_MAX / factor <==> count * factor < TWO_64
  {
    var q := U64_MAX / factor;
    if count <= q { Monotone(count, factor, q, factor); }
    if count > q { Monotone(q + 1, factor, count, factor); }
  }

  lemma AddMultiple(a: nat, q: nat)
    ensures (q * TWO_64 + a) % TWO_64 == a % TWO_64
  {
    assert q * TWO_64 + a == (q + a / TWO_64) * TWO_64 + a % TWO_64;
  }

  lemma WrapProduct(a: nat, b: nat)
    ensures a % TWO_64 * b % TWO_64 == a * b % TWO_64
  {
    var q := a / TWO_64;
    assert a == q * TWO_64 + a % TWO_64;
    assert a * b == q * b * TWO_64 + a % TWO_64 * b by { Expand(q, TWO_64, a % TWO_64, b); }
    AddMultiple(a % TWO_64 * b, q * b);
  }

  lemma Associate(a: nat, b: nat, c: nat)
    ensures a * (b * c) == a * b * c
  {
  }

  lemma NumeratorFits(count: U64, hz: nat, mult: nat)
    requires 0 < hz && 0 < mult && count <= U64_MAX / (hz * mult)
    ensures count * hz % TWO_64 * mult % TWO_64 == count * hz * mult
  {
    GuardExact(count, hz * mult);
    assert count * (hz * mult) == count * hz * mult by { Associate(count, hz, mult); }
    WrapProduct(count * hz, mult);
  }

  lemma Pow10Of20()
    ensures Pow10(20) == 100_000_000_000_000_000_000
  {
    assert Pow10(5) == 100_000;
    assert Pow10(10) == 10_000_000_000 by { assert Pow10(10) == 100_000 * Pow10(5); }
    assert Pow10(15) == 1_000_000_000_000_000 by { assert Pow10(15) == 100_000 * Pow10(10); }
    assert Pow10(20) == 100_000 * Pow10(15);
  }

  /** A 64-bit numerator leaves no more than nineteen digits to scale away. */
  lemma MagSmall(r: Rated, num: nat, den: nat)
    requires den > 0 && num < TWO_64 && Normal(r, num, den)
    ensures r.mag < 20
  {
    if r.mag >= 20 {
      Pow10Of20();
      Pow10Grows(20, r.mag);
      var p := Pow10(r.mag);
      Monotone(1, p, r.mant, p);
      Monotone(p, 1, r.mant * p, den);
      assert false;
    }
  }

  /** s stands for the normalised quotient, 10^digits times too large. */
  predicate StoredFor(s: Stored, digits: int, num: nat, den: nat) {
    s.exp + digits >= 0 && Normal(Rated(s.mant, s.exp + digits), num, den)
  }

  method Store(num: nat, den: nat, digits: int) returns (s: Stored)
    requires den > 0 && num < TWO_64 && 0 <= digits <= 12
    ensures StoredFor(s, digits, num, den)
  {
    var r := Normalise(num, den);
    MagSmall(r, num, den);
    s := Stored(r.mant, r.mag - digits);
  }

  /** mant * 10^exp, to its last digit, is count / den. */
  predicate IsRate(s: Stored, count: nat, den: nat) {
    var exp: int := s.exp;
    if exp < 0 then s.mant * den <= count * Pow10(-exp) < (s.mant + 1) * den
    else s.mant * Pow10(exp) * den <= count < (s.mant + 1) * Pow10(exp) * den
  }

  lemma {:induction false} Pow10Sum(a: nat, b: nat)
    ensures Pow10(a + b) == Pow10(a) * Pow10(b)
  {
    if a > 0 {
      Pow10Sum(a - 1, b);
      assert Pow10(a + b) == 10 * Pow10(a - 1 + b);
      assert 10 * (Pow10(a - 1) * Pow10(b)) == Pow10(a) * Pow10(b);
    }
  }

  lemma CancelLe(a: nat, b: nat, p: nat)
    requires p > 0
    ensures a * p <= b * p ==> a <= b
    ensures a * p < b * p ==> a < b
  {
    if a > b { Monotone(b + 1, p, a, p); }
    if a >= b { Monotone(b, p, a, p); }
  }

  lemma Swap3(a: nat, b: nat, c: nat)
    ensures a * b * c == a * c * b
  {
  }

  lemma OffBelow(mant: nat, p: nat, den: nat, count: nat, q: nat)
    requires p > 0 && mant * p * den <= count * (q * p) < (mant + 1) * p * den
    ensures mant * den <= count * q < (mant + 1) * den
  {
    Associate(count, q, p);
    Swap3(mant, p, den);
    Swap3(mant + 1, p, den);
    CancelLe(mant * den, count * q, p);
    CancelLe(count * q, (mant + 1) * den, p);
  }

  lemma OffAbove(mant: nat, p: nat, den: nat, count: nat, q: nat)
    requires p > 0 && mant * (q * p) * den <= count * p < (mant + 1) * (q * p) * den
    ensures mant * q * den <= count < (mant + 1) * q * den
  {
    Associate(mant, q, p);
    Associate(mant + 1, q, p);
    Swap3(mant * q, p, den);
    Swap3((mant + 1) * q, p, den);
    CancelLe(mant * q * den, count, p);
    CancelLe(count, (mant + 1) * q * den, p);
  }

  /** The power put on before the division comes off again. */
  lemma StoredIsRate(s: Stored, digits: nat, count: nat, den: nat)
    requires StoredFor(s, digits, count * Pow10(digits), den)
    ensures IsRate(s, count, den)
  {
    var exp: int := s.exp;
    if exp < 0 {
      Pow10Sum(-exp, exp + digits);
      OffBelow(s.mant, Pow10(exp + digits), den, count, Pow10(-exp));
    } else {
      Pow10Sum(exp, digits);
      OffAbove(s.mant, Pow10(digits), den, count, Pow10(exp));
    }
  }

  lemma Multipliers()
    ensures CCW_MULT == Pow10(CCW_EXP) && UCW_MULT == Pow10(UCW_EXP)
  {
    assert Pow10(6) == 1_000_000 by { assert Pow10(6) == 1000 * Pow10(3); }
    assert Pow10(12) == 1_000_000_000_000 by { Pow10Sum(6, 6); }
  }

  /** The guards keep both numerators exact; the denominator is the number of bits as far as 64 bits hold
      it, and the division by it can be by zero. */
  method BerCalc(ucw: U64, ccw: U64, gcw: U64, period: U32, hz: nat) returns (b: Ber)
    requires 0 < hz <= INT_MAX / CCW_MULT
    ensures b.Invalid? <==>
      (ccw + gcw) % TWO_64 == 0 || ccw * (hz * 1_000_000) >= TWO_64 || ucw * (hz * 1_000_000_000_000) >= TWO_64
    ensures b.DivideByZero? <==> !b.Invalid? && (ccw + gcw * 5440) * period % TWO_64 == 0
    ensures b.Rates? ==> var bits := (ccw + gcw * 5440) * period % TWO_64;
      && IsRate(b.ccw, ccw * hz, bits) && IsRate(b.ucw, ucw * hz, bits)
      && StoredFor(b.ccw, CCW_EXP, ccw * hz * CCW_MULT, bits) && StoredFor(b.ucw, UCW_EXP, ucw * hz * UCW_MULT, bits)
  {
    GuardExact(ccw, hz * CCW_MULT);
    GuardExact(ucw, hz * UCW_MULT);
    var total := (ccw + gcw) % TWO_64;
    if total == 0 {
      return Invalid;
    }
    if ccw > U64_MAX / (hz * CCW_MULT) {
      return Invalid;
    }
    if ucw > U64_MAX / (hz * UCW_MULT) {
      return Invalid;
    }
    total := (ccw + gcw * BITS_PER_CW % TWO_64) % TWO_64;
    assert total == (ccw + gcw * BITS_PER_CW) % TWO_64 by {
      var g := gcw * BITS_PER_CW;
      AddMultiple(ccw + g % TWO_64, g / TWO_64);
    }
    WrapProduct(ccw + gcw * BITS_PER_CW, period);
    var den := total * period % TWO_64;
    if den == 0 {
      return DivideByZero;
    }
    NumeratorFits(ccw, hz, CCW_MULT);
    var c := Store(ccw * hz % TWO_64 * CCW_MULT % TWO_64, den, CCW_EXP);
    NumeratorFits(ucw, hz, UCW_MULT);
    var u := Store(ucw * hz % TWO_64 * UCW_MULT % TWO_64, den, UCW_EXP);
    Multipliers();
    StoredIsRate(c, CCW_EXP, ccw * hz, den);
    StoredIsRate(u, UCW_EXP, ucw * hz, den);
    return Rates(u, c);
  }

  lemma ZeroNormal(num: nat, den: nat)
    ensures Normal(Rated(0, 0), num, den) <==> num < den
  {
    assert Pow10(0) == 1;
  }

  /** A rate worked out from the wrapped bits is the true one exactly when nothing wrapped or the
      numerator is below what is left after wrapping. */
  lemma BerExact(num: nat, bits: nat, r: Rated)
    requires num <= U64_MAX && bits % TWO_64 != 0 && Normal(r, num, bits % TWO_64)
    ensures Normal(r, num, bits) <==> bits < TWO_64 || num < bits % TWO_64
  {
    ZeroNormal(num, bits % TWO_64);
    ZeroNormal(num, bits);
    if bits < TWO_64 {
      assert bits % TWO_64 == bits;
    } else if num < bits % TWO_64 {
      NormalUnique(r, Rated(0, 0), num, bits % TWO_64);
    } else if Normal(r, num, bits) {
      NormalUnique(r, Rated(0, 0), num, bits);
      assert false;
    }
  }

  /** Counts that pass every guard and yet wrap: one makes the divisor zero, one makes the rate wrong. */
  lemma BitsCanWrap(hz: nat) returns (zero: U64, ccw: U64, gcw: U64)
    requires 0 < hz <= 1000
    ensures Guarded(0, 0, zero, hz) && Bits(0, zero, 1) % TWO_64 == 0
    ensures Guarded(0, ccw, gcw, hz) && Bits(ccw, gcw, 1) % TWO_64 == 1
    ensures forall r :: Normal(r, ccw * hz * CCW_MULT, 1) ==> !Normal(r, ccw * hz * CCW_MULT, Bits(ccw, gcw, 1))
  {
    zero := 0x400_0000_0000_0000;
    assert Bits(0, zero, 1) == 85 * TWO_64;
    gcw := 3390945601784844;
    ccw := 257;
    assert Bits(ccw, gcw, 1) == TWO_64 + 1;
    Monotone(hz, CCW_MULT, 1000, CCW_MULT);
    GuardExact(ccw, hz * CCW_MULT);
    GuardExact(0, hz * UCW_MULT);
    GuardExact(0, hz * CCW_MULT);
    Monotone(ccw, hz * CCW_MULT, ccw, 1000 * CCW_MULT);
    Associate(ccw, hz, CCW_MULT);
    var num := ccw * hz * CCW_MULT;
    assert 1 <= num < TWO_64;
    forall r | Normal(r, num, 1) ensures !Normal(r, num, Bits(ccw, gcw, 1)) {
      BerExact(num, Bits(ccw, gcw, 1), r);
    }
  }
}

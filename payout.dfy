/**
 * The pari-mutuel payout function of `payout.ts`: the pool ratio, the
 * 5% floor and 10x ceiling on the stake, the combo and "perfect"
 * multipliers, the final hard cap and the floor to whole coins. The
 * decimal arithmetic of the source is exact, so it is written on `real`.
 */
module Payout {

  function MaxInt(a: int, b: int): int { if a >= b then a else b }
  function MinInt(a: int, b: int): int { if a <= b then a else b }
  function MaxReal(a: real, b: real): real { if a >= b then a else b }
  function MinReal(a: real, b: real): real { if a <= b then a else b }

  /** The pool ratio: losing pool over winning pool, with 1 as numerator when the losing pool is empty. */
  function Ratio(totalOnWinner: int, totalOnLoser: int): (r: real)
    ensures totalOnLoser > 0 ==> r > 0.0
    ensures totalOnLoser <= 0 ==> 0.0 < r <= 1.0
  {
    (if totalOnLoser <= 0 then 1 else totalOnLoser) as real / MaxInt(1, totalOnWinner) as real
  }

  /** The combo multiplier, with the stack count clamped to 0..10. */
  function ComboMultiplier(comboStacks: int): (m: real)
    ensures 1.0 <= m <= 1.15
  {
    1.0 + 0.015 * MinInt(10, MaxInt(0, comboStacks)) as real
  }

  /** The stake times the ratio, clamped to [5% of the stake, 10 times the stake]. */
  function StepCapped(bet: int, totalOnWinner: int, totalOnLoser: int): (p: real)
    ensures bet >= 0 ==> bet as real * 0.05 <= p <= bet as real * 10.0
  {
    var b := bet as real;
    MaxReal(b * 0.05, MinReal(b * Ratio(totalOnWinner, totalOnLoser), b * 10.0))
  }

  /** The amount before the hard cap and the floor: the step-capped amount times the combo factor, doubled when perfect. */
  function Uncapped(bet: int, totalOnWinner: int, totalOnLoser: int, comboStacks: int, isPerfect: bool): real
  {
    var p := StepCapped(bet, totalOnWinner, totalOnLoser) * ComboMultiplier(comboStacks);
    if isPerfect then p * 2.0 else p
  }

  /** `computePayout`; `isUnderdog` is accepted and, as in the source, ignored. */
  function ComputePayout(bet: int, totalOnWinner: int, totalOnLoser: int, comboStacks: int,
                         isPerfect: bool, isUnderdog: bool): int
  {
    MinReal(Uncapped(bet, totalOnWinner, totalOnLoser, comboStacks, isPerfect), bet as real * 10.0).Floor
  }

  /** The step cap's lower end survives the multipliers, because they are all at least 1. */
  lemma UncappedAtLeastFloor(bet: int, w: int, l: int, c: int, perfect: bool)
    requires bet >= 0
    ensures Uncapped(bet, w, l, c, perfect) >= bet as real * 0.05
  {
    var s := StepCapped(bet, w, l);
    var m := ComboMultiplier(c);
    ScaleLe(0.0, bet as real, 0.05);
    Amplified(s, m, perfect);
  }

  /** The combo factor and the doubling never lower a non-negative amount. */
  lemma Amplified(s: real, m: real, perfect: bool)
    requires s >= 0.0 && m >= 1.0
    ensures (if perfect then s * m * 2.0 else s * m) >= s
  {
    ScaleUp(s, m);
    ScaleUp(s * m, 2.0);
  }

  /** Multiplying a non-negative amount by a factor of at least 1 does not make it smaller. */
  lemma ScaleUp(a: real, k: real)
    requires a >= 0.0 && k >= 1.0
    ensures a * k >= a && a * k >= 0.0
  {
    assert a * k - a == a * (k - 1.0);
  }

  /** Multiplying the ends of an inequality by the same non-negative amount keeps it. */
  lemma ScaleLe(a: real, b: real, k: real)
    requires a <= b && k >= 0.0
    ensures a * k <= b * k
  {
    assert b * k - a * k == (b - a) * k;
  }

  /** For a non-negative stake the result is a whole number in [floor(5% of the stake), 10 times the stake]. */
  lemma PayoutBounds(bet: int, w: int, l: int, c: int, perfect: bool, underdog: bool)
    requires bet >= 0
    ensures (bet as real * 0.05).Floor <= ComputePayout(bet, w, l, c, perfect, underdog) <= 10 * bet
  {
    UncappedAtLeastFloor(bet, w, l, c, perfect);
    var u := Uncapped(bet, w, l, c, perfect);
    var capped := MinReal(u, bet as real * 10.0);
    assert bet as real * 0.05 <= capped <= bet as real * 10.0;
    assert (bet as real * 10.0).Floor == 10 * bet;
  }

  /** A negative stake always gets its own 5% "floor", which is the larger end of the inverted clamp. */
  lemma NegativeStakeGetsMinimum(bet: int, w: int, l: int)
    requires bet < 0
    ensures StepCapped(bet, w, l) == bet as real * 0.05
  {
  }

  /** The ratio is the losing pool over max(1, winning pool) when the losing pool is positive. */
  lemma RatioWithLosers(bet: int, w: int, l: int)
    requires l > 0
    ensures Ratio(w, l) * MaxInt(1, w) as real == l as real
  {
  }

  /**
   * With an empty losing pool the numerator becomes 1, so the ratio is
   * 1/max(1, winning pool) and not 1: with two or more coins on the
   * winning side a non-perfect winner does not even get the stake back.
   */
  lemma EmptyLosingPoolLosesStake(bet: int, w: int, l: int, c: int, underdog: bool)
    requires bet > 0 && l <= 0 && w >= 2
    ensures Ratio(w, l) == 1.0 / w as real
    ensures ComputePayout(bet, w, l, c, false, underdog) < bet
  {
    var b := bet as real;
    var r := Ratio(w, l);
    assert r == 1.0 / w as real;
    assert r <= 0.5 by {
      assert r * w as real == 1.0;
      ScaleLe(2.0, w as real, r);
    }
    var s := StepCapped(bet, w, l);
    assert b * r <= b * 0.5 by {
      ScaleLe(r, 0.5, b);
      assert b * r == r * b;
    }
    assert s <= b * 0.5;
    var m := ComboMultiplier(c);
    Below(s, m, b);
    var u := Uncapped(bet, w, l, c, false);
    assert u == s * m;
    assert MinReal(u, b * 10.0) < b;
  }

  /** At most half the stake, times a combo factor of at most 1.15, stays below the stake. */
  lemma Below(s: real, m: real, b: real)
    requires s <= b * 0.5 && 1.0 <= m <= 1.15 && b > 0.0
    ensures s * m < b
  {
    ScaleLe(s, b * 0.5, m);
    ScaleLe(m, 1.15, b * 0.5);
    assert (b * 0.5) * m == m * (b * 0.5);
  }

  /** Stacks above 10 act as 10 and negative stacks act as 0. */
  lemma ComboStacksClamped(bet: int, w: int, l: int, c: int, perfect: bool, underdog: bool)
    ensures c > 10 ==> ComputePayout(bet, w, l, c, perfect, underdog) == ComputePayout(bet, w, l, 10, perfect, underdog)
    ensures c < 0 ==> ComputePayout(bet, w, l, c, perfect, underdog) == ComputePayout(bet, w, l, 0, perfect, underdog)
    ensures ComboMultiplier(c) == 1.0 + 0.015 * MinInt(10, MaxInt(0, c)) as real
  {
  }

  /**
   * `isPerfect` doubles the clamped, combo-adjusted amount before the
   * hard cap; the cap still bounds the result by 10 times the stake, and
   * for a non-negative stake a perfect bet never pays less.
   */
  lemma PerfectDoublesUnderCap(bet: int, w: int, l: int, c: int, underdog: bool)
    requires bet >= 0
    ensures Uncapped(bet, w, l, c, true) == 2.0 * Uncapped(bet, w, l, c, false)
    ensures ComputePayout(bet, w, l, c, true, underdog) <= 10 * bet
    ensures ComputePayout(bet, w, l, c, false, underdog) <= ComputePayout(bet, w, l, c, true, underdog)
  {
    UncappedAtLeastFloor(bet, w, l, c, false);
    PayoutBounds(bet, w, l, c, true, underdog);
    var u := Uncapped(bet, w, l, c, false);
    assert u >= 0.0;
    assert MinReal(u, bet as real * 10.0) <= MinReal(2.0 * u, bet as real * 10.0);
  }

  /** `isUnderdog` has no effect on the result. */
  lemma UnderdogIgnored(bet: int, w: int, l: int, c: int, perfect: bool)
    ensures ComputePayout(bet, w, l, c, perfect, true) == ComputePayout(bet, w, l, c, perfect, false)
  {
  }

  /** Stake 100, pools 500 and 1000, no stacks, not perfect: ratio 2, payout 200. */
  lemma Example200()
    ensures ComputePayout(100, 500, 1000, 0, false, false) == 200
  {
    assert Ratio(500, 1000) == 2.0;
    assert StepCapped(100, 500, 1000) == 200.0;
    assert ComboMultiplier(0) == 1.0;
  }
}

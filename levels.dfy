/**
 * Volume-level arithmetic of AudioSource (audiocore.py): levels are reals in
 * [0, 1] (or the -1.0 "unavailable" sentinel), and every step is taken on
 * whole percentage points.
 */
module Levels {

  function Min(a: real, b: real): real { if a <= b then a else b }
  function Max(a: real, b: real): real { if a >= b then a else b }

  /** `round(x)`, rounding halves upwards. */
  function Round(x: real): (r: int)
    ensures x - 0.5 < r as real <= x + 0.5
  {
    (x + 0.5).Floor
  }

  /** `round(level * 100)`: the level in whole percentage points. */
  function Percent(level: real): int
  {
    Round(level * 100.0)
  }

  /** `int(x)`: truncation toward zero. */
  function Truncate(x: real): (r: int)
    ensures x >= 0.0 ==> 0 <= r && r as real <= x < r as real + 1.0
    ensures x < 0.0 ==> r <= 0 && r as real - 1.0 < x <= r as real
  {
    if x >= 0.0 then x.Floor else -((-x).Floor)
  }

  /** A level that is an exact number of percentage points. */
  predicate WholePercent(level: real)
  {
    (level * 100.0).Floor as real == level * 100.0
  }

  /** The level `volumeUp` writes: `min(1.0, (round(level*100) + step) / 100)`. */
  function StepUp(level: real, step: int): real
  {
    Min(1.0, (Percent(level) + step) as real / 100.0)
  }

  /** The level `volumeDown` writes: `max(0.0, (round(level*100) - step) / 100)`. */
  function StepDown(level: real, step: int): real
  {
    Max(0.0, (Percent(level) - step) as real / 100.0)
  }

  /** Partial mute: `level *= (100 - mutePercentage) / 100`. */
  function Attenuate(level: real, mutePercentage: int): real
  {
    level * (100 - mutePercentage) as real / 100.0
  }

  /** Unmute after a partial mute: `min(1.0, round(level*100) / (100 - mutePercentage))`. */
  function Restore(level: real, mutePercentage: int): real
    requires mutePercentage < 100
  {
    Min(1.0, Percent(level) as real / (100 - mutePercentage) as real)
  }

  lemma PercentOfWhole(n: int)
    ensures Percent(n as real / 100.0) == n
  {
    assert n as real / 100.0 * 100.0 == n as real;
  }

  lemma PercentBounds(level: real)
    requires 0.0 <= level <= 1.0
    ensures 0 <= Percent(level) <= 100
  {
  }

  /** From a level in [0, 1], a step up lands on a whole percentage in (0, 1], exactly `step` points up unless clamped. */
  lemma StepUpRange(level: real, step: int)
    requires 0.0 <= level <= 1.0 && 1 <= step
    ensures 0.0 < StepUp(level, step) <= 1.0
    ensures WholePercent(StepUp(level, step))
    ensures StepUp(level, step) == 1.0 || Percent(StepUp(level, step)) == Percent(level) + step
  {
    var n := Percent(level) + step;
    PercentOfWhole(n);
    if n as real / 100.0 < 1.0 {
      assert n as real / 100.0 * 100.0 == n as real;
    } else {
      assert 1.0 * 100.0 == 100.0;
    }
  }

  /** From a level in [0, 1], a step down lands on a whole percentage in [0, 1), exactly `step` points down unless clamped. */
  lemma StepDownRange(level: real, step: int)
    requires 0.0 <= level <= 1.0 && 1 <= step
    ensures 0.0 <= StepDown(level, step) < 1.0
    ensures WholePercent(StepDown(level, step))
    ensures StepDown(level, step) == 0.0 || Percent(StepDown(level, step)) == Percent(level) - step
  {
    var n := Percent(level) - step;
    PercentOfWhole(n);
    if n as real / 100.0 > 0.0 {
      assert n as real / 100.0 * 100.0 == n as real;
    }
  }

  /** A step up followed by a step down returns to the rounded start, within half a point of it, away from the clamp. */
  lemma {:induction false} StepUpThenDown(level: real, step: int)
    requires 0.0 <= level <= 1.0 && 1 <= step
    requires Percent(level) + step <= 100
    ensures StepDown(StepUp(level, step), step) == Percent(level) as real / 100.0
    ensures -0.005 <= StepDown(StepUp(level, step), step) - level <= 0.005
  {
    var p := Percent(level);
    assert StepUp(level, step) == (p + step) as real / 100.0;
    PercentOfWhole(p + step);
  }

  /** A step down followed by a step up returns to the rounded start, away from the clamp. */
  lemma {:induction false} StepDownThenUp(level: real, step: int)
    requires 0.0 <= level <= 1.0 && 1 <= step
    requires Percent(level) - step >= 0
    ensures StepUp(StepDown(level, step), step) == Percent(level) as real / 100.0
  {
    var p := Percent(level);
    assert StepDown(level, step) == (p - step) as real / 100.0;
    PercentOfWhole(p - step);
  }

  /** The level after `k` consecutive steps down. */
  function Downs(level: real, step: int, k: nat): real
  {
    if k == 0 then level else StepDown(Downs(level, step, k - 1), step)
  }

  /** After `k >= 1` steps down the level is `max(0, round(level*100) - k*step) / 100`: never negative. */
  lemma {:induction false} DownsFormula(level: real, step: int, k: nat)
    requires 1 <= step && 1 <= k
    ensures Downs(level, step, k) == (if Percent(level) - k * step > 0 then Percent(level) - k * step else 0) as real / 100.0
  {
    if k > 1 {
      DownsFormula(level, step, k - 1);
      var m := if Percent(level) - (k - 1) * step > 0 then Percent(level) - (k - 1) * step else 0;
      PercentOfWhole(m);
      assert (k - 1) * step + step == k * step;
    }
  }

  /** Repeated steps down from any level in [0, 1] reach exactly 0 within ceil(100 / step) presses. */
  lemma DownsReachZero(level: real, step: int)
    requires 0.0 <= level <= 1.0 && 1 <= step
    ensures Downs(level, step, (99 + step) / step) == 0.0
  {
    var k := (99 + step) / step;
    assert k * step + (99 + step) % step == 99 + step;
    assert k >= 1;
    DownsFormula(level, step, k);
  }

  lemma RestoreRange(level: real, mutePercentage: int)
    requires 0.0 <= level && 1 <= mutePercentage <= 99
    ensures 0.0 <= Restore(level, mutePercentage) <= 1.0
  {
  }

  lemma AttenuateRange(level: real, mutePercentage: int)
    requires 0.0 <= level <= 1.0 && 1 <= mutePercentage <= 99
    ensures 0.0 <= Attenuate(level, mutePercentage) <= level
  {
    var q := (100 - mutePercentage) as real / 100.0;
    assert Attenuate(level, mutePercentage) == level * q;
    assert 0.0 < q < 1.0;
  }

  lemma MulNonNeg(a: real, b: real)
    requires a >= 0.0 && b >= 0.0
    ensures a * b >= 0.0
  {
  }

  lemma MulAtMostOne(a: real, q: real)
    requires a <= 1.0 && q > 0.0
    ensures a * q <= q
  {
  }

  lemma DivAtMostOne(a: real, q: real)
    requires a <= q && q > 0.0
    ensures a / q <= 1.0
  {
  }

  lemma SubMul(a: real, b: real, q: real)
    ensures (a - b) * q == a * q - b * q
  {
  }

  lemma DivMul(a: real, q: real)
    requires q > 0.0
    ensures a / q * q == a
    ensures a >= 0.0 ==> a / q >= 0.0
  {
  }

  lemma AttenuateScaled(level: real, mutePercentage: int)
    ensures Attenuate(level, mutePercentage) * 100.0 == level * (100 - mutePercentage) as real
  {
  }

  /**
   * A partial mute followed by an unmute restores the level within half a
   * percentage point of the attenuated scale: |restored - level| <= 1 / (2 * (100 - p)).
   */
  lemma {:induction false} AttenuateThenRestore(level: real, mutePercentage: int)
    requires 0.0 <= level <= 1.0 && 1 <= mutePercentage <= 99
    ensures 0.0 <= Restore(Attenuate(level, mutePercentage), mutePercentage) <= 1.0
    ensures -0.5 <= (Restore(Attenuate(level, mutePercentage), mutePercentage) - level) * (100 - mutePercentage) as real <= 0.5
  {
    var q := (100 - mutePercentage) as real;
    var a := Attenuate(level, mutePercentage);
    AttenuateScaled(level, mutePercentage);
    var r := Percent(a);
    assert r == Round(level * q);
    RoundedRatio(level, 100 - mutePercentage, r);
    assert Restore(a, mutePercentage) == Min(1.0, r as real / q);
  }

  /** The arithmetic behind AttenuateThenRestore: a level scaled by q, rounded and divided by q again, stays within 1/(2q). */
  lemma RoundedRatio(level: real, qi: int, r: int)
    requires qi >= 1 && 0.0 <= level <= 1.0
    requires level * qi as real - 0.5 < r as real <= level * qi as real + 0.5
    ensures 0.0 <= r as real / qi as real <= 1.0
    ensures -0.5 <= (r as real / qi as real - level) * qi as real <= 0.5
  {
    var q := qi as real;
    MulNonNeg(level, q);
    MulAtMostOne(level, q);
    assert r <= qi;
    DivMul(r as real, q);
    DivAtMostOne(r as real, q);
    SubMul(r as real / q, level, q);
  }

  /** The sum of the channel levels, accumulated from the first channel on. */
  function Sum(s: seq<real>): real
  {
    if |s| == 0 then 0.0 else Sum(s[..|s| - 1]) + s[|s| - 1]
  }

  /** The arithmetic mean of a non-empty list of levels. */
  function Mean(s: seq<real>): real
    requires |s| > 0
  {
    Sum(s) / |s| as real
  }

  lemma {:induction false} SumBounds(s: seq<real>)
    requires forall k :: 0 <= k < |s| ==> 0.0 <= s[k] <= 1.0
    ensures 0.0 <= Sum(s) <= |s| as real
  {
    if |s| > 0 {
      SumBounds(s[..|s| - 1]);
    }
  }

  lemma {:induction false} SumConstant(n: nat, v: real)
    ensures Sum(seq(n, _ => v)) == n as real * v
  {
    if n > 0 {
      assert seq(n, _ => v)[..n - 1] == seq(n - 1, _ => v);
      SumConstant(n - 1, v);
    }
  }

  /** The mean of levels in [0, 1] is in [0, 1]. */
  lemma MeanBounds(s: seq<real>)
    requires |s| > 0
    requires forall k :: 0 <= k < |s| ==> 0.0 <= s[k] <= 1.0
    ensures 0.0 <= Mean(s) <= 1.0
  {
    SumBounds(s);
  }

  /** Levels that are all equal average to that level: averaging twice changes nothing. */
  lemma MeanConstant(n: nat, v: real)
    requires n > 0
    ensures Mean(seq(n, _ => v)) == v
  {
    SumConstant(n, v);
  }
}

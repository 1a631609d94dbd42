/**
 * `compute_score`: six separately clamped components, their sum clamped at
 * 1000 and rounded half-to-even (Python's `round`). The natural logarithm is
 * a parameter `ln`: `np.log1p(x)` is `ln(1 + x)` and `np.log(c)` is `ln(c)`.
 */
module Scoring {
  import opened FeatureRecords

  function Min(a: real, b: real): real
  {
    if b < a then b else a
  }

  /** What the scoring needs of `ln`: the two normalising constants are non-zero. */
  predicate ScalesDefined(ln: real -> real)
  {
    ln(500.0) != 0.0 && ln(10000000.0) != 0.0
  }

  /** The properties of the natural logarithm the saturation and lower-bound lemmas use. */
  ghost predicate IsLogarithm(ln: real -> real)
  {
    && ln(1.0) == 0.0
    && forall x, y :: 0.0 < x < y ==> ln(x) < ln(y)
  }

  lemma LogarithmScales(ln: real -> real)
    requires IsLogarithm(ln)
    ensures ln(500.0) > 0.0 && ln(10000000.0) > 0.0
    ensures ScalesDefined(ln)
  {
    assert ln(1.0) < ln(500.0);
    assert ln(1.0) < ln(10000000.0);
  }

  /** Repayment: `min(repay_ratio, 1) * 300`. */
  function RepayComponent(ratio: real): (c: real)
    ensures c <= 300.0
    ensures ratio >= 1.0 ==> c == 300.0
    ensures ratio >= 0.0 ==> c >= 0.0
  {
    300.0 * Min(ratio, 1.0)
  }

  /** Redemption: `min(redeem_ratio, 1) * 200`. */
  function RedeemComponent(ratio: real): (c: real)
    ensures c <= 200.0
    ensures ratio >= 1.0 ==> c == 200.0
    ensures ratio >= 0.0 ==> c >= 0.0
  {
    200.0 * Min(ratio, 1.0)
  }

  /** The liquidation-free bonus: all or nothing. */
  function LiquidationBonus(numLiquidation: int): (b: real)
    ensures b == 100.0 <==> numLiquidation == 0
    ensures b == 0.0 <==> numLiquidation != 0
  {
    if numLiquidation == 0 then 100.0 else 0.0
  }

  /** Volume: `min(log1p(total_tx) / log(500) * 150, 150)`. */
  function VolumeComponent(totalTx: int, ln: real -> real): (c: real)
    requires ScalesDefined(ln)
    ensures c <= 150.0
  {
    Min(ln(1.0 + totalTx as real) / ln(500.0) * 150.0, 150.0)
  }

  /** Duration: `min(log1p(tx_duration_sec) / log(1e7) * 150, 150)`. */
  function DurationComponent(durationSec: int, ln: real -> real): (c: real)
    requires ScalesDefined(ln)
    ensures c <= 150.0
  {
    Min(ln(1.0 + durationSec as real) / ln(10000000.0) * 150.0, 150.0)
  }

  /** Diversity: `min(num_assets, 10) / 10 * 100`. */
  function DiversityComponent(numAssets: int): (c: real)
    ensures c <= 100.0
    ensures c == 100.0 <==> numAssets >= 10
    ensures numAssets >= 0 ==> c >= 0.0
  {
    Min(numAssets as real, 10.0) / 10.0 * 100.0
  }

  /** The sum of the six components, before the outer clamp. */
  function ScoreSum(f: FeatureRecord, ln: real -> real): (total: real)
    requires ScalesDefined(ln)
    ensures total <= 1000.0
  {
    RepayComponent(f.repayRatio)
    + RedeemComponent(f.redeemRatio)
    + LiquidationBonus(f.numLiquidation)
    + VolumeComponent(f.totalTx, ln)
    + DurationComponent(f.txDurationSec, ln)
    + DiversityComponent(f.numAssets)
  }

  /** Python's `round`: the nearest integer, ties to the even one. */
  function RoundHalfEven(x: real): (n: int)
    ensures x - 0.5 <= n as real <= x + 0.5
    ensures n as real == x - 0.5 || n as real == x + 0.5 ==> n % 2 == 0
  {
    var below := x.Floor;
    var fraction := x - below as real;
    if fraction < 0.5 then below
    else if fraction > 0.5 then below + 1
    else if below % 2 == 0 then below
    else below + 1
  }

  function ComputeScore(f: FeatureRecord, ln: real -> real): (score: int)
    requires ScalesDefined(ln)
    ensures score <= 1000
  {
    RoundHalfEven(Min(ScoreSum(f, ln), 1000.0))
  }

  /** The outer clamp never changes the sum: the components already add up to at most 1000. */
  lemma OuterClampIsRedundant(f: FeatureRecord, ln: real -> real)
    requires ScalesDefined(ln)
    ensures Min(ScoreSum(f, ln), 1000.0) == ScoreSum(f, ln)
  {
  }

  /** The volume term saturates exactly from 499 transactions on (`log1p(499) == log(500)`). */
  lemma VolumeSaturation(totalTx: int, ln: real -> real)
    requires IsLogarithm(ln)
    requires totalTx >= 0
    ensures ScalesDefined(ln) && (VolumeComponent(totalTx, ln) == 150.0 <==> totalTx >= 499)
    ensures ScalesDefined(ln) && VolumeComponent(totalTx, ln) >= 0.0
  {
    LogarithmScales(ln);
    var t := 1.0 + totalTx as real;
    if totalTx > 499 {
      assert ln(500.0) < ln(t);
    } else if totalTx < 499 {
      assert ln(t) < ln(500.0);
    }
    if totalTx > 0 {
      assert ln(1.0) < ln(t);
    }
    Quotient(ln(t), ln(500.0));
  }

  /** The duration term saturates exactly from 9,999,999 seconds on (`log1p(1e7 - 1) == log(1e7)`). */
  lemma DurationSaturation(durationSec: int, ln: real -> real)
    requires IsLogarithm(ln)
    requires durationSec >= 0
    ensures ScalesDefined(ln) && (DurationComponent(durationSec, ln) == 150.0 <==> durationSec >= 9999999)
    ensures ScalesDefined(ln) && DurationComponent(durationSec, ln) >= 0.0
  {
    LogarithmScales(ln);
    var t := 1.0 + durationSec as real;
    if durationSec > 9999999 {
      assert ln(10000000.0) < ln(t);
    } else if durationSec < 9999999 {
      assert ln(t) < ln(10000000.0);
    }
    if durationSec > 0 {
      assert ln(1.0) < ln(t);
    }
    Quotient(ln(t), ln(10000000.0));
  }

  /** `min(a / b * 150, 150)` is 150 exactly when `a >= b`, and is non-negative when `a` is. */
  lemma Quotient(a: real, b: real)
    requires b > 0.0
    ensures Min(a / b * 150.0, 150.0) == 150.0 <==> a >= b
    ensures a >= 0.0 ==> Min(a / b * 150.0, 150.0) >= 0.0
  {
    if a < b {
      assert a / b < 1.0;
    } else {
      assert a / b >= 1.0;
    }
  }

  /**
   * Two records that differ only in whether there was a liquidation differ by
   * exactly 100 before the outer clamp.
   */
  lemma LiquidationCostsExactly100(f: FeatureRecord, liquidations: nat, ln: real -> real)
    requires ScalesDefined(ln)
    requires f.numLiquidation == 0 && liquidations > 0
    ensures ScoreSum(f, ln) == ScoreSum(f.(numLiquidation := liquidations), ln) + 100.0
  {
  }

  /** A record with every component saturated scores exactly 1000. */
  lemma SaturatedScoreIs1000(f: FeatureRecord, ln: real -> real)
    requires IsLogarithm(ln)
    requires f.repayRatio >= 1.0 && f.redeemRatio >= 1.0 && f.numLiquidation == 0
    requires f.totalTx >= 499 && f.txDurationSec >= 9999999 && f.numAssets >= 10
    ensures ScalesDefined(ln) && ComputeScore(f, ln) == 1000
  {
    LogarithmScales(ln);
    VolumeSaturation(f.totalTx, ln);
    DurationSaturation(f.txDurationSec, ln);
  }

  /** With non-negative ratios (non-negative amounts and prices) the score is never negative. */
  lemma ScoreNonNegative(f: FeatureRecord, ln: real -> real)
    requires IsLogarithm(ln)
    requires f.repayRatio >= 0.0 && f.redeemRatio >= 0.0 && f.txDurationSec >= 0
    ensures ScalesDefined(ln) && 0 <= ComputeScore(f, ln) <= 1000
  {
    LogarithmScales(ln);
    VolumeSaturation(f.totalTx, ln);
    DurationSaturation(f.txDurationSec, ln);
  }
}

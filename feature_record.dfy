/**
 * Finalisation of one wallet's accumulator into its feature record: the
 * sorted-timestamp timing features and the two ratios with their
 * zero-denominator guard.
 */
module FeatureRecords {
  import opened Accumulation
  import opened Timestamps

  datatype FeatureRecord = FeatureRecord(
    wallet: string,
    totalTx: nat,
    numAssets: nat,
    depositUsd: real,
    borrowUsd: real,
    repayUsd: real,
    redeemUsd: real,
    numDeposit: nat,
    numBorrow: nat,
    numRepay: nat,
    numRedeem: nat,
    numLiquidation: nat,
    repayRatio: real,
    redeemRatio: real,
    txDurationSec: int,
    avgTxGapSec: real)

  /** `part / whole if whole > 0 else 0`: never divides by zero (or by a negative total). */
  function Ratio(part: real, whole: real): (q: real)
    ensures whole > 0.0 ==> q * whole == part
    ensures whole <= 0.0 ==> q == 0.0
  {
    if whole > 0.0 then part / whole else 0.0
  }

  /** The feature record of wallet `w` built from its final state `acc`. */
  function Finalize(w: string, acc: Accumulator): (f: FeatureRecord)
    ensures f.wallet == w && f.numAssets == |acc.assetsUsed|
    ensures acc.borrowUsd > 0.0 ==> f.repayRatio * acc.borrowUsd == acc.repayUsd
    ensures acc.borrowUsd <= 0.0 ==> f.repayRatio == 0.0
    ensures acc.depositUsd > 0.0 ==> f.redeemRatio * acc.depositUsd == acc.redeemUsd
    ensures acc.depositUsd <= 0.0 ==> f.redeemRatio == 0.0
    ensures f.txDurationSec == Duration(acc.timestamps) && f.avgTxGapSec == AverageGap(acc.timestamps)
    ensures f.txDurationSec >= 0 && f.avgTxGapSec >= 0.0
  {
    var repayRatio := Ratio(acc.repayUsd, acc.borrowUsd);
    var redeemRatio := Ratio(acc.redeemUsd, acc.depositUsd);
    var duration := Duration(acc.timestamps);
    var gap := AverageGap(acc.timestamps);
    FeatureRecord(
      wallet := w,
      totalTx := acc.totalTx,
      numAssets := |acc.assetsUsed|,
      depositUsd := acc.depositUsd,
      borrowUsd := acc.borrowUsd,
      repayUsd := acc.repayUsd,
      redeemUsd := acc.redeemUsd,
      numDeposit := acc.numDeposit,
      numBorrow := acc.numBorrow,
      numRepay := acc.numRepay,
      numRedeem := acc.numRedeem,
      numLiquidation := acc.numLiquidation,
      repayRatio := repayRatio,
      redeemRatio := redeemRatio,
      txDurationSec := duration,
      avgTxGapSec := gap)
  }

  /** Non-negative USD totals give non-negative ratios. */
  lemma RatiosNonNegative(w: string, acc: Accumulator)
    requires acc.depositUsd >= 0.0 && acc.borrowUsd >= 0.0
    requires acc.repayUsd >= 0.0 && acc.redeemUsd >= 0.0
    ensures Finalize(w, acc).repayRatio >= 0.0 && Finalize(w, acc).redeemRatio >= 0.0
  {
  }
}

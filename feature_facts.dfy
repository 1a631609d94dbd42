/**
 * What the feature records say about the input: one record per wallet, and
 * each record's counts, totals, assets and timing come from that wallet's
 * own records and from nothing else.
 */
module FeatureFacts {
  import opened Wrappers
  import opened Transactions
  import opened Normalizer
  import opened Accumulation
  import opened Timestamps
  import opened FeatureRecords
  import opened Extraction

  /** Every wallet of the input has exactly one record, and no other wallet has one. */
  lemma FeaturesCoverWallets(txs: seq<Transaction>, parse: string -> Option<real>)
    requires AllConvertible(txs, parse)
    ensures var fs := Features(txs, parse);
      forall i, j :: 0 <= i < j < |fs| ==> fs[i].wallet != fs[j].wallet
    ensures (set f | f in Features(txs, parse) :: f.wallet) == WalletSet(txs)
  {
    var fs, ws := Features(txs, parse), FirstSeen(txs);
    forall i | 0 <= i < |fs| ensures fs[i].wallet == ws[i] {
      FinalizeAllAt(ws, Accumulate(txs, parse), i);
    }
    forall w ensures w in (set f | f in fs :: f.wallet) <==> w in WalletSet(txs) {
      if w in WalletSet(txs) {
        assert w in ws;
        var i :| 0 <= i < |ws| && ws[i] == w;
        assert fs[i] in fs;
      }
      if w in (set f | f in fs :: f.wallet) {
        var f :| f in fs && f.wallet == w;
        var i :| 0 <= i < |fs| && fs[i] == f;
        assert ws[i] in ws;
      }
    }
  }

  /** The record at position `i` is the finalisation of its wallet's own records. */
  lemma FeatureOfWallet(txs: seq<Transaction>, parse: string -> Option<real>, i: nat)
    requires AllConvertible(txs, parse)
    requires i < |Features(txs, parse)|
    ensures var f := Features(txs, parse)[i];
      f == Finalize(f.wallet, Fold(OfWallet(txs, f.wallet), parse))
  {
    var ws := FirstSeen(txs);
    FinalizeAllAt(ws, Accumulate(txs, parse), i);
    AccumulateByWallet(txs, parse, ws[i]);
  }

  /** A wallet that occurs in the input has at least one record. */
  lemma {:induction false} OfWalletNonEmpty(txs: seq<Transaction>, w: string)
    requires w in WalletSet(txs)
    ensures |OfWallet(txs, w)| > 0
  {
    var p, tx := txs[..|txs| - 1], txs[|txs| - 1];
    assert txs == p + [tx];
    if tx.userWallet != w {
      var t :| t in txs && t.userWallet == w;
      assert t in p;
      OfWalletNonEmpty(p, w);
    }
  }

  /**
   * `total_tx` is the number of input records of the wallet; each kind's count
   * and USD total cover exactly that wallet's records of that kind.
   */
  lemma FeatureCounts(txs: seq<Transaction>, parse: string -> Option<real>, i: nat)
    requires AllConvertible(txs, parse)
    requires i < |Features(txs, parse)|
    ensures var f := Features(txs, parse)[i];
      var s := OfWallet(txs, f.wallet);
      && f.totalTx == multiset(WalletIds(txs))[f.wallet]
      && f.numDeposit == CountKind(s, Deposit)
      && f.numBorrow == CountKind(s, Borrow)
      && f.numRepay == CountKind(s, Repay)
      && f.numRedeem == CountKind(s, Redeem)
      && f.numLiquidation == CountKind(s, Liquidation)
      && f.depositUsd == UsdTotal(s, Deposit, parse)
      && f.borrowUsd == UsdTotal(s, Borrow, parse)
      && f.repayUsd == UsdTotal(s, Repay, parse)
      && f.redeemUsd == UsdTotal(s, Redeem, parse)
  {
    var f := Features(txs, parse)[i];
    FeatureOfWallet(txs, parse, i);
    FoldCounts(OfWallet(txs, f.wallet), parse);
    FoldTotals(OfWallet(txs, f.wallet), parse);
  }

  /**
   * `num_assets` counts the distinct symbols of the wallet's records, and the
   * timing features are those of its present, non-zero timestamps.
   */
  lemma FeatureContents(txs: seq<Transaction>, parse: string -> Option<real>, i: nat)
    requires AllConvertible(txs, parse)
    requires i < |Features(txs, parse)|
    ensures var f := Features(txs, parse)[i];
      var s := OfWallet(txs, f.wallet);
      && f.numAssets == |AssetsOf(s)|
      && f.txDurationSec == Duration(Recorded(s))
      && f.avgTxGapSec == AverageGap(Recorded(s))
  {
    var f := Features(txs, parse)[i];
    FeatureOfWallet(txs, parse, i);
    FoldContents(OfWallet(txs, f.wallet), parse);
  }

  /** Every record has `1 <= num_assets <= total_tx` and no more categorised actions than `total_tx`. */
  lemma FeatureBounds(txs: seq<Transaction>, parse: string -> Option<real>, i: nat)
    requires AllConvertible(txs, parse)
    requires i < |Features(txs, parse)|
    ensures var f := Features(txs, parse)[i];
      && 1 <= f.numAssets <= f.totalTx
      && f.numDeposit + f.numBorrow + f.numRepay + f.numRedeem + f.numLiquidation <= f.totalTx
  {
    var fs := Features(txs, parse);
    var f := fs[i];
    FeatureOfWallet(txs, parse, i);
    FeaturesCoverWallets(txs, parse);
    assert f in fs;
    OfWalletNonEmpty(txs, f.wallet);
    FoldConsistent(OfWallet(txs, f.wallet), parse);
    FoldCounts(OfWallet(txs, f.wallet), parse);
  }
}

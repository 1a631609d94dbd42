/**
 * The score of the records `extract_features` produces: where the lower end
 * of [0, 1000] holds, and an input for which it does not.
 */
module ScoreFacts {
  import opened Wrappers
  import opened Transactions
  import opened Normalizer
  import opened Accumulation
  import opened FeatureRecords
  import opened Extraction
  import opened FeatureFacts
  import opened Scoring

  /** A kind's USD total over records whose amounts and prices are non-negative is non-negative. */
  lemma {:induction false} UsdTotalNonNegative(s: seq<Transaction>, k: ActionKind, parse: string -> Option<real>)
    requires AllConvertible(s, parse)
    requires forall tx | tx in s :: NonNegativeFields(tx, parse)
    ensures UsdTotal(s, k, parse) >= 0.0
  {
    if s != [] {
      var p, tx := s[..|s| - 1], s[|s| - 1];
      assert tx in s;
      forall t | t in p ensures t in s {
      }
      UsdTotalNonNegative(p, k, parse);
      UsdNonNegative(tx, parse);
    }
  }

  /**
   * When every amount and price in the input is non-negative, every record
   * `extract_features` produces scores in [0, 1000].
   */
  lemma NonNegativeInputsScoreInRange(txs: seq<Transaction>, parse: string -> Option<real>, ln: real -> real, i: nat)
    requires IsLogarithm(ln)
    requires AllConvertible(txs, parse)
    requires forall tx | tx in txs :: NonNegativeFields(tx, parse)
    requires i < |Features(txs, parse)|
    ensures ScalesDefined(ln) && 0 <= ComputeScore(Features(txs, parse)[i], ln) <= 1000
  {
    var f := Features(txs, parse)[i];
    var s := OfWallet(txs, f.wallet);
    FeatureOfWallet(txs, parse, i);
    assert AllConvertible(s, parse) && forall tx | tx in s :: NonNegativeFields(tx, parse) by {
      forall t | t in s ensures t in txs {
      }
    }
    FoldTotals(s, parse);
    UsdTotalNonNegative(s, Deposit, parse);
    UsdTotalNonNegative(s, Borrow, parse);
    UsdTotalNonNegative(s, Repay, parse);
    UsdTotalNonNegative(s, Redeem, parse);
    RatiosNonNegative(f.wallet, Fold(s, parse));
    ScoreNonNegative(f, ln);
  }

  /** A borrow of 1 USD (amount 1 at price 1). */
  const BorrowOne: Transaction :=
    Transaction("w", "borrow", Some(ActionData(Some(Number(1.0)), Some(Number(1.0)), Some("USDC"))), None)

  /** A repay of the same wallet whose amount is -10 at price 1. */
  const RepayMinusTen: Transaction :=
    Transaction("w", "repay", Some(ActionData(Some(Number(-10.0)), Some(Number(1.0)), Some("USDC"))), None)

  /** The two records convert whatever `parse` does: their fields are JSON numbers. */
  lemma ScenarioConverts(parse: string -> Option<real>)
    ensures UsdAmount(BorrowOne, parse) == Usd(1.0)
    ensures UsdAmount(RepayMinusTen, parse) == Usd(-10.0)
    ensures AllConvertible([BorrowOne, RepayMinusTen], parse)
  {
    assert Read(AmountField(BorrowOne), parse) == Converted(1.0);
    assert Read(AmountField(RepayMinusTen), parse) == Converted(-10.0);
    assert Read(PriceField(BorrowOne), parse) == Converted(1.0);
    assert Read(PriceField(RepayMinusTen), parse) == Converted(1.0);
  }

  /** Wallet "w" is the only key of the table. */
  lemma ScenarioOrder()
    ensures FirstSeen([BorrowOne, RepayMinusTen]) == ["w"]
  {
    var txs := [BorrowOne, RepayMinusTen];
    assert txs[..1] == [BorrowOne];
    assert [BorrowOne][..0] == [];
    var none: seq<Transaction> := [];
    assert FirstSeen(none) == [];
    assert BorrowOne.userWallet == "w" && "w" !in FirstSeen(none);
    assert FirstSeen([BorrowOne]) == ["w"];
    assert "w" in FirstSeen([BorrowOne]);
  }

  /** Both records are wallet "w"'s. */
  lemma ScenarioOfWallet()
    ensures OfWallet([BorrowOne, RepayMinusTen], "w") == [BorrowOne, RepayMinusTen]
  {
    var txs := [BorrowOne, RepayMinusTen];
    assert txs[..1] == [BorrowOne];
    assert [BorrowOne][..0] == [];
    assert OfWallet([BorrowOne], "w") == [] + [BorrowOne];
  }

  /** The state of wallet "w" after the two records. */
  lemma ScenarioFold(parse: string -> Option<real>)
    ensures AllConvertible([BorrowOne, RepayMinusTen], parse)
    ensures Fold([BorrowOne, RepayMinusTen], parse) ==
      Accumulator(2, 0.0, 1.0, -10.0, 0.0, 0, 1, 1, 0, 0, {"USDC"}, [])
  {
    ScenarioConverts(parse);
    var txs := [BorrowOne, RepayMinusTen];
    assert txs[..1] == [BorrowOne] && [BorrowOne][..0] == [];
    assert Fold([BorrowOne], parse) == Accumulator(1, 0.0, 1.0, 0.0, 0.0, 0, 1, 0, 0, 0, {"USDC"}, []);
  }

  /** The record finalised from that state has repay ratio -10 and scores at most -2740. */
  lemma ScenarioScore(ln: real -> real)
    requires IsLogarithm(ln)
    ensures var f := Finalize("w", Accumulator(2, 0.0, 1.0, -10.0, 0.0, 0, 1, 1, 0, 0, {"USDC"}, []));
      ScalesDefined(ln) && f.repayRatio == -10.0 && ComputeScore(f, ln) <= -2740
  {
    var f := Finalize("w", Accumulator(2, 0.0, 1.0, -10.0, 0.0, 0, 1, 1, 0, 0, {"USDC"}, []));
    LogarithmScales(ln);
    assert f.numAssets == 1 && f.txDurationSec == 0 && f.totalTx == 2;
    assert RepayComponent(f.repayRatio) == -3000.0;
    assert RedeemComponent(f.redeemRatio) == 0.0;
    assert DurationComponent(f.txDurationSec, ln) == 0.0;
    assert DiversityComponent(f.numAssets) == 10.0;
    assert ScoreSum(f, ln) <= -2740.0;
  }

  /**
   * Nothing clamps the score from below: after a borrow of 1 USD and a repay
   * of -10 USD, the wallet's only record has repay ratio -10 and a score of at
   * most -2740.
   */
  lemma NegativeRepayScoresNegative(parse: string -> Option<real>, ln: real -> real)
    requires IsLogarithm(ln)
    ensures AllConvertible([BorrowOne, RepayMinusTen], parse) && ScalesDefined(ln)
    ensures var fs := Features([BorrowOne, RepayMinusTen], parse);
      && |fs| == 1 && fs[0].wallet == "w" && fs[0].repayRatio == -10.0
      && ComputeScore(fs[0], ln) <= -2740
  {
    var txs := [BorrowOne, RepayMinusTen];
    ScenarioFold(parse);
    ScenarioOrder();
    ScenarioOfWallet();
    FeatureOfWallet(txs, parse, 0);
    FinalizeAllAt(FirstSeen(txs), Accumulate(txs, parse), 0);
    ScenarioScore(ln);
  }
}

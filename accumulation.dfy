/**
 * The per-wallet accumulator of `extract_features`: the default-zero state
 * created on a wallet's first record, and the update one record makes to it.
 */
module Accumulation {
  import opened Wrappers
  import opened Transactions
  import opened Normalizer

  datatype Accumulator = Accumulator(
    totalTx: nat,
    depositUsd: real,
    borrowUsd: real,
    repayUsd: real,
    redeemUsd: real,
    numDeposit: nat,
    numBorrow: nat,
    numRepay: nat,
    numRedeem: nat,
    numLiquidation: nat,
    assetsUsed: set<string>,
    timestamps: seq<int>)

  /** The state a wallet gets when it is first seen. */
  const Zero: Accumulator := Accumulator(0, 0.0, 0.0, 0.0, 0.0, 0, 0, 0, 0, 0, {}, [])

  /** Explicit get-or-create: a wallet not yet seen reads as the zero state. */
  function Get(m: map<string, Accumulator>, w: string): Accumulator
  {
    if w in m then m[w] else Zero
  }

  /** The update every record makes, whatever its kind: count it, note its asset and its timestamp. */
  function Record(acc: Accumulator, tx: Transaction): Accumulator
  {
    acc.(totalTx := acc.totalTx + 1,
         assetsUsed := acc.assetsUsed + {AssetOf(tx)},
         timestamps := acc.timestamps + TimestampOf(tx))
  }

  /** The update of the kind-specific total and count. */
  function Dispatch(acc: Accumulator, kind: ActionKind, usd: real): Accumulator
  {
    match kind
    case Deposit => acc.(depositUsd := acc.depositUsd + usd, numDeposit := acc.numDeposit + 1)
    case Borrow => acc.(borrowUsd := acc.borrowUsd + usd, numBorrow := acc.numBorrow + 1)
    case Repay => acc.(repayUsd := acc.repayUsd + usd, numRepay := acc.numRepay + 1)
    case Redeem => acc.(redeemUsd := acc.redeemUsd + usd, numRedeem := acc.numRedeem + 1)
    case Liquidation => acc.(numLiquidation := acc.numLiquidation + 1)
    case Other => acc
  }

  /** The update one record with USD value `usd` makes to its wallet's state. */
  function Step(acc: Accumulator, tx: Transaction, usd: real): Accumulator
  {
    Dispatch(Record(acc, tx), KindOf(tx.action), usd)
  }

  /** One record touches its own kind's total and count and nothing of any other kind. */
  lemma StepDispatch(acc: Accumulator, tx: Transaction, usd: real)
    ensures var r, k := Step(acc, tx, usd), KindOf(tx.action);
      && r.totalTx == acc.totalTx + 1
      && r.numDeposit == acc.numDeposit + (if k == Deposit then 1 else 0)
      && r.numBorrow == acc.numBorrow + (if k == Borrow then 1 else 0)
      && r.numRepay == acc.numRepay + (if k == Repay then 1 else 0)
      && r.numRedeem == acc.numRedeem + (if k == Redeem then 1 else 0)
      && r.numLiquidation == acc.numLiquidation + (if k == Liquidation then 1 else 0)
      && r.depositUsd == acc.depositUsd + (if k == Deposit then usd else 0.0)
      && r.borrowUsd == acc.borrowUsd + (if k == Borrow then usd else 0.0)
      && r.repayUsd == acc.repayUsd + (if k == Repay then usd else 0.0)
      && r.redeemUsd == acc.redeemUsd + (if k == Redeem then usd else 0.0)
      && r.assetsUsed == acc.assetsUsed + {AssetOf(tx)}
      && r.timestamps == acc.timestamps + TimestampOf(tx)
  {
  }

  /** The accounting invariant every reachable accumulator keeps. */
  predicate Consistent(acc: Accumulator)
  {
    && acc.numDeposit + acc.numBorrow + acc.numRepay + acc.numRedeem + acc.numLiquidation <= acc.totalTx
    && |acc.assetsUsed| <= acc.totalTx
    && (acc.totalTx > 0 ==> |acc.assetsUsed| >= 1)
    && |acc.timestamps| <= acc.totalTx
  }

  lemma StepKeepsConsistent(acc: Accumulator, tx: Transaction, usd: real)
    requires Consistent(acc)
    ensures Consistent(Step(acc, tx, usd))
  {
    var assets := acc.assetsUsed + {AssetOf(tx)};
    if AssetOf(tx) in acc.assetsUsed {
      assert assets == acc.assetsUsed;
    } else {
      assert |assets| == |acc.assetsUsed| + 1;
    }
  }

  /** The state of one wallet after its records `s`, in order (every record of `s` is this wallet's). */
  function Fold(s: seq<Transaction>, parse: string -> Option<real>): Accumulator
    requires AllConvertible(s, parse)
  {
    if s == [] then Zero
    else
      var tx := s[|s| - 1];
      assert tx in s;
      Step(Fold(s[..|s| - 1], parse), tx, UsdAmount(tx, parse).value)
  }

  /** The action kinds of `s`, in order. */
  function KindsOf(s: seq<Transaction>): (ks: seq<ActionKind>)
    ensures |ks| == |s|
  {
    if s == [] then [] else KindsOf(s[..|s| - 1]) + [KindOf(s[|s| - 1].action)]
  }

  /** How many records of `s` have kind `k`. */
  function CountKind(s: seq<Transaction>, k: ActionKind): nat
  {
    multiset(KindsOf(s))[k]
  }

  /** The sum of the USD values of the records of `s` that have kind `k`. */
  function UsdTotal(s: seq<Transaction>, k: ActionKind, parse: string -> Option<real>): real
    requires AllConvertible(s, parse)
  {
    if s == [] then 0.0
    else
      var tx := s[|s| - 1];
      assert tx in s;
      UsdTotal(s[..|s| - 1], k, parse) + (if KindOf(tx.action) == k then UsdAmount(tx, parse).value else 0.0)
  }

  /** The asset symbols of `s`, with "" for a record that has none. */
  function AssetsOf(s: seq<Transaction>): set<string>
  {
    set tx | tx in s :: AssetOf(tx)
  }

  /** The timestamps of `s` that are present and non-zero, in order. */
  function Recorded(s: seq<Transaction>): seq<int>
  {
    if s == [] then [] else Recorded(s[..|s| - 1]) + TimestampOf(s[|s| - 1])
  }

  /**
   * `total_tx` counts all of a wallet's records, and each kind's count covers
   * exactly the records of that kind.
   */
  lemma {:induction false} FoldCounts(s: seq<Transaction>, parse: string -> Option<real>)
    requires AllConvertible(s, parse)
    ensures var a := Fold(s, parse);
      && a.totalTx == |s|
      && a.numDeposit == CountKind(s, Deposit)
      && a.numBorrow == CountKind(s, Borrow)
      && a.numRepay == CountKind(s, Repay)
      && a.numRedeem == CountKind(s, Redeem)
      && a.numLiquidation == CountKind(s, Liquidation)
  {
    if s != [] {
      var p, tx := s[..|s| - 1], s[|s| - 1];
      assert tx in s;
      FoldCounts(p, parse);
      StepDispatch(Fold(p, parse), tx, UsdAmount(tx, parse).value);
    }
  }

  /** Each kind's USD total is the sum over exactly the records of that kind. */
  lemma {:induction false} FoldTotals(s: seq<Transaction>, parse: string -> Option<real>)
    requires AllConvertible(s, parse)
    ensures var a := Fold(s, parse);
      && a.depositUsd == UsdTotal(s, Deposit, parse)
      && a.borrowUsd == UsdTotal(s, Borrow, parse)
      && a.repayUsd == UsdTotal(s, Repay, parse)
      && a.redeemUsd == UsdTotal(s, Redeem, parse)
  {
    if s != [] {
      var p, tx := s[..|s| - 1], s[|s| - 1];
      assert tx in s;
      FoldTotals(p, parse);
      StepDispatch(Fold(p, parse), tx, UsdAmount(tx, parse).value);
    }
  }

  /** The assets are every record's symbol, and the timestamps the truthy ones in order. */
  lemma {:induction false} FoldContents(s: seq<Transaction>, parse: string -> Option<real>)
    requires AllConvertible(s, parse)
    ensures Fold(s, parse).assetsUsed == AssetsOf(s)
    ensures Fold(s, parse).timestamps == Recorded(s)
  {
    if s != [] {
      var p, tx := s[..|s| - 1], s[|s| - 1];
      assert s == p + [tx];
      assert tx in s;
      FoldContents(p, parse);
      StepDispatch(Fold(p, parse), tx, UsdAmount(tx, parse).value);
      assert AssetsOf(s) == AssetsOf(p) + {AssetOf(tx)} by {
        forall a ensures a in AssetsOf(s) <==> a in AssetsOf(p) + {AssetOf(tx)} {
          if a in AssetsOf(s) {
            var t :| t in s && AssetOf(t) == a;
            assert t in p || t == tx;
          }
        }
      }
    }
  }

  /** Every state reached by folding records keeps the accounting invariant. */
  lemma {:induction false} FoldConsistent(s: seq<Transaction>, parse: string -> Option<real>)
    requires AllConvertible(s, parse)
    ensures Consistent(Fold(s, parse))
  {
    if s != [] {
      var p, tx := s[..|s| - 1], s[|s| - 1];
      assert tx in s;
      FoldConsistent(p, parse);
      StepKeepsConsistent(Fold(p, parse), tx, UsdAmount(tx, parse).value);
    }
  }
}

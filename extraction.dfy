/**
 * `extract_features`: one pass over the records that keeps a default-zero
 * accumulator per wallet (a table keyed by wallet id that remembers the order
 * in which wallets were first seen), then one pass over the table that turns
 * every wallet's state into its feature record.
 */
module Extraction {
  import opened Wrappers
  import opened Transactions
  import opened Normalizer
  import opened Accumulation
  import opened FeatureRecords

  /** The wallet id of every record, in input order. */
  function WalletIds(txs: seq<Transaction>): (ws: seq<string>)
    ensures |ws| == |txs|
  {
    if txs == [] then [] else WalletIds(txs[..|txs| - 1]) + [txs[|txs| - 1].userWallet]
  }

  /** The distinct wallets that occur in the input. */
  function WalletSet(txs: seq<Transaction>): set<string>
  {
    set tx | tx in txs :: tx.userWallet
  }

  /** The records of wallet `w`, in input order. */
  function OfWallet(txs: seq<Transaction>, w: string): (s: seq<Transaction>)
    ensures forall tx | tx in s :: tx in txs && tx.userWallet == w
    ensures |s| == multiset(WalletIds(txs))[w]
    ensures forall t :: multiset(s)[t] == if t.userWallet == w then multiset(txs)[t] else 0
  {
    if txs == [] then []
    else
      var p, tx := txs[..|txs| - 1], txs[|txs| - 1];
      assert txs == p + [tx];
      var s := OfWallet(p, w);
      if tx.userWallet == w then s + [tx] else s
  }

  /** The wallets in the order the table first meets them (a Python dict keeps insertion order). */
  function FirstSeen(txs: seq<Transaction>): (ws: seq<string>)
    ensures forall i, j :: 0 <= i < j < |ws| ==> ws[i] != ws[j]
    ensures forall w :: w in ws <==> w in WalletSet(txs)
  {
    if txs == [] then []
    else
      var p, tx := txs[..|txs| - 1], txs[|txs| - 1];
      assert txs == p + [tx];
      var ws := FirstSeen(p);
      assert forall w :: w in WalletSet(txs) <==> w in WalletSet(p) || w == tx.userWallet by {
        forall w | w in WalletSet(txs) ensures w in WalletSet(p) || w == tx.userWallet {
          var t :| t in txs && t.userWallet == w;
          assert t in p || t == tx;
        }
      }
      if tx.userWallet in ws then ws else ws + [tx.userWallet]
  }

  /** The whole table after the records `txs`: every wallet's state, by wallet id. */
  function Accumulate(txs: seq<Transaction>, parse: string -> Option<real>): map<string, Accumulator>
    requires AllConvertible(txs, parse)
  {
    if txs == [] then map[]
    else
      var p, tx := txs[..|txs| - 1], txs[|txs| - 1];
      assert tx in txs;
      var m := Accumulate(p, parse);
      m[tx.userWallet := Step(Get(m, tx.userWallet), tx, UsdAmount(tx, parse).value)]
  }

  /** The table holds a state for exactly the wallets that occur in the input. */
  lemma {:induction false} AccumulateKeys(txs: seq<Transaction>, parse: string -> Option<real>)
    requires AllConvertible(txs, parse)
    ensures Accumulate(txs, parse).Keys == WalletSet(txs)
  {
    if txs != [] {
      var p, tx := txs[..|txs| - 1], txs[|txs| - 1];
      assert txs == p + [tx];
      AccumulateKeys(p, parse);
      forall w | w in WalletSet(txs) ensures w in WalletSet(p) || w == tx.userWallet {
        var t :| t in txs && t.userWallet == w;
        assert t in p || t == tx;
      }
    }
  }

  /**
   * A wallet's state in the table is what its own records, in order, make of
   * the zero state: the records of other wallets never touch it.
   */
  lemma {:induction false} AccumulateByWallet(txs: seq<Transaction>, parse: string -> Option<real>, w: string)
    requires AllConvertible(txs, parse)
    ensures Get(Accumulate(txs, parse), w) == Fold(OfWallet(txs, w), parse)
  {
    if txs != [] {
      var p, tx := txs[..|txs| - 1], txs[|txs| - 1];
      assert txs == p + [tx];
      AccumulateByWallet(p, parse, w);
      if tx.userWallet == w {
        var s := OfWallet(p, w);
        assert (s + [tx])[..|s + [tx]| - 1] == s;
      }
    }
  }

  /** One more record updates only its own wallet's entry of the table. */
  lemma AccumulateSnoc(txs: seq<Transaction>, tx: Transaction, parse: string -> Option<real>)
    requires AllConvertible(txs + [tx], parse)
    ensures AllConvertible(txs, parse) && UsdAmount(tx, parse).Usd?
    ensures var m := Accumulate(txs, parse);
      Accumulate(txs + [tx], parse) == m[tx.userWallet := Step(Get(m, tx.userWallet), tx, UsdAmount(tx, parse).value)]
  {
    assert (txs + [tx])[..|txs|] == txs;
    assert tx in txs + [tx];
  }

  /** One more record appends its wallet to the first-seen order when the wallet is new. */
  lemma FirstSeenSnoc(txs: seq<Transaction>, tx: Transaction)
    ensures FirstSeen(txs + [tx]) ==
      if tx.userWallet in WalletSet(txs) then FirstSeen(txs) else FirstSeen(txs) + [tx.userWallet]
  {
    assert (txs + [tx])[..|txs|] == txs;
  }

  /** What one more record does to the table: the facts the accumulation loop body relies on. */
  lemma TableStep(seen: seq<Transaction>, tx: Transaction, parse: string -> Option<real>, usd: real)
    requires AllConvertible(seen, parse)
    requires UsdAmount(tx, parse) == Usd(usd)
    requires forall w | w in Accumulate(seen, parse) :: Consistent(Accumulate(seen, parse)[w])
    ensures AllConvertible(seen + [tx], parse)
    ensures var m := Accumulate(seen, parse);
      Accumulate(seen + [tx], parse) == m[tx.userWallet := Step(Get(m, tx.userWallet), tx, usd)]
    ensures FirstSeen(seen + [tx]) ==
      if tx.userWallet in Accumulate(seen, parse) then FirstSeen(seen) else FirstSeen(seen) + [tx.userWallet]
    ensures forall w | w in Accumulate(seen + [tx], parse) :: Consistent(Accumulate(seen + [tx], parse)[w])
  {
    assert AllConvertible(seen + [tx], parse) by {
      forall t | t in seen + [tx] ensures UsdAmount(t, parse).Usd? {
        if t != tx {
          assert t in seen;
        }
      }
    }
    AccumulateKeys(seen, parse);
    AccumulateSnoc(seen, tx, parse);
    FirstSeenSnoc(seen, tx);
    StepKeepsConsistent(Get(Accumulate(seen, parse), tx.userWallet), tx, usd);
  }

  /** The finalisation of every wallet of `ws`, in that order. */
  function FinalizeAll(ws: seq<string>, m: map<string, Accumulator>): (fs: seq<FeatureRecord>)
    ensures |fs| == |ws|
  {
    if ws == [] then []
    else FinalizeAll(ws[..|ws| - 1], m) + [Finalize(ws[|ws| - 1], Get(m, ws[|ws| - 1]))]
  }

  /** The record at position i belongs to the i-th wallet and is its finalisation. */
  lemma {:induction false} FinalizeAllAt(ws: seq<string>, m: map<string, Accumulator>, i: nat)
    requires i < |ws|
    ensures FinalizeAll(ws, m)[i] == Finalize(ws[i], Get(m, ws[i]))
  {
    if i < |ws| - 1 {
      FinalizeAllAt(ws[..|ws| - 1], m, i);
    }
  }

  /** The timing part of the finalisation loop: sort the timestamps, then take their spread. */
  method Timing(ts: seq<int>) returns (duration: int, avgGap: real)
    ensures duration == Timestamps.Duration(ts)
    ensures avgGap == Timestamps.AverageGap(ts)
  {
    var timestamps := Timestamps.Sort(ts);
    duration, avgGap := 0, 0.0;
    if |timestamps| > 1 {
      Timestamps.SortedEnds(ts);
      duration := timestamps[|timestamps| - 1] - timestamps[0];
      avgGap := duration as real / (|timestamps| - 1) as real;
      assert avgGap == Timestamps.MeanGap(duration, |ts| - 1);
    } else {
      assert |ts| == |multiset(ts)| == |multiset(timestamps)| == |timestamps|;
    }
  }

  /** The body of the finalisation loop for one wallet: sort its timestamps, then build its record. */
  method FinalizeWallet(w: string, acc: Accumulator) returns (record: FeatureRecord)
    ensures record == Finalize(w, acc)
  {
    var duration, avgGap := Timing(acc.timestamps);
    record := FeatureRecord(
      wallet := w,
      totalTx := acc.totalTx,
      numAssets := |acc.assetsUsed|,
      depositUsd := acc.depositUsd,
      borrowUsd := acc.borrowUsd,
      repayUsd := acc.repayUsd,
      redeemUsd := acc.redeemUsd,
      numDeposit := acc.numDeposit,
      numBorrow := acc.numBorrow,
      numRepay := acc.numRepay,
      numRedeem := acc.numRedeem,
      numLiquidation := acc.numLiquidation,
      repayRatio := if acc.borrowUsd > 0.0 then acc.repayUsd / acc.borrowUsd else 0.0,
      redeemRatio := if acc.depositUsd > 0.0 then acc.redeemUsd / acc.depositUsd else 0.0,
      txDurationSec := duration,
      avgTxGapSec := avgGap);
  }

  /** The accumulator table of `extract_features` (its `defaultdict` of per-wallet states). */
  class WalletTable {
    var accounts: map<string, Accumulator>
    var order: seq<string>
    const parse: string -> Option<real>
    ghost var seen: seq<Transaction>

    ghost predicate Valid()
      reads this
    {
      && AllConvertible(seen, parse)
      && accounts == Accumulate(seen, parse)
      && order == FirstSeen(seen)
      && (forall w | w in accounts :: Consistent(accounts[w]))
    }

    constructor (parse: string -> Option<real>)
      ensures Valid() && this.parse == parse && seen == []
      ensures accounts == map[] && order == []
    {
      this.parse := parse;
      accounts := map[];
      order := [];
      seen := [];
    }

    /** The body of the accumulation loop for one record whose USD value is `usd`. */
    method Add(tx: Transaction, usd: real)
      requires Valid()
      requires UsdAmount(tx, parse) == Usd(usd)
      modifies this
      ensures Valid() && seen == old(seen) + [tx]
      ensures accounts == old(accounts)[tx.userWallet := Step(Get(old(accounts), tx.userWallet), tx, usd)]
      ensures order == if tx.userWallet in old(accounts) then old(order) else old(order) + [tx.userWallet]
    {
      TableStep(seen, tx, parse, usd);
      var w := tx.userWallet;
      var acc := Get(accounts, w);
      if w !in accounts {
        order := order + [w];
      }
      acc := Enter(acc, tx);
      acc := Tally(acc, KindOf(tx.action), usd);
      accounts := accounts[w := acc];
      seen := seen + [tx];
    }

    /** What every record does to its wallet: count it, add its asset, keep a truthy timestamp. */
    static method Enter(acc: Accumulator, tx: Transaction) returns (r: Accumulator)
      ensures r == Record(acc, tx)
    {
      r := acc.(totalTx := acc.totalTx + 1);
      r := r.(assetsUsed := r.assetsUsed + {AssetOf(tx)});
      if tx.timestamp.Some? && tx.timestamp.value != 0 {
        r := r.(timestamps := r.timestamps + [tx.timestamp.value]);
      }
    }

    /** The dispatch on the action kind: only that kind's total and count move. */
    static method Tally(acc: Accumulator, kind: ActionKind, usd: real) returns (r: Accumulator)
      ensures r == Dispatch(acc, kind, usd)
    {
      r := acc;
      match kind {
        case Deposit =>
          r := r.(depositUsd := r.depositUsd + usd, numDeposit := r.numDeposit + 1);
        case Borrow =>
          r := r.(borrowUsd := r.borrowUsd + usd, numBorrow := r.numBorrow + 1);
        case Repay =>
          r := r.(repayUsd := r.repayUsd + usd, numRepay := r.numRepay + 1);
        case Redeem =>
          r := r.(redeemUsd := r.redeemUsd + usd, numRedeem := r.numRedeem + 1);
        case Liquidation =>
          r := r.(numLiquidation := r.numLiquidation + 1);
        case Other =>
      }
    }

    /** The finalisation loop: one feature record per wallet, in first-seen order. */
    method Records() returns (records: seq<FeatureRecord>)
      ensures records == FinalizeAll(order, accounts)
    {
      records := [];
      for i := 0 to |order|
        invariant records == FinalizeAll(order[..i], accounts)
      {
        assert order[..i + 1][..i] == order[..i];
        var record := FinalizeWallet(order[i], Get(accounts, order[i]));
        records := records + [record];
      }
      assert order[..|order|] == order;
    }
  }

  /** What `extract_features` returns, or the TypeError one of the records raises. */
  datatype Extraction = Extracted(records: seq<FeatureRecord>) | Raised

  /** The feature records `extract_features` produces when no record raises. */
  function Features(txs: seq<Transaction>, parse: string -> Option<real>): (fs: seq<FeatureRecord>)
    requires AllConvertible(txs, parse)
    ensures |fs| == |FirstSeen(txs)|
  {
    FinalizeAll(FirstSeen(txs), Accumulate(txs, parse))
  }

  method ExtractFeatures(txs: seq<Transaction>, parse: string -> Option<real>) returns (r: Extraction)
    ensures r.Raised? <==> !AllConvertible(txs, parse)
    ensures r.Extracted? ==> AllConvertible(txs, parse) && r.records == Features(txs, parse)
  {
    var table := new WalletTable(parse);
    for i := 0 to |txs|
      invariant table.Valid() && table.parse == parse && table.seen == txs[..i]
    {
      assert txs[..i + 1] == txs[..i] + [txs[i]];
      var usd := UsdAmount(txs[i], parse);
      if usd.Raises? {
        assert txs[i] in txs;
        return Raised;
      }
      table.Add(txs[i], usd.value);
    }
    assert txs[..|txs|] == txs;
    var records := table.Records();
    return Extracted(records);
  }
}

# Wallet credit scoring: feature extraction and score

This project models the core of `score_wallet.py`, a script that reads lending-protocol
transaction records (deposit, borrow, repay, redeemunderlying, liquidationcall) and gives
every wallet a credit score. The core has three parts.

- **`usd_amount`** values one record in USD as amount times asset price. It reads the amount
  first and the price only once the amount has converted.
  - It gives 0.0 when `actionData` or the amount is missing (KeyError) or is a string that
    does not parse (ValueError), or when the amount converts and the price is missing or
    does not parse.
  - It does not catch a TypeError. A JSON `null`, array or object as the amount escapes
    `usd_amount` and `extract_features`, and so does one as the price once the amount has
    converted.
- **`extract_features`** runs two loops.
  - The first loop keeps a default-zero accumulator per wallet: `total_tx`, four USD totals
    and counts, `num_liquidation`, the set of asset symbols and the list of truthy
    timestamps. It dispatches on the action string.
  - The second loop turns every wallet, in first-seen order, into a feature record. The
    sorted timestamps give the duration and the average gap. The repay and redeem ratios
    are guarded against a zero denominator.
- **`compute_score`** adds six separately clamped components: repayment (300), redemption
  (200), the liquidation-free bonus (100), volume (150), duration (150) and diversity (100).
  It clamps the sum at 1000 and rounds half-to-even.

Modules, one per file:

- `Wrappers` holds `Option`.
- `Transactions` is the raw record.
- `Normalizer` is `usd_amount`.
- `Timestamps` covers sorting, duration and average gap.
- `Accumulation` is the per-wallet accumulator, its one-record step, and its fold over a
  wallet's records.
- `FeatureRecords` is the finalisation of one wallet.
- `Extraction` holds the class `WalletTable`, standing in for the `defaultdict` that the first
  loop fills and the second loop only reads, together with the method `ExtractFeatures`.
- `FeatureFacts` holds what the output says about the input.
- `Scoring` is `compute_score`.
- `ScoreFacts` holds the score of the records the extraction produces.

Each imperative loop is a method proved against a specification function on sequences:

- `WalletTable.Add` and `ExtractFeatures` are proved against `Accumulate` and `FirstSeen`.
- `WalletTable.Records` is proved against `FinalizeAll`.

Properties of those functions are proved as lemmas.

Parameters stand in for outside functions:

- `parse` stands for Python's `float()` on a string.
- `ln` stands for the natural logarithm behind `np.log` and `np.log1p` (`log1p(x)` is
  `ln(1 + x)`).
- Every scoring function that divides by a logarithm (`VolumeComponent`, `DurationComponent`,
  `ScoreSum`, `ComputeScore`) requires `ScalesDefined(ln)`: the two normalising logarithms
  `ln(500)` and `ln(1e7)` are non-zero.
- Further logarithm facts are assumed only by the lemmas that require `IsLogarithm(ln)`:
  `ln(1) = 0` and `ln` strictly increasing on the positive reals.

The comments at score_wallet.py:11 and :15 give the repayment and redemption terms as 0–300
and 0–200 points. But `compute_score` clamps those ratios and the total only from above
(score_wallet.py:12, 16, 34). A negative repay or redeem amount can therefore make the score
negative. The model follows the code:

- `ScoreFacts.NegativeRepayScoresNegative` proves that a borrow of 1 USD followed by a repay
  of −10 USD gives one record, with repay ratio −10 and a score of at most −2740.
- `ScoreFacts.NonNegativeInputsScoreInRange` proves that every record scores in [0, 1000]
  when every amount and price in the input is non-negative.

## Model

| member | source | states |
|---|---|---|
| Normalizer.Read | score_wallet.py:39-40 | `float(data[key])` gives KeyError exactly when the key is absent, TypeError exactly for a non-scalar JSON value, and ValueError exactly for a string that does not parse. A converted value is the JSON number itself or what the string parses to |
| Normalizer.UsdAmount | score_wallet.py:37-43 | amount × price when both convert. It raises exactly when the amount is a TypeError, or the amount converts and the price is a TypeError (the price is never read after a failed amount). Otherwise it gives 0.0 |
| Normalizer.MissingPayloadIsZero | score_wallet.py:37-43 | a record without `actionData` is worth 0.0 and does not raise |
| Normalizer.UsdNonNegative | score_wallet.py:37-41 | non-negative amount and price give a non-negative USD value |
| Accumulation.StepDispatch | score_wallet.py:70-87 | one record adds 1 to `total_tx`, its asset to the set and its truthy timestamp to the list. Deposit, borrow, repay and redeemunderlying add `usd` to their own total and 1 to their own count; liquidationcall adds 1 to `num_liquidation`. No other field moves |
| Accumulation.StepKeepsConsistent | score_wallet.py:70-87 | one record keeps the accumulator consistent: counted actions ≤ `total_tx`, 1 ≤ distinct assets ≤ `total_tx` once non-empty, recorded timestamps ≤ `total_tx` |
| Accumulation.FoldCounts | score_wallet.py:62-87 | after a wallet's records, `total_tx` is their number and each kind's count is the number of those records of that kind |
| Accumulation.FoldTotals | score_wallet.py:62-87 | after a wallet's records, each kind's USD total is the sum of `usd_amount` over those records of that kind |
| Accumulation.FoldContents | score_wallet.py:62-72 | the asset set is exactly the symbols of the wallet's records (`""` when absent); the timestamp list is their present, non-zero timestamps in input order |
| Accumulation.FoldConsistent | score_wallet.py:62-87 | the accumulator of any record sequence is consistent |
| Timestamps.Insert | score_wallet.py:91 | inserting into an ascending list keeps it ascending and adds exactly one occurrence of the element |
| Timestamps.Sort | score_wallet.py:91 | `sorted` returns an ascending permutation of its input |
| Timestamps.MinOf | score_wallet.py:92 | the least timestamp is in the list and bounds every element from below |
| Timestamps.MaxOf | score_wallet.py:92 | the greatest timestamp is in the list and bounds every element from above |
| Timestamps.AscendingEnds | score_wallet.py:91-92 | any ascending rearrangement of a non-empty list begins with its minimum and ends with its maximum |
| Timestamps.SortedEnds | score_wallet.py:91-92 | `timestamps[0]` and `timestamps[-1]` of the sorted list are the minimum and maximum |
| Timestamps.Duration | score_wallet.py:91-92 | the duration is max − min (≥ 0) with two or more timestamps, and 0 otherwise |
| Timestamps.AverageGap | score_wallet.py:93 | the average gap times n − 1 is the duration with two or more timestamps (≥ 0); it is 0 otherwise |
| Timestamps.MeanGap | score_wallet.py:93 | a non-negative spread divided by a positive gap count is non-negative and multiplies back to the spread |
| Timestamps.DurationIgnoresOrder | score_wallet.py:91-92 | two lists of two or more timestamps with the same length and members have the same duration |
| Timestamps.TimingIgnoresOrder | score_wallet.py:91-93 | duration and average gap depend only on the multiset of timestamps |
| FeatureRecords.Ratio | score_wallet.py:108-109 | a positive denominator gives the quotient (ratio × denominator = numerator); a zero or negative one gives 0, so there is no division by zero |
| FeatureRecords.Finalize | score_wallet.py:95-112 | a feature record carries its wallet, the set size, the guarded repay/borrow and redeem/deposit ratios, and the sorted-list duration and gap (both ≥ 0) |
| FeatureRecords.RatiosNonNegative | score_wallet.py:108-109 | non-negative USD totals give non-negative ratios |
| Extraction.OfWallet | score_wallet.py:62-63 | a wallet's records are exactly the input records with its id, each as often as in the input; their number is how often its id occurs |
| Extraction.FirstSeen | score_wallet.py:47-63 | the dictionary's key order has no repeats and holds exactly the wallets of the input |
| Extraction.AccumulateKeys | score_wallet.py:62-70 | the table has an entry for exactly the wallets of the input |
| Extraction.AccumulateByWallet | score_wallet.py:62-87 | a wallet's entry is what its own records, in order, make of the zero state; other wallets' records never touch it |
| Extraction.AccumulateSnoc | score_wallet.py:62-87 | one more record updates only its own wallet's entry, by one step |
| Extraction.FirstSeenSnoc | score_wallet.py:47-63 | one more record appends its wallet to the key order only when the wallet is new |
| Extraction.TableStep | score_wallet.py:62-87 | one more convertible record keeps every entry consistent and moves the table and key order as above |
| Extraction.FinalizeAllAt | score_wallet.py:89-112 | the i-th record is the finalisation of the i-th wallet's entry |
| Extraction.Timing | score_wallet.py:91-93 | sorting and taking the ends computes `Duration` and `AverageGap` |
| Extraction.FinalizeWallet | score_wallet.py:90-112 | one iteration of the finalisation loop builds exactly `Finalize` of the wallet's entry |
| Extraction.WalletTable.constructor | score_wallet.py:47-60 | the empty `defaultdict` satisfies the table invariant with nothing seen |
| Extraction.WalletTable.Add | score_wallet.py:62-87 | the accumulation loop body keeps the invariant (the table equals `Accumulate` of the records seen, the key order equals `FirstSeen`, every entry is consistent). It replaces only the record's wallet entry by one step and appends the wallet to the order when it is new |
| Extraction.WalletTable.Enter | score_wallet.py:70-72 | the part of the loop body every record runs is the record step (count, asset, truthy timestamp) |
| Extraction.WalletTable.Tally | score_wallet.py:74-87 | the `if/elif` chain on the action string is the per-kind dispatch |
| Extraction.WalletTable.Records | score_wallet.py:89-112 | the finalisation loop yields one finalised record per key, in key order |
| Extraction.ExtractFeatures | score_wallet.py:46-114 | the whole function raises exactly when some record's `usd_amount` raises; otherwise it returns `Features` of the input |
| FeatureFacts.FeaturesCoverWallets | score_wallet.py:62-112 | every wallet of the input appears exactly once in the output, and no other wallet appears |
| FeatureFacts.FeatureOfWallet | score_wallet.py:62-112 | each output record is the finalisation of its own wallet's records alone |
| FeatureFacts.OfWalletNonEmpty | score_wallet.py:62-63 | a wallet that occurs in the input has at least one record |
| FeatureFacts.FeatureCounts | score_wallet.py:62-87 | `total_tx` is the number of input records of the wallet; each kind's count and USD total cover exactly that wallet's records of that kind |
| FeatureFacts.FeatureContents | score_wallet.py:67-98 | `num_assets` is the number of distinct symbols of the wallet's records; duration and gap are those of its truthy timestamps |
| FeatureFacts.FeatureBounds | score_wallet.py:62-112 | every output record has 1 ≤ `num_assets` ≤ `total_tx` and counted actions ≤ `total_tx` |
| Scoring.LogarithmScales | score_wallet.py:23-27 | for a logarithm, `log(500)` and `log(1e7)` are positive, so neither division is by zero |
| Scoring.RepayComponent | score_wallet.py:12-13 | the repayment term is ≤ 300, is exactly 300 when the ratio is ≥ 1, and is ≥ 0 for a non-negative ratio |
| Scoring.RedeemComponent | score_wallet.py:16-17 | the redemption term is ≤ 200, is exactly 200 when the ratio is ≥ 1, and is ≥ 0 for a non-negative ratio |
| Scoring.LiquidationBonus | score_wallet.py:20 | the bonus is 100 exactly when there was no liquidation and 0 exactly when there was one |
| Scoring.VolumeComponent | score_wallet.py:23-24 | the volume term is ≤ 150 |
| Scoring.DurationComponent | score_wallet.py:27-28 | the duration term is ≤ 150 |
| Scoring.DiversityComponent | score_wallet.py:31-32 | the diversity term is ≤ 100, equals 100 exactly when `num_assets` ≥ 10, and is ≥ 0 for a non-negative count |
| Scoring.ScoreSum | score_wallet.py:9-32 | the six components add up to at most 1000 |
| Scoring.RoundHalfEven | score_wallet.py:34 | `round` lands within 0.5 of its argument and breaks ties toward the even integer |
| Scoring.ComputeScore | score_wallet.py:8-34 | the score is at most 1000 |
| Scoring.OuterClampIsRedundant | score_wallet.py:34 | `min(score, 1000)` never changes the sum |
| Scoring.VolumeSaturation | score_wallet.py:23 | the volume term is ≥ 0 and reaches 150 exactly from 499 transactions on |
| Scoring.DurationSaturation | score_wallet.py:27 | the duration term is ≥ 0 and reaches 150 exactly from 9,999,999 seconds on |
| Scoring.Quotient | score_wallet.py:23-27 | `min(a / b * 150, 150)` with b > 0 is 150 exactly when a ≥ b, and is ≥ 0 when a is |
| Scoring.LiquidationCostsExactly100 | score_wallet.py:20 | two records differing only in whether `num_liquidation` is 0 differ by exactly 100 before the outer clamp |
| Scoring.SaturatedScoreIs1000 | score_wallet.py:8-34 | a record with every component saturated scores exactly 1000 |
| Scoring.ScoreNonNegative | score_wallet.py:8-34 | with non-negative ratios the score lies in [0, 1000] |
| ScoreFacts.UsdTotalNonNegative | score_wallet.py:74-85 | a kind's USD total over records with non-negative amounts and prices is non-negative |
| ScoreFacts.NonNegativeInputsScoreInRange | score_wallet.py:8-114 | when every amount and price in the input is non-negative, every record `extract_features` produces scores in [0, 1000] |
| ScoreFacts.NegativeRepayScoresNegative | score_wallet.py:8-114 | a borrow of 1 USD followed by a repay of −10 USD gives one record, with repay ratio −10 and a score of at most −2740 |

## Left out

- `main` (argument parsing, JSON loading, the pandas DataFrame, CSV output) and `plot_scores.py`
  are I/O and plotting. `ExtractFeatures` returns a sequence of records in place of a DataFrame.
- Python `float()` on strings is the parameter `parse`. Nothing about which strings parse is
  modelled, and neither are `nan` or `inf`.
- Floating-point rounding, overflow, NaN and infinity: USD values, ratios and the score are
  exact reals.
- The OverflowError that `float()` raises on a JSON integer beyond the float range: every
  JSON number converts in the model. The error is not caught at score_wallet.py:42, so the
  source lets it escape `extract_features`, and the model does not.
- `np.log` and `np.log1p` are the parameter `ln`. The scoring functions assume only that
  `ln(500)` and `ln(1e7)` are non-zero (`ScalesDefined`). Further logarithm facts are assumed
  only where a lemma says `IsLogarithm(ln)`.
- A missing `userWallet` or `action` key (a KeyError in the loop) cannot occur: every modelled
  record carries both.
- A non-dictionary `actionData` is not modelled. `actionData` is either absent or a record
  whose three fields are each absent or present.
- A non-string `assetSymbol` or `userWallet` is not modelled: both are strings. In the
  source, a JSON `null` or number there becomes its own dictionary key or set element. A JSON
  array or object is unhashable and raises a TypeError at score_wallet.py:70-71, which
  escapes `extract_features`.
- Timestamps are integers. Non-integer timestamps, and comparisons between mixed types inside
  `sorted`, are not modelled.
- The Python distinction between the integer `0` and the float `0.0` (for a zero ratio or
  gap) is not modelled: both are the real 0.
- Extraction.WalletTable.Records reads a missing key as the zero state. It is only ever
  called on keys that exist, so this is not visible in `ExtractFeatures`.
- The behaviour across several calls is not stated: merging the outputs of a split input,
  and invariance of the records under reordering of the input, are not proved. Only the
  order independence of one wallet's timing features is (`TimingIgnoresOrder`).
- A worked example with a concrete score is not included, for instance a borrow and a repay of
  100 USD at timestamps 1000 and 2000, scoring about 501. Its volume and duration terms need
  concrete logarithm values, which the abstract `ln` does not give. The proved example
  (`NegativeRepayScoresNegative`) bounds its score instead.

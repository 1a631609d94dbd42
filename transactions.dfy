/**
 * One raw action record of the lending-protocol log, as the pipeline reads it:
 * `userWallet`, `action`, an optional `actionData` object and an optional
 * `timestamp`.
 */
module Transactions {
  import opened Wrappers

  /** A JSON value that may sit in the `amount` or `assetPriceUSD` field. */
  datatype Scalar =
    | Number(n: real)     // a JSON number (a boolean reads as 0 or 1)
    | Text(s: string)     // a JSON string, handed to float() for parsing
    | NonScalar           // null, an array or an object: float() raises TypeError

  /** The `actionData` object; every key may be missing. */
  datatype ActionData = ActionData(
    amount: Option<Scalar>,
    assetPriceUSD: Option<Scalar>,
    assetSymbol: Option<string>)

  datatype Transaction = Transaction(
    userWallet: string,
    action: string,
    actionData: Option<ActionData>,
    timestamp: Option<int>)

  /** The five action kinds the accumulator dispatches on, and everything else. */
  datatype ActionKind = Deposit | Borrow | Repay | Redeem | Liquidation | Other

  function KindOf(action: string): ActionKind
  {
    if action == "deposit" then Deposit
    else if action == "borrow" then Borrow
    else if action == "repay" then Repay
    else if action == "redeemunderlying" then Redeem
    else if action == "liquidationcall" then Liquidation
    else Other
  }

  /** `tx.get("actionData", {}).get("assetSymbol", "")` */
  function AssetOf(tx: Transaction): string
  {
    if tx.actionData.Some? && tx.actionData.value.assetSymbol.Some?
    then tx.actionData.value.assetSymbol.value
    else ""
  }

  /** The timestamps `if ts:` lets through: present and non-zero. */
  function TimestampOf(tx: Transaction): seq<int>
  {
    if tx.timestamp.Some? && tx.timestamp.value != 0 then [tx.timestamp.value] else []
  }
}

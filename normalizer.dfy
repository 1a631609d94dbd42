/**
 * The record normalizer `usd_amount`: amount times price, with a silent 0.0
 * when a key is missing (KeyError) or a string does not parse (ValueError).
 * A TypeError (a JSON null, array or object handed to float()) is not caught
 * and escapes.
 */
module Normalizer {
  import opened Wrappers
  import opened Transactions

  /** Outcome of evaluating `float(action["actionData"][key])`. */
  datatype Conversion = Converted(value: real) | KeyError | ValueError | TypeError

  /** Outcome of `usd_amount`: a value, or the TypeError it lets through. */
  datatype UsdResult = Usd(value: real) | Raises

  function AmountField(tx: Transaction): Option<Scalar>
  {
    if tx.actionData.Some? then tx.actionData.value.amount else None
  }

  function PriceField(tx: Transaction): Option<Scalar>
  {
    if tx.actionData.Some? then tx.actionData.value.assetPriceUSD else None
  }

  /**
   * Looks a field up and converts it with Python's float(); `parse` stands for
   * float() on a string (None when the string is not a number).
   */
  function Read(field: Option<Scalar>, parse: string -> Option<real>): (c: Conversion)
    ensures c.KeyError? <==> field.None?
    ensures c.TypeError? <==> field == Some(NonScalar)
    ensures c.ValueError? <==> field.Some? && field.value.Text? && parse(field.value.s).None?
    ensures c.Converted? ==>
      || (field == Some(Number(c.value)))
      || (field.Some? && field.value.Text? && parse(field.value.s) == Some(c.value))
  {
    match field
    case None => KeyError
    case Some(Number(n)) => Converted(n)
    case Some(Text(s)) => if parse(s).Some? then Converted(parse(s).value) else ValueError
    case Some(NonScalar) => TypeError
  }

  function UsdAmount(tx: Transaction, parse: string -> Option<real>): (r: UsdResult)
    ensures var a, p := Read(AmountField(tx), parse), Read(PriceField(tx), parse);
      a.Converted? && p.Converted? ==> r == Usd(a.value * p.value)
    ensures var a, p := Read(AmountField(tx), parse), Read(PriceField(tx), parse);
      r.Raises? <==> a.TypeError? || (a.Converted? && p.TypeError?)
    ensures var a, p := Read(AmountField(tx), parse), Read(PriceField(tx), parse);
      r.Usd? && !(a.Converted? && p.Converted?) ==> r.value == 0.0
  {
    var amount := Read(AmountField(tx), parse);
    if amount.TypeError? then Raises
    else if !amount.Converted? then Usd(0.0)
    else
      var price := Read(PriceField(tx), parse);
      if price.TypeError? then Raises
      else if !price.Converted? then Usd(0.0)
      else Usd(amount.value * price.value)
  }

  /** True when `usd_amount` returns a value for every record of `txs`. */
  predicate AllConvertible(txs: seq<Transaction>, parse: string -> Option<real>)
  {
    forall tx | tx in txs :: UsdAmount(tx, parse).Usd?
  }

  /** A record without `actionData` contributes 0.0 and does not raise. */
  lemma MissingPayloadIsZero(tx: Transaction, parse: string -> Option<real>)
    requires tx.actionData.None?
    ensures UsdAmount(tx, parse) == Usd(0.0)
  {
  }

  /** The amount and the price of `tx` are non-negative wherever they convert. */
  predicate NonNegativeFields(tx: Transaction, parse: string -> Option<real>)
  {
    && (Read(AmountField(tx), parse).Converted? ==> Read(AmountField(tx), parse).value >= 0.0)
    && (Read(PriceField(tx), parse).Converted? ==> Read(PriceField(tx), parse).value >= 0.0)
  }

  /** Non-negative amounts and prices give a non-negative USD value. */
  lemma UsdNonNegative(tx: Transaction, parse: string -> Option<real>)
    requires NonNegativeFields(tx, parse)
    ensures UsdAmount(tx, parse).Usd? ==> UsdAmount(tx, parse).value >= 0.0
  {
  }
}

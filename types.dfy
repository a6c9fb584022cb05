/**
 * Record shapes shared by the engine, the catalogue and the result view
 * (lib/types.ts). Money and percentages are exact `real`s.
 */
module Types {
  import opened Seqs

  /** The closed set of payment methods. */
  datatype PaymentMethod = CreditCard | Alipay | WeChatPay | Cash

  /**
   * A destination country. `vatRate` and `vatMinAmount` are optional fields
   * of the record; the display-only `flag` emoji is not kept.
   */
  datatype Country = Country(
    code: string,
    name: string,
    currency: string,
    vatEligible: bool,
    vatRate: Option<real>,
    vatMinAmount: Option<real>)

  /**
   * One catalogue entry. The bank is a plain string: the catalogue holds a
   * bank ("KTC") that the source's bank-name union does not list. The
   * source's `method` field is `paymentMethod` here (`method` is a keyword).
   */
  datatype FxOption = FxOption(
    bank: string,
    paymentMethod: PaymentMethod,
    fxFeePercent: real,
    spreadPercent: real)

  /** One priced and ranked catalogue entry. */
  datatype ComparisonResult = ComparisonResult(
    bank: string,
    paymentMethod: PaymentMethod,
    fxFeePercent: real,
    spreadPercent: real,
    effectiveRate: real,
    fxFeeTHB: real,
    spreadCostTHB: real,
    totalTHB: real,
    isCheapest: bool,
    savings: real)
}

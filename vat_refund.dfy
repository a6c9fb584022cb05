/**
 * The VAT refund estimator (lib/calculator.ts, `getVatRefund`). The
 * country table is a parameter; `FxData.Countries` is the one the
 * application passes.
 */
module VatRefund {
  import opened Seqs
  import opened Types
  import opened Rounding

  /** The VAT on `amount` at `vatRate`, rounded to 2 decimals. */
  function RefundEstimate(amount: real, vatRate: real): real {
    Round2(amount * vatRate)
  }

  /** `country?.vatRate ?? 0` */
  function RateOf(country: Option<Country>): real {
    if country.Some? && country.value.vatRate.Some? then country.value.vatRate.value else 0.0
  }

  datatype VatRefundResult = VatRefundResult(qualifies: bool, vatRate: real, estimatedRefund: real)

  /**
   * VAT refund estimate for the first country with the given code: it
   * qualifies when that country has a refund scheme and the amount is
   * positive (the country's minimum purchase is not consulted).
   */
  function GetVatRefund(amount: real, countryCode: string, countries: seq<Country>): (r: VatRefundResult)
    ensures r.qualifies <==> amount > 0.0 && exists i :: (0 <= i < |countries| && countries[i].code == countryCode
      && countries[i].vatEligible && forall j :: 0 <= j < i ==> countries[j].code != countryCode)
    ensures (forall i :: 0 <= i < |countries| ==> countries[i].code != countryCode) ==> r == VatRefundResult(false, 0.0, 0.0)
    ensures forall i :: (0 <= i < |countries| && countries[i].code == countryCode
      && (forall j :: 0 <= j < i ==> countries[j].code != countryCode)) ==>
        r.vatRate == (if countries[i].vatRate.Some? then countries[i].vatRate.value else 0.0)
    ensures r.estimatedRefund == if r.qualifies then RefundEstimate(amount, r.vatRate) else 0.0
  {
    var country := FindFirst(countries, (c: Country) => c.code == countryCode);
    var qualifies := country.Some? && country.value.vatEligible && amount > 0.0;
    var vatRate := RateOf(country);
    VatRefundResult(qualifies, vatRate, if qualifies then RefundEstimate(amount, vatRate) else 0.0)
  }
}

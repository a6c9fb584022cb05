/**
 * What the engine, the VAT estimator and the results panel do with the
 * application's own tables: the seven-bank option catalogue and the
 * country table.
 */
module Catalogue {
  import opened Seqs
  import opened Types
  import opened Calculate
  import opened FxData
  import opened Calculator
  import opened VatRefund
  import opened ResultsView

  /** Position of UOB Thailand / Cash: seventh bank, fourth method. */
  const UobCashIndex: int := 27

  /**
   * Fee plus spread of every catalogue option: UOB Thailand / Cash has the
   * smallest sum (1.85 - 0.5), every other option a strictly larger one.
   */
  lemma RateSums(k: int)
    requires 0 <= k < 28
    ensures FxOptions[k].fxFeePercent + FxOptions[k].spreadPercent >= 1.35
    ensures FxOptions[k].fxFeePercent + FxOptions[k].spreadPercent == 1.35 <==> k == UobCashIndex
  {
    FxOptionsAt(BankTable, k);
    var b, m := k / 4, k % 4;
    assert 0 <= b < 7 && 0 <= m < 4;
    BankTableFees();
    assert MethodSpreadPercent(PaymentMethods[m]) >= -0.5;
    assert MethodSpreadPercent(PaymentMethods[m]) == -0.5 <==> m == 3;
  }

  /**
   * With the bank table as given, for any positive amount and rate the one
   * and only cheapest option is UOB Thailand / Cash: no tie, and it is what
   * the library and the panel report as cheapest.
   */
  lemma UobCashIsUniqueCheapest(amountCNY: real, midRate: real)
    requires amountCNY > 0.0 && midRate > 0.0
    ensures |FxOptions| == 28
    ensures var rs := CalculateComparisons(amountCNY, midRate, FxOptions);
      && rs[UobCashIndex].bank == "UOB Thailand" && rs[UobCashIndex].paymentMethod == Cash
      && (forall k :: 0 <= k < |rs| ==> (rs[k].isCheapest <==> k == UobCashIndex))
      && GetCheapestResult(rs) == Some(rs[UobCashIndex])
      && !IsTie(rs)
  {
    CatalogueLayout();
    var rs := CalculateComparisons(amountCNY, midRate, FxOptions);
    var best := InputFor(amountCNY, midRate, FxOptions[UobCashIndex]);
    forall k | 0 <= k < 28 && k != UobCashIndex
      ensures rs[UobCashIndex].totalTHB < rs[k].totalTHB
    {
      RateSums(k);
      RateSums(UobCashIndex);
      TotalOrderedByRateSum(best, InputFor(amountCNY, midRate, FxOptions[k]));
    }
    CheapestIffMinimal(amountCNY, midRate, FxOptions);
    assert rs[UobCashIndex].isCheapest;
  }

  /**
   * Every catalogue option carries a real bank name, so the panel never
   * finds a separate Cash result and lists all seven banks.
   */
  lemma CatalogueHasNoCashResult(amountCNY: real, midRate: real)
    ensures |FxOptions| == 28
    ensures var rs := CalculateComparisons(amountCNY, midRate, FxOptions);
      && CashResult(rs).None?
      && forall k :: 0 <= k < |rs| ==> rs[k].bank in BankNames(rs)
  {
    CatalogueLayout();
    NoBankNamedCash();
  }

  /** Hong Kong has no refund scheme and no rate: nothing, whatever the amount. */
  lemma HongKongNeverQualifies(amount: real)
    ensures GetVatRefund(amount, "HK", Countries) == VatRefundResult(false, 0.0, 0.0)
  {
    assert Countries[4].code == "HK";
    assert forall j :: 0 <= j < 4 ==> Countries[j].code != "HK";
  }

  /** A code missing from the table is treated as no scheme. */
  lemma UnknownCountryGivesNothing(amount: real, code: string)
    requires code !in ["CN", "JP", "KR", "SG", "HK", "TW"]
    ensures GetVatRefund(amount, code, Countries) == VatRefundResult(false, 0.0, 0.0)
  {
    assert forall i :: 0 <= i < |Countries| ==> Countries[i].code in ["CN", "JP", "KR", "SG", "HK", "TW"];
  }

  /**
   * A positive purchase in any listed country other than Hong Kong
   * qualifies at that country's rate, whatever its minimum purchase.
   */
  lemma ListedCountryQualifies(amount: real, i: int)
    requires amount > 0.0 && 0 <= i < |Countries| && i != 4
    ensures GetVatRefund(amount, Countries[i].code, Countries).qualifies
    ensures GetVatRefund(amount, Countries[i].code, Countries).vatRate == Countries[i].vatRate.value
  {
    CountryTableFacts();
  }

  /**
   * China, 11%, minimum purchase 200: 200 gives a refund of 22.00, and so
   * does 199.99 (21.9989 rounded), because the minimum is not checked.
   */
  lemma ChinaRefundExamples()
    ensures GetVatRefund(200.0, "CN", Countries) == VatRefundResult(true, 0.11, 22.0)
    ensures GetVatRefund(199.99, "CN", Countries) == VatRefundResult(true, 0.11, 22.0)
  {
    assert Countries[0].code == "CN";
  }
}

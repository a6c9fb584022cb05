/**
 * The comparison engine of lib/calculator.ts: pricing and ranking every
 * option, the catalogue-driven entry point and the two result searches.
 * The option table is a parameter; `FxData.FxOptions` is the catalogue the
 * application passes. The VAT refund estimator of the same file is in
 * module VatRefund.
 */
module Calculator {
  import opened Seqs
  import opened Types
  import opened Calculate
  import opened FxData

  /** An option priced for one amount and rate, before ranking. */
  datatype PricedOption = PricedOption(
    option: FxOption,
    effectiveRate: real,
    fxFeeTHB: real,
    spreadCostTHB: real,
    totalTHB: real)

  function Price(amountCNY: real, midRate: real, opt: FxOption): PricedOption {
    var out := CalculateTotal(InputFor(amountCNY, midRate, opt));
    PricedOption(opt, midRate * (1.0 + opt.spreadPercent / 100.0), out.fxFeeCost, out.spreadCost, out.totalTHB)
  }

  function PriceAll(amountCNY: real, midRate: real, options: seq<FxOption>): (r: seq<PricedOption>)
    ensures |r| == |options|
    ensures forall i :: 0 <= i < |options| ==> r[i] == Price(amountCNY, midRate, options[i])
  {
    seq(|options|, i requires 0 <= i < |options| => Price(amountCNY, midRate, options[i]))
  }

  /** The totals of a result list, in order. */
  function Totals(rs: seq<ComparisonResult>): (r: seq<real>)
    ensures |r| == |rs|
    ensures forall i :: 0 <= i < |rs| ==> r[i] == rs[i].totalTHB
  {
    seq(|rs|, i requires 0 <= i < |rs| => rs[i].totalTHB)
  }

  /** Flag a priced option as cheapest when its total is exactly the minimum. */
  function Rank(p: PricedOption, minTotal: real, maxTotal: real): ComparisonResult {
    ComparisonResult(
      p.option.bank, p.option.paymentMethod, p.option.fxFeePercent, p.option.spreadPercent,
      p.effectiveRate, p.fxFeeTHB, p.spreadCostTHB, p.totalTHB,
      p.totalTHB == minTotal,
      if p.totalTHB == minTotal then maxTotal - minTotal else 0.0)
  }

  /**
   * Price every option and rank the results. An empty table gives an empty
   * list: the infinite minimum and maximum the source computes for it are
   * never used.
   */
  function CalculateComparisons(amountCNY: real, midRate: real, options: seq<FxOption>): (rs: seq<ComparisonResult>)
    ensures |rs| == |options|
    ensures forall i :: 0 <= i < |rs| ==>
      && rs[i].bank == options[i].bank
      && rs[i].paymentMethod == options[i].paymentMethod
      && rs[i].fxFeePercent == options[i].fxFeePercent
      && rs[i].spreadPercent == options[i].spreadPercent
    ensures forall i :: 0 <= i < |rs| ==>
      rs[i].effectiveRate * 100.0 == midRate * (100.0 + options[i].spreadPercent)
    ensures forall i :: 0 <= i < |rs| ==>
      CalculateTotal(InputFor(amountCNY, midRate, options[i]))
        == CalculateOutput(rs[i].totalTHB, rs[i].fxFeeTHB, rs[i].spreadCostTHB)
  {
    var priced := PriceAll(amountCNY, midRate, options);
    if |priced| == 0 then []
    else
      var totals := seq(|priced|, i requires 0 <= i < |priced| => priced[i].totalTHB);
      var minTotal := MinOf(totals);
      var maxTotal := MaxOf(totals);
      seq(|priced|, i requires 0 <= i < |priced| => Rank(priced[i], minTotal, maxTotal))
  }

  /**
   * A result is flagged cheapest exactly when no other total is lower (its
   * total is the exact minimum, no tolerance), so ties are all flagged, and
   * at least one result is always flagged.
   */
  lemma CheapestIffMinimal(amountCNY: real, midRate: real, options: seq<FxOption>)
    requires |options| > 0
    ensures var rs := CalculateComparisons(amountCNY, midRate, options);
      && (forall i :: 0 <= i < |rs| ==> (rs[i].isCheapest <==> rs[i].totalTHB == MinOf(Totals(rs))))
      && (forall i :: 0 <= i < |rs| ==> (rs[i].isCheapest <==> forall j :: 0 <= j < |rs| ==> rs[i].totalTHB <= rs[j].totalTHB))
      && (exists i :: 0 <= i < |rs| && rs[i].isCheapest)
  {
    var rs := CalculateComparisons(amountCNY, midRate, options);
    var priced := PriceAll(amountCNY, midRate, options);
    var totals := seq(|priced|, i requires 0 <= i < |priced| => priced[i].totalTHB);
    assert Totals(rs) == totals;
    var m := MinOf(totals);
    var k :| 0 <= k < |totals| && totals[k] == m;
    assert rs[k].isCheapest;
  }

  /**
   * Savings: every cheapest result carries the spread between the most and
   * the least expensive totals, every other result carries 0, and no saving
   * is negative.
   */
  lemma SavingsAreSpread(amountCNY: real, midRate: real, options: seq<FxOption>)
    requires |options| > 0
    ensures var rs := CalculateComparisons(amountCNY, midRate, options);
      && (forall i :: 0 <= i < |rs| ==> rs[i].savings >= 0.0)
      && (forall i :: 0 <= i < |rs| && !rs[i].isCheapest ==> rs[i].savings == 0.0)
      && (forall i :: 0 <= i < |rs| && rs[i].isCheapest ==> rs[i].savings == MaxOf(Totals(rs)) - MinOf(Totals(rs)))
  {
    var rs := CalculateComparisons(amountCNY, midRate, options);
    var priced := PriceAll(amountCNY, midRate, options);
    var totals := seq(|priced|, i requires 0 <= i < |priced| => priced[i].totalTHB);
    assert Totals(rs) == totals;
    assert MinOf(totals) <= MaxOf(totals) by {
      assert MinOf(totals) <= totals[0] <= MaxOf(totals);
    }
  }

  /** A one-option table: that option is cheapest and saves nothing. */
  lemma SingleOptionIsCheapest(amountCNY: real, midRate: real, opt: FxOption)
    ensures var rs := CalculateComparisons(amountCNY, midRate, [opt]);
      |rs| == 1 && rs[0].isCheapest && rs[0].savings == 0.0
  {
    CheapestIffMinimal(amountCNY, midRate, [opt]);
    SavingsAreSpread(amountCNY, midRate, [opt]);
  }

  /**
   * The worked example as a one-option comparison: 5000 at 4.90 with a 2.5%
   * fee and a 1.0% spread gives an effective rate of 4.949 and a total of
   * 25357.5.
   */
  lemma WorkedComparison()
    ensures CalculateComparisons(5000.0, 4.90, [FxOption("KBank", CreditCard, 2.5, 1.0)])
         == [ComparisonResult("KBank", CreditCard, 2.5, 1.0, 4.949, 612.5, 245.0, 25357.5, true, 0.0)]
  {
    SingleOptionIsCheapest(5000.0, 4.90, FxOption("KBank", CreditCard, 2.5, 1.0));
  }

  /**
   * The deprecated entry point: the bank, method and currency arguments are
   * ignored and the whole catalogue is compared; the rate defaults to 4.9.
   */
  function CalculateOptions(amountCNY: real, bank: string, paymentMethod: PaymentMethod,
                            currency: string := "CNY", midRate: real := 4.9): (rs: seq<ComparisonResult>)
    ensures |rs| == |FxOptions|
    ensures forall i :: 0 <= i < |rs| ==> rs[i].bank == FxOptions[i].bank && rs[i].paymentMethod == FxOptions[i].paymentMethod
  {
    CatalogueLayout();
    CalculateComparisons(amountCNY, midRate, FxOptions)
  }

  /** The selection arguments of the deprecated entry point have no effect. */
  lemma CalculateOptionsIgnoresSelection(amountCNY: real, midRate: real,
                                         bank1: string, method1: PaymentMethod, currency1: string,
                                         bank2: string, method2: PaymentMethod, currency2: string)
    ensures CalculateOptions(amountCNY, bank1, method1, currency1, midRate)
         == CalculateOptions(amountCNY, bank2, method2, currency2, midRate)
    ensures |FxOptions| > 0 && CalculateOptions(amountCNY, bank1, method1, currency1, midRate)
         == CalculateComparisons(amountCNY, midRate, FxOptions)
  {
    CatalogueLayout();
  }

  /** The first result for the given bank and method, if any. */
  function GetSelectedResult(results: seq<ComparisonResult>, bank: string, paymentMethod: PaymentMethod): (r: Option<ComparisonResult>)
    ensures r.None? <==> forall i :: 0 <= i < |results| ==> !(results[i].bank == bank && results[i].paymentMethod == paymentMethod)
    ensures r.Some? ==> exists i :: (0 <= i < |results| && results[i] == r.value
      && r.value.bank == bank && r.value.paymentMethod == paymentMethod
      && forall j :: 0 <= j < i ==> !(results[j].bank == bank && results[j].paymentMethod == paymentMethod))
  {
    FindFirst(results, (r: ComparisonResult) => r.bank == bank && r.paymentMethod == paymentMethod)
  }

  /** The first result flagged cheapest, if any. */
  function GetCheapestResult(results: seq<ComparisonResult>): (r: Option<ComparisonResult>)
    ensures r.None? <==> forall i :: 0 <= i < |results| ==> !results[i].isCheapest
    ensures r.Some? ==> exists i :: (0 <= i < |results| && results[i] == r.value && r.value.isCheapest
      && forall j :: 0 <= j < i ==> !results[j].isCheapest)
  {
    FindFirst(results, (r: ComparisonResult) => r.isCheapest)
  }

  /** On engine output a cheapest result always exists and has the minimum total. */
  lemma CheapestResultIsMinimum(amountCNY: real, midRate: real, options: seq<FxOption>)
    requires |options| > 0
    ensures var rs := CalculateComparisons(amountCNY, midRate, options);
      && GetCheapestResult(rs).Some?
      && GetCheapestResult(rs).value.totalTHB == MinOf(Totals(rs))
      && GetCheapestResult(rs).value.savings == MaxOf(Totals(rs)) - MinOf(Totals(rs))
  {
    CheapestIffMinimal(amountCNY, midRate, options);
    SavingsAreSpread(amountCNY, midRate, options);
  }
}

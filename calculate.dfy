/** The per-option cost formula (lib/calculate.ts). */
module Calculate {

  datatype CalculateInput = CalculateInput(
    amountCNY: real,
    midRate: real,
    fxFeePercent: real,
    spreadPercent: real)

  datatype CalculateOutput = CalculateOutput(
    totalTHB: real,
    fxFeeCost: real,
    spreadCost: real)

  /** The amount converted at the mid-market rate, with no markup. */
  function BaseTHB(input: CalculateInput): real {
    input.amountCNY * input.midRate
  }

  /**
   * Total THB cost of paying `amountCNY`: the converted base plus the bank's
   * FX fee plus the method's spread, each a percentage of the base.
   */
  function CalculateTotal(input: CalculateInput): (r: CalculateOutput)
    ensures r.fxFeeCost * 100.0 == BaseTHB(input) * input.fxFeePercent
    ensures r.spreadCost * 100.0 == BaseTHB(input) * input.spreadPercent
    ensures r.totalTHB == BaseTHB(input) * (1.0 + input.fxFeePercent / 100.0 + input.spreadPercent / 100.0)
  {
    var baseTHB := input.amountCNY * input.midRate;
    var fxFeeCost := baseTHB * (input.fxFeePercent / 100.0);
    var spreadCost := baseTHB * (input.spreadPercent / 100.0);
    var totalTHB := baseTHB + fxFeeCost + spreadCost;
    CalculateOutput(totalTHB, fxFeeCost, spreadCost)
  }

  /** The total decomposes into base, fee and spread. */
  lemma TotalIsBasePlusCosts(input: CalculateInput)
    ensures CalculateTotal(input).totalTHB
         == BaseTHB(input) + CalculateTotal(input).fxFeeCost + CalculateTotal(input).spreadCost
  {
  }

  /**
   * A negative spread (Cash) is a gain: the spread cost is negative and the
   * total falls below base plus fee.
   */
  lemma NegativeSpreadLowersTotal(input: CalculateInput)
    requires input.amountCNY > 0.0 && input.midRate > 0.0 && input.spreadPercent < 0.0
    ensures CalculateTotal(input).spreadCost < 0.0
    ensures CalculateTotal(input).totalTHB < BaseTHB(input) + CalculateTotal(input).fxFeeCost
  {
    var b := BaseTHB(input);
    assert b > 0.0;
    assert b * input.spreadPercent < 0.0;
  }

  /**
   * For a positive amount and rate, the total grows strictly with the fee
   * and with the spread: raising either (and lowering neither) costs more.
   */
  lemma TotalStrictlyIncreasing(a: CalculateInput, b: CalculateInput)
    requires a.amountCNY == b.amountCNY > 0.0 && a.midRate == b.midRate > 0.0
    requires a.fxFeePercent <= b.fxFeePercent && a.spreadPercent <= b.spreadPercent
    requires a.fxFeePercent < b.fxFeePercent || a.spreadPercent < b.spreadPercent
    ensures CalculateTotal(a).totalTHB < CalculateTotal(b).totalTHB
  {
    TotalOrderedByRateSum(a, b);
  }

  /**
   * Between two inputs with the same positive amount and rate, the one with
   * the smaller fee-plus-spread sum costs strictly less; the ordering of
   * totals is exactly the ordering of those sums.
   */
  lemma TotalOrderedByRateSum(a: CalculateInput, b: CalculateInput)
    requires a.amountCNY == b.amountCNY > 0.0 && a.midRate == b.midRate > 0.0
    ensures CalculateTotal(a).totalTHB < CalculateTotal(b).totalTHB
        <==> a.fxFeePercent + a.spreadPercent < b.fxFeePercent + b.spreadPercent
    ensures CalculateTotal(a).totalTHB == CalculateTotal(b).totalTHB
        <==> a.fxFeePercent + a.spreadPercent == b.fxFeePercent + b.spreadPercent
  {
    var base := BaseTHB(a);
    assert base == BaseTHB(b);
    assert base > 0.0;
    var sa := 1.0 + a.fxFeePercent / 100.0 + a.spreadPercent / 100.0;
    var sb := 1.0 + b.fxFeePercent / 100.0 + b.spreadPercent / 100.0;
    assert CalculateTotal(b).totalTHB - CalculateTotal(a).totalTHB == base * (sb - sa);
    assert sb - sa == ((b.fxFeePercent + b.spreadPercent) - (a.fxFeePercent + a.spreadPercent)) / 100.0;
  }

  /** The worked example: 5000 at 4.90 with a 2.5% fee and a 1.0% spread. */
  lemma WorkedExample()
    ensures CalculateTotal(CalculateInput(5000.0, 4.90, 2.5, 1.0)) == CalculateOutput(25357.5, 612.5, 245.0)
  {
  }
}

/**
 * The static catalogue: countries, banks with their FX fees
 * (data/banks.ts), payment methods with their spreads, and the
 * bank-by-method cross product of options (lib/fxData.ts).
 */
module FxData {
  import opened Seqs
  import opened Types
  import Calculate

  /** A bank and the FX fee it charges; its source link and check date are not kept. */
  datatype Bank = Bank(name: string, fxFeePercent: real)

  /** The bank records in declaration order. */
  const BankTable: seq<Bank> := [
    Bank("KBank", 2.5),
    Bank("SCB", 2.5),
    Bank("KTC", 2.5),
    Bank("Bangkok Bank", 2.5),
    Bank("Krungsri", 2.5),
    Bank("TTB", 2.5),
    Bank("UOB Thailand", 1.85)
  ]

  const Countries: seq<Country> := [
    Country("CN", "China", "CNY", true, Some(0.11), Some(200.0)),
    Country("JP", "Japan", "JPY", true, Some(0.10), Some(5000.0)),
    Country("KR", "South Korea", "KRW", true, Some(0.10), Some(30000.0)),
    Country("SG", "Singapore", "SGD", true, Some(0.09), Some(100.0)),
    Country("HK", "Hong Kong", "HKD", false, None, None),
    Country("TW", "Taiwan", "TWD", true, Some(0.05), Some(2000.0))
  ]

  /** The name of every bank, in table order. */
  function BankNamesOf(banks: seq<Bank>): (r: seq<string>)
    ensures |r| == |banks|
    ensures forall i :: 0 <= i < |banks| ==> r[i] == banks[i].name
  {
    seq(|banks|, i requires 0 <= i < |banks| => banks[i].name)
  }

  const Banks: seq<string> := BankNamesOf(BankTable)

  const PaymentMethods: seq<PaymentMethod> := [CreditCard, Alipay, WeChatPay, Cash]

  /** Seven banks; every fee is 2.5% except UOB Thailand's 1.85%. */
  lemma BankTableFees()
    ensures |BankTable| == 7
    ensures forall b :: 0 <= b < |BankTable| ==> BankTable[b].fxFeePercent == if b == 6 then 1.85 else 2.5
    ensures BankTable[6].name == "UOB Thailand"
    ensures forall b, c :: 0 <= b < c < |BankTable| ==> BankTable[b].name != BankTable[c].name
  {
  }

  /** Each payment method exactly once, Cash last. */
  lemma PaymentMethodsListEachOnce()
    ensures |PaymentMethods| == 4 && PaymentMethods[3] == Cash
    ensures forall m :: m in PaymentMethods
    ensures forall i, j :: 0 <= i < j < |PaymentMethods| ==> PaymentMethods[i] != PaymentMethods[j]
  {
    forall m ensures m in PaymentMethods {
      match m
      case CreditCard => assert PaymentMethods[0] == m;
      case Alipay => assert PaymentMethods[1] == m;
      case WeChatPay => assert PaymentMethods[2] == m;
      case Cash => assert PaymentMethods[3] == m;
    }
  }

  /**
   * Spread above mid-market per payment method; negative means better than
   * mid-market. Only Cash is below mid-market, and the two wallets share
   * the highest spread.
   */
  function MethodSpreadPercent(m: PaymentMethod): (r: real)
    ensures -0.5 <= r <= 1.5
    ensures r < 0.0 <==> m == Cash
    ensures r == 1.5 <==> m == Alipay || m == WeChatPay
  {
    match m
    case CreditCard => 1.0
    case Alipay => 1.5
    case WeChatPay => 1.5
    case Cash => -0.5
  }

  /** The option for one bank and one method: the bank's fee, the method's spread. */
  function OptionFor(b: Bank, m: PaymentMethod): FxOption {
    FxOption(b.name, m, b.fxFeePercent, MethodSpreadPercent(m))
  }

  /** One bank's options, one per payment method in method order. */
  function OptionsForBank(b: Bank): (r: seq<FxOption>)
    ensures |r| == |PaymentMethods|
  {
    seq(|PaymentMethods|, i requires 0 <= i < |PaymentMethods| => OptionFor(b, PaymentMethods[i]))
  }

  /** The bank-major cross product of `banks` with the payment methods. */
  function FxOptionsFrom(banks: seq<Bank>): (r: seq<FxOption>)
    ensures |r| == |PaymentMethods| * |banks|
  {
    if |banks| == 0 then [] else OptionsForBank(banks[0]) + FxOptionsFrom(banks[1..])
  }

  const FxOptions: seq<FxOption> := FxOptionsFrom(BankTable)

  /**
   * Entry `k` of the cross product belongs to bank `k / |PaymentMethods|`
   * and method `k % |PaymentMethods|`: it carries that bank's name and fee
   * and that method's spread, Cash included.
   */
  lemma {:induction false} FxOptionsAt(banks: seq<Bank>, k: int)
    requires 0 <= k < |PaymentMethods| * |banks|
    ensures FxOptionsFrom(banks)[k] == OptionFor(banks[k / |PaymentMethods|], PaymentMethods[k % |PaymentMethods|])
    ensures FxOptionsFrom(banks)[k].bank == banks[k / |PaymentMethods|].name
    ensures FxOptionsFrom(banks)[k].fxFeePercent == banks[k / |PaymentMethods|].fxFeePercent
    ensures FxOptionsFrom(banks)[k].spreadPercent == MethodSpreadPercent(FxOptionsFrom(banks)[k].paymentMethod)
  {
    var n := |PaymentMethods|;
    var head := OptionsForBank(banks[0]);
    if k < n {
      assert FxOptionsFrom(banks)[k] == head[k];
    } else {
      FxOptionsAt(banks[1..], k - n);
      assert FxOptionsFrom(banks)[k] == FxOptionsFrom(banks[1..])[k - n];
      assert (k - n) / n == k / n - 1 && (k - n) % n == k % n;
    }
  }

  /** The catalogue has 7 banks times 4 methods, laid out bank-major. */
  lemma CatalogueLayout()
    ensures |FxOptions| == 28
    ensures forall k :: 0 <= k < 28 ==> FxOptions[k] == OptionFor(BankTable[k / 4], PaymentMethods[k % 4])
  {
    forall k | 0 <= k < 28
      ensures FxOptions[k] == OptionFor(BankTable[k / 4], PaymentMethods[k % 4])
    {
      FxOptionsAt(BankTable, k);
    }
  }

  /** Cash is the one method with a negative spread, and the lowest one. */
  lemma CashHasLowestSpread(m: PaymentMethod)
    ensures MethodSpreadPercent(m) < 0.0 <==> m == Cash
    ensures m != Cash ==> MethodSpreadPercent(Cash) < MethodSpreadPercent(m)
  {
  }

  function InputFor(amountCNY: real, midRate: real, opt: FxOption): Calculate.CalculateInput {
    Calculate.CalculateInput(amountCNY, midRate, opt.fxFeePercent, opt.spreadPercent)
  }

  /**
   * Within one bank the Cash option is strictly the cheapest for any
   * positive amount and rate: the fee is shared and Cash has the lowest
   * spread.
   */
  lemma CashCheapestWithinBank(b: Bank, m: PaymentMethod, amountCNY: real, midRate: real)
    requires amountCNY > 0.0 && midRate > 0.0 && m != Cash
    ensures Calculate.CalculateTotal(InputFor(amountCNY, midRate, OptionFor(b, Cash))).totalTHB
          < Calculate.CalculateTotal(InputFor(amountCNY, midRate, OptionFor(b, m))).totalTHB
  {
    CashHasLowestSpread(m);
    Calculate.TotalOrderedByRateSum(InputFor(amountCNY, midRate, OptionFor(b, Cash)), InputFor(amountCNY, midRate, OptionFor(b, m)));
  }

  /** No bank in the table is called "Cash". */
  lemma NoBankNamedCash()
    ensures forall i :: 0 <= i < |BankTable| ==> BankTable[i].name != "Cash"
    ensures forall k :: 0 <= k < |FxOptions| ==> FxOptions[k].bank != "Cash"
  {
    forall k | 0 <= k < |FxOptions| ensures FxOptions[k].bank != "Cash" {
      FxOptionsAt(BankTable, k);
    }
  }

  /** `Banks` lists the bank names in declaration order. */
  lemma BanksInOrder()
    ensures Banks == ["KBank", "SCB", "KTC", "Bangkok Bank", "Krungsri", "TTB", "UOB Thailand"]
  {
  }

  /**
   * Country codes are distinct; Hong Kong alone has no refund scheme and no
   * rate or minimum, and every other country has a rate strictly between 0
   * and 1.
   */
  lemma CountryTableFacts()
    ensures forall i, j :: 0 <= i < j < |Countries| ==> Countries[i].code != Countries[j].code
    ensures forall i :: 0 <= i < |Countries| && Countries[i].code == "HK" ==>
      !Countries[i].vatEligible && Countries[i].vatRate.None? && Countries[i].vatMinAmount.None?
    ensures forall i :: 0 <= i < |Countries| && Countries[i].code != "HK" ==>
      Countries[i].vatEligible && Countries[i].vatRate.Some? && 0.0 < Countries[i].vatRate.value < 1.0
  {
  }
}

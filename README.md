# Travel FX optimizer: comparison engine and VAT estimator

A Dafny model of the calculation core of a consumer cost comparator. Given a
purchase amount in a foreign currency and a mid-market exchange rate (THB per
unit), the engine prices every bank × payment-method option of a catalogue,
flags the cheapest ones and attaches savings; the VAT estimator says whether a
purchase in a destination country qualifies for a tourist VAT refund and
estimates it. The model also covers the static tables the core runs over and
the values the results panel derives from the engine's output before
rendering.

All money and percentages are exact `real`s, so the engine's exact-equality
test for "cheapest" is genuinely exact. Everything in the core is pure, so the
model is datatypes, functions and lemmas:

- `seqs.dfy` (`Seqs`): `find`, `filter`, `Math.min`/`Math.max` and
  `Set`-based de-duplication as functions with their meaning as contracts.
- `types.dfy` (`Types`): the records of `lib/types.ts`.
- `calculate.dfy` (`Calculate`): the per-option cost formula.
- `fx_data.dfy` (`FxData`): banks, countries, payment methods, spreads and the
  bank-major cross product of options.
- `calculator.dfy` (`Calculator`): pricing and ranking (`calculateComparisons`
  with the option table as a parameter), the deprecated `calculateOptions`,
  and the two lookups.
- `rounding.dfy` (`Rounding`), `vat_refund.dfy` (`VatRefund`): the VAT
  estimate and its rounding to 2 decimals.
- `results_view.dfy` (`ResultsView`): the panel's derived values.
- `catalogue.dfy` (`Catalogue`): facts about the application's own tables,
  e.g. that UOB Thailand / Cash is the unique cheapest option.

The model keeps the code's behaviour in four places where a reader might
expect otherwise:

- Cheapest means total equal to the minimum exactly (lib/calculator.ts:43);
  there is no 0.001 THB tolerance.
- VAT qualification is "country found, refund scheme exists, amount > 0"
  (lib/calculator.ts:97); the country's minimum purchase is never consulted,
  so 199.99 in China qualifies (`Catalogue.ChinaRefundExamples`). The result
  has only `qualifies`, `vatRate` and `estimatedRefund`.
- There is no standalone zero-fee Cash option: every bank gets a Cash option
  carrying that bank's fee (lib/fxData.ts:36-43).
- An empty option table is not guarded: the minimum and maximum of an empty
  list are infinite (lib/calculator.ts:38-39), but the mapping over no
  options (lib/calculator.ts:41) returns an empty list without using them,
  and so does `Calculator.CalculateComparisons`. The lemmas about the
  cheapest result assume a non-empty table, which the 28-entry catalogue
  satisfies.

## Model

| member | source | states |
|---|---|---|
| `Calculate.CalculateTotal` | lib/calculate.ts:24-36 | fee cost and spread cost are the fee and spread percentages of amount × rate, and the total is amount × rate × (1 + fee/100 + spread/100) |
| `Calculate.TotalIsBasePlusCosts` | lib/calculate.ts:33 | the total is the base amount plus fee cost plus spread cost |
| `Calculate.NegativeSpreadLowersTotal` | lib/calculate.ts:21-22 | with positive amount and rate a negative spread gives a negative spread cost and a total below base plus fee |
| `Calculate.TotalStrictlyIncreasing` | lib/calculate.ts:31-33 | with positive amount and rate the total strictly increases with the fee and with the spread |
| `Calculate.TotalOrderedByRateSum` | lib/calculate.ts:30-33 | at a fixed positive amount and rate, totals are ordered (and equal) exactly as the fee-plus-spread sums are |
| `Calculate.WorkedExample` | lib/calculate.ts:30-33 | 5000 at 4.90 with 2.5% fee and 1.0% spread costs 612.5 fee, 245 spread, 25357.5 total |
| `Seqs.FindFirst` | lib/calculator.ts:65 | `find` returns nothing iff no element matches, otherwise the element at the first matching position |
| `Seqs.Filter` | components/ResultsSection.tsx:56 | `filter` keeps exactly the matching elements, never more than the input |
| `Seqs.FilterAppend` | components/ResultsSection.tsx:56 | filtering commutes with concatenation, so the kept elements stay in input order |
| `Seqs.FilterHeadIsFind` | components/ResultsSection.tsx:56-57 | the first element kept by `filter` is what `find` returns, and `filter` is empty iff `find` finds nothing |
| `Seqs.FilterHasTwo` | components/ResultsSection.tsx:58 | `filter` keeps more than one element iff two distinct positions match |
| `Seqs.MinOf` | lib/calculator.ts:38 | `Math.min` of a non-empty list is one of its elements and no element is smaller |
| `Seqs.MaxOf` | lib/calculator.ts:39 | `Math.max` of a non-empty list is one of its elements and no element is larger |
| `Seqs.Dedup` | components/ResultsSection.tsx:68 | `[...new Set(xs)]` holds exactly the elements of `xs`, each once |
| `Seqs.DedupFirstAppearanceOrder` | components/ResultsSection.tsx:68 | de-duplicated elements are in order of their first occurrence |
| `FxData.BankNamesOf` | lib/fxData.ts:13 | the bank-name list has one name per bank record, in record order |
| `FxData.BanksInOrder` | lib/fxData.ts:13 | `BANKS` (`FxData.Banks`) is KBank, SCB, KTC, Bangkok Bank, Krungsri, TTB, UOB Thailand |
| `FxData.FxOptionsFrom` | lib/fxData.ts:36-43 | the cross product has four options per bank |
| `FxData.FxOptionsAt` | lib/fxData.ts:36-43 | option k belongs to bank k / |PaymentMethods| and method k % |PaymentMethods| (bank-major), carries the bank's name and fee, Cash included, and the method's spread |
| `FxData.CatalogueLayout` | lib/fxData.ts:36-43 | `FX_OPTIONS` (`FxData.FxOptions`) has 28 options laid out bank-major over the seven banks of data/banks.ts |
| `FxData.BankTableFees` | data/banks.ts:1-44 | the bank table (`FxData.BankTable`) has seven banks with distinct names; every fee is 2.5% except UOB Thailand's 1.85% |
| `FxData.PaymentMethodsListEachOnce` | lib/fxData.ts:14-19 | `PAYMENT_METHODS` (`FxData.PaymentMethods`) lists each of the four methods exactly once, Cash last |
| `FxData.MethodSpreadPercent` | lib/fxData.ts:25-30 | every spread lies in [−0.5, 1.5]; only Cash is below mid-market; Alipay and WeChat Pay, and only they, have the highest spread 1.5 |
| `FxData.CashHasLowestSpread` | lib/fxData.ts:25-30 | Cash (−0.5) is the only method with a negative spread and has the lowest spread |
| `FxData.CashCheapestWithinBank` | lib/fxData.ts:36-43 | within one bank, for positive amount and rate, Cash costs strictly less than every other method |
| `FxData.NoBankNamedCash` | lib/fxData.ts:38 | no bank, hence no catalogue option, is named "Cash" |
| `FxData.CountryTableFacts` | lib/fxData.ts:4-11 | in `COUNTRIES` (`FxData.Countries`) country codes are distinct; HK has no scheme, rate or minimum; every other country has a scheme and a rate in (0, 1) |
| `Calculator.CalculateComparisons` | lib/calculator.ts:17-46 | one result per option in table order (none for an empty table), copying bank, method, fee and spread; effective rate is midRate × (1 + spread/100); fee, spread and total are `calculateTotal`'s outputs for that option |
| `Calculator.CheapestIffMinimal` | lib/calculator.ts:38-43 | a result is cheapest iff its total equals the exact minimum, iff no total is lower; at least one result is cheapest |
| `Calculator.SavingsAreSpread` | lib/calculator.ts:38-44 | cheapest results save max − min, all others 0, and no saving is negative |
| `Calculator.SingleOptionIsCheapest` | lib/calculator.ts:38-44 | with one option, it is cheapest and saves 0 |
| `Calculator.WorkedComparison` | lib/calculator.ts:21-44 | the worked example as a comparison: effective rate 4.949, fee 612.5, spread 245, total 25357.5, cheapest, savings 0 |
| `Calculator.CalculateOptions` | lib/calculator.ts:49-57 | the deprecated entry point compares the whole catalogue in catalogue order |
| `Calculator.CalculateOptionsIgnoresSelection` | lib/calculator.ts:49-57 | its bank, method and currency arguments have no effect; it equals the comparison over the catalogue |
| `Calculator.GetSelectedResult` | lib/calculator.ts:60-66 | nothing iff no result has the bank and method, otherwise the first result that has both |
| `Calculator.GetCheapestResult` | lib/calculator.ts:69-73 | nothing iff no result is flagged cheapest, otherwise the first flagged one |
| `Calculator.CheapestResultIsMinimum` | lib/calculator.ts:69-73 | on engine output a cheapest result exists, has the minimum total and saves max − min |
| `Rounding.Round2` | lib/calculator.ts:104 | rounding to 2 decimals stays within half a hundredth of its input, a half going away from zero |
| `Rounding.Round2IsWholeHundredths` | lib/calculator.ts:104 | the rounded value is a multiple of 0.01, hence the nearest one |
| `Rounding.Round2Examples` | lib/calculator.ts:104 | 22 stays 22, 21.9989 becomes 22, ±0.125 becomes ±0.13 |
| `VatRefund.GetVatRefund` | lib/calculator.ts:92-107 | qualifies iff the first country with the code exists, has a scheme, and amount > 0; the rate is that country's rate or 0; an unknown code gives (false, 0, 0); the refund is amount × rate rounded to 2 decimals when it qualifies, else 0 |
| `ResultsView.CheapestAll` | components/ResultsSection.tsx:56 | exactly the results flagged cheapest |
| `ResultsView.Cheapest` | components/ResultsSection.tsx:57 | nothing iff no result is flagged cheapest, otherwise the first flagged result |
| `ResultsView.CheapestIsGetCheapestResult` | components/ResultsSection.tsx:57 | the panel's cheapest result is the first flagged one, as `getCheapestResult` returns |
| `ResultsView.IsTie` | components/ResultsSection.tsx:58 | a tie holds iff two distinct results are flagged cheapest |
| `ResultsView.MostExpensive` | components/ResultsSection.tsx:59 | one of the results, and no result has a larger total; needs a non-empty list |
| `ResultsView.MostExpensiveIsLastMaximum` | components/ResultsSection.tsx:59 | on equal totals the later result wins: no result after the returned one reaches its total |
| `ResultsView.MaxSavings` | components/ResultsSection.tsx:60 | never negative, and 0 when no result is flagged cheapest |
| `ResultsView.MaxSavingsOnEngineOutput` | components/ResultsSection.tsx:59-60 | on engine output it is max − min, the savings every cheapest result carries |
| `ResultsView.PotentialSaving` | components/ResultsSection.tsx:62-64 | non-zero only when the selected and cheapest results exist and the selected one is not cheapest, then their total difference |
| `ResultsView.PotentialSavingOnEngineOutput` | components/ResultsSection.tsx:62-64 | on engine output it is never negative, and positive iff the selected option exists and is not cheapest |
| `ResultsView.CashResult` | components/ResultsSection.tsx:67 | nothing iff no result has bank "Cash", otherwise the first result with bank "Cash" |
| `ResultsView.NonCash` | components/ResultsSection.tsx:68 | exactly the results whose bank is not "Cash" |
| `ResultsView.BankNames` | components/ResultsSection.tsx:68 | each non-"Cash" bank of the results exactly once, and nothing else |
| `ResultsView.BankNamesInFirstAppearanceOrder` | components/ResultsSection.tsx:68 | the bank names are in order of first appearance |
| `Catalogue.RateSums` | lib/fxData.ts:36-43 | every catalogue option's fee + spread is at least 1.35, with equality only for UOB Thailand / Cash |
| `Catalogue.UobCashIsUniqueCheapest` | lib/fxData.ts:36-43 | over the catalogue, for positive amount and rate, UOB Thailand / Cash is the only cheapest result, is what `getCheapestResult` returns, and there is no tie |
| `Catalogue.CatalogueHasNoCashResult` | components/ResultsSection.tsx:67-68 | over the catalogue no Cash result is ever found and every result's bank is listed in the bank names |
| `Catalogue.HongKongNeverQualifies` | lib/calculator.ts:96-105 | HK gives (false, 0, 0) for every amount |
| `Catalogue.UnknownCountryGivesNothing` | lib/calculator.ts:96-105 | a code not in the table gives (false, 0, 0) |
| `Catalogue.ListedCountryQualifies` | lib/calculator.ts:96-105 | a positive amount in any listed country except HK qualifies at that country's rate, whatever its minimum |
| `Catalogue.ChinaRefundExamples` | lib/calculator.ts:96-105 | China at 200 and at 199.99 both qualify with a refund of 22.00 |

## Left out

- Rendering: all JSX, icons and number, currency and date formatting in the
  components; only the derivations at components/ResultsSection.tsx:53-68
  are modelled. `selected` there (lines 53-55) is the same search as
  `getSelectedResult` and is modelled by `Calculator.GetSelectedResult`.
- Page state and effects (app/page.tsx): React state, `localStorage`,
  language and dark-mode toggles, the amount gate (the caller only compares
  positive amounts; the engine here accepts any amount) and the VAT fields the
  page reads but `getVatRefund` never returns.
- The exchange-rate route (app/api/fx/route.ts): network I/O, caching and its
  fallback rate; the engine just receives a rate.
- app/layout.tsx, the sitemap route, data/translations.ts and
  data/cityRules.ts: metadata, UI strings and reminder text.
- Country `flag` and bank `sourceUrl`/`lastVerified`: display-only fields.
- The `BankName` string union: bank names are plain strings, since the
  catalogue includes KTC, which the union omits.
- Floating point: JavaScript's binary doubles are not modelled. Arithmetic is
  exact and `parseFloat(x.toFixed(2))` is rounding to the nearest hundredth,
  halves away from zero, without the binary-representation quirks of
  `toFixed`.
- The infinite `Math.min`/`Math.max` of an empty option table: the engine
  returns the empty list without computing them, which is what the source
  returns. `mostExpensive` requires a non-empty result list, as `reduce`
  without a seed fails on an empty one.
- Catalogue.CatalogueHasNoCashResult: shows that every bank appears in the
  bank names, not that the list equals `BANKS` in order.

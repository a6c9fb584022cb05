/**
 * The values the results panel derives from the engine's output before
 * rendering (components/ResultsSection.tsx): the cheapest results, whether
 * they tie, the most expensive result, the savings shown, the Cash result
 * and the bank names. The user's `selected` result is the same search as
 * `Calculator.GetSelectedResult`.
 */
module ResultsView {
  import opened Seqs
  import opened Types
  import opened Calculator

  /** `results.filter(r => r.isCheapest)`. */
  function CheapestAll(results: seq<ComparisonResult>): (r: seq<ComparisonResult>)
    ensures forall i :: 0 <= i < |r| ==> r[i].isCheapest && r[i] in results
    ensures forall i :: 0 <= i < |results| && results[i].isCheapest ==> results[i] in r
  {
    Filter(results, (c: ComparisonResult) => c.isCheapest)
  }

  /** `cheapestAll[0] ?? null`: the first result flagged cheapest, if any. */
  function Cheapest(results: seq<ComparisonResult>): (r: Option<ComparisonResult>)
    ensures r.None? <==> forall i :: 0 <= i < |results| ==> !results[i].isCheapest
    ensures r.Some? ==> exists i :: (0 <= i < |results| && results[i] == r.value && results[i].isCheapest
      && forall j :: 0 <= j < i ==> !results[j].isCheapest)
  {
    var all := CheapestAll(results);
    FilterHeadIsFind(results, (c: ComparisonResult) => c.isCheapest);
    if |all| > 0 then Some(all[0]) else None
  }

  /** The panel's cheapest result is the library's first cheapest result. */
  lemma CheapestIsGetCheapestResult(results: seq<ComparisonResult>)
    ensures Cheapest(results) == GetCheapestResult(results)
  {
    FilterHeadIsFind(results, (c: ComparisonResult) => c.isCheapest);
  }

  /** `cheapestAll.length > 1`: two or more results are flagged cheapest. */
  function IsTie(results: seq<ComparisonResult>): (r: bool)
    ensures r <==> exists i, j :: 0 <= i < j < |results| && results[i].isCheapest && results[j].isCheapest
  {
    FilterHasTwo(results, (c: ComparisonResult) => c.isCheapest);
    |CheapestAll(results)| > 1
  }

  /**
   * `results.reduce((a, b) => a.totalTHB > b.totalTHB ? a : b)`: a result
   * with the largest total (see MostExpensiveIsLastMaximum for ties).
   * `reduce` without a seed fails on an empty list.
   */
  function MostExpensive(results: seq<ComparisonResult>): (r: ComparisonResult)
    requires |results| > 0
    ensures r in results
    ensures forall i :: 0 <= i < |results| ==> results[i].totalTHB <= r.totalTHB
  {
    if |results| == 1 then results[0]
    else
      var n := |results| - 1;
      var acc := MostExpensive(results[..n]);
      var b := results[n];
      assert forall i :: 0 <= i < n ==> results[..n][i] == results[i];
      if acc.totalTHB > b.totalTHB then acc else b
  }

  /** On equal totals the later result wins: nothing after the one returned reaches its total. */
  lemma {:induction false} MostExpensiveIsLastMaximum(results: seq<ComparisonResult>)
    requires |results| > 0
    ensures exists i :: (0 <= i < |results| && results[i] == MostExpensive(results)
      && forall j :: i < j < |results| ==> results[j].totalTHB < MostExpensive(results).totalTHB)
  {
    var top := MostExpensive(results);
    if |results| == 1 {
      assert results[0] == top;
    } else {
      var n := |results| - 1;
      var front := results[..n];
      MostExpensiveIsLastMaximum(front);
      var acc := MostExpensive(front);
      if acc.totalTHB > results[n].totalTHB {
        var i :| 0 <= i < n && front[i] == acc && forall j :: i < j < n ==> front[j].totalTHB < acc.totalTHB;
        assert results[i] == top;
        forall j | i < j < |results| ensures results[j].totalTHB < top.totalTHB {
          if j < n { assert results[j] == front[j]; }
        }
      } else {
        assert results[n] == top;
      }
    }
  }

  /** `cheapest ? mostExpensive.totalTHB - cheapest.totalTHB : 0`. */
  function MaxSavings(results: seq<ComparisonResult>): (r: real)
    requires |results| > 0
    ensures r >= 0.0
    ensures Cheapest(results).None? ==> r == 0.0
  {
    var cheapest := Cheapest(results);
    var mostExpensive := MostExpensive(results);
    if cheapest.Some? then mostExpensive.totalTHB - cheapest.value.totalTHB else 0.0
  }

  /**
   * What switching from the selected option to the cheapest would save:
   * only when both exist and the selected one is not itself cheapest.
   */
  function PotentialSaving(results: seq<ComparisonResult>, selectedBank: string, selectedMethod: PaymentMethod): (r: real)
    ensures r != 0.0 ==>
      && GetSelectedResult(results, selectedBank, selectedMethod).Some?
      && !GetSelectedResult(results, selectedBank, selectedMethod).value.isCheapest
      && Cheapest(results).Some?
      && r == GetSelectedResult(results, selectedBank, selectedMethod).value.totalTHB - Cheapest(results).value.totalTHB
  {
    var selected := GetSelectedResult(results, selectedBank, selectedMethod);
    var cheapest := Cheapest(results);
    var isSelectedCheapest := selected.Some? && selected.value.isCheapest;
    if selected.Some? && cheapest.Some? && !isSelectedCheapest then selected.value.totalTHB - cheapest.value.totalTHB else 0.0
  }

  /** `results.find(r => r.bank === "Cash")`. */
  function CashResult(results: seq<ComparisonResult>): (r: Option<ComparisonResult>)
    ensures r.None? <==> forall i :: 0 <= i < |results| ==> results[i].bank != "Cash"
    ensures r.Some? ==> r.value in results && r.value.bank == "Cash"
    ensures r.Some? ==> exists i :: (0 <= i < |results| && results[i] == r.value
      && forall j :: 0 <= j < i ==> results[j].bank != "Cash")
  {
    FindFirst(results, (c: ComparisonResult) => c.bank == "Cash")
  }

  /** The bank of each result, in order. */
  function BanksOf(results: seq<ComparisonResult>): (r: seq<string>)
    ensures |r| == |results|
    ensures forall i :: 0 <= i < |results| ==> r[i] == results[i].bank
  {
    seq(|results|, i requires 0 <= i < |results| => results[i].bank)
  }

  /** Results not tied to the Cash pseudo-bank. */
  function NonCash(results: seq<ComparisonResult>): (r: seq<ComparisonResult>)
    ensures forall i :: 0 <= i < |r| ==> r[i].bank != "Cash" && r[i] in results
    ensures forall i :: 0 <= i < |results| && results[i].bank != "Cash" ==> results[i] in r
  {
    Filter(results, (c: ComparisonResult) => c.bank != "Cash")
  }

  /**
   * `[...new Set(results.filter(r => r.bank !== "Cash").map(r => r.bank))]`:
   * every non-Cash bank once, in order of first appearance.
   */
  function BankNames(results: seq<ComparisonResult>): (r: seq<string>)
    ensures forall i :: 0 <= i < |r| ==> r[i] != "Cash" && exists k :: 0 <= k < |results| && results[k].bank == r[i]
    ensures forall k :: 0 <= k < |results| && results[k].bank != "Cash" ==> results[k].bank in r
    ensures forall i, j :: 0 <= i < j < |r| ==> r[i] != r[j]
  {
    var names := BanksOf(NonCash(results));
    var r := Dedup(names);
    assert forall k :: 0 <= k < |results| && results[k].bank != "Cash" ==> results[k].bank in names by {
      forall k | 0 <= k < |results| && results[k].bank != "Cash" ensures results[k].bank in names {
        var nc := NonCash(results);
        var m :| 0 <= m < |nc| && nc[m] == results[k];
        assert names[m] == results[k].bank;
      }
    }
    r
  }

  /** The bank names keep the order in which each bank first appears. */
  lemma BankNamesInFirstAppearanceOrder(results: seq<ComparisonResult>)
    ensures var names := BanksOf(NonCash(results));
      forall i, j :: 0 <= i < j < |BankNames(results)| ==>
        FirstIndex(names, BankNames(results)[i]) < FirstIndex(names, BankNames(results)[j])
  {
    DedupFirstAppearanceOrder(BanksOf(NonCash(results)));
  }

  /**
   * On engine output a cheapest result always exists, so the headline saving
   * is the spread between the largest and the smallest total, the same
   * amount every cheapest result carries as its savings.
   */
  lemma MaxSavingsOnEngineOutput(amountCNY: real, midRate: real, options: seq<FxOption>)
    requires |options| > 0
    ensures var rs := CalculateComparisons(amountCNY, midRate, options);
      && Cheapest(rs).Some?
      && MaxSavings(rs) == MaxOf(Totals(rs)) - MinOf(Totals(rs))
      && forall i :: 0 <= i < |rs| && rs[i].isCheapest ==> MaxSavings(rs) == rs[i].savings
  {
    var rs := CalculateComparisons(amountCNY, midRate, options);
    var totals := Totals(rs);
    var mx, mn := MaxOf(totals), MinOf(totals);
    CheapestIsGetCheapestResult(rs);
    CheapestResultIsMinimum(amountCNY, midRate, options);
    SavingsAreSpread(amountCNY, midRate, options);
    var top := MostExpensive(rs);
    assert top.totalTHB == mx by {
      var k :| 0 <= k < |rs| && rs[k] == top;
      assert totals[k] <= mx;
      var m :| 0 <= m < |totals| && totals[m] == mx;
      assert rs[m].totalTHB <= top.totalTHB;
    }
    var c := Cheapest(rs).value;
    assert c.totalTHB == mn;
    assert MaxSavings(rs) == mx - mn;
  }

  /**
   * On engine output the potential saving is positive exactly when the
   * selected option exists and is not cheapest, and 0 otherwise.
   */
  lemma PotentialSavingOnEngineOutput(amountCNY: real, midRate: real, options: seq<FxOption>,
                                      selectedBank: string, selectedMethod: PaymentMethod)
    requires |options| > 0
    ensures var rs := CalculateComparisons(amountCNY, midRate, options);
      var selected := GetSelectedResult(rs, selectedBank, selectedMethod);
      && PotentialSaving(rs, selectedBank, selectedMethod) >= 0.0
      && (PotentialSaving(rs, selectedBank, selectedMethod) > 0.0 <==> selected.Some? && !selected.value.isCheapest)
  {
    var rs := CalculateComparisons(amountCNY, midRate, options);
    var selected := GetSelectedResult(rs, selectedBank, selectedMethod);
    CheapestIsGetCheapestResult(rs);
    CheapestResultIsMinimum(amountCNY, midRate, options);
    CheapestIffMinimal(amountCNY, midRate, options);
    if selected.Some? && !selected.value.isCheapest {
      var s :| 0 <= s < |rs| && rs[s] == selected.value;
      var j :| 0 <= j < |rs| && rs[j].totalTHB < rs[s].totalTHB;
      assert Cheapest(rs).value.totalTHB <= Totals(rs)[j];
    }
  }
}

/**
 * The few JavaScript array operations the comparison engine and its result
 * view are built from: `find`, `filter`, `Math.min`/`Math.max` over a spread
 * array, and `[...new Set(xs)]` de-duplication.
 */
module Seqs {

  /** `undefined`/`null` versus a found value. */
  datatype Option<T> = None | Some(value: T)

  /** Index of the first element satisfying `p`, if any (the search `find` does). */
  function FindIndex<T>(xs: seq<T>, p: T -> bool): (r: Option<nat>)
    ensures r.Some? ==> r.value < |xs| && p(xs[r.value])
    ensures r.Some? ==> forall j :: 0 <= j < r.value ==> !p(xs[j])
    ensures r.None? ==> forall i :: 0 <= i < |xs| ==> !p(xs[i])
  {
    if |xs| == 0 then None
    else if p(xs[0]) then Some(0)
    else match FindIndex(xs[1..], p)
      case None => None
      case Some(k) => Some(k + 1)
  }

  /** `xs.find(p)`: the first element satisfying `p`, or nothing. */
  function FindFirst<T>(xs: seq<T>, p: T -> bool): (r: Option<T>)
    ensures r.None? <==> forall i :: 0 <= i < |xs| ==> !p(xs[i])
    ensures r.Some? ==> exists i :: 0 <= i < |xs| && xs[i] == r.value && p(xs[i]) && forall j :: 0 <= j < i ==> !p(xs[j])
    ensures forall i :: 0 <= i < |xs| && p(xs[i]) && (forall j :: 0 <= j < i ==> !p(xs[j])) ==> r == Some(xs[i])
  {
    match FindIndex(xs, p)
    case None => None
    case Some(k) => Some(xs[k])
  }

  /** `xs.filter(p)`: the elements satisfying `p`, in their original order. */
  function Filter<T>(xs: seq<T>, p: T -> bool): (r: seq<T>)
    ensures |r| <= |xs|
    ensures forall i :: 0 <= i < |r| ==> p(r[i]) && r[i] in xs
    ensures forall i :: 0 <= i < |xs| && p(xs[i]) ==> xs[i] in r
  {
    if |xs| == 0 then []
    else (if p(xs[0]) then [xs[0]] else []) + Filter(xs[1..], p)
  }

  /** Filtering commutes with concatenation, so relative order is kept. */
  lemma {:induction false} FilterAppend<T>(xs: seq<T>, ys: seq<T>, p: T -> bool)
    ensures Filter(xs + ys, p) == Filter(xs, p) + Filter(ys, p)
  {
    if |xs| == 0 {
      assert xs + ys == ys;
    } else {
      assert (xs + ys)[1..] == xs[1..] + ys;
      FilterAppend(xs[1..], ys, p);
    }
  }

  /** The head of `filter` is what `find` returns. */
  lemma {:induction false} FilterHeadIsFind<T>(xs: seq<T>, p: T -> bool)
    ensures Filter(xs, p) == [] <==> FindFirst(xs, p).None?
    ensures Filter(xs, p) != [] ==> FindFirst(xs, p) == Some(Filter(xs, p)[0])
  {
    if |xs| > 0 && !p(xs[0]) {
      FilterHeadIsFind(xs[1..], p);
    }
  }

  /** `filter` keeps more than one element iff two distinct positions satisfy `p`. */
  lemma FilterHasTwo<T>(xs: seq<T>, p: T -> bool)
    ensures |Filter(xs, p)| > 1 <==> exists i, j :: 0 <= i < j < |xs| && p(xs[i]) && p(xs[j])
  {
    forall i, j | 0 <= i < j < |xs| && p(xs[i]) && p(xs[j]) ensures |Filter(xs, p)| > 1 {
      TwoMatchesKeepTwo(xs, p, i, j);
    }
    if |Filter(xs, p)| > 1 {
      TwoKeptHaveTwoMatches(xs, p);
    }
  }

  lemma {:induction false} TwoMatchesKeepTwo<T>(xs: seq<T>, p: T -> bool, i: int, j: int)
    requires 0 <= i < j < |xs| && p(xs[i]) && p(xs[j])
    ensures |Filter(xs, p)| > 1
  {
    var tail := xs[1..];
    assert xs[j] == tail[j - 1];
    if i == 0 {
      assert tail[j - 1] in Filter(tail, p);
    } else {
      assert xs[i] == tail[i - 1];
      TwoMatchesKeepTwo(tail, p, i - 1, j - 1);
    }
  }

  lemma {:induction false} TwoKeptHaveTwoMatches<T>(xs: seq<T>, p: T -> bool)
    requires |Filter(xs, p)| > 1
    ensures exists i, j :: 0 <= i < j < |xs| && p(xs[i]) && p(xs[j])
  {
    var tail := xs[1..];
    if p(xs[0]) {
      var k :| 0 <= k < |tail| && tail[k] == Filter(tail, p)[0];
      assert p(xs[0]) && p(xs[k + 1]);
    } else {
      assert Filter(xs, p) == Filter(tail, p);
      TwoKeptHaveTwoMatches(tail, p);
      var i, j :| 0 <= i < j < |tail| && p(tail[i]) && p(tail[j]);
      assert p(xs[i + 1]) && p(xs[j + 1]);
    }
  }

  /** `Math.min(...xs)` for a non-empty `xs`. */
  function MinOf(xs: seq<real>): (r: real)
    requires |xs| > 0
    ensures r in xs
    ensures forall i :: 0 <= i < |xs| ==> r <= xs[i]
  {
    if |xs| == 1 then xs[0]
    else
      var m := MinOf(xs[1..]);
      if xs[0] <= m then xs[0] else m
  }

  /** `Math.max(...xs)` for a non-empty `xs`. */
  function MaxOf(xs: seq<real>): (r: real)
    requires |xs| > 0
    ensures r in xs
    ensures forall i :: 0 <= i < |xs| ==> xs[i] <= r
  {
    if |xs| == 1 then xs[0]
    else
      var m := MaxOf(xs[1..]);
      if xs[0] >= m then xs[0] else m
  }

  /** Position of the first occurrence of `x` in `xs`. */
  function FirstIndex<T(==)>(xs: seq<T>, x: T): (k: nat)
    requires x in xs
    ensures k < |xs| && xs[k] == x
    ensures forall j :: 0 <= j < k ==> xs[j] != x
  {
    if xs[0] == x then 0 else 1 + FirstIndex(xs[1..], x)
  }

  lemma FirstIndexInPrefix<T>(xs: seq<T>, n: nat, x: T)
    requires n <= |xs| && x in xs[..n]
    ensures FirstIndex(xs, x) == FirstIndex(xs[..n], x)
  {
    var k := FirstIndex(xs[..n], x);
    assert xs[k] == xs[..n][k];
    var k' := FirstIndex(xs, x);
    assert k' <= k;
    assert xs[..n][k'] == xs[k'];
  }

  /**
   * `[...new Set(xs)]`: each distinct element once, in order of first
   * appearance (see DedupFirstAppearanceOrder).
   */
  function Dedup<T(==)>(xs: seq<T>): (r: seq<T>)
    ensures forall i :: 0 <= i < |r| ==> r[i] in xs
    ensures forall i :: 0 <= i < |xs| ==> xs[i] in r
    ensures forall i, j :: 0 <= i < j < |r| ==> r[i] != r[j]
  {
    if |xs| == 0 then []
    else
      var d := Dedup(xs[..|xs| - 1]);
      if xs[|xs| - 1] in d then d else d + [xs[|xs| - 1]]
  }

  /** The kept elements appear in the order of their first occurrence in `xs`. */
  lemma {:induction false} DedupFirstAppearanceOrder<T>(xs: seq<T>)
    ensures forall i, j :: 0 <= i < j < |Dedup(xs)| ==> FirstIndex(xs, Dedup(xs)[i]) < FirstIndex(xs, Dedup(xs)[j])
  {
    if |xs| > 0 {
      var n := |xs| - 1;
      var front := xs[..n];
      var d := Dedup(front);
      DedupFirstAppearanceOrder(front);
      forall i | 0 <= i < |d|
        ensures FirstIndex(xs, d[i]) == FirstIndex(front, d[i]) < n
      {
        FirstIndexInPrefix(xs, n, d[i]);
      }
      if xs[n] !in d {
        var k := FirstIndex(xs, xs[n]);
        assert forall i :: 0 <= i < n ==> xs[i] == front[i];
        assert k == n;
        var r := d + [xs[n]];
        assert Dedup(xs) == r;
        forall i, j | 0 <= i < j < |r|
          ensures FirstIndex(xs, r[i]) < FirstIndex(xs, r[j])
        {
          if j < |d| {
            assert r[i] == d[i] && r[j] == d[j];
          } else {
            assert r[i] == d[i] && r[j] == xs[n];
          }
        }
      }
    }
  }
}

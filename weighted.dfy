/**
 * The weighted aggregation used by every level of the engine:
 * `WeightedValue`, Python's left-to-right `sum`, `_weighted_average`
 * and the plain mean of the level-4 `simple` and `last_assessment` methods.
 */
module Weighted {
  import opened Wrappers
  import opened Rounding

  /** One (value, weight) pair of an average. */
  datatype WeightedValue = WeightedValue(value: real, weight: real) {
    /** The pair's share of the numerator: value times weight. */
    function Contribution(): real {
      value * weight
    }
  }

  /** `sum(wv.contribution() for wv in wvs)`: a left fold from 0. */
  function TotalContribution(wvs: seq<WeightedValue>): real {
    if wvs == [] then 0.0
    else TotalContribution(wvs[..|wvs| - 1]) + wvs[|wvs| - 1].Contribution()
  }

  /** `sum(wv.weight for wv in wvs)`: a left fold from 0. */
  function TotalWeight(wvs: seq<WeightedValue>): real {
    if wvs == [] then 0.0
    else TotalWeight(wvs[..|wvs| - 1]) + wvs[|wvs| - 1].weight
  }

  /**
   * `_weighted_average`: no result for an empty list or a zero total weight,
   * otherwise the exact quotient of the totals rounded to cents.
   */
  function WeightedAverage(wvs: seq<WeightedValue>): (r: Option<real>)
    ensures r.None? <==> |wvs| == 0 || TotalWeight(wvs) == 0.0
    ensures r.Some? ==> OnCentGrid(r.value)
    ensures r.Some? ==> var exact := TotalContribution(wvs) / TotalWeight(wvs);
                        && (0.0 <= exact ==> exact - 0.005 < r.value <= exact + 0.005)
                        && (exact < 0.0 ==> exact - 0.005 <= r.value < exact + 0.005)
  {
    if |wvs| == 0 then None
    else
      var totalWeighted := TotalContribution(wvs);
      var totalWeight := TotalWeight(wvs);
      if totalWeight == 0.0 then None
      else Some(RoundHalfUp2(totalWeighted / totalWeight))
  }

  /** `sum(values)`: a left fold from 0. */
  function Sum(values: seq<real>): real {
    if values == [] then 0.0 else Sum(values[..|values| - 1]) + values[|values| - 1]
  }

  /** `sum(values) / len(values)`, exact (the engine does not round it). */
  function Mean(values: seq<real>): (r: real)
    requires |values| > 0
    ensures (forall i :: 0 <= i < |values| ==> values[i] >= 0.0) ==> r >= 0.0
  {
    SumNonNegative(values);
    Sum(values) / |values| as real
  }

  lemma {:induction false} SumNonNegative(values: seq<real>)
    ensures (forall i :: 0 <= i < |values| ==> values[i] >= 0.0) ==> Sum(values) >= 0.0
  {
    if values != [] {
      SumNonNegative(values[..|values| - 1]);
    }
  }

  /** Every value lies in [lo, hi] and every weight is non-negative. */
  predicate Bounded(wvs: seq<WeightedValue>, lo: real, hi: real) {
    forall i :: 0 <= i < |wvs| ==> 0.0 <= wvs[i].weight && lo <= wvs[i].value <= hi
  }

  /** With non-negative weights the numerator lies between lo and hi times the total weight. */
  lemma {:induction false} TotalContributionBounds(wvs: seq<WeightedValue>, lo: real, hi: real)
    requires Bounded(wvs, lo, hi)
    ensures lo * TotalWeight(wvs) <= TotalContribution(wvs) <= hi * TotalWeight(wvs)
    ensures 0.0 <= TotalWeight(wvs)
  {
    if wvs != [] {
      var init, last := wvs[..|wvs| - 1], wvs[|wvs| - 1];
      assert Bounded(init, lo, hi);
      TotalContributionBounds(init, lo, hi);
      assert lo * last.weight <= last.Contribution() <= hi * last.weight by {
        MultiplyNonNegative(last.value - lo, last.weight);
        MultiplyNonNegative(hi - last.value, last.weight);
      }
      Distribute(lo, TotalWeight(init), last.weight);
      Distribute(hi, TotalWeight(init), last.weight);
    }
  }

  lemma Distribute(k: real, a: real, b: real)
    ensures k * (a + b) == k * a + k * b
  {
  }

  lemma AddDivided(a: real, b: real, d: real)
    requires d != 0.0
    ensures a / d + b / d == (a + b) / d
  {
  }

  lemma MultiplyNonNegative(a: real, b: real)
    requires 0.0 <= a && 0.0 <= b
    ensures 0.0 <= a * b
  {
  }

  /**
   * A weighted average of values in [lo, hi] with non-negative weights stays
   * in [lo, hi] when the bounds are whole cents: rounding cannot leave the range.
   */
  lemma {:induction false} WeightedAverageWithinBounds(wvs: seq<WeightedValue>, lo: real, hi: real)
    requires Bounded(wvs, lo, hi) && OnCentGrid(lo) && OnCentGrid(hi)
    requires TotalWeight(wvs) != 0.0
    ensures WeightedAverage(wvs).Some?
    ensures lo <= WeightedAverage(wvs).value <= hi
  {
    var exact := TotalContribution(wvs) / TotalWeight(wvs);
    ExactAverageWithinBounds(wvs, lo, hi);
    assert WeightedAverage(wvs).value == RoundHalfUp2(exact);
    RoundHalfUp2Monotone(lo, exact);
    RoundHalfUp2Monotone(exact, hi);
    RoundHalfUp2OnGrid(lo);
    RoundHalfUp2OnGrid(hi);
  }

  /** The unrounded quotient of the totals lies in [lo, hi]. */
  lemma ExactAverageWithinBounds(wvs: seq<WeightedValue>, lo: real, hi: real)
    requires Bounded(wvs, lo, hi)
    requires TotalWeight(wvs) != 0.0
    ensures lo <= TotalContribution(wvs) / TotalWeight(wvs) <= hi
  {
    TotalContributionBounds(wvs, lo, hi);
    QuotientBounds(TotalContribution(wvs), TotalWeight(wvs), lo, hi);
  }

  /** A quotient by a positive `w` of a value between `lo * w` and `hi * w` lies in [lo, hi]. */
  lemma QuotientBounds(c: real, w: real, lo: real, hi: real)
    requires 0.0 < w && lo * w <= c <= hi * w
    ensures lo <= c / w <= hi
  {
    var q := c / w;
    assert q * w == c;
    DivideBounds(lo, q, hi, w);
  }

  lemma DivideBounds(lo: real, x: real, hi: real, w: real)
    requires 0.0 < w && lo * w <= x * w <= hi * w
    ensures lo <= x <= hi
  {
    assert (x - lo) * w >= 0.0;
    assert (hi - x) * w >= 0.0;
  }

  /** The same values with every weight divided by `d`, as level 2 does with `bobot_persen / 100`. */
  predicate WeightsDividedBy(scaled: seq<WeightedValue>, wvs: seq<WeightedValue>, d: real)
    requires d != 0.0
  {
    |scaled| == |wvs| &&
    forall i :: 0 <= i < |wvs| ==> scaled[i].value == wvs[i].value && scaled[i].weight == wvs[i].weight / d
  }

  lemma {:induction false} TotalsDividedBy(scaled: seq<WeightedValue>, wvs: seq<WeightedValue>, d: real)
    requires d != 0.0 && WeightsDividedBy(scaled, wvs, d)
    ensures TotalWeight(scaled) == TotalWeight(wvs) / d
    ensures TotalContribution(scaled) == TotalContribution(wvs) / d
  {
    if wvs != [] {
      var n := |wvs| - 1;
      assert WeightsDividedBy(scaled[..n], wvs[..n], d);
      TotalsDividedBy(scaled[..n], wvs[..n], d);
      assert scaled[n].Contribution() == wvs[n].Contribution() / d by {
        assert scaled[n].value * (wvs[n].weight / d) == (wvs[n].value * wvs[n].weight) / d;
      }
      assert TotalWeight(scaled) == TotalWeight(scaled[..n]) + scaled[n].weight;
      assert TotalContribution(scaled) == TotalContribution(scaled[..n]) + scaled[n].Contribution();
      AddDivided(TotalWeight(wvs[..n]), wvs[n].weight, d);
      AddDivided(TotalContribution(wvs[..n]), wvs[n].Contribution(), d);
    }
  }

  /**
   * Dividing every weight by the same positive constant does not change the
   * average: level 2's percent-to-fraction convention and level 3's raw
   * percentages give the same results.
   */
  lemma {:induction false} WeightedAverageScaleInvariant(scaled: seq<WeightedValue>, wvs: seq<WeightedValue>, d: real)
    requires 0.0 < d && WeightsDividedBy(scaled, wvs, d)
    ensures WeightedAverage(scaled) == WeightedAverage(wvs)
  {
    TotalsDividedBy(scaled, wvs, d);
    if TotalWeight(wvs) != 0.0 {
      var c, w := TotalContribution(wvs), TotalWeight(wvs);
      assert (c / d) / (w / d) == c / w;
    }
  }

  /** The mean of values in [lo, hi] lies in [lo, hi]. */
  lemma {:induction false} MeanWithinBounds(values: seq<real>, lo: real, hi: real)
    requires |values| > 0
    requires forall i :: 0 <= i < |values| ==> lo <= values[i] <= hi
    ensures lo <= Mean(values) <= hi
  {
    SumBounds(values, lo, hi);
    var n := |values| as real;
    DivideBounds(lo, Mean(values), hi, n);
  }

  lemma {:induction false} SumBounds(values: seq<real>, lo: real, hi: real)
    requires forall i :: 0 <= i < |values| ==> lo <= values[i] <= hi
    ensures lo * |values| as real <= Sum(values) <= hi * |values| as real
  {
    if values != [] {
      SumBounds(values[..|values| - 1], lo, hi);
    }
  }
}

/** Percentiles by linear interpolation between neighbouring sorted values. */
module Percentiles {
  import opened Prelude
  import opened Ordering

  function Position(n: nat, quantile: real): real { (n - 1) as real * quantile }

  lemma PositionInRange(n: nat, quantile: real)
    requires n > 0 && 0.0 <= quantile <= 1.0
    ensures 0.0 <= Position(n, quantile) <= (n - 1) as real
    ensures 0 <= Position(n, quantile).Floor <= n - 1
  {
    NonNegativeProduct((n - 1) as real, quantile);
    NonNegativeProduct((n - 1) as real, 1.0 - quantile);
    assert (n - 1) as real * (1.0 - quantile) == (n - 1) as real - Position(n, quantile);
  }

  /** `_percentile`. */
  function Percentile(sorted: seq<real>, quantile: real): real
    requires 0.0 <= quantile <= 1.0
  {
    if sorted == [] then 0.0
    else
      PositionInRange(|sorted|, quantile);
      var position := Position(|sorted|, quantile);
      var lower := position.Floor;
      var upper := if lower + 1 <= |sorted| - 1 then lower + 1 else |sorted| - 1;
      sorted[lower] + (sorted[upper] - sorted[lower]) * (position - lower as real)
  }

  lemma Between(lo: real, hi: real, f: real)
    requires lo <= hi && 0.0 <= f <= 1.0
    ensures lo <= lo + (hi - lo) * f <= hi
  {
    NonNegativeProduct(hi - lo, f);
    NonNegativeProduct(hi - lo, 1.0 - f);
    assert (hi - lo) * (1.0 - f) == (hi - lo) - (hi - lo) * f;
  }

  /** A percentile lies between the two values it interpolates. */
  lemma PercentileBetween(sorted: seq<real>, quantile: real)
    requires sorted != [] && Sorted(sorted, RealLe) && 0.0 <= quantile <= 1.0
    ensures var lower := Position(|sorted|, quantile).Floor;
      && 0 <= lower < |sorted|
      && sorted[lower] <= Percentile(sorted, quantile)
      && (lower + 1 < |sorted| ==> Percentile(sorted, quantile) <= sorted[lower + 1])
      && (lower + 1 == |sorted| ==> Percentile(sorted, quantile) == sorted[lower])
  {
    PositionInRange(|sorted|, quantile);
    var position := Position(|sorted|, quantile);
    var lower := position.Floor;
    if lower + 1 < |sorted| {
      assert RealLe(sorted[lower], sorted[lower + 1]);
      Between(sorted[lower], sorted[lower + 1], position - lower as real);
    }
  }

  /** At its own quantile every sorted value is the percentile. */
  lemma PercentileOnGrid(sorted: seq<real>, quantile: real, k: nat)
    requires k < |sorted| && 0.0 <= quantile <= 1.0 && (|sorted| - 1) as real * quantile == k as real
    ensures Percentile(sorted, quantile) == sorted[k]
  {
    assert Position(|sorted|, quantile).Floor == k;
  }

  /** Half way between the quantiles of two neighbours it is half way between them. */
  lemma PercentileHalfway(sorted: seq<real>, quantile: real, k: nat)
    requires k + 1 < |sorted| && 0.0 <= quantile <= 1.0 && (|sorted| - 1) as real * quantile == k as real + 0.5
    ensures Percentile(sorted, quantile) == (sorted[k] + sorted[k + 1]) / 2.0
  {
    assert Position(|sorted|, quantile).Floor == k;
  }

  lemma PositionMonotone(n: nat, p: real, q: real)
    requires n > 0 && p <= q
    ensures Position(n, p) <= Position(n, q) && Position(n, p).Floor <= Position(n, q).Floor
  {
    NonNegativeProduct((n - 1) as real, q - p);
    assert (n - 1) as real * (q - p) == Position(n, q) - Position(n, p);
  }

  lemma SameSegment(lo: real, hi: real, f: real, g: real)
    requires lo <= hi && f <= g
    ensures lo + (hi - lo) * f <= lo + (hi - lo) * g
  {
    NonNegativeProduct(hi - lo, g - f);
    assert (hi - lo) * (g - f) == (hi - lo) * g - (hi - lo) * f;
  }

  /** Higher quantiles give higher percentiles, also across interpolation boundaries. */
  lemma PercentileMonotone(sorted: seq<real>, p: real, q: real)
    requires Sorted(sorted, RealLe) && 0.0 <= p <= q <= 1.0
    ensures Percentile(sorted, p) <= Percentile(sorted, q)
  {
    if sorted != [] {
      var n := |sorted|;
      PercentileBetween(sorted, p);
      PercentileBetween(sorted, q);
      PositionMonotone(n, p, q);
      var lp, lq := Position(n, p).Floor, Position(n, q).Floor;
      if lp < lq {
        assert lp + 1 == lq || RealLe(sorted[lp + 1], sorted[lq]);
      } else if lp + 1 < n {
        assert RealLe(sorted[lp], sorted[lp + 1]);
        NonNegativeProduct(sorted[lp + 1] - sorted[lp], Position(n, q) - Position(n, p));
        SameSegment(sorted[lp], sorted[lp + 1], Position(n, p) - lp as real, Position(n, q) - lp as real);
      }
    }
  }

  lemma PercentileRange(sorted: seq<real>, q: real)
    requires sorted != [] && Sorted(sorted, RealLe) && 0.0 <= q <= 1.0
    ensures sorted[0] <= Percentile(sorted, q) <= sorted[|sorted| - 1]
  {
    PercentileBetween(sorted, q);
    var lower := Position(|sorted|, q).Floor;
    assert lower == 0 || RealLe(sorted[0], sorted[lower]);
    assert lower + 1 >= |sorted| - 1 || RealLe(sorted[lower + 1], sorted[|sorted| - 1]);
  }
}

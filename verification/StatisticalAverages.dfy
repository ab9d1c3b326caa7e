/** What the running averages of the detector are averages of, what its scores standardise, and
    one series in full. */
module StatisticalAverages {
  import opened Prelude
  import opened Ordering
  import opened Aggregates
  import opened Contracts
  import opened Statistical

  // ---------- weighted sums ----------

  function Power(x: real, n: nat): real { if n == 0 then 1.0 else x * Power(x, n - 1) }

  /** The weight of value `k` of `n`: each new value counts `alpha`, and everything before it
      is scaled down by the rest. */
  function WeightOf(alpha: real, n: nat, k: nat): real
    requires k < n
  {
    (if k == 0 then 1.0 else alpha) * Power(1.0 - alpha, n - 1 - k)
  }

  function Terms(alpha: real, ys: seq<real>): (r: seq<real>)
    ensures |r| == |ys|
  {
    seq(|ys|, k requires 0 <= k < |ys| => WeightOf(alpha, |ys|, k) * ys[k])
  }

  /** The exponentially weighted average of `ys`, newest last. */
  function Weighted(alpha: real, ys: seq<real>): real { Sum(Terms(alpha, ys)) }

  lemma {:induction false} SumScaled(xs: seq<real>, ys: seq<real>, c: real)
    requires |xs| == |ys| && forall k :: 0 <= k < |xs| ==> ys[k] == c * xs[k]
    ensures Sum(ys) == c * Sum(xs)
  {
    if xs != [] {
      SumScaled(xs[..|xs| - 1], ys[..|ys| - 1], c);
    }
  }

  lemma Reorder(a: real, b: real, c: real)
    ensures a * (b * c) == b * (a * c)
  {
  }

  lemma WeightShrinks(alpha: real, n: nat, k: nat)
    requires k < n
    ensures WeightOf(alpha, n + 1, k) == (1.0 - alpha) * WeightOf(alpha, n, k)
  {
    assert n - k == 1 + (n - 1 - k);
    Reorder(if k == 0 then 1.0 else alpha, 1.0 - alpha, Power(1.0 - alpha, n - 1 - k));
  }

  lemma Regroup(a: real, b: real, c: real)
    ensures a * b * c == a * (b * c)
  {
  }

  lemma TermShrinks(alpha: real, rest: real, ys: seq<real>, y: real, k: nat)
    requires k < |ys| && rest == 1.0 - alpha
    ensures Terms(alpha, ys + [y])[k] == rest * Terms(alpha, ys)[k]
  {
    WeightShrinks(alpha, |ys|, k);
    Regroup(rest, WeightOf(alpha, |ys|, k), ys[k]);
  }

  lemma OldTerms(alpha: real, rest: real, ys: seq<real>, y: real, old_: seq<real>, new_: seq<real>)
    requires rest == 1.0 - alpha && old_ == Terms(alpha, ys) && new_ == Terms(alpha, ys + [y])[..|ys|]
    ensures Sum(new_) == rest * Sum(old_)
  {
    forall k | 0 <= k < |ys| ensures new_[k] == rest * old_[k] { TermShrinks(alpha, rest, ys, y, k); }
    SumScaled(old_, new_, rest);
  }

  lemma NewTerm(alpha: real, ys: seq<real>, y: real)
    requires ys != []
    ensures Terms(alpha, ys + [y])[|ys|] == alpha * y
  {
    assert WeightOf(alpha, |ys| + 1, |ys|) == alpha * 1.0;
  }

  lemma SumOfMore(xs: seq<real>, n: nat)
    requires |xs| == n + 1
    ensures Sum(xs) == Sum(xs[..n]) + xs[n]
  {
  }

  /** One more value: it counts `alpha`, and what was there counts the rest. */
  lemma OneMoreValue(alpha: real, ys: seq<real>, y: real)
    requires ys != []
    ensures Weighted(alpha, ys + [y]) == alpha * y + (1.0 - alpha) * Weighted(alpha, ys)
  {
    var n, terms := |ys|, Terms(alpha, ys + [y]);
    SumOfMore(terms, n);
    NewTerm(alpha, ys, y);
    OldTerms(alpha, 1.0 - alpha, ys, y, Terms(alpha, ys), terms[..n]);
  }

  lemma OneMoreBlends(alpha: real, ys: seq<real>, y: real)
    requires ys != []
    ensures Weighted(alpha, ys + [y]) == Blend(alpha, y, Weighted(alpha, ys))
  {
    OneMoreValue(alpha, ys, y);
  }

  lemma OneValue(alpha: real, y: real)
    ensures Weighted(alpha, [y]) == y
  {
    var terms := Terms(alpha, [y]);
    assert WeightOf(alpha, 1, 0) == 1.0 * 1.0;
    assert terms[0] == y;
    SumOfMore(terms, 0);
  }

  // ---------- the two running averages ----------

  /** The values the baseline average takes in: the first as it is, the others clipped. */
  function TakenIn(xs: seq<real>, center: real, scale: real): (r: seq<real>)
    requires xs != []
    ensures |r| == |xs|
  {
    seq(|xs|, k requires 0 <= k < |xs| => if k == 0 then xs[0] else Clip(xs[k], center, scale))
  }

  /** The baseline average is the weighted average of what it took in. */
  lemma {:induction false} SmoothIsWeighted(alpha: real, xs: seq<real>, center: real, scale: real)
    requires xs != []
    ensures Smooth(MixOf(alpha), xs, center, scale) == Weighted(alpha, TakenIn(xs, center, scale))
  {
    var taken := TakenIn(xs, center, scale);
    if |xs| == 1 {
      assert taken == [xs[0]];
      OneValue(alpha, xs[0]);
    } else {
      var k := |xs| - 1;
      var init, last := xs[..k], Clip(xs[k], center, scale);
      SmoothIsWeighted(alpha, init, center, scale);
      assert xs[..k + 1] == xs;
      SmoothStep(alpha, xs, k, center, scale);
      assert taken == TakenIn(init, center, scale) + [last];
      OneMoreBlends(alpha, TakenIn(init, center, scale), last);
    }
  }

  /** The values the incident average takes in after the baseline. */
  function After(b: Baseline, xs: seq<Sample>): seq<real> { [b.ewma] + Map(xs, ValueOf) }

  /** The average an incident sample is judged against is the weighted average of the
      baseline's and of the samples before it. */
  lemma {:induction false} RunningIsWeighted(alpha: real, b: Baseline, xs: seq<Sample>)
    ensures Running(MixOf(alpha), b, xs) == Weighted(alpha, After(b, xs))
  {
    if xs == [] {
      OneValue(alpha, b.ewma);
      assert After(b, xs) == [b.ewma];
    } else {
      var k := |xs| - 1;
      var init, last := xs[..k], xs[k];
      RunningIsWeighted(alpha, b, init);
      assert xs[..k + 1] == xs && xs == init + [last];
      RunningStep(alpha, b, xs, k);
      MapAppend(init, [last], ValueOf);
      assert After(b, xs) == After(b, init) + [ValueOf(last)];
      OneMoreBlends(alpha, After(b, init), ValueOf(last));
    }
  }

  lemma Spread(a: real, y: real, d: real)
    ensures a * (y + d) == a * y + a * d
  {
  }

  /** Raising the last value raises a weighted average by exactly `alpha` times as much. */
  lemma LastCountsAlpha(alpha: real, ys: seq<real>, y: real, d: real)
    requires ys != []
    ensures Weighted(alpha, ys + [y + d]) == Weighted(alpha, ys + [y]) + alpha * d
  {
    var kept := (1.0 - alpha) * Weighted(alpha, ys);
    assert Weighted(alpha, ys + [y]) == alpha * y + kept by { OneMoreValue(alpha, ys, y); }
    assert Weighted(alpha, ys + [y + d]) == alpha * (y + d) + kept by { OneMoreValue(alpha, ys, y + d); }
    Spread(alpha, y, d);
  }

  // ---------- clipping and standardising ----------

  /** Differences this small count as none. */
  function Negligible(center: real): real {
    var size := if center < 0.0 then -center else center;
    if size <= 0.001 then 0.000000000001 else size / 1000000000.0
  }

  /** A clipped value lies within three scales of the centre and moved no further than it had
      to; without a scale it is the value itself, or the centre if they are as good as equal. */
  predicate IsClipped(v: real, x: real, center: real, scale: real) {
    if scale > Negligible(center) then
      && center - 3.0 * scale <= v <= center + 3.0 * scale
      && (v < x ==> v == center + 3.0 * scale) && (v > x ==> v == center - 3.0 * scale)
    else if -Negligible(center) <= x - center <= Negligible(center) then v == center
    else v == x
  }

  lemma ClipSays(x: real, center: real, scale: real)
    ensures IsClipped(Clip(x, center, scale), x, center, scale)
  {
    assert Tolerance(center) == Negligible(center);
  }

  /** A standardised value is the difference from the centre in units of the scale, or of the
      fallback, and six in its direction when there is no unit. */
  predicate IsStandardized(z: real, value: real, center: real, scale: real, fallback: real) {
    var unit := if scale > Negligible(center) then scale else fallback;
    if -Negligible(center) <= value - center <= Negligible(center) then z == 0.0
    else if unit > Negligible(center) then z * unit == value - center
    else z == if value > center then 6.0 else -6.0
  }

  lemma StandardizedSays(value: real, center: real, scale: real, fallback: real)
    ensures IsStandardized(Standardized(value, center, scale, fallback), value, center, scale, fallback)
  {
    assert Tolerance(center) == Negligible(center);
  }

  function Farthest(r: Row): real { Max(Max(Abs(r.robust), Abs(r.standard)), Abs(r.ewma)) }

  /** Row `i` of an incident: sample `i`, judged against the median, the mean and the weighted
      average of everything before it; its score is the largest of the three over six, at most one. */
  predicate Judges(r: Row, alpha: real, b: Baseline, xs: seq<Sample>, i: nat)
    requires i < |xs|
  {
    var value := ValueOf(xs[i]);
    var robust := 1.4826 * b.mad;
    && r.at == xs[i].at && r.value == value
    && IsStandardized(r.robust, value, b.median, robust, b.deviation)
    && IsStandardized(r.standard, value, b.mean, b.deviation, robust)
    && IsStandardized(r.ewma, value, Weighted(alpha, After(b, xs[..i])), if robust > 0.0 then robust else b.deviation, b.deviation)
    && r.score <= 1.0 && (r.score < 1.0 ==> 6.0 * r.score == Farthest(r)) && (r.score == 1.0 ==> Farthest(r) >= 6.0)
  }

  lemma RowJudges(alpha: real, b: Baseline, xs: seq<Sample>, i: nat, ewma: real)
    requires i < |xs| && ewma == Weighted(alpha, After(b, xs[..i]))
    ensures Judges(RowOf(b, ewma, xs[i]), alpha, b, xs, i)
  {
    var v := ValueOf(xs[i]);
    StandardizedSays(v, b.median, RobustScale(b), b.deviation);
    StandardizedSays(v, b.mean, b.deviation, RobustScale(b));
    StandardizedSays(v, ewma, FallbackScale(b), b.deviation);
  }

  lemma {:induction false} RowsJudge(alpha: real, b: Baseline, xs: seq<Sample>, i: nat)
    requires i < |xs|
    ensures Judges(Rows(MixOf(alpha), b, xs)[i], alpha, b, xs, i)
  {
    var init := xs[..|xs| - 1];
    if i == |xs| - 1 {
      RunningIsWeighted(alpha, b, init);
      RowJudges(alpha, b, xs, i, Running(MixOf(alpha), b, init));
    } else {
      RowsJudge(alpha, b, init, i);
      assert init[..i] == xs[..i];
    }
  }

  // ---------- mean and median ----------

  predicate IsMean(mean: real, xs: seq<real>) { mean * |xs| as real == Sum(xs) }

  lemma MeanIsMean(xs: seq<real>)
    requires xs != []
    ensures IsMean(Mean(xs), xs)
  {
  }

  lemma MiddleSplits(s: seq<real>, m: real)
    requires s != [] && Sorted(s, RealLe) && m == MiddleOf(s)
    ensures forall k :: |s| / 2 <= k < |s| ==> s[k] >= m
    ensures forall k :: 0 <= k < (|s| + 1) / 2 ==> s[k] <= m
  {
    var n := |s|;
    assert n % 2 == 0 ==> RealLe(s[n / 2 - 1], s[n / 2]);
    forall k | n / 2 <= k < n ensures s[k] >= m { assert k == n / 2 || RealLe(s[n / 2], s[k]); }
    forall k | 0 <= k < (n + 1) / 2 ensures s[k] <= m { assert k == (n - 1) / 2 || RealLe(s[k], s[(n - 1) / 2]); }
  }

  lemma SortedCounts(xs: seq<real>, p: real -> bool)
    ensures |Sort(xs, RealLe)| == |xs| && |Filter(xs, p)| == |Filter(Sort(xs, RealLe), p)|
  {
    SortPermutes(xs, RealLe);
    SamePermutation(Sort(xs, RealLe), xs);
    FilterPermutation(Sort(xs, RealLe), xs, p);
    SamePermutation(Filter(Sort(xs, RealLe), p), Filter(xs, p));
  }

  /** At most half of the values are below the median, and at most half above it. */
  lemma MedianSplits(xs: seq<real>)
    requires xs != []
    ensures 2 * |Filter(xs, Below(Median(xs)))| <= |xs|
    ensures 2 * |Filter(xs, Above(Median(xs)))| <= |xs|
  {
    var s, m := Sort(xs, RealLe), Median(xs);
    SortedCounts(xs, Below(m));
    SortedCounts(xs, Above(m));
    SortSorted(xs, RealLe);
    MiddleSplits(s, m);
    SuffixCount(s, Below(m), |s| / 2);
    PrefixNone(s, Above(m), (|s| + 1) / 2);
  }

  // ---------- samples in time ----------

  function FiniteAt(t: Time): Sample -> bool { (x: Sample) => x.reading.Finite? && x.at == t }

  function SampledAt(t: Time): Sample -> bool { (x: Sample) => x.at == t }

  lemma {:induction false} SortedFilter(sorted: seq<Sample>, p: Sample -> bool)
    requires Sorted(sorted, Earlier)
    ensures Sorted(Filter(sorted, p), Earlier)
  {
    if sorted != [] {
      SortedFilter(sorted[1..], p);
      FilterMembers(sorted[1..], p);
      var rest := Filter(sorted[1..], p);
      forall j | 0 <= j < |rest| ensures Earlier(sorted[0], rest[j]) {
        assert rest[j] in rest;
        var k :| 0 <= k < |sorted[1..]| && sorted[1..][k] == rest[j];
        assert sorted[k + 1] == rest[j];
      }
    }
  }

  lemma {:induction false} FilterBoth(xs: seq<Sample>, t: Time)
    ensures Filter(Filter(xs, IsFinite), SampledAt(t)) == Filter(xs, FiniteAt(t))
  {
    if xs != [] {
      FilterBoth(xs[1..], t);
    }
  }

  /** The finite samples, by time, and in the order they came in where times are equal. */
  lemma InTimeSays(samples: seq<Sample>, t: Time)
    ensures forall i :: 0 <= i < |InTime(samples)| ==> InTime(samples)[i].reading.Finite?
    ensures forall i, j :: 0 <= i < j < |InTime(samples)| ==> InTime(samples)[i].at <= InTime(samples)[j].at
    ensures Filter(InTime(samples), SampledAt(t)) == Filter(samples, FiniteAt(t))
  {
    var sorted := Sort(samples, Earlier);
    FilterMembers(sorted, IsFinite);
    SortSorted(samples, Earlier);
    SortedFilter(sorted, IsFinite);
    forall i | 0 <= i < |InTime(samples)| ensures InTime(samples)[i].reading.Finite? { assert InTime(samples)[i] in InTime(samples); }
    SortStable(samples, Earlier, FiniteAt(t));
    FilterBoth(sorted, t);
  }

  // ---------- the whole outcome ----------

  /** `v` is the largest of what `of` gives for the rows. */
  predicate LargestOf(v: real, rows: seq<Row>, of: Row -> real) {
    (exists i :: 0 <= i < |rows| && of(rows[i]) == v) && forall i :: 0 <= i < |rows| ==> of(rows[i]) <= v
  }

  /** The row a peak is: none scores more, and none that scores as much is earlier. */
  predicate IsPeak(o: Outcome, rows: seq<Row>, i: nat)
    requires i < |rows|
  {
    && o.score == rows[i].score && o.peakAt == rows[i].at && o.peakValue == rows[i].value
    && (o.direction.High? <==> rows[i].value >= o.baseline.median)
    && forall j :: 0 <= j < |rows| ==>
         rows[j].score < o.score || (rows[j].score == o.score && rows[j].at >= o.peakAt)
  }

  lemma {:induction false} PeakIndex(rows: seq<Row>) returns (i: nat)
    requires rows != []
    ensures i < |rows| && rows[i] == Peak(rows)
    ensures forall j :: 0 <= j < |rows| ==> !Outranks(rows[j], rows[i])
  {
    var n := |rows| - 1;
    if n == 0 {
      i := 0;
    } else {
      i := PeakIndex(rows[..n]);
      if Outranks(rows[n], rows[i]) { i := n; }
    }
  }

  lemma MaximumOfRows(values: seq<real>, rows: seq<Row>, of: Row -> real)
    requires rows != [] && |values| == |rows| && forall i :: 0 <= i < |rows| ==> values[i] == of(rows[i])
    ensures LargestOf(MaxOf(values, 0.0), rows, of)
  {
    MaxOfIsMax(values, 0.0);
    var k :| 0 <= k < |values| && values[k] == MaxOf(values, 0.0);
    forall i | 0 <= i < |rows| ensures of(rows[i]) <= MaxOf(values, 0.0) { assert values[i] in values; }
  }

  function RobustSize(): Row -> real { (r: Row) => Abs(r.robust) }

  function StandardSize(): Row -> real { (r: Row) => Abs(r.standard) }

  function EwmaSize(): Row -> real { (r: Row) => Abs(r.ewma) }

  function Distances(xs: seq<real>, m: real): seq<real> { seq(|xs|, k requires 0 <= k < |xs| => if xs[k] < m then m - xs[k] else xs[k] - m) }

  lemma DistancesAre(xs: seq<real>, m: real)
    ensures Distances(xs, m) == Deviations(xs, m)
  {
    var ds := Deviations(xs, m);
    forall k | 0 <= k < |xs| ensures Distances(xs, m)[k] == ds[k] {
      assert ds[k] == Abs(xs[k] - m);
      assert Distances(xs, m)[k] == if xs[k] < m then m - xs[k] else xs[k] - m;
    }
  }

  lemma MadIs(xs: seq<real>, m: real)
    requires xs != [] && m == Median(xs)
    ensures Mad(xs) == Median(Distances(xs, m))
  {
    DistancesAre(xs, m);
  }

  /** What the baseline of an outcome says about the samples `xs`. */
  predicate SumsUp(b: Baseline, alpha: real, xs: seq<real>, s: real)
    requires xs != []
  {
    var robust := 1.4826 * b.mad;
    && b.count == |xs| && b.deviation == s
    && IsMean(b.mean, xs) && b.median == Median(xs) && b.mad == Median(Distances(xs, b.median))
    && b.ewma == Weighted(alpha, TakenIn(xs, b.median, if robust > 0.0 then robust else s))
  }

  lemma BaselineSumsUp(alpha: real, xs: seq<real>, s: real)
    requires xs != []
    ensures SumsUp(BaselineOf(MixOf(alpha), xs, s), alpha, xs, s)
  {
    var b := BaselineOf(MixOf(alpha), xs, s);
    assert IsMean(b.mean, xs) by { MeanIsMean(xs); }
    assert b.mad == Median(Distances(xs, b.median)) by { MadIs(xs, b.median); }
    SmoothIsWeighted(alpha, xs, b.median, Scale(b.mad, s));
  }

  predicate IsLast(rows: seq<Row>, i: nat)
    requires i < |rows|
  {
    forall j :: i < j < |rows| ==> rows[j].at != rows[i].at
  }

  /** The score at a time is that of the last row of that time. */
  ghost predicate ScoresAt(scores: map<Time, real>, rows: seq<Row>) {
    && (forall i :: 0 <= i < |rows| ==> rows[i].at in scores)
    && (forall t :: t in scores ==> exists i :: 0 <= i < |rows| && rows[i].at == t && scores[t] == rows[i].score && IsLast(rows, i))
  }

  lemma {:induction false} ScoresTell(rows: seq<Row>)
    ensures ScoresAt(ScoresByTime(rows), rows)
  {
    if rows != [] {
      var n := |rows| - 1;
      var init := rows[..n];
      ScoresTell(init);
      var scores := ScoresByTime(rows);
      forall t | t in scores
        ensures exists i :: 0 <= i < |rows| && rows[i].at == t && scores[t] == rows[i].score && IsLast(rows, i)
      {
        if t == rows[n].at {
          assert IsLast(rows, n);
        } else {
          var i :| 0 <= i < |init| && init[i].at == t && ScoresByTime(init)[t] == init[i].score && IsLast(init, i);
          assert rows[i] == init[i] && IsLast(rows, i);
        }
      }
    }
  }

  /** What an outcome says about its rows. */
  ghost predicate Reports(o: Outcome, rows: seq<Row>) {
    && (exists peak :: 0 <= peak < |rows| && IsPeak(o, rows, peak))
    && LargestOf(o.maxRobust, rows, RobustSize()) && LargestOf(o.maxStandard, rows, StandardSize())
    && LargestOf(o.maxEwma, rows, EwmaSize())
    && ScoresAt(o.scores, rows)
  }

  lemma SummaryReports(b: Baseline, rows: seq<Row>)
    requires rows != []
    ensures Reports(Summary(b, rows), rows)
  {
    var peak := PeakIndex(rows);
    assert IsPeak(Summary(b, rows), rows, peak);
    MaximumOfRows(Robusts(rows), rows, RobustSize());
    MaximumOfRows(Standards(rows), rows, StandardSize());
    MaximumOfRows(Ewmas(rows), rows, EwmaSize());
    ScoresTell(rows);
  }

  /** The outcome of a series: its baseline in numbers, and the rows it reports, each judged
      against what came before. */
  lemma ScoredSays(d: Detector, series: Series, s: real) returns (rows: seq<Row>)
    requires Scored(d, series, s).Ok?
    ensures var o, xs, incident := Scored(d, series, s).value, FiniteValues(series.baseline), InTime(series.incident);
      && |xs| >= d.minimum && |rows| == |incident| > 0
      && SumsUp(o.baseline, d.alpha, xs, s) && Reports(o, rows)
      && forall i :: 0 <= i < |rows| ==> Judges(rows[i], d.alpha, o.baseline, incident, i)
  {
    var xs, incident := FiniteValues(series.baseline), InTime(series.incident);
    var b := BaselineOf(MixOf(d.alpha), xs, s);
    rows := Rows(MixOf(d.alpha), b, incident);
    BaselineSumsUp(d.alpha, xs, s);
    SummaryReports(b, rows);
    forall i | 0 <= i < |rows| ensures Judges(rows[i], d.alpha, b, incident, i) { RowsJudge(d.alpha, b, incident, i); }
  }

  /** A series is refused exactly when it has too few finite baseline samples or, with enough of
      them, no finite incident sample. */
  lemma RefusedIff(d: Detector, series: Series, s: real)
    ensures Scored(d, series, s) == Err(TooFewBaselineSamples(d.minimum)) <==> |FiniteValues(series.baseline)| < d.minimum
    ensures Scored(d, series, s) == Err(NoIncidentSample) <==> |FiniteValues(series.baseline)| >= d.minimum && InTime(series.incident) == []
    ensures Scored(d, series, s).Ok? <==> |FiniteValues(series.baseline)| >= d.minimum && InTime(series.incident) != []
  {
  }
}

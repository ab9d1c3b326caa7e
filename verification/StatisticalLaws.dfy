/** Laws of the statistical detector: it does not care which way is up, its baseline
    average is robust against outliers, and its onset, peak and score belong together. */
module StatisticalLaws {
  import opened Prelude
  import opened Ordering
  import opened Aggregates
  import opened Contracts
  import opened Statistical

  // ---------- turning a series upside down ----------

  function Minus(x: real): real { -x }

  function Flip(x: Sample): Sample {
    match x.reading
    case Finite(v) => x.(reading := Finite(-v))
    case NonFinite => x
  }

  function Negated(series: Series): Series {
    series.(baseline := Map(series.baseline, Flip), incident := Map(series.incident, Flip))
  }

  function FlipBaseline(b: Baseline): Baseline { b.(mean := -b.mean, median := -b.median, ewma := -b.ewma) }

  function FlipRow(r: Row): Row { r.(value := -r.value, robust := -r.robust, standard := -r.standard, ewma := -r.ewma) }

  lemma {:induction false} InsertOfMap<T, U>(x: T, s: seq<T>, f: T -> U, le: (T, T) -> bool, ge: (U, U) -> bool)
    requires forall y :: y in s ==> ge(f(x), f(y)) == le(x, y)
    ensures Insert(f(x), Map(s, f), ge) == Map(Insert(x, s, le), f)
  {
    if s == [] || le(x, s[0]) {
      MapAppend([x], s, f);
    } else {
      InsertOfMap(x, s[1..], f, le, ge);
      assert Map(s, f)[1..] == Map(s[1..], f);
      MapAppend([s[0]], Insert(x, s[1..], le), f);
    }
  }

  /** Sorting commutes with a map that keeps the comparisons. */
  lemma {:induction false} SortOfMap<T(!new), U>(s: seq<T>, f: T -> U, le: (T, T) -> bool, ge: (U, U) -> bool)
    requires forall x, y :: ge(f(x), f(y)) == le(x, y)
    ensures Sort(Map(s, f), ge) == Map(Sort(s, le), f)
  {
    if s != [] {
      SortOfMap(s[1..], f, le, ge);
      assert Map(s, f)[1..] == Map(s[1..], f);
      InsertOfMap(s[0], Sort(s[1..], le), f, le, ge);
    }
  }

  lemma InTimeFlips(samples: seq<Sample>)
    ensures InTime(Map(samples, Flip)) == Map(InTime(samples), Flip)
  {
    SortOfMap(samples, Flip, Earlier, Earlier);
    FilterOfMap(Sort(samples, Earlier), Flip, IsFinite, IsFinite);
  }

  lemma ValuesFlip(samples: seq<Sample>)
    ensures FiniteValues(Map(samples, Flip)) == Map(FiniteValues(samples), Minus)
  {
    InTimeFlips(samples);
    MapSquare(InTime(samples), Flip, ValueOf, ValueOf, Minus);
  }

  // ---------- the statistics of the negated sample ----------

  lemma {:induction false} SumFlips(xs: seq<real>)
    ensures Sum(Map(xs, Minus)) == -Sum(xs)
  {
    if xs != [] {
      SumFlips(xs[..|xs| - 1]);
      assert Map(xs, Minus)[..|xs| - 1] == Map(xs[..|xs| - 1], Minus);
    }
  }

  lemma MinusQuotient(a: real, b: real)
    requires b > 0.0
    ensures (-a) / b == -(a / b)
  {
  }

  lemma MeanFlips(xs: seq<real>)
    requires xs != []
    ensures Mean(Map(xs, Minus)) == -Mean(xs)
  {
    SumFlips(xs);
    MinusQuotient(Sum(xs), |xs| as real);
  }

  lemma SquareOfMinus(x: real)
    ensures Square(-x) == Square(x)
  {
  }

  function Squares(xs: seq<real>, mean: real): seq<real> { Map(xs, x => Square(x - mean)) }

  lemma {:induction false} SquaresFlip(xs: seq<real>, mean: real)
    ensures Squares(Map(xs, Minus), -mean) == Squares(xs, mean)
  {
    if xs != [] {
      SquaresFlip(xs[1..], mean);
      assert Map(xs, Minus)[1..] == Map(xs[1..], Minus);
      SquareOfMinus(xs[0] - mean);
      assert -xs[0] - -mean == -(xs[0] - mean);
    }
  }

  lemma VarianceIs(xs: seq<real>)
    requires xs != []
    ensures Variance(xs) == Mean(Squares(xs, Mean(xs)))
  {
  }

  lemma SameVariance(xs: seq<real>, ys: seq<real>, mx: real, my: real, squares: seq<real>)
    requires xs != [] && ys != [] && Mean(xs) == mx && Mean(ys) == my
    requires Squares(xs, mx) == squares && Squares(ys, my) == squares
    ensures Variance(xs) == Variance(ys)
  {
    VarianceIs(xs);
    VarianceIs(ys);
  }

  lemma VarianceFlips(xs: seq<real>)
    requires xs != []
    ensures Variance(Map(xs, Minus)) == Variance(xs)
  {
    MeanFlips(xs);
    SquaresFlip(xs, Mean(xs));
    SameVariance(xs, Map(xs, Minus), Mean(xs), -Mean(xs), Squares(xs, Mean(xs)));
  }

  function Reverse(xs: seq<real>): seq<real> { if xs == [] then [] else Reverse(xs[1..]) + [xs[0]] }

  lemma {:induction false} ReverseAt(xs: seq<real>)
    ensures |Reverse(xs)| == |xs|
    ensures forall k :: 0 <= k < |xs| ==> Reverse(xs)[k] == xs[|xs| - 1 - k]
  {
    if xs != [] {
      ReverseAt(xs[1..]);
    }
  }

  lemma {:induction false} ReversePermutes(xs: seq<real>)
    ensures Permutation(Reverse(xs), xs)
  {
    if xs != [] {
      ReversePermutes(xs[1..]);
      TailMultiset(xs);
    }
  }

  lemma SortFlips(xs: seq<real>)
    ensures Sort(Map(xs, Minus), RealLe) == Map(Reverse(Sort(xs, RealLe)), Minus)
  {
    var s := Sort(xs, RealLe);
    var r := Map(Reverse(s), Minus);
    SortSorted(xs, RealLe);
    SortPermutes(xs, RealLe);
    ReverseAt(s);
    ReversePermutes(s);
    MapPermutation(Reverse(s), s, Minus);
    MapPermutation(s, xs, Minus);
    SortSorted(Map(xs, Minus), RealLe);
    SortPermutes(Map(xs, Minus), RealLe);
    forall i, j | 0 <= i < j < |r| ensures RealLe(r[i], r[j]) {
      assert RealLe(s[|s| - 1 - j], s[|s| - 1 - i]);
    }
    SortedUnique(Sort(Map(xs, Minus), RealLe), r, RealLe);
  }

  lemma MiddleOfReverse(s: seq<real>)
    requires s != []
    ensures |Reverse(s)| == |s|
    ensures MiddleOf(Map(Reverse(s), Minus)) == -MiddleOf(s)
  {
    ReverseAt(s);
    var n, r := |s|, Map(Reverse(s), Minus);
    assert r[n / 2] == -s[n - 1 - n / 2];
    if n % 2 == 1 {
      assert n - 1 - n / 2 == n / 2;
    } else {
      assert r[n / 2 - 1] == -s[n - 1 - (n / 2 - 1)];
      assert n - 1 - (n / 2 - 1) == n / 2 && n - 1 - n / 2 == n / 2 - 1;
    }
  }

  lemma MedianFlips(xs: seq<real>)
    requires xs != []
    ensures Median(Map(xs, Minus)) == -Median(xs)
  {
    SortFlips(xs);
    SortPermutes(xs, RealLe);
    MiddleOfReverse(Sort(xs, RealLe));
  }

  lemma {:induction false} DeviationsFlip(xs: seq<real>, median: real)
    ensures Deviations(Map(xs, Minus), -median) == Deviations(xs, median)
  {
    if xs != [] {
      DeviationsFlip(xs[1..], median);
      assert Abs(-xs[0] - -median) == Abs(xs[0] - median);
      assert Map(xs, Minus)[1..] == Map(xs[1..], Minus);
    }
  }

  lemma MadFlips(xs: seq<real>)
    requires xs != []
    ensures Mad(Map(xs, Minus)) == Mad(xs)
  {
    MedianFlips(xs);
    DeviationsFlip(xs, Median(xs));
  }

  // ---------- the loops of the negated sample ----------

  lemma StandardizedFlips(value: real, center: real, scale: real, fallback: real)
    ensures Standardized(-value, -center, scale, fallback) == -Standardized(value, center, scale, fallback)
  {
    var usable := if scale > Tolerance(center) then scale else fallback;
    if usable > Tolerance(center) {
      MinusQuotient(value - center, usable);
      assert -value - -center == -(value - center);
    }
  }

  lemma ClipFlips(value: real, center: real, scale: real)
    ensures Clip(-value, -center, scale) == -Clip(value, center, scale)
  {
  }

  lemma BlendFlips(alpha: real, a: real, b: real)
    ensures Blend(alpha, -a, -b) == -Blend(alpha, a, b)
  {
    assert alpha * -a == -(alpha * a);
    assert (1.0 - alpha) * -b == -((1.0 - alpha) * b);
  }

  /** Mixing negated values negates the mixture. */
  ghost predicate Odd(mix: Mix) {
    forall a, b {:trigger mix(Minus(a), Minus(b))} :: mix(Minus(a), Minus(b)) == Minus(mix(a, b))
  }

  lemma BlendIsOdd(alpha: real)
    ensures Odd(MixOf(alpha))
  {
    forall a: real, b: real ensures MixOf(alpha)(Minus(a), Minus(b)) == Minus(MixOf(alpha)(a, b)) {
      BlendFlips(alpha, a, b);
    }
  }

  lemma SmoothLast(mix: Mix, init: seq<real>, last: real, center: real, scale: real, clipped: real, e: real)
    requires init != [] && Smooth(mix, init, center, scale) == e && Clip(last, center, scale) == clipped
    ensures Smooth(mix, init + [last], center, scale) == mix(clipped, e)
  {
    assert (init + [last])[..|init|] == init;
  }

  lemma SmoothLastFlips(mix: Mix, init: seq<real>, flipped: seq<real>, last: real, center: real, scale: real, before: real) returns (e: real)
    requires Odd(mix) && init != [] && flipped != []
    requires Smooth(mix, init, center, scale) == before && Smooth(mix, flipped, -center, scale) == -before
    ensures Smooth(mix, init + [last], center, scale) == e && Smooth(mix, flipped + [-last], -center, scale) == -e
  {
    var clipped := Clip(last, center, scale);
    ClipFlips(last, center, scale);
    SmoothLast(mix, init, last, center, scale, clipped, before);
    SmoothLast(mix, flipped, -last, -center, scale, -clipped, -before);
    e := mix(clipped, before);
    assert mix(Minus(clipped), Minus(before)) == Minus(e);
  }

  lemma {:induction false} SmoothFlips(mix: Mix, xs: seq<real>, center: real, scale: real) returns (e: real)
    requires Odd(mix)
    requires xs != []
    ensures Smooth(mix, xs, center, scale) == e && Smooth(mix, Map(xs, Minus), -center, scale) == -e
    decreases |xs|
  {
    if |xs| == 1 {
      e := xs[0];
    } else {
      var init, last := xs[..|xs| - 1], xs[|xs| - 1];
      assert xs == init + [last];
      assert Map(xs, Minus) == Map(init, Minus) + [-last];
      var before := SmoothFlips(mix, init, center, scale);
      e := SmoothLastFlips(mix, init, Map(init, Minus), last, center, scale, before);
    }
  }

  lemma CentersFlip(xs: seq<real>) returns (mean: real, median: real, mad: real)
    requires xs != []
    ensures Mean(xs) == mean && Median(xs) == median && Mad(xs) == mad
    ensures Mean(Map(xs, Minus)) == -mean && Median(Map(xs, Minus)) == -median && Mad(Map(xs, Minus)) == mad
  {
    mean, median, mad := Mean(xs), Median(xs), Mad(xs);
    MeanFlips(xs);
    MedianFlips(xs);
    MadFlips(xs);
  }

  lemma BaselineFrom(mix: Mix, xs: seq<real>, n: nat, s: real, mean: real, median: real, mad: real, ewma: real)
    requires xs != [] && |xs| == n && Mean(xs) == mean && Median(xs) == median && Mad(xs) == mad
    requires Smooth(mix, xs, median, Scale(mad, s)) == ewma
    ensures BaselineOf(mix, xs, s) == Baseline(n, mean, s, median, mad, ewma)
  {
  }

  lemma MirroredBaseline(mix: Mix, xs: seq<real>, ys: seq<real>, s: real, mean: real, median: real, mad: real, ewma: real) returns (b: Baseline)
    requires xs != [] && |xs| == |ys|
    requires Mean(xs) == mean && Median(xs) == median && Mad(xs) == mad && Smooth(mix, xs, median, Scale(mad, s)) == ewma
    requires Mean(ys) == -mean && Median(ys) == -median && Mad(ys) == mad && Smooth(mix, ys, -median, Scale(mad, s)) == -ewma
    ensures BaselineOf(mix, xs, s) == b && BaselineOf(mix, ys, s) == FlipBaseline(b)
  {
    b := Baseline(|xs|, mean, s, median, mad, ewma);
    BaselineFrom(mix, xs, |xs|, s, mean, median, mad, ewma);
    BaselineFrom(mix, ys, |xs|, s, -mean, -median, mad, -ewma);
  }

  lemma BaselineFlips(mix: Mix, xs: seq<real>, s: real) returns (b: Baseline)
    requires Odd(mix)
    requires xs != []
    ensures BaselineOf(mix, xs, s) == b && BaselineOf(mix, Map(xs, Minus), s) == FlipBaseline(b)
  {
    var mean, median, mad := CentersFlip(xs);
    var ewma := SmoothFlips(mix, xs, median, Scale(mad, s));
    b := MirroredBaseline(mix, xs, Map(xs, Minus), s, mean, median, mad, ewma);
  }

  lemma DeviationFlipsTo(value: real, center: real, scale: real, fallback: real) returns (z: real)
    ensures Standardized(value, center, scale, fallback) == z && Standardized(-value, -center, scale, fallback) == -z
  {
    z := Standardized(value, center, scale, fallback);
    StandardizedFlips(value, center, scale, fallback);
  }

  lemma RowFrom(b: Baseline, average: real, x: Sample, v: real, robust: real, standard: real, ewma: real)
    requires ValueOf(x) == v
    requires Standardized(v, b.median, RobustScale(b), b.deviation) == robust
    requires Standardized(v, b.mean, b.deviation, RobustScale(b)) == standard
    requires Standardized(v, average, FallbackScale(b), b.deviation) == ewma
    ensures RowOf(b, average, x) == Row(x.at, v, Min(Magnitude(robust, standard, ewma) / SATURATION, 1.0), robust, standard, ewma)
  {
  }

  lemma RowFlips(b: Baseline, average: real, x: Sample)
    requires x.reading.Finite?
    ensures RowOf(FlipBaseline(b), -average, Flip(x)) == FlipRow(RowOf(b, average, x))
  {
    var v := ValueOf(x);
    var robust := DeviationFlipsTo(v, b.median, RobustScale(b), b.deviation);
    var standard := DeviationFlipsTo(v, b.mean, b.deviation, RobustScale(b));
    var ewma := DeviationFlipsTo(v, average, FallbackScale(b), b.deviation);
    RowFrom(b, average, x, v, robust, standard, ewma);
    RowFrom(FlipBaseline(b), -average, Flip(x), -v, -robust, -standard, -ewma);
  }

  lemma {:induction false} RunningFlips(mix: Mix, b: Baseline, xs: seq<Sample>)
    requires Odd(mix)
    requires forall x :: x in xs ==> x.reading.Finite?
    ensures Running(mix, FlipBaseline(b), Map(xs, Flip)) == -Running(mix, b, xs)
  {
    if xs != [] {
      var init, last := xs[..|xs| - 1], xs[|xs| - 1];
      RunningFlips(mix, b, init);
      assert Map(xs, Flip)[..|xs| - 1] == Map(init, Flip);
      assert mix(Minus(ValueOf(last)), Minus(Running(mix, b, init))) == Minus(mix(ValueOf(last), Running(mix, b, init)));
    }
  }

  lemma LastRowFlips(mix: Mix, b: Baseline, init: seq<Sample>, last: Sample) returns (r: Row)
    requires Odd(mix)
    requires last.reading.Finite? && forall x :: x in init ==> x.reading.Finite?
    ensures Rows(mix, b, init + [last]) == Rows(mix, b, init) + [r]
    ensures Rows(mix, FlipBaseline(b), Map(init, Flip) + [Flip(last)]) == Rows(mix, FlipBaseline(b), Map(init, Flip)) + [FlipRow(r)]
  {
    r := RowOf(b, Running(mix, b, init), last);
    assert (init + [last])[..|init|] == init;
    assert (Map(init, Flip) + [Flip(last)])[..|init|] == Map(init, Flip);
    RunningFlips(mix, b, init);
    RowFlips(b, Running(mix, b, init), last);
  }

  lemma {:induction false} RowsFlip(mix: Mix, b: Baseline, xs: seq<Sample>)
    requires Odd(mix)
    requires forall x :: x in xs ==> x.reading.Finite?
    ensures Rows(mix, FlipBaseline(b), Map(xs, Flip)) == Map(Rows(mix, b, xs), FlipRow)
    decreases |xs|
  {
    if xs != [] {
      var init, last := xs[..|xs| - 1], xs[|xs| - 1];
      assert xs == init + [last];
      RowsFlip(mix, b, init);
      MapAppend(init, [last], Flip);
      var r := LastRowFlips(mix, b, init, last);
      MapAppend(Rows(mix, b, init), [r], FlipRow);
    }
  }

  lemma OutranksFlips(a: Row, b: Row)
    ensures Outranks(FlipRow(a), FlipRow(b)) == Outranks(a, b)
  {
  }

  lemma {:induction false} PeakFlips(rows: seq<Row>)
    requires rows != []
    ensures Peak(Map(rows, FlipRow)) == FlipRow(Peak(rows))
  {
    if |rows| > 1 {
      var init, last, flipped := rows[..|rows| - 1], rows[|rows| - 1], Map(rows, FlipRow);
      PeakFlips(init);
      assert flipped[..|flipped| - 1] == Map(init, FlipRow) && flipped[|flipped| - 1] == FlipRow(last);
      OutranksFlips(last, Peak(init));
    }
  }

  lemma OnsetFlips(rows: seq<Row>)
    ensures Onset(Map(rows, FlipRow)) == Onset(rows)
  {
    FilterOfMap(rows, FlipRow, IsAnomalous, IsAnomalous);
  }

  lemma MaximaFlip(rows: seq<Row>)
    ensures Robusts(Map(rows, FlipRow)) == Robusts(rows)
    ensures Standards(Map(rows, FlipRow)) == Standards(rows)
    ensures Ewmas(Map(rows, FlipRow)) == Ewmas(rows)
  {
  }

  lemma {:induction false} ScoresFlip(rows: seq<Row>)
    ensures ScoresByTime(Map(rows, FlipRow)) == ScoresByTime(rows)
  {
    if rows != [] {
      ScoresFlip(rows[..|rows| - 1]);
      assert Map(rows, FlipRow)[..|rows| - 1] == Map(rows[..|rows| - 1], FlipRow);
    }
  }

  function Opposite(d: Direction): Direction { if d.High? then Low else High }

  /** What negating every sample does to a result: the score, the onset, the peak time, the
      three largest deviations and the whole score curve stay, and only the signed
      quantities change their sign. */
  predicate MirrorImage(o: Outcome, n: Outcome) {
    && n.score == o.score && n.onset == o.onset && n.peakAt == o.peakAt && n.scores == o.scores
    && n.maxRobust == o.maxRobust && n.maxStandard == o.maxStandard && n.maxEwma == o.maxEwma
    && n.peakValue == -o.peakValue && n.baseline == FlipBaseline(o.baseline)
    && n.direction == if o.peakValue == o.baseline.median then High else Opposite(o.direction)
  }

  lemma SummaryFlips(b: Baseline, rows: seq<Row>)
    requires rows != []
    ensures MirrorImage(Summary(b, rows), Summary(FlipBaseline(b), Map(rows, FlipRow)))
  {
    PeakFlips(rows);
    OnsetFlips(rows);
    MaximaFlip(rows);
    ScoresFlip(rows);
  }

  lemma AllFinite(samples: seq<Sample>)
    ensures forall x :: x in InTime(samples) ==> x.reading.Finite?
  {
    FilterMembers(Sort(samples, Earlier), IsFinite);
  }

  /** The deviation of the negated baseline is the deviation of the baseline. */
  lemma DeviationFlips(series: Series, s: real)
    ensures IsDeviation(s, FiniteValues(Negated(series).baseline)) == IsDeviation(s, FiniteValues(series.baseline))
  {
    ValuesFlip(series.baseline);
    if FiniteValues(series.baseline) != [] {
      VarianceFlips(FiniteValues(series.baseline));
    }
  }

  /** Drops are detected exactly as rises are. */
  lemma ScoreFlips(d: Detector, series: Series, s: real)
    ensures var o, n := Scored(d, series, s), Scored(d, Negated(series), s);
      && (o.Err? ==> n == o)
      && (o.Ok? ==> n.Ok? && MirrorImage(o.value, n.value))
  {
    var baseline, incident := FiniteValues(series.baseline), InTime(series.incident);
    ValuesFlip(series.baseline);
    InTimeFlips(series.incident);
    if |baseline| >= d.minimum && incident != [] {
      BlendIsOdd(d.alpha);
      var b := BaselineFlips(MixOf(d.alpha), baseline, s);
      AllFinite(series.incident);
      RowsFlip(MixOf(d.alpha), b, incident);
      SummaryFlips(b, Rows(MixOf(d.alpha), b, incident));
    }
  }

  // ---------- the robust baseline ----------

  lemma ClipBand(value: real, center: real, scale: real)
    requires scale > Tolerance(center)
    ensures center - 3.0 * scale <= Clip(value, center, scale) <= center + 3.0 * scale
  {
  }

  lemma Products(a: real, x: real, b: real, y: real)
    requires a >= 0.0 && x >= 0.0 && b >= 0.0 && y >= 0.0
    ensures a * x >= 0.0 && b * y >= 0.0
  {
  }

  lemma BlendBetween(alpha: real, a: real, b: real, lo: real, hi: real)
    requires 0.0 < alpha <= 1.0 && lo <= a <= hi && lo <= b <= hi
    ensures lo <= Blend(alpha, a, b) <= hi
  {
    Products(alpha, a - lo, 1.0 - alpha, b - lo);
    Products(alpha, hi - a, 1.0 - alpha, hi - b);
    assert Blend(alpha, a, b) - lo == alpha * (a - lo) + (1.0 - alpha) * (b - lo);
    assert hi - Blend(alpha, a, b) == alpha * (hi - a) + (1.0 - alpha) * (hi - b);
  }

  lemma {:induction false} MixedInHull(mix: Mix, xs: seq<real>, center: real, scale: real, lo: real, hi: real)
    requires xs != [] && scale > Tolerance(center) && forall a, b :: lo <= a <= hi && lo <= b <= hi ==> lo <= mix(a, b) <= hi
    requires lo <= xs[0] <= hi && lo <= center - 3.0 * scale && center + 3.0 * scale <= hi
    ensures lo <= Smooth(mix, xs, center, scale) <= hi
  {
    if |xs| > 1 {
      var init := xs[..|xs| - 1];
      MixedInHull(mix, init, center, scale, lo, hi);
      ClipBand(xs[|xs| - 1], center, scale);
    }
  }

  /** The baseline average stays in the hull of the first sample and the band of three
      scales around the centre, whatever the later samples are. */
  lemma SmoothInHull(alpha: real, xs: seq<real>, center: real, scale: real)
    requires xs != [] && 0.0 < alpha <= 1.0 && scale > Tolerance(center)
    ensures Min(xs[0], center - 3.0 * scale) <= Smooth(MixOf(alpha), xs, center, scale) <= Max(xs[0], center + 3.0 * scale)
  {
    var lo, hi := Min(xs[0], center - 3.0 * scale), Max(xs[0], center + 3.0 * scale);
    forall a: real, b: real | lo <= a <= hi && lo <= b <= hi ensures lo <= MixOf(alpha)(a, b) <= hi {
      BlendBetween(alpha, a, b, lo, hi);
    }
    MixedInHull(MixOf(alpha), xs, center, scale, lo, hi);
  }

  /** Equal, or beyond the same side of the band. */
  predicate SameSide(x: real, y: real, center: real, scale: real) {
    || x == y
    || (x >= center + 3.0 * scale && y >= center + 3.0 * scale)
    || (x <= center - 3.0 * scale && y <= center - 3.0 * scale)
  }

  /** How far out an outlier lies makes no difference. */
  lemma {:induction false} SmoothIgnoresOutliers(mix: Mix, xs: seq<real>, ys: seq<real>, center: real, scale: real)
    requires |xs| == |ys| && xs != [] && xs[0] == ys[0] && scale > Tolerance(center)
    requires forall k :: 0 < k < |xs| ==> SameSide(xs[k], ys[k], center, scale)
    ensures Smooth(mix, xs, center, scale) == Smooth(mix, ys, center, scale)
  {
    if |xs| > 1 {
      SmoothIgnoresOutliers(mix, xs[..|xs| - 1], ys[..|ys| - 1], center, scale);
      assert SameSide(xs[|xs| - 1], ys[|xs| - 1], center, scale);
    }
  }

  // ---------- score, onset and peak ----------

  lemma {:induction false} PeakIsFirstOfBest(rows: seq<Row>) returns (i: nat)
    requires rows != [] && forall j, k :: 0 <= j < k < |rows| ==> rows[j].at <= rows[k].at
    ensures i < |rows| && Peak(rows) == rows[i]
    ensures forall k :: 0 <= k < |rows| ==> rows[k].score <= rows[i].score
    ensures forall k :: 0 <= k < i ==> rows[k].score < rows[i].score
  {
    if |rows| == 1 {
      i := 0;
    } else {
      i := PeakIsFirstOfBest(rows[..|rows| - 1]);
      if Outranks(rows[|rows| - 1], rows[i]) {
        i := |rows| - 1;
      }
    }
  }

  lemma {:induction false} FilterSorted<T>(s: seq<T>, p: T -> bool, le: (T, T) -> bool)
    requires Sorted(s, le)
    ensures Sorted(Filter(s, p), le)
  {
    if s != [] {
      FilterSorted(s[1..], p, le);
      var rest := Filter(s[1..], p);
      forall j | 0 <= j < |rest| ensures le(s[0], rest[j]) {
        var k := FilterMember(s[1..], p, j);
        assert le(s[0], s[k + 1]);
      }
    }
  }

  lemma {:induction false} RowTimes(mix: Mix, b: Baseline, xs: seq<Sample>)
    ensures forall k :: 0 <= k < |xs| ==> Rows(mix, b, xs)[k].at == xs[k].at
  {
    if xs != [] {
      RowTimes(mix, b, xs[..|xs| - 1]);
    }
  }

  lemma RowsInTime(mix: Mix, b: Baseline, samples: seq<Sample>)
    ensures var rows := Rows(mix, b, InTime(samples));
      forall j, k :: 0 <= j < k < |rows| ==> rows[j].at <= rows[k].at
  {
    var xs := InTime(samples);
    SortSorted(samples, Earlier);
    FilterSorted(Sort(samples, Earlier), IsFinite, Earlier);
    RowTimes(mix, b, xs);
    forall j, k | 0 <= j < k < |xs| ensures xs[j].at <= xs[k].at { assert Earlier(xs[j], xs[k]); }
  }

  ghost predicate FirstAnomalous(rows: seq<Row>, k: nat) {
    k < |rows| && rows[k].score >= 0.5 && forall j :: 0 <= j < k ==> rows[j].score < 0.5
  }

  lemma {:induction false} OnsetIsFirst(rows: seq<Row>)
    ensures Onset(rows).None? ==> forall k :: 0 <= k < |rows| ==> rows[k].score < 0.5
    ensures Onset(rows).Some? ==> exists k: nat :: FirstAnomalous(rows, k) && Onset(rows).value == rows[k].at
  {
    if rows != [] {
      if IsAnomalous(rows[0]) {
        assert FirstAnomalous(rows, 0);
      } else {
        OnsetIsFirst(rows[1..]);
        if Onset(rows).Some? {
          var k: nat :| FirstAnomalous(rows[1..], k) && Onset(rows).value == rows[1..][k].at;
          assert FirstAnomalous(rows, k + 1);
        }
      }
    }
  }

  lemma OnsetOfRows(rows: seq<Row>)
    requires rows != [] && forall j, k :: 0 <= j < k < |rows| ==> rows[j].at <= rows[k].at
    ensures Onset(rows).Some? <==> Peak(rows).score >= 0.5
    ensures Onset(rows).Some? ==> Onset(rows).value <= Peak(rows).at
  {
    var i := PeakIsFirstOfBest(rows);
    OnsetIsFirst(rows);
    if Onset(rows).Some? {
      var k: nat :| FirstAnomalous(rows, k) && Onset(rows).value == rows[k].at;
      assert k <= i;
    }
  }

  /** The rows a successful result summarises. */
  lemma RowsOf(d: Detector, series: Series, s: real) returns (b: Baseline, rows: seq<Row>)
    requires Scored(d, series, s).Ok?
    ensures rows != [] && Scored(d, series, s).value == Summary(b, rows)
    ensures rows == Rows(MixOf(d.alpha), b, InTime(series.incident))
    ensures forall j, k :: 0 <= j < k < |rows| ==> rows[j].at <= rows[k].at
  {
    b := BaselineOf(MixOf(d.alpha), FiniteValues(series.baseline), s);
    rows := Rows(MixOf(d.alpha), b, InTime(series.incident));
    RowsInTime(MixOf(d.alpha), b, series.incident);
  }

  /** There is an onset exactly when the peak reaches one half, and it is never later than
      the peak. */
  lemma OnsetIff(d: Detector, series: Series, s: real)
    requires Scored(d, series, s).Ok?
    ensures var o := Scored(d, series, s).value;
      && (o.onset.Some? <==> o.score >= 0.5)
      && (o.onset.Some? ==> o.onset.value <= o.peakAt)
  {
    var b, rows := RowsOf(d, series, s);
    OnsetOfRows(rows);
  }

  predicate Saturates(r: Row) { r.score == Min(Magnitude(r.robust, r.standard, r.ewma) / SATURATION, 1.0) }

  lemma {:induction false} ScoreOfRows(mix: Mix, b: Baseline, xs: seq<Sample>)
    ensures forall k :: 0 <= k < |xs| ==> Saturates(Rows(mix, b, xs)[k])
  {
    if xs != [] {
      ScoreOfRows(mix, b, xs[..|xs| - 1]);
    }
  }

  lemma Attained(xs: seq<real>) returns (a: nat)
    requires xs != []
    ensures a < |xs| && xs[a] == MaxOf(xs, 0.0) && forall k :: 0 <= k < |xs| ==> xs[k] <= MaxOf(xs, 0.0)
  {
    MaxOfIsMax(xs, 0.0);
    forall k | 0 <= k < |xs| ensures xs[k] <= MaxOf(xs, 0.0) { assert xs[k] in xs; }
    a :| 0 <= a < |xs| && xs[a] == MaxOf(xs, 0.0);
  }

  lemma SaturationOrder(r: Row, x: real, y: real, z: real)
    requires Saturates(r) && Abs(r.robust) <= x && Abs(r.standard) <= y && Abs(r.ewma) <= z
    ensures 0.0 <= r.score <= Min(Max(Max(x, y), z) / SATURATION, 1.0)
  {
  }

  lemma BelowMagnitude(r: Row, x: real)
    requires Saturates(r) && (x == Abs(r.robust) || x == Abs(r.standard) || x == Abs(r.ewma))
    ensures Min(x / SATURATION, 1.0) <= r.score
  {
  }

  lemma SaturatedMaximum(rows: seq<Row>, i: nat)
    requires i < |rows| && forall k :: 0 <= k < |rows| ==> rows[k].score <= rows[i].score && Saturates(rows[k])
    ensures rows[i].score
      == Min(Max(Max(MaxOf(Robusts(rows), 0.0), MaxOf(Standards(rows), 0.0)), MaxOf(Ewmas(rows), 0.0)) / SATURATION, 1.0)
    ensures 0.0 <= rows[i].score <= 1.0
  {
    var x, y, z := MaxOf(Robusts(rows), 0.0), MaxOf(Standards(rows), 0.0), MaxOf(Ewmas(rows), 0.0);
    var a := Attained(Robusts(rows));
    var b := Attained(Standards(rows));
    var c := Attained(Ewmas(rows));
    assert x == Abs(rows[a].robust) && y == Abs(rows[b].standard) && z == Abs(rows[c].ewma);
    assert Robusts(rows)[i] <= x && Standards(rows)[i] <= y && Ewmas(rows)[i] <= z;
    SaturationOrder(rows[i], x, y, z);
    BelowMagnitude(rows[a], x);
    BelowMagnitude(rows[b], y);
    BelowMagnitude(rows[c], z);
    assert rows[a].score <= rows[i].score && rows[b].score <= rows[i].score && rows[c].score <= rows[i].score;
  }

  /** The reported score is the largest of the three reported deviations, saturated. */
  lemma ScoreIsSaturatedMaximum(d: Detector, series: Series, s: real)
    requires Scored(d, series, s).Ok?
    ensures var o := Scored(d, series, s).value;
      o.score == Min(Max(Max(o.maxRobust, o.maxStandard), o.maxEwma) / SATURATION, 1.0) && 0.0 <= o.score <= 1.0
  {
    var b, rows := RowsOf(d, series, s);
    var i := PeakIsFirstOfBest(rows);
    ScoreOfRows(MixOf(d.alpha), b, InTime(series.incident));
    SaturatedMaximum(rows, i);
  }
}

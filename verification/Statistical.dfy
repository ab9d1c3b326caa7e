/** The robust statistical detector: median, scaled deviations and two running averages
    turn one signal into a score, an onset and a peak. */
module Statistical {
  import opened Prelude
  import opened Ordering
  import opened Aggregates
  import opened Contracts

  const ROBUST_SCALE := 1.4826
  const SATURATION := 6.0

  /** A floating-point sample value: a number, or one of the infinities or not-a-number. */
  datatype Reading = Finite(value: real) | NonFinite

  datatype Sample = Sample(at: Time, reading: Reading)

  datatype Series = Series(service: string, signal: string, baseline: seq<Sample>, incident: seq<Sample>, references: set<string>)

  datatype Settings = Settings(alpha: real, minimum: nat)

  /** What the constructor accepts. */
  type Detector = d: Settings | 0.0 < d.alpha <= 1.0 && d.minimum >= 3 witness Settings(0.3, 8)

  datatype Direction = High | Low

  datatype Error = TooFewBaselineSamples(required: nat) | NoIncidentSample

  datatype Baseline = Baseline(count: nat, mean: real, deviation: real, median: real, mad: real, ewma: real)

  datatype Outcome = Outcome(
    score: real, direction: Direction, onset: Option<Time>, peakAt: Time, peakValue: real, maxRobust: real,
    maxStandard: real, maxEwma: real, baseline: Baseline, scores: map<Time, real>)

  // ---------- samples ----------

  predicate Earlier(a: Sample, b: Sample) { a.at <= b.at }

  predicate IsFinite(x: Sample) { x.reading.Finite? }

  function ValueOf(x: Sample): real { if x.reading.Finite? then x.reading.value else 0.0 }

  /** The finite samples in the order of time. */
  function InTime(samples: seq<Sample>): seq<Sample> { Filter(Sort(samples, Earlier), IsFinite) }

  /** `_finite_values`. */
  function FiniteValues(samples: seq<Sample>): seq<real> { Map(InTime(samples), ValueOf) }

  // ---------- the statistics library ----------

  function Mean(xs: seq<real>): real
    requires xs != []
  {
    Sum(xs) / |xs| as real
  }

  function Square(x: real): real { x * x }

  function Variance(xs: seq<real>): real
    requires xs != []
  {
    var mean := Mean(xs);
    Mean(Map(xs, x => Square(x - mean)))
  }

  /** `s` is the population standard deviation of `xs`. */
  predicate IsDeviation(s: real, xs: seq<real>) { xs != [] ==> s >= 0.0 && Square(s) == Variance(xs) }

  function MiddleOf(sorted: seq<real>): real
    requires sorted != []
  {
    var n := |sorted|;
    if n % 2 == 1 then sorted[n / 2] else (sorted[n / 2 - 1] + sorted[n / 2]) / 2.0
  }

  function Median(xs: seq<real>): real
    requires xs != []
  {
    SortPermutes(xs, RealLe);
    MiddleOf(Sort(xs, RealLe))
  }

  function Deviations(xs: seq<real>, median: real): seq<real> { Map(xs, x => Abs(x - median)) }

  function Mad(xs: seq<real>): real
    requires xs != []
  {
    Median(Deviations(xs, Median(xs)))
  }

  // ---------- standardising and clipping ----------

  function Tolerance(center: real): (t: real)
    ensures t > 0.0
  {
    Max(Abs(center) * 0.000000001, 0.000000000001)
  }

  /** `_standardized`. */
  function Standardized(value: real, center: real, scale: real, fallback: real): real {
    var difference := value - center;
    if Abs(difference) <= Tolerance(center) then 0.0
    else
      var usable := if scale > Tolerance(center) then scale else fallback;
      if usable > Tolerance(center) then difference / usable
      else if difference < 0.0 then -SATURATION
      else SATURATION
  }

  /** `_clip_for_baseline_ewma`. */
  function Clip(value: real, center: real, scale: real): real {
    if scale <= Tolerance(center) then
      if Abs(value - center) <= Tolerance(center) then center else value
    else Min(Max(value, center - 3.0 * scale), center + 3.0 * scale)
  }

  function Blend(alpha: real, new_: real, old_: real): real { alpha * new_ + (1.0 - alpha) * old_ }

  /** How a running average takes in a new value. */
  type Mix = (real, real) -> real

  function MixOf(alpha: real): Mix { (new_: real, old_: real) => Blend(alpha, new_, old_) }

  /** The exponentially weighted average of the clipped baseline. */
  function Smooth(mix: Mix, xs: seq<real>, center: real, scale: real): real
    requires xs != []
  {
    if |xs| == 1 then xs[0]
    else mix(Clip(xs[|xs| - 1], center, scale), Smooth(mix, xs[..|xs| - 1], center, scale))
  }

  // ---------- one incident ----------

  function RobustScale(b: Baseline): real { ROBUST_SCALE * b.mad }

  /** The robust scale, or the standard deviation when more than half the samples agree. */
  function Scale(mad: real, deviation: real): real {
    if ROBUST_SCALE * mad > 0.0 then ROBUST_SCALE * mad else deviation
  }

  function FallbackScale(b: Baseline): real { Scale(b.mad, b.deviation) }

  function BaselineOf(mix: Mix, xs: seq<real>, s: real): Baseline
    requires xs != []
  {
    Baseline(|xs|, Mean(xs), s, Median(xs), Mad(xs), Smooth(mix, xs, Median(xs), Scale(Mad(xs), s)))
  }

  datatype Row = Row(at: Time, value: real, score: real, robust: real, standard: real, ewma: real)

  function Magnitude(robust: real, standard: real, ewma: real): real { Max(Max(Abs(robust), Abs(standard)), Abs(ewma)) }

  function RowOf(b: Baseline, ewma: real, x: Sample): Row {
    var v := ValueOf(x);
    var robust := Standardized(v, b.median, RobustScale(b), b.deviation);
    var standard := Standardized(v, b.mean, b.deviation, RobustScale(b));
    var moving := Standardized(v, ewma, FallbackScale(b), b.deviation);
    Row(x.at, v, Min(Magnitude(robust, standard, moving) / SATURATION, 1.0), robust, standard, moving)
  }

  /** The running average after the samples `xs`, starting from the baseline's. */
  function Running(mix: Mix, b: Baseline, xs: seq<Sample>): real {
    if xs == [] then b.ewma
    else mix(ValueOf(xs[|xs| - 1]), Running(mix, b, xs[..|xs| - 1]))
  }

  /** Each sample is judged against the average of everything before it. */
  function Rows(mix: Mix, b: Baseline, xs: seq<Sample>): (rows: seq<Row>)
    ensures |rows| == |xs|
  {
    if xs == [] then []
    else
      var init := xs[..|xs| - 1];
      Rows(mix, b, init) + [RowOf(b, Running(mix, b, init), xs[|xs| - 1])]
  }

  /** The key `(score, -timestamp)`: is `b` strictly larger than `a`? */
  predicate Outranks(b: Row, a: Row) { b.score > a.score || (b.score == a.score && b.at < a.at) }

  /** `max(scored, key=...)`: the first of the largest. */
  function Peak(rows: seq<Row>): Row
    requires rows != []
  {
    var last := rows[|rows| - 1];
    if |rows| == 1 then last
    else
      var best := Peak(rows[..|rows| - 1]);
      if Outranks(last, best) then last else best
  }

  predicate IsAnomalous(r: Row) { r.score >= 0.5 }

  function Onset(rows: seq<Row>): Option<Time> {
    var anomalous := Filter(rows, IsAnomalous);
    if anomalous == [] then None else Some(anomalous[0].at)
  }

  function Robusts(rows: seq<Row>): seq<real> { Map(rows, (r: Row) => Abs(r.robust)) }

  function Standards(rows: seq<Row>): seq<real> { Map(rows, (r: Row) => Abs(r.standard)) }

  function Ewmas(rows: seq<Row>): seq<real> { Map(rows, (r: Row) => Abs(r.ewma)) }

  /** `{item[0]: item[2] for item in scored}`. */
  function ScoresByTime(rows: seq<Row>): map<Time, real> {
    if rows == [] then map[]
    else ScoresByTime(rows[..|rows| - 1])[rows[|rows| - 1].at := rows[|rows| - 1].score]
  }

  function Summary(b: Baseline, rows: seq<Row>): Outcome
    requires rows != []
  {
    var peak := Peak(rows);
    Outcome(peak.score, if peak.value >= b.median then High else Low, Onset(rows), peak.at, peak.value,
            MaxOf(Robusts(rows), 0.0), MaxOf(Standards(rows), 0.0), MaxOf(Ewmas(rows), 0.0), b, ScoresByTime(rows))
  }

  /** What the detector says about a series whose baseline has standard deviation `s`. */
  function Scored(d: Detector, series: Series, s: real): Result<Outcome, Error> {
    var baseline := FiniteValues(series.baseline);
    var incident := InTime(series.incident);
    if |baseline| < d.minimum then Err(TooFewBaselineSamples(d.minimum))
    else if incident == [] then Err(NoIncidentSample)
    else
      var b := BaselineOf(MixOf(d.alpha), baseline, s);
      Ok(Summary(b, Rows(MixOf(d.alpha), b, incident)))
  }

  // ---------- the detector as it is written ----------

  lemma SmoothStep(alpha: real, xs: seq<real>, k: nat, center: real, scale: real)
    requires 0 < k < |xs|
    ensures Smooth(MixOf(alpha), xs[..k + 1], center, scale) == Blend(alpha, Clip(xs[k], center, scale), Smooth(MixOf(alpha), xs[..k], center, scale))
  {
    assert xs[..k + 1][..k] == xs[..k];
  }

  /** The baseline loop. */
  method SmoothBaseline(alpha: real, baseline: seq<real>, median: real, scale: real) returns (ewma: real)
    requires baseline != []
    ensures ewma == Smooth(MixOf(alpha), baseline, median, scale)
  {
    ewma := baseline[0];
    var k := 1;
    while k < |baseline|
      invariant 1 <= k <= |baseline|
      invariant ewma == Smooth(MixOf(alpha), baseline[..k], median, scale)
    {
      SmoothStep(alpha, baseline, k, median, scale);
      var boundedValue := Clip(baseline[k], median, scale);
      ewma := Blend(alpha, boundedValue, ewma);
      k := k + 1;
    }
    assert baseline[..k] == baseline;
  }

  lemma RunningStep(alpha: real, b: Baseline, xs: seq<Sample>, k: nat)
    requires k < |xs|
    ensures Running(MixOf(alpha), b, xs[..k + 1]) == Blend(alpha, ValueOf(xs[k]), Running(MixOf(alpha), b, xs[..k]))
    ensures Rows(MixOf(alpha), b, xs[..k + 1]) == Rows(MixOf(alpha), b, xs[..k]) + [RowOf(b, Running(MixOf(alpha), b, xs[..k]), xs[k])]
  {
    assert xs[..k + 1][..k] == xs[..k];
  }

  /** The incident loop. */
  method ScoreIncident(alpha: real, b: Baseline, incident: seq<Sample>) returns (scored: seq<Row>)
    ensures scored == Rows(MixOf(alpha), b, incident)
  {
    var ewma := b.ewma;
    scored := [];
    for k := 0 to |incident|
      invariant ewma == Running(MixOf(alpha), b, incident[..k])
      invariant scored == Rows(MixOf(alpha), b, incident[..k])
    {
      RunningStep(alpha, b, incident, k);
      scored := scored + [RowOf(b, ewma, incident[k])];
      ewma := Blend(alpha, ValueOf(incident[k]), ewma);
    }
    assert incident[..|incident|] == incident;
  }

  method Score(d: Detector, series: Series, deviation: real) returns (r: Result<Outcome, Error>)
    requires IsDeviation(deviation, FiniteValues(series.baseline))
    ensures r == Scored(d, series, deviation)
  {
    var baseline := FiniteValues(series.baseline);
    var incident := InTime(series.incident);
    if |baseline| < d.minimum {
      return Err(TooFewBaselineSamples(d.minimum));
    }
    if incident == [] {
      return Err(NoIncidentSample);
    }
    var median, mad := Median(baseline), Mad(baseline);
    var ewma := SmoothBaseline(d.alpha, baseline, median, Scale(mad, deviation));
    var b := Baseline(|baseline|, Mean(baseline), deviation, median, mad, ewma);
    var scored := ScoreIncident(d.alpha, b, incident);
    r := Ok(Summary(b, scored));
  }
}

/** The anomaly engine: a statistical screen over every series, a service-level forest
    score for what the screen admits, and a ranking. */
module Engine {
  import opened Prelude
  import opened Ordering
  import opened Contracts
  import opened Statistical

  /** A dictionary from times to forest scores, in its order of insertion. */
  type Curve = seq<(Time, real)>

  type Detect = Series -> Result<Outcome, Error>

  /** The forest sees the series of one service, by signal. */
  type Forest = map<string, Series> -> Curve

  datatype Hit = Hit(series: Series, outcome: Outcome)

  datatype Warning = Warning(service: string, signal: string, error: Error)

  datatype Anomaly = Anomaly(
    rank: nat, service: string, signal: string, score: real, forest: Option<real>, outcome: Outcome,
    incidentCount: nat, references: set<string>)

  datatype Analysis = Analysis(
    evaluated: nat, anomalies: seq<Anomaly>, references: seq<string>, warnings: seq<Warning>, usedForest: bool,
    forestSkipped: bool)

  // ---------- forest scores at a time ----------

  function At(scores: Curve, t: Time): Option<real> {
    if scores == [] then None
    else if scores[0].0 == t then Some(scores[0].1)
    else At(scores[1..], t)
  }

  /** `min(scores, key=...)`: the first entry nearest to `t`. */
  function Nearest(scores: Curve, t: Time): (Time, real)
    requires scores != []
  {
    var last := scores[|scores| - 1];
    if |scores| == 1 then last
    else
      var best := Nearest(scores[..|scores| - 1], t);
      if Abs(last.0 - t) < Abs(best.0 - t) then last else best
  }

  /** `_score_at_or_nearest`. */
  function ScoreAtOrNearest(scores: Curve, t: Time): Option<real> {
    if scores == [] then None
    else if At(scores, t).Some? then At(scores, t)
    else Some(Nearest(scores, t).1)
  }

  lemma {:induction false} AtIsThere(scores: Curve, t: Time)
    ensures At(scores, t).Some? ==> (t, At(scores, t).value) in scores
    ensures At(scores, t).None? ==> forall e :: e in scores ==> e.0 != t
  {
    if scores != [] {
      AtIsThere(scores[1..], t);
    }
  }

  lemma {:induction false} NearestIsNearest(scores: Curve, t: Time)
    requires scores != []
    ensures Nearest(scores, t) in scores
    ensures forall e :: e in scores ==> Abs(Nearest(scores, t).0 - t) <= Abs(e.0 - t)
  {
    if |scores| > 1 {
      NearestIsNearest(scores[..|scores| - 1], t);
      assert scores == scores[..|scores| - 1] + [scores[|scores| - 1]];
    }
  }

  ghost predicate NoneNearer(scores: Curve, t: Time, e: (Time, real)) {
    forall f :: f in scores ==> Abs(e.0 - t) <= Abs(f.0 - t)
  }

  /** The forest score used for a peak is the score of an entry no other entry is nearer than. */
  lemma ForestScoreIsNearest(scores: Curve, t: Time)
    ensures ScoreAtOrNearest(scores, t).None? <==> scores == []
    ensures scores != [] ==> exists e :: e in scores && ScoreAtOrNearest(scores, t) == Some(e.1) && NoneNearer(scores, t, e)
  {
    AtIsThere(scores, t);
    if scores != [] {
      NearestIsNearest(scores, t);
      if At(scores, t).Some? {
        var e := (t, At(scores, t).value);
        assert e in scores && NoneNearer(scores, t, e);
      } else {
        assert NoneNearer(scores, t, Nearest(scores, t));
      }
    }
  }

  // ---------- the screen ----------

  function KeyOf(s: Series): (string, string) { (s.service, s.signal) }

  /** The sort key `(service, signal)`. */
  predicate SeriesBefore(a: Series, b: Series) { PairLe(KeyOf(a), KeyOf(b)) }

  function Hits(detect: Detect, xs: seq<Series>): seq<Hit> {
    if xs == [] then []
    else
      var last := xs[|xs| - 1];
      Hits(detect, xs[..|xs| - 1]) + if detect(last).Ok? then [Hit(last, detect(last).value)] else []
  }

  function Warnings(detect: Detect, xs: seq<Series>): seq<Warning> {
    if xs == [] then []
    else
      var last := xs[|xs| - 1];
      Warnings(detect, xs[..|xs| - 1])
      + if detect(last).Err? then [Warning(last.service, last.signal, detect(last).error)] else []
  }

  predicate Admitted(h: Hit) { h.outcome.onset.Some? }

  function Candidates(hits: seq<Hit>): set<string> { set h | h in hits && Admitted(h) :: h.series.service }

  function AllServices(hits: seq<Hit>): set<string> { set h | h in hits :: h.series.service }

  // ---------- second-stage scores ----------

  /** The series of one service by signal; a repeated signal overwrites. */
  function SignalsOf(hits: seq<Hit>, service: string): map<string, Series> {
    if hits == [] then map[]
    else
      var last := hits[|hits| - 1];
      var rest := SignalsOf(hits[..|hits| - 1], service);
      if last.series.service == service then rest[last.series.signal := last.series] else rest
  }

  /** One forest run for every service in scope. */
  function Curves(forest: Forest, hits: seq<Hit>, scope: set<string>): map<string, Curve> {
    map s | s in scope :: forest(SignalsOf(hits, s))
  }

  function CombinedScore(h: Hit, forestScore: Option<real>): real {
    if forestScore.None? then h.outcome.score else 0.7 * h.outcome.score + 0.3 * forestScore.value
  }

  function AnomalyOf(h: Hit, curves: map<string, Curve>, minimum: real): Option<Anomaly> {
    if h.outcome.onset.None? || h.series.service !in curves then None
    else
      var forestScore := ScoreAtOrNearest(curves[h.series.service], h.outcome.peakAt);
      var score := CombinedScore(h, forestScore);
      if score < minimum then None
      else Some(Anomaly(1, h.series.service, h.series.signal, score, forestScore, h.outcome, |h.series.incident|, h.series.references))
  }

  function Unranked(hits: seq<Hit>, curves: map<string, Curve>, minimum: real): seq<Anomaly> {
    if hits == [] then []
    else
      var last := AnomalyOf(hits[|hits| - 1], curves, minimum);
      Unranked(hits[..|hits| - 1], curves, minimum) + if last.Some? then [last.value] else []
  }

  // ---------- the ranking ----------

  function OnsetOf(a: Anomaly): Time { a.outcome.onset.GetOr(0.0) }

  /** The sort key `(-score, anomaly_start_time, service, signal)`. */
  predicate AnomalyBefore(a: Anomaly, b: Anomaly) {
    || a.score > b.score
    || (a.score == b.score
        && (OnsetOf(a) < OnsetOf(b) || (OnsetOf(a) == OnsetOf(b) && PairLe((a.service, a.signal), (b.service, b.signal)))))
  }

  /** Ranks `from`, `from + 1`, ... in the order given. */
  function Numbered(xs: seq<Anomaly>, from: nat): (r: seq<Anomaly>)
    ensures |r| == |xs|
    ensures forall k :: 0 <= k < |xs| ==> r[k] == xs[k].(rank := from + k)
  {
    Enumerate(xs, (a: Anomaly, rank: nat) => a.(rank := rank), from)
  }

  function RankedAnomalies(hits: seq<Hit>, curves: map<string, Curve>, minimum: real): seq<Anomaly> {
    Numbered(Sort(Unranked(hits, curves, minimum), AnomalyBefore), 1)
  }

  // ---------- the whole analysis ----------

  function ReferencesOf(series: seq<Series>): set<string> { set x, r | x in series && r in x.references :: r }

  ghost predicate IsSortedSet(r: seq<string>, s: set<string>) {
    Sorted(r, StrLe) && Distinct(r) && forall x :: x in r <==> x in s
  }

  function Used(curves: map<string, Curve>): bool { exists s :: s in curves && curves[s] != [] }

  /** What the engine concludes when the forest runs for the services in `scope`. */
  ghost predicate Concludes(a: Analysis, detect: Detect, forest: Forest, series: seq<Series>, minimum: real,
                            hits: seq<Hit>, scope: set<string>)
  {
    && a.evaluated == |hits|
    && a.anomalies == RankedAnomalies(hits, Curves(forest, hits, scope), minimum)
    && IsSortedSet(a.references, ReferencesOf(series))
    && a.warnings == Warnings(detect, Sort(series, SeriesBefore))
    && a.usedForest == Used(Curves(forest, hits, scope))
    && a.forestSkipped == (!a.usedForest && Candidates(hits) != {})
  }

  ghost predicate Analyzed(a: Analysis, detect: Detect, forest: Forest, series: seq<Series>, minimum: real) {
    var hits := Hits(detect, Sort(series, SeriesBefore));
    Concludes(a, detect, forest, series, minimum, hits, Candidates(hits))
  }

  // ---------- the engine as it is written ----------

  method Screen(detect: Detect, sorted: seq<Series>) returns (hits: seq<Hit>, warnings: seq<Warning>)
    ensures hits == Hits(detect, sorted) && warnings == Warnings(detect, sorted)
  {
    hits, warnings := [], [];
    for k := 0 to |sorted|
      invariant hits == Hits(detect, sorted[..k]) && warnings == Warnings(detect, sorted[..k])
    {
      assert sorted[..k + 1][..k] == sorted[..k];
      match detect(sorted[k])
      case Ok(outcome) => hits := hits + [Hit(sorted[k], outcome)];
      case Err(error) => warnings := warnings + [Warning(sorted[k].service, sorted[k].signal, error)];
    }
    assert sorted[..|sorted|] == sorted;
  }

  function SignalsIn(byService: map<string, map<string, Series>>, s: string): map<string, Series> {
    if s in byService then byService[s] else map[]
  }

  method GroupByService(hits: seq<Hit>, scope: set<string>) returns (byService: map<string, map<string, Series>>)
    ensures byService.Keys == scope * AllServices(hits)
    ensures forall s :: s in scope ==> SignalsIn(byService, s) == SignalsOf(hits, s)
  {
    byService := map[];
    for k := 0 to |hits|
      invariant byService.Keys == scope * AllServices(hits[..k])
      invariant forall s :: s in scope ==> SignalsIn(byService, s) == SignalsOf(hits[..k], s)
    {
      var x := hits[k].series;
      assert hits[..k + 1][..k] == hits[..k];
      assert AllServices(hits[..k + 1]) == AllServices(hits[..k]) + {x.service};
      if x.service in scope {
        byService := byService[x.service := SignalsIn(byService, x.service)[x.signal := x]];
      }
    }
    assert hits[..|hits|] == hits;
  }

  method ScoreForest(forest: Forest, hits: seq<Hit>, scope: set<string>) returns (curves: map<string, Curve>)
    requires scope <= AllServices(hits)
    ensures curves == Curves(forest, hits, scope)
  {
    var byService := GroupByService(hits, scope);
    curves := map s | s in byService :: forest(byService[s]);
    assert forall s :: s in scope ==> byService[s] == SignalsIn(byService, s);
  }

  method Combine(hits: seq<Hit>, curves: map<string, Curve>, minimum: real) returns (unranked: seq<Anomaly>)
    requires Candidates(hits) <= curves.Keys
    ensures unranked == Unranked(hits, curves, minimum)
  {
    unranked := [];
    for k := 0 to |hits|
      invariant unranked == Unranked(hits[..k], curves, minimum)
    {
      assert hits[..k + 1][..k] == hits[..k];
      var result := hits[k];
      if result.outcome.onset.None? {
        continue;
      }
      assert Admitted(result) && result.series.service in Candidates(hits);
      var forestScore := ScoreAtOrNearest(curves[result.series.service], result.outcome.peakAt);
      var combinedScore := CombinedScore(result, forestScore);
      if combinedScore < minimum {
        continue;
      }
      unranked := unranked + [Anomaly(1, result.series.service, result.series.signal, combinedScore, forestScore,
                                      result.outcome, |result.series.incident|, result.series.references)];
    }
    assert hits[..|hits|] == hits;
  }

  method Analyze(detect: Detect, forest: Forest, series: seq<Series>, minimum: real) returns (a: Analysis)
    ensures Analyzed(a, detect, forest, series, minimum)
  {
    var hits, warnings := Screen(detect, Sort(series, SeriesBefore));
    var candidates := Candidates(hits);
    assert candidates <= AllServices(hits);
    var curves := ScoreForest(forest, hits, candidates);
    var unranked := Combine(hits, curves, minimum);
    var ranked := Numbered(Sort(unranked, AnomalyBefore), 1);
    StringOrder();
    var references := SortedSet(ReferencesOf(series), StrLe);
    var usedForest := exists s :: s in curves && curves[s] != [];
    a := Analysis(|hits|, ranked, references, warnings, usedForest, !usedForest && candidates != {});
  }
}

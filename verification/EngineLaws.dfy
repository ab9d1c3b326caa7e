/** Laws of the anomaly engine: the screen is only an optimisation, the order of the series
    does not matter, and the ranking is complete and in order. */
module EngineLaws {
  import opened Prelude
  import opened Ordering
  import opened Contracts
  import opened Statistical
  import opened StatisticalLaws
  import opened Engine

  // ---------- the screen is only an optimisation ----------

  /** The anomaly of a hit needs no more than the forest scores of admitted services. */
  lemma SameAnomaly(h: Hit, forest: Forest, hits: seq<Hit>, small: set<string>, large: set<string>, minimum: real)
    requires small <= large && (Admitted(h) ==> h.series.service in small)
    ensures AnomalyOf(h, Curves(forest, hits, small), minimum) == AnomalyOf(h, Curves(forest, hits, large), minimum)
  {
  }

  lemma {:induction false} SameUnranked(part: seq<Hit>, forest: Forest, hits: seq<Hit>, small: set<string>, large: set<string>, minimum: real)
    requires small <= large && forall h :: h in part && Admitted(h) ==> h.series.service in small
    ensures Unranked(part, Curves(forest, hits, small), minimum) == Unranked(part, Curves(forest, hits, large), minimum)
  {
    if part != [] {
      SameUnranked(part[..|part| - 1], forest, hits, small, large, minimum);
      SameAnomaly(part[|part| - 1], forest, hits, small, large, minimum);
    }
  }

  /** The engine without the optimisation: the forest runs for every service. */
  ghost predicate AnalyzedEverywhere(a: Analysis, detect: Detect, forest: Forest, series: seq<Series>, minimum: real) {
    var hits := Hits(detect, Sort(series, SeriesBefore));
    Concludes(a, detect, forest, series, minimum, hits, AllServices(hits))
  }

  /** Some service the screen did not admit has forest scores. */
  ghost predicate ScoresElsewhere(detect: Detect, forest: Forest, series: seq<Series>) {
    var hits := Hits(detect, Sort(series, SeriesBefore));
    exists s :: s in AllServices(hits) && s !in Candidates(hits) && forest(SignalsOf(hits, s)) != []
  }

  lemma UsedWhere(forest: Forest, hits: seq<Hit>)
    ensures Used(Curves(forest, hits, AllServices(hits))) <==>
      Used(Curves(forest, hits, Candidates(hits)))
      || exists s :: s in AllServices(hits) && s !in Candidates(hits) && forest(SignalsOf(hits, s)) != []
  {
    var some, all := Curves(forest, hits, Candidates(hits)), Curves(forest, hits, AllServices(hits));
    if Used(all) {
      var s :| s in all && all[s] != [];
      assert s in Candidates(hits) ==> s in some && some[s] == all[s];
    }
    if Used(some) {
      var s :| s in some && some[s] != [];
      assert s in all && all[s] == some[s];
    }
    if s :| s in AllServices(hits) && s !in Candidates(hits) && forest(SignalsOf(hits, s)) != [] {
      assert s in all;
    }
  }

  lemma SortedSetUnique(a: seq<string>, b: seq<string>, s: set<string>)
    requires IsSortedSet(a, s) && IsSortedSet(b, s)
    ensures a == b
  {
    StringOrder();
    DistinctSameMembers(a, b);
    SortedUnique(a, b, StrLe);
  }

  /** Scoring every service with the forest ranks exactly the same anomalies. All that can
      differ is whether the report names the forest as used: it does when only services
      that were not admitted have forest scores. */
  lemma ScreenLosesNothing(a: Analysis, b: Analysis, detect: Detect, forest: Forest, series: seq<Series>, minimum: real)
    requires Analyzed(a, detect, forest, series, minimum) && AnalyzedEverywhere(b, detect, forest, series, minimum)
    ensures a.anomalies == b.anomalies && a.evaluated == b.evaluated && a.warnings == b.warnings && a.references == b.references
    ensures b.usedForest <==> a.usedForest || ScoresElsewhere(detect, forest, series)
  {
    var hits := Hits(detect, Sort(series, SeriesBefore));
    SameUnranked(hits, forest, hits, Candidates(hits), AllServices(hits), minimum);
    SortedSetUnique(a.references, b.references, ReferencesOf(series));
    UsedWhere(forest, hits);
  }

  // ---------- an input where the two reports differ ----------

  /** A healthy series: nothing reaches the threshold. */
  function Healthy(): Outcome {
    Outcome(0.0, High, None, 0.0, 0.0, 0.0, 0.0, 0.0, Baseline(8, 0.0, 0.0, 0.0, 0.0, 0.0), map[])
  }

  function AllHealthy(): Detect { (x: Series) => Ok(Healthy()) }

  function AlwaysScores(): Forest { (signals: map<string, Series>) => [(0.0, 0.0)] }

  function OneSeries(): seq<Series> { [Series("cart", "latency", [], [], {})] }

  lemma {:induction false} HealthyHit(sorted: seq<Series>)
    requires |sorted| == 1 && sorted[0] == OneSeries()[0]
    ensures Hits(AllHealthy(), sorted) == [Hit(OneSeries()[0], Healthy())]
  {
    assert sorted[..0] == [];
  }

  /** What an engine with no references to list reports when the forest runs in `scope`. */
  ghost function ReportOf(detect: Detect, forest: Forest, series: seq<Series>, minimum: real, hits: seq<Hit>, scope: set<string>): (a: Analysis)
    ensures ReferencesOf(series) == {} ==> Concludes(a, detect, forest, series, minimum, hits, scope)
  {
    var curves := Curves(forest, hits, scope);
    Analysis(|hits|, RankedAnomalies(hits, curves, minimum), [], Warnings(detect, Sort(series, SeriesBefore)),
             Used(curves), !Used(curves) && Candidates(hits) != {})
  }

  lemma OneHit()
    ensures Hits(AllHealthy(), Sort(OneSeries(), SeriesBefore)) == [Hit(OneSeries()[0], Healthy())]
    ensures ReferencesOf(OneSeries()) == {}
  {
    SortPermutes(OneSeries(), SeriesBefore);
    HealthyHit(Sort(OneSeries(), SeriesBefore));
  }

  lemma OnlyElsewhere(hits: seq<Hit>)
    requires hits == [Hit(OneSeries()[0], Healthy())]
    ensures Candidates(hits) == {} && "cart" in AllServices(hits)
  {
    assert hits[0] in hits;
  }

  /** On one healthy series the engine that runs the forest everywhere reports that it used
      it, and the other one does not. */
  lemma DetectorsCanDiffer(minimum: real) returns (a: Analysis, b: Analysis)
    ensures Analyzed(a, AllHealthy(), AlwaysScores(), OneSeries(), minimum)
    ensures AnalyzedEverywhere(b, AllHealthy(), AlwaysScores(), OneSeries(), minimum)
    ensures ScoresElsewhere(AllHealthy(), AlwaysScores(), OneSeries())
    ensures !a.usedForest && b.usedForest
  {
    var hits := Hits(AllHealthy(), Sort(OneSeries(), SeriesBefore));
    OneHit();
    OnlyElsewhere(hits);
    a := ReportOf(AllHealthy(), AlwaysScores(), OneSeries(), minimum, hits, Candidates(hits));
    b := ReportOf(AllHealthy(), AlwaysScores(), OneSeries(), minimum, hits, AllServices(hits));
    ScreenLosesNothing(a, b, AllHealthy(), AlwaysScores(), OneSeries(), minimum);
  }

  // ---------- the order of the series ----------

  ghost predicate UniqueKeys(series: seq<Series>) {
    forall x, y :: x in series && y in series && KeyOf(x) == KeyOf(y) ==> x == y
  }

  lemma SeriesOrder(series: seq<Series>)
    requires UniqueKeys(series)
    ensures TotalPreorder(SeriesBefore) && TieFree(series, SeriesBefore)
  {
    PairOrder();
  }

  lemma SameReferences(a: seq<Series>, b: seq<Series>)
    requires Permutation(a, b)
    ensures ReferencesOf(a) == ReferencesOf(b)
  {
    SamePermutation(a, b);
  }

  /** Series with different services or signals can come in any order: the analysis is the
      same in every field. */
  lemma AnalysisIgnoresOrder(x: Analysis, y: Analysis, detect: Detect, forest: Forest, a: seq<Series>, b: seq<Series>, minimum: real)
    requires Permutation(a, b) && UniqueKeys(a)
    requires Analyzed(x, detect, forest, a, minimum) && Analyzed(y, detect, forest, b, minimum)
    ensures x == y
  {
    SeriesOrder(a);
    SortOrderFree(a, b, SeriesBefore);
    SameReferences(a, b);
    SortedSetUnique(x.references, y.references, ReferencesOf(a));
  }

  // ---------- the ranking ----------

  lemma AnomalyOrder()
    ensures TotalPreorder(AnomalyBefore)
  {
    PairOrder();
  }

  lemma {:induction false} UnrankedFrom(part: seq<Hit>, curves: map<string, Curve>, minimum: real)
    ensures forall a :: a in Unranked(part, curves, minimum) ==> exists h :: h in part && AnomalyOf(h, curves, minimum) == Some(a)
    ensures forall h :: h in part && AnomalyOf(h, curves, minimum).Some? ==> AnomalyOf(h, curves, minimum).value in Unranked(part, curves, minimum)
  {
    if part != [] {
      var init := part[..|part| - 1];
      UnrankedFrom(init, curves, minimum);
      assert part == init + [part[|part| - 1]];
    }
  }

  /** Where a ranked anomaly comes from. */
  ghost predicate Explains(h: Hit, a: Anomaly, curves: map<string, Curve>, minimum: real) {
    AnomalyOf(h, curves, minimum).Some? && a == AnomalyOf(h, curves, minimum).value.(rank := a.rank)
  }

  /** Ranks are 1, 2, ..., n, scores do not increase, and ties are broken by onset, service
      and signal. */
  lemma RankingInOrder(hits: seq<Hit>, curves: map<string, Curve>, minimum: real)
    ensures var out := RankedAnomalies(hits, curves, minimum);
      && |out| == |Unranked(hits, curves, minimum)|
      && (forall k :: 0 <= k < |out| ==> out[k].rank == k + 1)
      && (forall j, k :: 0 <= j < k < |out| ==> AnomalyBefore(out[j], out[k]) && out[j].score >= out[k].score)
  {
    var unranked := Unranked(hits, curves, minimum);
    var sorted := Sort(unranked, AnomalyBefore);
    var out := RankedAnomalies(hits, curves, minimum);
    AnomalyOrder();
    SortSorted(unranked, AnomalyBefore);
    SortPermutes(unranked, AnomalyBefore);
    forall j, k | 0 <= j < k < |out| ensures AnomalyBefore(out[j], out[k]) {
      assert AnomalyBefore(sorted[j], sorted[k]);
    }
  }

  lemma AnomalyReaches(h: Hit, curves: map<string, Curve>, minimum: real)
    requires AnomalyOf(h, curves, minimum).Some?
    ensures AnomalyOf(h, curves, minimum).value.score >= minimum && Admitted(h)
  {
  }

  /** Every ranked anomaly is an admitted result that reaches the minimum. */
  lemma RankedIsExplained(hits: seq<Hit>, curves: map<string, Curve>, minimum: real, k: nat) returns (h: Hit)
    requires k < |RankedAnomalies(hits, curves, minimum)|
    ensures h in hits && Admitted(h) && Explains(h, RankedAnomalies(hits, curves, minimum)[k], curves, minimum)
    ensures RankedAnomalies(hits, curves, minimum)[k].score >= minimum
  {
    var unranked := Unranked(hits, curves, minimum);
    var sorted := Sort(unranked, AnomalyBefore);
    SortPermutes(unranked, AnomalyBefore);
    UnrankedFrom(hits, curves, minimum);
    assert sorted[k] in unranked;
    h :| h in hits && AnomalyOf(h, curves, minimum) == Some(sorted[k]);
    AnomalyReaches(h, curves, minimum);
  }

  /** And every such result is ranked. */
  lemma ExplainedIsRanked(hits: seq<Hit>, curves: map<string, Curve>, minimum: real, h: Hit) returns (k: nat)
    requires h in hits && AnomalyOf(h, curves, minimum).Some?
    ensures k < |RankedAnomalies(hits, curves, minimum)|
    ensures Explains(h, RankedAnomalies(hits, curves, minimum)[k], curves, minimum)
  {
    var unranked := Unranked(hits, curves, minimum);
    var sorted := Sort(unranked, AnomalyBefore);
    SortPermutes(unranked, AnomalyBefore);
    UnrankedFrom(hits, curves, minimum);
    k :| 0 <= k < |sorted| && sorted[k] == AnomalyOf(h, curves, minimum).value;
  }

  // ---------- what an anomaly says ----------

  /** Seven tenths of the statistical score and three tenths of the forest's, or the
      statistical score alone where the forest gives none. */
  function Blended(statistical: real, forest: Option<real>): real {
    if forest.None? then statistical else (7.0 * statistical + 3.0 * forest.value) / 10.0
  }

  /** What an anomaly says about the result it reports, and the forest scores of its service. */
  ghost predicate Describes(a: Anomaly, h: Hit, scores: Curve) {
    && a.service == h.series.service && a.signal == h.series.signal && a.outcome == h.outcome
    && a.incidentCount == |h.series.incident| && a.references == h.series.references
    && (a.forest.None? <==> scores == [])
    && (a.forest.Some? ==> exists e :: e in scores && a.forest == Some(e.1) && NoneNearer(scores, h.outcome.peakAt, e))
    && a.score == Blended(h.outcome.score, a.forest)
  }

  lemma AnomalyDescribes(h: Hit, curves: map<string, Curve>, minimum: real)
    ensures AnomalyOf(h, curves, minimum).Some? ==>
      && h.outcome.onset.Some? && h.series.service in curves
      && Describes(AnomalyOf(h, curves, minimum).value, h, curves[h.series.service])
      && AnomalyOf(h, curves, minimum).value.score >= minimum
    ensures h.outcome.onset.Some? && h.series.service in curves && AnomalyOf(h, curves, minimum).None? ==>
      exists a: Anomaly :: Describes(a, h, curves[h.series.service]) && a.score < minimum
  {
    if h.outcome.onset.Some? && h.series.service in curves {
      var scores := curves[h.series.service];
      var forest := ScoreAtOrNearest(scores, h.outcome.peakAt);
      ForestScoreIsNearest(scores, h.outcome.peakAt);
      var a := Anomaly(1, h.series.service, h.series.signal, CombinedScore(h, forest), forest, h.outcome, |h.series.incident|, h.series.references);
      assert Describes(a, h, scores);
    }
  }

  /** Every ranked anomaly describes an admitted result of a service in scope, and reaches the minimum. */
  lemma RankedDescribes(hits: seq<Hit>, curves: map<string, Curve>, minimum: real, k: nat) returns (h: Hit)
    requires k < |RankedAnomalies(hits, curves, minimum)|
    ensures h in hits && h.outcome.onset.Some? && h.series.service in curves
    ensures var a := RankedAnomalies(hits, curves, minimum)[k];
      a.rank == k + 1 && a.score >= minimum && Describes(a, h, curves[h.series.service])
  {
    h := RankedIsExplained(hits, curves, minimum, k);
    AnomalyDescribes(h, curves, minimum);
    RankingInOrder(hits, curves, minimum);
  }

  /** Ties are broken by the onset, the earlier first, then by service and by signal. */
  lemma TiesInOrder(hits: seq<Hit>, curves: map<string, Curve>, minimum: real, j: nat, k: nat)
    requires j < k < |RankedAnomalies(hits, curves, minimum)|
    ensures var a, b := RankedAnomalies(hits, curves, minimum)[j], RankedAnomalies(hits, curves, minimum)[k];
      && a.score >= b.score
      && (a.score == b.score && a.outcome.onset.Some? && b.outcome.onset.Some? ==>
            && a.outcome.onset.value <= b.outcome.onset.value
            && (a.outcome.onset == b.outcome.onset ==>
                  StrLe(a.service, b.service) && (a.service == b.service ==> StrLe(a.signal, b.signal))))
  {
    RankingInOrder(hits, curves, minimum);
  }

  /** Result `i` is the last one of its service and signal. */
  predicate LastOf(hits: seq<Hit>, i: nat, service: string, signal: string)
    requires i < |hits|
  {
    && hits[i].series.service == service && hits[i].series.signal == signal
    && forall j :: i < j < |hits| ==> hits[j].series.service != service || hits[j].series.signal != signal
  }

  /** The forest of a service sees, for each of its signals, the last series that came with a result. */
  lemma {:induction false} SignalsAre(hits: seq<Hit>, service: string, signal: string)
    ensures signal in SignalsOf(hits, service) <==> exists i :: 0 <= i < |hits| && LastOf(hits, i, service, signal)
    ensures forall i :: 0 <= i < |hits| && LastOf(hits, i, service, signal) ==> SignalsOf(hits, service)[signal] == hits[i].series
  {
    if hits != [] {
      var n := |hits| - 1;
      var init := hits[..n];
      SignalsAre(init, service, signal);
      if hits[n].series.service == service && hits[n].series.signal == signal {
        assert LastOf(hits, n, service, signal);
      } else {
        forall i | 0 <= i < n ensures LastOf(hits, i, service, signal) == LastOf(init, i, service, signal) {}
        if signal in SignalsOf(init, service) {
          var i :| 0 <= i < |init| && LastOf(init, i, service, signal);
          assert LastOf(hits, i, service, signal);
        }
      }
    }
  }

  // ---------- what the screen reports ----------

  /** A warning says which series could not be scored, and why. */
  predicate WarnsOf(w: Warning, x: Series, detect: Detect) {
    detect(x).Err? && w.service == x.service && w.signal == x.signal && w.error == detect(x).error
  }

  function Scorable(detect: Detect): Series -> bool { (x: Series) => detect(x).Ok? }

  function Unscorable(detect: Detect): Series -> bool { (x: Series) => detect(x).Err? }

  /** Every series is either a result or a warning, in the order of the list. */
  lemma {:induction false} ScreenSays(detect: Detect, xs: seq<Series>)
    ensures |Hits(detect, xs)| + |Warnings(detect, xs)| == |xs|
    ensures |Hits(detect, xs)| == |Filter(xs, Scorable(detect))|
    ensures forall k :: 0 <= k < |Hits(detect, xs)| ==> Hits(detect, xs)[k].series == Filter(xs, Scorable(detect))[k]
    ensures |Warnings(detect, xs)| == |Filter(xs, Unscorable(detect))|
    ensures forall k :: 0 <= k < |Warnings(detect, xs)| ==> WarnsOf(Warnings(detect, xs)[k], Filter(xs, Unscorable(detect))[k], detect)
  {
    if xs != [] {
      var init, last := xs[..|xs| - 1], xs[|xs| - 1];
      ScreenSays(detect, init);
      assert xs == init + [last];
      FilterAppend(init, [last], Scorable(detect));
      FilterAppend(init, [last], Unscorable(detect));
      assert [last][1..] == [];
    }
  }

  /** The series are taken by service and, within a service, by signal. */
  lemma SeriesInOrder(series: seq<Series>, j: nat, k: nat)
    requires j < k < |Sort(series, SeriesBefore)|
    ensures var x, y := Sort(series, SeriesBefore)[j], Sort(series, SeriesBefore)[k];
      StrLe(x.service, y.service) && (x.service == y.service ==> StrLe(x.signal, y.signal))
  {
    PairOrder();
    assert TotalPreorder(SeriesBefore);
    SortSorted(series, SeriesBefore);
    assert SeriesBefore(Sort(series, SeriesBefore)[j], Sort(series, SeriesBefore)[k]);
  }

  /** The report counts the results, and names the forest as used when it gave scores for an
      admitted service, and as skipped when services were admitted and it gave none. */
  lemma AnalysisSays(a: Analysis, detect: Detect, forest: Forest, series: seq<Series>, minimum: real)
    requires Analyzed(a, detect, forest, series, minimum)
    ensures var hits := Hits(detect, Sort(series, SeriesBefore));
      && a.evaluated == |hits|
      && (a.usedForest <==> exists h :: h in hits && h.outcome.onset.Some? && forest(SignalsOf(hits, h.series.service)) != [])
      && (a.forestSkipped <==> !a.usedForest && exists h :: h in hits && h.outcome.onset.Some?)
      && forall r :: r in a.references <==> exists x :: x in series && r in x.references
  {
    var hits := Hits(detect, Sort(series, SeriesBefore));
    var curves := Curves(forest, hits, Candidates(hits));
    if a.usedForest {
      var s :| s in curves && curves[s] != [];
      var h :| h in hits && Admitted(h) && h.series.service == s;
      assert h.outcome.onset.Some?;
    }
    if h :| h in hits && h.outcome.onset.Some? {
      assert Admitted(h) && h.series.service in Candidates(hits);
    }
    if h :| h in hits && h.outcome.onset.Some? && forest(SignalsOf(hits, h.series.service)) != [] {
      assert h.series.service in curves;
    }
    if Candidates(hits) != {} {
      var s :| s in Candidates(hits);
    }
  }

  // ---------- with the statistical detector ----------

  lemma {:induction false} HitsFrom(detect: Detect, xs: seq<Series>)
    ensures forall h :: h in Hits(detect, xs) ==> h.series in xs && detect(h.series) == Ok(h.outcome)
  {
    if xs != [] {
      HitsFrom(detect, xs[..|xs| - 1]);
      assert xs == xs[..|xs| - 1] + [xs[|xs| - 1]];
    }
  }

  /** The statistical detector, given the standard deviation of every baseline. */
  function Screening(d: Detector, deviation: Series -> real): Detect { (x: Series) => Scored(d, x, deviation(x)) }

  /** The screen admits a series exactly when its statistical score reaches one half, and
      what it admits starts no later than it peaks. */
  lemma AdmittedIff(d: Detector, deviation: Series -> real, xs: seq<Series>, h: Hit)
    requires h in Hits(Screening(d, deviation), xs)
    ensures Admitted(h) <==> h.outcome.score >= 0.5
    ensures Admitted(h) ==> h.outcome.onset.value <= h.outcome.peakAt
  {
    HitsFrom(Screening(d, deviation), xs);
    OnsetIff(d, h.series, deviation(h.series));
  }
}

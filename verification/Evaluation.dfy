/** The offline benchmark: one trial replays a case under an ablation, and the trials are
    reduced to published metrics. */
module Evaluation {
  import opened Prelude
  import opened Ordering
  import opened Aggregates
  import opened Contracts
  import opened Verifier
  import opened Causal
  import opened Provider

  datatype Ablation = NoGraph | NoTraces | NoLogs | NoAnomaly | NoVerifier | NoMemory | OneAgent

  datatype Case = Case(rootCause: string, incident: Incident, evidence: seq<Evidence>, graph: Snapshot)

  datatype Trial = Trial(
    predictions: seq<string>, claims: seq<Id>, valid: seq<Id>, latency: real, toolCalls: nat, truth: string)

  // ---------- ablations ----------

  function RemovedSource(a: Option<Ablation>): Option<Source> {
    match a
    case Some(NoTraces) => Some(Source.Traces)
    case Some(NoLogs) => Some(Source.Logs)
    case Some(NoAnomaly) => Some(Source.Metrics)
    case Some(NoMemory) => Some(Source.Memory)
    case _ => None
  }

  /** `_filter_evidence`. */
  function FilterEvidence(evidence: seq<Evidence>, a: Option<Ablation>): seq<Evidence> {
    Filter(evidence, (e: Evidence) => Some(e.source) != RemovedSource(a))
  }

  // ---------- the multi-agent proxy ----------

  datatype Bucket = Bucket(service: string, items: seq<Evidence>)

  function NameKey(): Evidence -> Option<string> { (e: Evidence) => if e.Named() then e.service else None }

  function Names(evidence: seq<Evidence>): seq<string> { Dedup(KeyList(evidence, NameKey())) }

  function Named(evidence: seq<Evidence>, s: string): seq<Evidence> { Ordering.Group(evidence, NameKey(), s) }

  function BucketOf(evidence: seq<Evidence>): string -> Bucket { (s: string) => Bucket(s, Named(evidence, s)) }

  function TotalConfidence(items: seq<Evidence>): real { Sum(Confidences(items)) }

  /** The sort key `(-sum of confidences, -number of sources, service)`. */
  predicate BucketBefore(a: Bucket, b: Bucket) {
    var x, y := TotalConfidence(a.items), TotalConfidence(b.items);
    var m, n := |Sources(a.items)|, |Sources(b.items)|;
    x > y || (x == y && (m > n || (m == n && StrLe(a.service, b.service))))
  }

  function Buckets(evidence: seq<Evidence>): seq<Bucket> { Sort(Map(Names(evidence), BucketOf(evidence)), BucketBefore) }

  function Concat(lists: seq<seq<Id>>): seq<Id> {
    if lists == [] then [] else Concat(lists[..|lists| - 1]) + lists[|lists| - 1]
  }

  function FirstThree<T>(xs: seq<T>): seq<T> { if |xs| <= 3 then xs else xs[..3] }

  function BucketIds(bs: seq<Bucket>): seq<seq<Id>> { Map(bs, (b: Bucket) => Ids(b.items)) }

  /** `_multi_rank`: the predictions and the claims. */
  function MultiRanked(evidence: seq<Evidence>): (seq<string>, seq<Id>) {
    var rows := Buckets(evidence);
    (Map(rows, (b: Bucket) => b.service), Concat(BucketIds(FirstThree(rows))))
  }

  // ---------- one trial of the full system ----------

  function ReplayConfidence(items: seq<Evidence>): Unit {
    Min(1.0, Confidence(items) * 0.75 + |Sources(items)| as real * 0.06)
  }

  function ReplayCandidate(service: string, items: seq<Evidence>, rank: nat): Hypothesis {
    Hypothesis("service:" + service, rank, service, "replay evidence degradation", 0, 0, Ids(items), [],
               ReplayConfidence(items), Supported, NO_SCORE, Manager)
  }

  function ReplayHypothesis(evidence: seq<Evidence>, service: string, rank: nat): Hypothesis {
    ReplayCandidate(service, ItemsOf(evidence, service, true), rank)
  }

  function Replayed(evidence: seq<Evidence>, services: seq<string>, from: nat): (hs: seq<Hypothesis>)
    ensures |hs| == |services|
    ensures forall k :: 0 <= k < |hs| ==> hs[k] == ReplayHypothesis(evidence, services[k], from + k)
  {
    if services == [] then []
    else [ReplayHypothesis(evidence, services[0], from)] + Replayed(evidence, services[1..], from + 1)
  }

  /** The hypotheses a trial starts from: one for every service named by current evidence,
      in the order of their names. */
  function Replay(evidence: seq<Evidence>): seq<Hypothesis> { Replayed(evidence, Sort(Services(evidence, true), StrLe), 1) }

  function GraphFor(c: Case, a: Option<Ablation>): Option<Snapshot> { if a == Some(NoGraph) then None else Some(c.graph) }

  function Concluded(c: Case, a: Option<Ablation>): seq<Hypothesis> {
    var evidence := FilterEvidence(c.evidence, a);
    var ranked := Ranked(Replay(evidence), evidence, c.incident, GraphFor(c, a));
    if a == Some(NoVerifier) then ranked else Verified(ranked, evidence)
  }

  function Supports(hs: seq<Hypothesis>): seq<seq<Id>> { Map(hs, (h: Hypothesis) => h.evidenceFor) }

  function RootCauses(hs: seq<Hypothesis>): seq<string> { Map(hs, (h: Hypothesis) => h.rootCause) }

  function MetricItems(evidence: seq<Evidence>): seq<Evidence> { Filter(evidence, (e: Evidence) => e.source.Metrics?) }

  /** The predictions and the claims of a trial. */
  function Answer(c: Case, a: Option<Ablation>): (seq<string>, seq<Id>) {
    if a == Some(OneAgent) then MultiRanked(MetricItems(FilterEvidence(c.evidence, a)))
    else (RootCauses(Concluded(c, a)), Concat(Supports(FirstThree(Concluded(c, a)))))
  }

  /** `_run_rootlens`, given what its stopwatch showed. */
  function Trialled(c: Case, a: Option<Ablation>, elapsed: real): Trial {
    var answer := Answer(c, a);
    Trial(answer.0, answer.1, Ids(c.evidence), elapsed,
          if a == Some(OneAgent) then 1 else |Sources(FilterEvidence(c.evidence, a))|, c.rootCause)
  }

  // ---------- a trial as it is written ----------

  function Put(grouped: map<string, seq<Evidence>>, s: string, e: Evidence): map<string, seq<Evidence>> {
    grouped[s := Listed(grouped, s) + [e]]
  }

  function WithItem(grouped: map<string, seq<Evidence>>, e: Evidence): map<string, seq<Evidence>> {
    if e.Named() then Put(grouped, e.service.value, e) else grouped
  }

  lemma BucketsGrow(grouped: map<string, seq<Evidence>>, evidence: seq<Evidence>, k: nat)
    requires k < |evidence| && forall s :: Listed(grouped, s) == Named(evidence[..k], s)
    ensures forall s :: Listed(WithItem(grouped, evidence[k]), s) == Named(evidence[..k + 1], s)
  {
    var e := evidence[k];
    assert evidence[..k + 1] == evidence[..k] + [e];
    forall s ensures Listed(WithItem(grouped, e), s) == Named(evidence[..k + 1], s) {
      GroupAppend(evidence[..k], [e], NameKey(), s);
      GroupOne(e, NameKey(), s);
      var added := if NameKey()(e) == Some(s) then [e] else [];
      assert Named(evidence[..k + 1], s) == Named(evidence[..k], s) + added;
    }
  }

  function WithName(services: seq<string>, e: Evidence): seq<string> {
    if e.Named() && e.service.value !in services then services + [e.service.value] else services
  }

  lemma NamesGrow(evidence: seq<Evidence>, k: nat)
    requires k < |evidence|
    ensures Names(evidence[..k + 1]) == WithName(Names(evidence[..k]), evidence[k])
  {
    var init, e := evidence[..k], evidence[k];
    assert evidence[..k + 1] == init + [e];
    KeyListAppend(init, e, NameKey());
    assert KeyList(init, NameKey()) + [] == KeyList(init, NameKey());
    if e.Named() {
      DedupAppend(KeyList(init, NameKey()), e.service.value);
    }
  }

  method GroupAll(evidence: seq<Evidence>) returns (services: seq<string>, grouped: map<string, seq<Evidence>>)
    ensures services == Names(evidence)
    ensures forall s :: Listed(grouped, s) == Named(evidence, s)
  {
    services, grouped := [], map[];
    for k := 0 to |evidence|
      invariant services == Names(evidence[..k])
      invariant forall s :: Listed(grouped, s) == Named(evidence[..k], s)
    {
      NamesGrow(evidence, k);
      BucketsGrow(grouped, evidence, k);
      ghost var after := WithItem(grouped, evidence[k]);
      var e := evidence[k];
      if e.Named() {
        if e.service.value !in services {
          services := services + [e.service.value];
        }
        grouped := Put(grouped, e.service.value, e);
      }
      assert grouped == after;
    }
    assert evidence[..|evidence|] == evidence;
  }

  /** `grouped.items()`. */
  function Rows(services: seq<string>, grouped: map<string, seq<Evidence>>): seq<Bucket> {
    Map(services, s => Bucket(s, Listed(grouped, s)))
  }

  method MultiRank(evidence: seq<Evidence>) returns (predictions: seq<string>, claims: seq<Id>)
    ensures (predictions, claims) == MultiRanked(evidence)
  {
    var services, grouped := GroupAll(evidence);
    var rows := Rows(services, grouped);
    assert rows == Map(Names(evidence), BucketOf(evidence));
    rows := Sort(rows, BucketBefore);
    predictions := Map(rows, (b: Bucket) => b.service);
    claims := Concat(BucketIds(FirstThree(rows)));
  }

  method Hypothesise(ghost evidence: seq<Evidence>, services: seq<string>, grouped: map<string, seq<Evidence>>)
    returns (hs: seq<Hypothesis>)
    requires Grouped(grouped, evidence, true)
    ensures hs == Replayed(evidence, services, 1)
  {
    hs := [];
    for k := 0 to |services|
      invariant |hs| == k
      invariant forall j :: 0 <= j < k ==> hs[j] == ReplayHypothesis(evidence, services[j], 1 + j)
    {
      var s := services[k];
      assert Listed(grouped, s) == ItemsOf(evidence, s, true);
      hs := hs + [ReplayCandidate(s, Listed(grouped, s), 1 + k)];
    }
  }

  method RunRootlens(c: Case, a: Option<Ablation>, elapsed: real) returns (t: Trial)
    ensures t == Trialled(c, a, elapsed)
  {
    var evidence := FilterEvidence(c.evidence, a);
    var services, grouped := Provider.Group(evidence, true);
    GroupsAreComplete(grouped, evidence, true);
    var hypotheses := Hypothesise(evidence, Sort(services, StrLe), grouped);
    var ranked := Rank(hypotheses, evidence, c.incident, GraphFor(c, a));
    if a != Some(NoVerifier) {
      ranked := Verify(ranked, evidence);
    }
    var predictions, claims, tools;
    if a == Some(OneAgent) {
      predictions, claims := MultiRank(MetricItems(evidence));
      tools := 1;
    } else {
      predictions := RootCauses(ranked);
      claims := Concat(Supports(FirstThree(ranked)));
      tools := |Sources(evidence)|;
    }
    t := Trial(predictions, claims, Ids(c.evidence), elapsed, tools, c.rootCause);
  }

  // ---------- the published metrics ----------

  datatype Report = Report(
    trials: nat, top1: real, top3: real, meanLatency: real, p95Latency: real, precision: real, hallucinated: real, meanToolCalls: real)

  function ToSet(ids: seq<Id>): set<Id> { set i | i in ids }

  predicate HitsFirst(t: Trial) { t.predictions != [] && t.predictions[0] == t.truth }

  predicate HitsThree(t: Trial) { t.truth in FirstThree(t.predictions) }

  function Claims(): Trial -> nat { (t: Trial) => |t.claims| }

  function ValidClaims(): Trial -> nat { (t: Trial) => |ToSet(t.claims) * ToSet(t.valid)| }

  function ToolCalls(): Trial -> nat { (t: Trial) => t.toolCalls }

  function Latencies(trials: seq<Trial>): seq<real> { Map(trials, (t: Trial) => t.latency) }

  function Smaller(a: int, b: int): int { if a <= b then a else b }

  /** `min(n - 1, ceil(0.95 n) - 1)`. */
  function P95Index(n: nat): nat
    requires n > 0
  {
    Smaller(n - 1, (19 * n + 19) / 20 - 1)
  }

  lemma {:induction false} SetSize(ids: seq<Id>)
    ensures |ToSet(ids)| <= |ids|
    ensures |ToSet(ids)| == |ids| <==> Distinct(ids)
  {
    if ids != [] {
      var init, last := ids[..|ids| - 1], ids[|ids| - 1];
      SetSize(init);
      assert ids == init + [last];
      if last in init {
        assert ToSet(ids) == ToSet(init);
      } else {
        assert ToSet(ids) == ToSet(init) + {last};
      }
    }
  }

  lemma ValidAtMostClaimed(t: Trial)
    ensures ValidClaims()(t) <= Claims()(t)
    ensures ValidClaims()(t) == Claims()(t) <==> Distinct(t.claims) && forall i :: i in t.claims ==> i in t.valid
  {
    var claims, both := ToSet(t.claims), ToSet(t.claims) * ToSet(t.valid);
    SetSize(t.claims);
    assert claims == both + (claims - both);
    if forall i :: i in t.claims ==> i in t.valid {
      assert both == claims;
    } else {
      var i :| i in t.claims && i !in t.valid;
      assert i in claims - both;
    }
  }

  lemma {:induction false} AllValid(trials: seq<Trial>)
    ensures Ordering.Total(trials, ValidClaims()) <= Ordering.Total(trials, Claims())
    ensures Ordering.Total(trials, ValidClaims()) == Ordering.Total(trials, Claims())
      <==> forall t :: t in trials ==> ValidClaims()(t) == Claims()(t)
  {
    if trials != [] {
      AllValid(trials[1..]);
      ValidAtMostClaimed(trials[0]);
      assert trials == [trials[0]] + trials[1..];
    }
  }

  function Aggregated(trials: seq<Trial>): Report
    requires trials != []
  {
    var n := |trials|;
    var claims, valid := Ordering.Total(trials, Claims()), Ordering.Total(trials, ValidClaims());
    var latencies := Sort(Latencies(trials), RealLe);
    SortPermutes(Latencies(trials), RealLe);
    AllValid(trials);
    Report(n, Ratio(|Filter(trials, HitsFirst)|, n), Ratio(|Filter(trials, HitsThree)|, n), Sum(latencies) / n as real,
            latencies[P95Index(n)], Ratio(valid, claims), Ratio(claims - valid, claims), Ratio(Ordering.Total(trials, ToolCalls()), n))
  }

  datatype Tally = Tally(top1: nat, top3: nat, claims: nat, valid: nat, toolCalls: nat)

  /** The counts the metrics are made of. */
  function TallyOf(trials: seq<Trial>): Tally {
    Tally(|Filter(trials, HitsFirst)|, |Filter(trials, HitsThree)|, Ordering.Total(trials, Claims()),
           Ordering.Total(trials, ValidClaims()), Ordering.Total(trials, ToolCalls()))
  }

  function Plus(n: Tally, t: Trial): Tally {
    Tally(n.top1 + if HitsFirst(t) then 1 else 0, n.top3 + if HitsThree(t) then 1 else 0, n.claims + |t.claims|,
           n.valid + |ToSet(t.claims) * ToSet(t.valid)|, n.toolCalls + t.toolCalls)
  }

  lemma Counted(trials: seq<Trial>, k: nat)
    requires k < |trials|
    ensures TallyOf(trials[..k + 1]) == Plus(TallyOf(trials[..k]), trials[k])
  {
    var init, t := trials[..k], trials[k];
    assert trials[..k + 1] == init + [t];
    assert [t][1..] == [];
    FilterAppend(init, [t], HitsFirst);
    FilterAppend(init, [t], HitsThree);
    TotalAppend(init, t, Claims());
    TotalAppend(init, t, ValidClaims());
    TotalAppend(init, t, ToolCalls());
  }

  /** The sums over the trials, one trial at a time. */
  method Count(trials: seq<Trial>) returns (n: Tally)
    ensures n == TallyOf(trials)
  {
    n := Tally(0, 0, 0, 0, 0);
    for k := 0 to |trials|
      invariant n == TallyOf(trials[..k])
    {
      Counted(trials, k);
      n := Plus(n, trials[k]);
    }
    assert trials[..|trials|] == trials;
  }

  /** `aggregate_trials`; it refuses to reduce nothing. */
  method AggregateTrials(trials: seq<Trial>) returns (r: Result<Report, string>)
    ensures trials == [] ==> r.Err?
    ensures trials != [] ==> r == Ok(Aggregated(trials))
  {
    if trials == [] {
      return Err("at least one trial is required");
    }
    var n := Count(trials);
    AllValid(trials);
    var latencies := Sort(Latencies(trials), RealLe);
    SortPermutes(Latencies(trials), RealLe);
    var count := |trials|;
    r := Ok(Report(count, Ratio(n.top1, count), Ratio(n.top3, count), Sum(latencies) / count as real, latencies[P95Index(count)],
                   Ratio(n.valid, n.claims), Ratio(n.claims - n.valid, n.claims), Ratio(n.toolCalls, count)));
  }
}

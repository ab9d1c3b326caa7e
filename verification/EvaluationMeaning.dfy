/** What a benchmark trial predicts and claims, and what the published metrics count. */
module EvaluationMeaning {
  import opened Prelude
  import opened Ordering
  import opened Aggregates
  import opened Contracts
  import opened Verifier
  import opened Causal
  import opened CausalLaws
  import opened Provider
  import opened ProviderLaws
  import opened Evaluation

  // ---------- ablations ----------

  /** What an ablation hides from the system. */
  predicate Hidden(e: Evidence, a: Option<Ablation>) {
    || (a == Some(NoTraces) && e.source.Traces?) || (a == Some(NoLogs) && e.source.Logs?)
    || (a == Some(NoAnomaly) && e.source.Metrics?) || (a == Some(NoMemory) && e.source.Memory?)
  }

  function Visible(a: Option<Ablation>): Evidence -> bool { (e: Evidence) => !Hidden(e, a) }

  lemma AblationHides(evidence: seq<Evidence>, a: Option<Ablation>)
    ensures FilterEvidence(evidence, a) == Filter(evidence, Visible(a))
  {
    FilterSame(evidence, (e: Evidence) => Some(e.source) != RemovedSource(a), Visible(a));
  }

  // ---------- the multi-agent proxy ----------

  /** The items that name a service, current or not. */
  function NamesIt(s: string): Evidence -> bool { (e: Evidence) => e.Names(s) }

  function Mentions(evidence: seq<Evidence>, s: string): seq<Evidence> { Filter(evidence, NamesIt(s)) }

  function Trust(evidence: seq<Evidence>, s: string): real { Sum(Map(Mentions(evidence, s), (e: Evidence) => e.confidence)) }

  function Breadth(evidence: seq<Evidence>, s: string): nat { |set e | e in Mentions(evidence, s) :: e.source| }

  /** More confidence in all comes first, then more sources, then the name. */
  predicate Leads(evidence: seq<Evidence>, s: string, t: string) {
    var x, y, m, n := Trust(evidence, s), Trust(evidence, t), Breadth(evidence, s), Breadth(evidence, t);
    x > y || (x == y && (m > n || (m == n && StrLe(s, t))))
  }

  lemma {:induction false} NamedIsMentions(evidence: seq<Evidence>, s: string)
    ensures Named(evidence, s) == Mentions(evidence, s)
  {
    if evidence != [] {
      NamedIsMentions(evidence[1..], s);
    }
  }

  lemma BucketIs(evidence: seq<Evidence>, s: string)
    ensures var b := BucketOf(evidence)(s);
      b.service == s && TotalConfidence(b.items) == Trust(evidence, s) && |Sources(b.items)| == Breadth(evidence, s)
      && b.items == Mentions(evidence, s)
  {
    NamedIsMentions(evidence, s);
    assert Confidences(Mentions(evidence, s)) == Map(Mentions(evidence, s), (e: Evidence) => e.confidence);
  }

  lemma BucketOrder()
    ensures TotalPreorder(BucketBefore)
  {
    StringOrder();
  }

  lemma BucketAt(evidence: seq<Evidence>, k: nat)
    requires k < |Buckets(evidence)|
    ensures var b := Buckets(evidence)[k]; b == BucketOf(evidence)(b.service) && b.service in Names(evidence)
  {
    var unsorted := Map(Names(evidence), BucketOf(evidence));
    SortPermutes(unsorted, BucketBefore);
    SamePermutation(Buckets(evidence), unsorted);
    assert Buckets(evidence)[k] in unsorted;
    var i :| 0 <= i < |unsorted| && unsorted[i] == Buckets(evidence)[k];
    BucketIs(evidence, Names(evidence)[i]);
  }

  /** The proxy predicts every service that is named, each once, the one with the most
      confidence in all first. */
  lemma PredictionsInOrder(evidence: seq<Evidence>, j: nat, k: nat)
    requires j < k < |MultiRanked(evidence).0|
    ensures Leads(evidence, MultiRanked(evidence).0[j], MultiRanked(evidence).0[k])
  {
    var rows := Buckets(evidence);
    BucketOrder();
    SortSorted(Map(Names(evidence), BucketOf(evidence)), BucketBefore);
    assert BucketBefore(rows[j], rows[k]);
    BucketAt(evidence, j);
    BucketAt(evidence, k);
    BucketIs(evidence, rows[j].service);
    BucketIs(evidence, rows[k].service);
  }

  lemma PredictionsAreNamed(evidence: seq<Evidence>)
    ensures Distinct(MultiRanked(evidence).0)
    ensures forall s :: s in MultiRanked(evidence).0 <==> Mentions(evidence, s) != []
  {
    var names, rows := Names(evidence), Buckets(evidence);
    var unsorted := Map(names, BucketOf(evidence));
    SortPermutes(unsorted, BucketBefore);
    MapPermutation(rows, unsorted, (b: Bucket) => b.service);
    assert Map(unsorted, (b: Bucket) => b.service) == names;
    DedupIsDistinct(KeyList(evidence, NameKey()));
    DistinctPermutation(names, MultiRanked(evidence).0);
    SamePermutation(MultiRanked(evidence).0, names);
    forall s ensures s in names <==> Mentions(evidence, s) != [] {
      KeyListMembers(evidence, NameKey(), s);
      NamedIsMentions(evidence, s);
    }
  }

  /** The first three of some lists, one after the other. */
  function Joined(lists: seq<seq<Id>>): seq<Id> {
    (if |lists| > 0 then lists[0] else []) + (if |lists| > 1 then lists[1] else []) + (if |lists| > 2 then lists[2] else [])
  }

  lemma ConcatMore(lists: seq<seq<Id>>, n: nat)
    requires |lists| == n + 1
    ensures Concat(lists) == Concat(lists[..n]) + lists[n]
  {
  }

  lemma ConcatJoins(lists: seq<seq<Id>>)
    ensures Concat(FirstThree(lists)) == Joined(lists)
  {
    var three := FirstThree(lists);
    if |three| > 0 { ConcatMore(three[..1], 0); }
    if |three| > 1 {
      ConcatMore(three[..2], 1);
      assert three[..2][..1] == three[..1];
    }
    if |three| > 2 {
      ConcatMore(three[..3], 2);
      assert three[..3][..2] == three[..2];
    }
    assert three == three[..|three|];
    assert Concat(three[..0]) == [];
  }

  function CitedFor(evidence: seq<Evidence>, services: seq<string>): seq<seq<Id>> {
    Map(services, s => Map(Mentions(evidence, s), (e: Evidence) => e.id))
  }

  /** It claims every item that names one of its first three services. */
  lemma ClaimsOfFirstThree(evidence: seq<Evidence>)
    ensures MultiRanked(evidence).1 == Joined(CitedFor(evidence, MultiRanked(evidence).0))
  {
    var rows := Buckets(evidence);
    var lists := CitedFor(evidence, MultiRanked(evidence).0);
    forall k | 0 <= k < |rows| ensures lists[k] == Ids(rows[k].items) {
      BucketAt(evidence, k);
      BucketIs(evidence, rows[k].service);
    }
    assert BucketIds(FirstThree(rows)) == FirstThree(BucketIds(rows));
    assert BucketIds(rows) == lists;
    ConcatJoins(lists);
  }

  // ---------- a trial of the full system ----------

  function CurrentlyNames(s: string): Evidence -> bool { (e: Evidence) => e.Current() && e.Names(s) }

  /** Three quarters of the strongest item and six hundredths for every source, at most one. */
  function Backed(strongest: real, sources: nat): real {
    var sum := (75.0 * strongest + 6.0 * sources as real) / 100.0;
    if sum > 1.0 then 1.0 else sum
  }

  /** A candidate of the replay: every current item that names its service, in order. */
  ghost predicate Replays(h: Hypothesis, evidence: seq<Evidence>, rank: nat) {
    && h.rank == rank && h.id == "service:" + h.rootCause && h.status == Supported && h.evidenceAgainst == []
    && h.evidenceFor == Map(Filter(evidence, CurrentlyNames(h.rootCause)), (e: Evidence) => e.id)
    && exists strongest :: Strongest(strongest, Naming(evidence, h.rootCause, true))
         && h.confidence == Backed(strongest, |SourcesNaming(evidence, h.rootCause)|)
  }

  lemma ReplaySays(evidence: seq<Evidence>, k: nat)
    requires k < |Replay(evidence)|
    ensures Replays(Replay(evidence)[k], evidence, k + 1) && Replay(evidence)[k].rootCause in NamedServices(evidence)
  {
    var services := Sort(Services(evidence, true), StrLe);
    var h, items := Replay(evidence)[k], ItemsOf(evidence, services[k], true);
    ItemsAreNaming(evidence, services[k], true);
    ConfidenceIsStrongest(items, Naming(evidence, services[k], true));
    assert Sources(items) == SourcesNaming(evidence, services[k]);
    assert h.confidence == Backed(Confidence(items), |Sources(items)|);
    FilterSame(evidence, (e: Evidence) => Counts(e, true) && e.service.value == services[k], CurrentlyNames(services[k]));
    assert Ids(items) == Map(items, (e: Evidence) => e.id);
    SortPermutes(Services(evidence, true), StrLe);
    SamePermutation(services, Services(evidence, true));
    assert services[k] in Services(evidence, true);
    ServicesAreNamed(evidence, services[k]);
  }

  lemma ReplayInOrder(evidence: seq<Evidence>, j: nat, k: nat)
    requires j < k < |Replay(evidence)|
    ensures |Replay(evidence)| == |NamedServices(evidence)|
    ensures Replay(evidence)[j].rootCause != Replay(evidence)[k].rootCause
    ensures StrLe(Replay(evidence)[j].rootCause, Replay(evidence)[k].rootCause)
  {
    var unsorted := Services(evidence, true);
    var services := Sort(unsorted, StrLe);
    StringOrder();
    SortSorted(unsorted, StrLe);
    SortPermutes(unsorted, StrLe);
    SamePermutation(services, unsorted);
    ServicesAre(evidence, true);
    DistinctPermutation(unsorted, services);
    ServiceCount(evidence);
    assert services[j] != services[k] && StrLe(services[j], services[k]);
  }

  function Citations(hs: seq<Hypothesis>): seq<seq<Id>> { Map(hs, (h: Hypothesis) => h.evidenceFor) }

  /** What a trial concludes: the replayed candidates, ranked on what the ablation leaves
      visible and verified unless the ablation says otherwise. */
  function Final(c: Case, a: Option<Ablation>): seq<Hypothesis> {
    var visible := Filter(c.evidence, Visible(a));
    var graph := if a == Some(NoGraph) then None else Some(c.graph);
    var ranked := Ranked(Replay(visible), visible, c.incident, graph);
    if a == Some(NoVerifier) then ranked else Verified(ranked, visible)
  }

  function SourcesOf(items: seq<Evidence>): set<Source> { set e | e in items :: e.source }

  function IsMetric(): Evidence -> bool { (e: Evidence) => e.source.Metrics? }

  /** What a trial records: the root causes in the order of the conclusion, the citations of
      the first three, one tool call for every source that was left, and every id of the case;
      the single-agent ablation instead asks the proxy about the metrics, with one call. */
  lemma TrialSays(c: Case, a: Option<Ablation>, elapsed: real)
    ensures var t, visible := Trialled(c, a, elapsed), Filter(c.evidence, Visible(a));
      && t.truth == c.rootCause && t.latency == elapsed && t.valid == Map(c.evidence, (e: Evidence) => e.id)
      && if a == Some(OneAgent) then (t.predictions, t.claims) == MultiRanked(Filter(visible, IsMetric())) && t.toolCalls == 1
         else
           && |t.predictions| == |Final(c, a)| && (forall k :: 0 <= k < |t.predictions| ==> t.predictions[k] == Final(c, a)[k].rootCause)
           && t.claims == Joined(Citations(Final(c, a))) && t.toolCalls == |SourcesOf(visible)|
  {
    var visible := Filter(c.evidence, Visible(a));
    AblationHides(c.evidence, a);
    assert Ids(c.evidence) == Map(c.evidence, (e: Evidence) => e.id);
    FilterSame(visible, (e: Evidence) => e.source.Metrics?, IsMetric());
    assert Concluded(c, a) == Final(c, a);
    assert Supports(Final(c, a)) == Citations(Final(c, a));
    assert Supports(FirstThree(Final(c, a))) == FirstThree(Supports(Final(c, a)));
    ConcatJoins(Citations(Final(c, a)));
    assert Sources(visible) == SourcesOf(visible);
  }

  // ---------- the metrics ----------

  /** The first prediction is the root cause. */
  function FirstIsRight(): Trial -> bool { (t: Trial) => |t.predictions| > 0 && t.predictions[0] == t.truth }

  /** One of the first three is. */
  function ThreeContain(): Trial -> bool {
    (t: Trial) => exists k :: 0 <= k < |t.predictions| && k < 3 && t.predictions[k] == t.truth
  }

  lemma HitsAre(t: Trial)
    ensures HitsFirst(t) == FirstIsRight()(t) && HitsThree(t) == ThreeContain()(t)
  {
    var three := FirstThree(t.predictions);
    if HitsThree(t) {
      var k :| 0 <= k < |three| && three[k] == t.truth;
      assert t.predictions[k] == t.truth;
    }
    if k :| 0 <= k < |t.predictions| && k < 3 && t.predictions[k] == t.truth {
      assert three[k] == t.truth;
    }
  }

  predicate IsAverage(average: real, n: nat, total: real) { average * n as real == total }

  /** Every average of a report, over the trials it reports. */
  predicate Averages(r: Report, trials: seq<Trial>) {
    var n := |trials|;
    && r.trials == n
    && IsAverage(r.top1, n, |Filter(trials, FirstIsRight())| as real)
    && IsAverage(r.top3, n, |Filter(trials, ThreeContain())| as real)
    && IsAverage(r.meanLatency, n, Sum(Sort(Latencies(trials), RealLe)))
    && IsAverage(r.meanToolCalls, n, Ordering.Total(trials, ToolCalls()) as real)
  }

  lemma RatioIsAverage(part: nat, whole: nat)
    requires whole > 0
    ensures IsAverage(Ratio(part, whole), whole, part as real)
  {
  }

  lemma MeanIsAverage(sum: real, n: nat)
    requires n > 0
    ensures IsAverage(sum / n as real, n, sum)
  {
  }

  lemma SameHits(trials: seq<Trial>)
    ensures |Filter(trials, HitsFirst)| == |Filter(trials, FirstIsRight())| && |Filter(trials, HitsThree)| == |Filter(trials, ThreeContain())|
  {
    forall t | t in trials ensures HitsFirst(t) == FirstIsRight()(t) && HitsThree(t) == ThreeContain()(t) { HitsAre(t); }
    FilterSame(trials, HitsFirst, FirstIsRight());
    FilterSame(trials, HitsThree, ThreeContain());
  }

  lemma ReportCounts(trials: seq<Trial>)
    requires trials != []
    ensures Averages(Aggregated(trials), trials)
  {
    var n := |trials|;
    SameHits(trials);
    RatioIsAverage(|Filter(trials, HitsFirst)|, n);
    RatioIsAverage(|Filter(trials, HitsThree)|, n);
    RatioIsAverage(Ordering.Total(trials, ToolCalls()), n);
    MeanIsAverage(Sum(Sort(Latencies(trials), RealLe)), n);
  }

  /** How many different valid ids a trial claims. */
  function ValidOnes(): Trial -> nat { (t: Trial) => |set i | i in t.claims && i in t.valid| }

  function ClaimCount(): Trial -> nat { (t: Trial) => |t.claims| }

  lemma {:induction false} TotalsAgree(trials: seq<Trial>)
    ensures Ordering.Total(trials, ValidClaims()) == Ordering.Total(trials, ValidOnes())
    ensures Ordering.Total(trials, Claims()) == Ordering.Total(trials, ClaimCount())
  {
    if trials != [] {
      var t := trials[0];
      TotalsAgree(trials[1..]);
      assert ToSet(t.claims) * ToSet(t.valid) == set i | i in t.claims && i in t.valid;
    }
  }

  /** Of everything that was claimed, the precision is the part that is valid, each id counted
      once for its trial, and the hallucination rate is the rest; without a claim both are zero. */
  lemma PrecisionCounts(trials: seq<Trial>)
    requires trials != []
    ensures var r, claims, valid := Aggregated(trials), Ordering.Total(trials, ClaimCount()), Ordering.Total(trials, ValidOnes());
      if claims == 0 then r.precision == 0.0 == r.hallucinated
      else IsAverage(r.precision, claims, valid as real) && IsAverage(r.hallucinated, claims, claims as real - valid as real)
  {
    var claims, valid := Ordering.Total(trials, ClaimCount()), Ordering.Total(trials, ValidOnes());
    TotalsAgree(trials);
    AllValid(trials);
    if claims > 0 {
      RatioIsAverage(valid, claims);
      RatioIsAverage(claims - valid, claims);
    }
  }
}

/** What the deterministic provider returns: which services, in which order, with which
    score, and on which evidence. */
module ProviderLaws {
  import opened Prelude
  import opened Ordering
  import opened Aggregates
  import opened Contracts
  import opened Verifier
  import opened Causal
  import opened CausalLaws
  import opened Provider
  import Pipeline

  // ---------- the services ----------

  /** The services that current items name. */
  function NamedServices(evidence: seq<Evidence>): set<string> {
    set e | e in evidence && e.Current() && e.Named() :: e.service.value
  }

  /** The items that name a service: the current ones, or the historical ones. */
  function Naming(evidence: seq<Evidence>, service: string, current: bool): set<Evidence> {
    set e | e in evidence && e.Names(service) && e.Current() == current
  }

  lemma ServicesAreNamed(evidence: seq<Evidence>, s: string)
    ensures s in Services(evidence, true) <==> s in NamedServices(evidence)
  {
    ServicesAre(evidence, true);
  }

  lemma ItemsAreNaming(evidence: seq<Evidence>, service: string, current: bool)
    ensures forall e :: e in ItemsOf(evidence, service, current) <==> e in Naming(evidence, service, current)
  {
    FilterMembers(evidence, (e: Evidence) => Counts(e, current) && e.service.value == service);
  }

  lemma {:induction false} DistinctSize<T>(xs: seq<T>, s: set<T>)
    requires Distinct(xs) && forall x :: x in xs <==> x in s
    ensures |s| == |xs|
  {
    if xs == [] {
      assert s == {};
    } else {
      var init, last := xs[..|xs| - 1], xs[|xs| - 1];
      assert xs == init + [last];
      forall x ensures x in init <==> x in s - {last} {
        if x in init { var k :| 0 <= k < |init| && init[k] == x; assert xs[k] != xs[|xs| - 1]; }
      }
      DistinctSize(init, s - {last});
    }
  }

  lemma ServiceCount(evidence: seq<Evidence>)
    ensures |Services(evidence, true)| == |NamedServices(evidence)|
  {
    ServicesAre(evidence, true);
    DistinctSize(Services(evidence, true), NamedServices(evidence));
  }

  // ---------- the score ----------

  /** What a service scores by its strongest current item, the number of sources that name it
      and its strongest prior. */
  function Support(strongest: real, sources: nat, prior: real): real {
    var sum := (56.0 * strongest + 5.0 * (if sources < 4 then sources else 4) as real + 4.0 * prior) / 80.0;
    if sum > 1.0 then 1.0 else sum
  }

  function SourcesNaming(evidence: seq<Evidence>, service: string): set<Source> {
    set e | e in Naming(evidence, service, true) :: e.source
  }

  ghost predicate Scores(v: real, evidence: seq<Evidence>, service: string) {
    exists strongest, prior ::
      Strongest(strongest, Naming(evidence, service, true)) && Strongest(prior, Naming(evidence, service, false))
      && v == Support(strongest, |SourcesNaming(evidence, service)|, prior)
  }

  lemma SupportGrows(a: real, m: nat, x: real, b: real, n: nat, y: real)
    requires a <= b && m <= n && x <= y
    ensures Support(a, m, x) <= Support(b, n, y)
  {
  }

  /** The score of a service is what its items support. */
  lemma ScoreSays(evidence: seq<Evidence>, service: string)
    ensures Scores(ProviderScore(evidence, service), evidence, service)
  {
    var items, past := ItemsOf(evidence, service, true), ItemsOf(evidence, service, false);
    ItemsAreNaming(evidence, service, true);
    ItemsAreNaming(evidence, service, false);
    ConfidenceIsStrongest(items, Naming(evidence, service, true));
    ConfidenceIsStrongest(past, Naming(evidence, service, false));
    assert Sources(items) == SourcesNaming(evidence, service);
    assert ProviderScore(evidence, service) == Support(Confidence(items), |SourcesNaming(evidence, service)|, Confidence(past));
  }

  /** For every item there is one among the others that is at least as confident. */
  ghost predicate Matched(items: set<Evidence>, others: set<Evidence>) {
    forall e :: e in items ==> exists f :: f in others && e.confidence <= f.confidence
  }

  lemma StrongestMatched(v: real, items: set<Evidence>, w: real, others: set<Evidence>)
    requires Strongest(v, items) && Strongest(w, others) && Matched(items, others)
    ensures v <= w
  {
    if items != {} {
      var e :| e in items && e.confidence == v;
      var f :| f in others && e.confidence <= f.confidence;
    } else if others != {} {
      var f :| f in others && f.confidence == w;
    }
  }

  /** A service scores no less than another one when its current items and its priors match the
      other's and as many sources name it. */
  lemma ScoreGrows(a: seq<Evidence>, s: string, b: seq<Evidence>, t: string)
    requires Matched(Naming(a, s, true), Naming(b, t, true)) && Matched(Naming(a, s, false), Naming(b, t, false))
    requires |SourcesNaming(a, s)| <= |SourcesNaming(b, t)|
    ensures ProviderScore(a, s) <= ProviderScore(b, t)
  {
    ScoreSays(a, s);
    ScoreSays(b, t);
    var x, p :| Strongest(x, Naming(a, s, true)) && Strongest(p, Naming(a, s, false))
      && ProviderScore(a, s) == Support(x, |SourcesNaming(a, s)|, p);
    var y, q :| Strongest(y, Naming(b, t, true)) && Strongest(q, Naming(b, t, false))
      && ProviderScore(b, t) == Support(y, |SourcesNaming(b, t)|, q);
    StrongestMatched(x, Naming(a, s, true), y, Naming(b, t, true));
    StrongestMatched(p, Naming(a, s, false), q, Naming(b, t, false));
    SupportGrows(x, |SourcesNaming(a, s)|, p, y, |SourcesNaming(b, t)|, q);
  }

  lemma StrongestOfOne(v: real, e: Evidence)
    requires Strongest(v, {e})
    ensures v == e.confidence
  {
    assert e in {e};
  }

  /** One current item and no prior: seven tenths of its confidence, and a sixteenth. */
  lemma OneItemScores(evidence: seq<Evidence>, service: string, e: Evidence)
    requires Naming(evidence, service, true) == {e} && Naming(evidence, service, false) == {}
    ensures ProviderScore(evidence, service) == e.confidence * 0.7 + 0.0625
  {
    ScoreSays(evidence, service);
    var strongest, prior :| Strongest(strongest, {e}) && Strongest(prior, {})
      && ProviderScore(evidence, service) == Support(strongest, |SourcesNaming(evidence, service)|, prior);
    StrongestOfOne(strongest, e);
    assert SourcesNaming(evidence, service) == {e.source};
  }

  // ---------- the evidence of a hypothesis ----------

  predicate FailsBy(mode: string, e: Evidence) {
    && (e.source.Metrics? && e.signal == "error_rate" ==> mode == "elevated request failures")
    && (e.source.Metrics? && e.signal == "p95_latency" ==> mode == "latency regression")
    && (e.source.Metrics? && e.signal == "request_rate" ==> mode == "traffic or availability anomaly")
    && (e.source.Metrics? && e.signal !in {"error_rate", "p95_latency", "request_rate"} ==> mode == "metric anomaly")
    && (e.source.Traces? ==> mode == "dependency-path degradation")
    && (e.source.Logs? ==> mode == "runtime errors")
    && (e.source.Changes? ==> mode == "recent workload change")
    && (e.source.Kubernetes? ==> mode == "workload readiness failure")
    && (e.source.Topology? || e.source.Memory? ==> mode == "service degradation")
  }

  /** The citations of a hypothesis: every current item that names its service, the most
      confident first, and the failure mode that goes with the first of them. */
  ghost predicate RestsOn(h: Hypothesis, evidence: seq<Evidence>, ordered: seq<Evidence>) {
    && Permutation(ordered, Filter(evidence, (e: Evidence) => e.Current() && e.Names(h.rootCause)))
    && (forall j, k :: 0 <= j < k < |ordered| ==>
          || ordered[j].confidence > ordered[k].confidence
          || (ordered[j].confidence == ordered[k].confidence && ordered[j].id <= ordered[k].id))
    && |h.evidenceFor| == |ordered| && (forall k :: 0 <= k < |ordered| ==> h.evidenceFor[k] == ordered[k].id)
    && h.evidenceAgainst == []
    && (ordered != [] ==> FailsBy(h.failureMode, ordered[0]))
  }

  lemma ModeOf(e: Evidence)
    ensures FailsBy(FailureMode(e), e)
  {
  }

  lemma ItemOrder()
    ensures TotalPreorder(ItemBefore)
  {
  }

  lemma HypothesisRests(evidence: seq<Evidence>, c: Candidate, rank: nat, role: AgentRole)
    ensures RestsOn(Hypothesize(evidence, c, rank, role), evidence, Sort(ItemsOf(evidence, c.service, true), ItemBefore))
  {
    var h, items := Hypothesize(evidence, c, rank, role), ItemsOf(evidence, c.service, true);
    var ordered := Sort(items, ItemBefore);
    ItemOrder();
    SortSorted(items, ItemBefore);
    SortPermutes(items, ItemBefore);
    FilterSame(evidence, (e: Evidence) => Counts(e, true) && e.service.value == c.service, (e: Evidence) => e.Current() && e.Names(h.rootCause));
    forall j, k | 0 <= j < k < |ordered| ensures ItemBefore(ordered[j], ordered[k]) {}
    if ordered != [] { ModeOf(ordered[0]); }
  }

  // ---------- the list ----------

  /** Higher scores come first, equal ones by the name of the service. */
  predicate Ahead(evidence: seq<Evidence>, s: string, t: string) {
    var x, y := ProviderScore(evidence, s), ProviderScore(evidence, t);
    x > y || (x == y && StrLe(s, t))
  }

  /** A hypothesis for a service, at a rank. */
  predicate Accuses(h: Hypothesis, evidence: seq<Evidence>, rank: nat, role: AgentRole) {
    && h.rank == rank && h.id == "service:" + h.rootCause && h.generatedBy == role
    && h.confidence == Round6(ProviderScore(evidence, h.rootCause))
    && h.status == if ProviderScore(evidence, h.rootCause) < 0.55 then Weak else Supported
  }

  /** The candidates before they are sorted. */
  function Unsorted(evidence: seq<Evidence>): seq<Candidate> { Map(Services(evidence, true), s => CandidateOf(evidence, s)) }

  lemma CandidatesSorted(evidence: seq<Evidence>)
    ensures Permutation(Unsorted(evidence), Candidates(evidence)) && Sorted(Candidates(evidence), CandidateBefore)
    ensures |Candidates(evidence)| == |NamedServices(evidence)|
  {
    ServiceCount(evidence);
    Pipeline.CandidateOrder();
    SortSorted(Unsorted(evidence), CandidateBefore);
    SortPermutes(Unsorted(evidence), CandidateBefore);
    SamePermutation(Candidates(evidence), Unsorted(evidence));
  }

  lemma CandidateAt(evidence: seq<Evidence>, k: nat)
    requires k < |Candidates(evidence)|
    ensures var c := Candidates(evidence)[k]; c == CandidateOf(evidence, c.service) && c.service in NamedServices(evidence)
  {
    var c := Candidates(evidence)[k];
    CandidatesSorted(evidence);
    SamePermutation(Unsorted(evidence), Candidates(evidence));
    assert c in Unsorted(evidence);
    var i :| 0 <= i < |Unsorted(evidence)| && Unsorted(evidence)[i] == c;
    ServicesAreNamed(evidence, Services(evidence, true)[i]);
  }

  lemma CandidateFor(evidence: seq<Evidence>, t: string) returns (k: nat)
    requires t in NamedServices(evidence)
    ensures k < |Candidates(evidence)| && Candidates(evidence)[k].service == t
  {
    ServicesAreNamed(evidence, t);
    var services := Services(evidence, true);
    var i :| 0 <= i < |services| && services[i] == t;
    CandidatesSorted(evidence);
    SamePermutation(Unsorted(evidence), Candidates(evidence));
    assert Unsorted(evidence)[i] in Candidates(evidence);
    k :| 0 <= k < |Candidates(evidence)| && Candidates(evidence)[k] == Unsorted(evidence)[i];
  }

  lemma UnsortedDistinct(evidence: seq<Evidence>)
    ensures Distinct(Unsorted(evidence))
  {
    var services := Services(evidence, true);
    ServicesAre(evidence, true);
    forall i, j | 0 <= i < j < |services| ensures Unsorted(evidence)[i] != Unsorted(evidence)[j] { assert services[i] != services[j]; }
  }

  lemma CandidatesInOrder(evidence: seq<Evidence>, j: nat, k: nat)
    requires j < k < |Candidates(evidence)|
    ensures var s, t := Candidates(evidence)[j].service, Candidates(evidence)[k].service; s != t && Ahead(evidence, s, t)
  {
    CandidatesSorted(evidence);
    UnsortedDistinct(evidence);
    DistinctPermutation(Unsorted(evidence), Candidates(evidence));
    CandidateAt(evidence, j);
    CandidateAt(evidence, k);
    assert CandidateBefore(Candidates(evidence)[j], Candidates(evidence)[k]);
  }

  ghost predicate Founded(h: Hypothesis, evidence: seq<Evidence>) { exists ordered :: RestsOn(h, evidence, ordered) }

  lemma HypothesisAccuses(evidence: seq<Evidence>, service: string, rank: nat, role: AgentRole)
    ensures var h := Hypothesize(evidence, CandidateOf(evidence, service), rank, role);
      h.rootCause == service && Accuses(h, evidence, rank, role) && Founded(h, evidence)
  {
    HypothesisRests(evidence, CandidateOf(evidence, service), rank, role);
  }

  lemma SynthesizedFrom(incident: Incident, evidence: seq<Evidence>, role: AgentRole)
    requires NamedServices(evidence) != {}
    ensures var out, cs := Synthesized(incident, evidence, role), Candidates(evidence);
      && |out| == (if |cs| < 5 then |cs| else 5)
      && forall k :: 0 <= k < |out| ==> out[k] == Hypothesize(evidence, cs[k], k + 1, role)
  {
    var t :| t in NamedServices(evidence);
    ServicesAreNamed(evidence, t);
  }

  lemma CountOf(incident: Incident, evidence: seq<Evidence>, role: AgentRole)
    requires NamedServices(evidence) != {}
    ensures var n := |NamedServices(evidence)|; |Synthesized(incident, evidence, role)| == if n < 5 then n else 5
  {
    SynthesizedFrom(incident, evidence, role);
    CandidatesSorted(evidence);
  }

  lemma CandidateSays(evidence: seq<Evidence>, c: Candidate, rank: nat, role: AgentRole)
    requires c == CandidateOf(evidence, c.service) && c.service in NamedServices(evidence)
    ensures var h := Hypothesize(evidence, c, rank, role);
      h.rootCause in NamedServices(evidence) && Accuses(h, evidence, rank, role) && Founded(h, evidence)
  {
    HypothesisAccuses(evidence, c.service, rank, role);
  }

  /** When current items name services, the provider accuses the five strongest of them, or all
      if there are fewer, each on all of its evidence. */
  lemma SynthesizedSays(incident: Incident, evidence: seq<Evidence>, role: AgentRole, k: nat)
    requires NamedServices(evidence) != {} && k < |Synthesized(incident, evidence, role)|
    ensures var out, n := Synthesized(incident, evidence, role), |NamedServices(evidence)|;
      && |out| == (if n < 5 then n else 5)
      && out[k].rootCause in NamedServices(evidence) && Accuses(out[k], evidence, k + 1, role)
      && Founded(out[k], evidence)
  {
    CountOf(incident, evidence, role);
    SynthesizedFrom(incident, evidence, role);
    CandidateAt(evidence, k);
    CandidateSays(evidence, Candidates(evidence)[k], k + 1, role);
  }

  /** They come in the order of their scores, and every service at most once. */
  lemma SynthesizedInOrder(incident: Incident, evidence: seq<Evidence>, role: AgentRole, j: nat, k: nat)
    requires NamedServices(evidence) != {} && j < k < |Synthesized(incident, evidence, role)|
    ensures var out := Synthesized(incident, evidence, role);
      && out[j].rootCause != out[k].rootCause && Ahead(evidence, out[j].rootCause, out[k].rootCause)
      && out[j].confidence >= out[k].confidence
  {
    var cs := Candidates(evidence);
    SynthesizedFrom(incident, evidence, role);
    CandidatesInOrder(evidence, j, k);
    CandidateAt(evidence, j);
    CandidateAt(evidence, k);
    Round6Monotone(cs[k].score, cs[j].score);
  }

  /** No service that is left out is ahead of one that is returned. */
  lemma LeftOutIsBehind(incident: Incident, evidence: seq<Evidence>, role: AgentRole, t: string, k: nat)
    requires t in NamedServices(evidence) && k < |Synthesized(incident, evidence, role)|
    requires forall h :: h in Synthesized(incident, evidence, role) ==> h.rootCause != t
    ensures Ahead(evidence, Synthesized(incident, evidence, role)[k].rootCause, t)
  {
    var out := Synthesized(incident, evidence, role);
    SynthesizedFrom(incident, evidence, role);
    var i := CandidateFor(evidence, t);
    assert forall m :: 0 <= m < |out| ==> out[m] in out && out[m].rootCause == Candidates(evidence)[m].service;
    CandidatesInOrder(evidence, k, i);
  }

  predicate Remembered(e: Evidence, evidence: seq<Evidence>) { e in evidence && !e.Current() && e.Named() }

  predicate BestRemembered(e: Evidence, evidence: seq<Evidence>) {
    Remembered(e, evidence) && forall f :: f in evidence && Remembered(f, evidence) ==> f.confidence <= e.confidence
  }

  ghost predicate FallsBackTo(service: string, incident: Incident, evidence: seq<Evidence>) {
    if exists e :: Remembered(e, evidence) then exists e :: BestRemembered(e, evidence) && e.service.value == service
    else service == if incident.affectedService.GetOr("") != "" then incident.affectedService.value else "unknown"
  }

  lemma PriorOfItem(evidence: seq<Evidence>, e: Evidence)
    requires Remembered(e, evidence)
    ensures e.service.value in Services(evidence, false) && e.confidence <= Prior(evidence, e.service.value)
  {
    ServicesAre(evidence, false);
    ItemsAreNaming(evidence, e.service.value, false);
    ConfidenceIsStrongest(ItemsOf(evidence, e.service.value, false), Naming(evidence, e.service.value, false));
    assert e in Naming(evidence, e.service.value, false);
  }

  lemma FallbackIs(incident: Incident, evidence: seq<Evidence>)
    ensures FallsBackTo(FallbackService(incident, evidence), incident, evidence)
  {
    var services := Services(evidence, false);
    ServicesAre(evidence, false);
    if services != [] {
      var best := FallbackService(incident, evidence);
      Pipeline.FirstBestIsBest(evidence, services);
      ItemsAreNaming(evidence, best, false);
      ConfidenceIsStrongest(ItemsOf(evidence, best, false), Naming(evidence, best, false));
      var d :| d in evidence && Counts(d, false) && d.service.value == best;
      assert d in Naming(evidence, best, false);
      var e :| e in Naming(evidence, best, false) && e.confidence == Prior(evidence, best);
      forall f | f in evidence && Remembered(f, evidence) ensures f.confidence <= e.confidence { PriorOfItem(evidence, f); }
      assert BestRemembered(e, evidence);
    } else {
      forall e ensures !Remembered(e, evidence) { if Remembered(e, evidence) { PriorOfItem(evidence, e); } }
    }
  }

  /** Without a service in the current evidence the provider names one service with almost no
      confidence and no citation: one with the strongest prior, else the affected one, else
      `unknown`. */
  lemma FallbackSays(incident: Incident, evidence: seq<Evidence>, role: AgentRole)
    requires NamedServices(evidence) == {}
    ensures var out := Synthesized(incident, evidence, role);
      && |out| == 1 && out[0].rank == 1 && out[0].confidence == 0.05 && out[0].status == Weak
      && out[0].evidenceFor == [] && out[0].evidenceAgainst == [] && out[0].id == "service:" + out[0].rootCause
      && FallsBackTo(out[0].rootCause, incident, evidence)
  {
    assert Services(evidence, true) == [] by {
      if Services(evidence, true) != [] { ServicesAreNamed(evidence, Services(evidence, true)[0]); }
    }
    FallbackIs(incident, evidence);
  }
}

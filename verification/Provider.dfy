/** The deterministic hypothesis provider: one candidate per service named by current
    evidence, and a weak fallback when there is none. */
module Provider {
  import opened Prelude
  import opened Ordering
  import opened Aggregates
  import opened Contracts
  import opened Verifier
  import opened Causal

  // ---------- grouping by service ----------

  function Counts(e: Evidence, current: bool): bool { e.Named() && e.Current() == current }

  /** The services named by current (or by historical) items, in order of first mention:
      the keys of the dictionary the loop fills. */
  function Services(evidence: seq<Evidence>, current: bool): seq<string> {
    if evidence == [] then []
    else
      var rest := Services(evidence[..|evidence| - 1], current);
      var last := evidence[|evidence| - 1];
      if Counts(last, current) && last.service.value !in rest then rest + [last.service.value] else rest
  }

  /** Its entries. */
  function ItemsOf(evidence: seq<Evidence>, service: string, current: bool): seq<Evidence> {
    Filter(evidence, (e: Evidence) => Counts(e, current) && e.service.value == service)
  }

  function Sources(items: seq<Evidence>): set<Source> { set e | e in items :: e.source }

  lemma {:induction false} ServicesAre(evidence: seq<Evidence>, current: bool)
    ensures Distinct(Services(evidence, current))
    ensures forall s :: s in Services(evidence, current) <==>
      exists e :: e in evidence && Counts(e, current) && e.service.value == s
  {
    if evidence != [] {
      var init := evidence[..|evidence| - 1];
      ServicesAre(init, current);
      assert evidence == init + [evidence[|evidence| - 1]];
    }
  }

  lemma ItemsOfNamed(evidence: seq<Evidence>, service: string, current: bool)
    ensures service in Services(evidence, current) <==> ItemsOf(evidence, service, current) != []
  {
    ServicesAre(evidence, current);
    FilterMembers(evidence, (e: Evidence) => Counts(e, current) && e.service.value == service);
    var items := ItemsOf(evidence, service, current);
    if items != [] {
      assert items[0] in items;
    }
  }

  // ---------- candidates ----------

  /** `min(1.0, strongest * 0.70 + min(diversity, 4) * 0.0625 + prior * 0.05)`. */
  function ProviderScore(evidence: seq<Evidence>, service: string): Unit {
    var items := ItemsOf(evidence, service, true);
    var diversity := |Sources(items)|;
    Min(1.0, Confidence(items) * 0.70 + (if diversity <= 4 then diversity else 4) as real * 0.0625
             + Confidence(ItemsOf(evidence, service, false)) * 0.05)
  }

  datatype Candidate = Candidate(score: Unit, service: string)

  /** The sort key `(-score, service)`. */
  predicate CandidateBefore(a: Candidate, b: Candidate) {
    a.score > b.score || (a.score == b.score && StrLe(a.service, b.service))
  }

  function CandidateOf(evidence: seq<Evidence>, service: string): Candidate {
    Candidate(ProviderScore(evidence, service), service)
  }

  function Candidates(evidence: seq<Evidence>): seq<Candidate> {
    Sort(Map(Services(evidence, true), s => CandidateOf(evidence, s)), CandidateBefore)
  }

  /** The sort key `(-confidence, str(id))`. */
  predicate ItemBefore(a: Evidence, b: Evidence) {
    a.confidence > b.confidence || (a.confidence == b.confidence && a.id <= b.id)
  }

  function FailureMode(e: Evidence): string {
    match e.source
    case Metrics =>
      if e.signal == "error_rate" then "elevated request failures"
      else if e.signal == "p95_latency" then "latency regression"
      else if e.signal == "request_rate" then "traffic or availability anomaly"
      else "metric anomaly"
    case Traces => "dependency-path degradation"
    case Logs => "runtime errors"
    case Changes => "recent workload change"
    case Kubernetes => "workload readiness failure"
    case _ => "service degradation"
  }

  function Ids(items: seq<Evidence>): seq<Id> { Map(items, (e: Evidence) => e.id) }

  function Hypothesize(evidence: seq<Evidence>, c: Candidate, rank: nat, role: AgentRole): Hypothesis {
    var ordered := Sort(ItemsOf(evidence, c.service, true), ItemBefore);
    RoundUnit(c.score);
    Hypothesis(
      "service:" + c.service, rank, c.service, if ordered == [] then "" else FailureMode(ordered[0]),
      |ordered|, |Sources(ordered)|, Ids(ordered), [], Round6(c.score),
      if c.score >= 0.55 then Supported else Weak, NO_SCORE, role)
  }

  function Hypothesized(evidence: seq<Evidence>, cs: seq<Candidate>, from: nat, role: AgentRole): (hs: seq<Hypothesis>)
    ensures |hs| == |cs|
    ensures forall k :: 0 <= k < |cs| ==> hs[k] == Hypothesize(evidence, cs[k], from + k, role)
  {
    Enumerate(cs, (c: Candidate, rank: nat) => Hypothesize(evidence, c, rank, role), from)
  }

  // ---------- the fallback ----------

  function Prior(evidence: seq<Evidence>, service: string): Unit { Confidence(ItemsOf(evidence, service, false)) }

  /** `max(services, key=...)`: the first of the best. */
  function FirstBest(evidence: seq<Evidence>, services: seq<string>): string
    requires services != []
  {
    var last := services[|services| - 1];
    if |services| == 1 then last
    else
      var best := FirstBest(evidence, services[..|services| - 1]);
      if Prior(evidence, last) > Prior(evidence, best) then last else best
  }

  function FallbackService(incident: Incident, evidence: seq<Evidence>): string {
    var services := Services(evidence, false);
    if services != [] then FirstBest(evidence, services)
    else if incident.affectedService.Some? && incident.affectedService.value != "" then incident.affectedService.value
    else "unknown"
  }

  function Fallback(service: string, role: AgentRole): Hypothesis {
    Hypothesis("service:" + service, 1, service, "insufficient evidence", 0, 0, [], [], 0.05, Weak, NO_SCORE, role)
  }

  function Synthesized(incident: Incident, evidence: seq<Evidence>, role: AgentRole): seq<Hypothesis> {
    if Services(evidence, true) == [] then [Fallback(FallbackService(incident, evidence), role)]
    else
      var cs := Candidates(evidence);
      Hypothesized(evidence, if |cs| <= 5 then cs else cs[..5], 1, role)
  }

  // ---------- the provider as it is written ----------

  function IfCounted(e: Evidence, s: string, current: bool): seq<Evidence> {
    if Counts(e, current) && e.service.value == s then [e] else []
  }

  lemma GroupGrows(evidence: seq<Evidence>, k: nat, current: bool)
    requires k < |evidence|
    ensures forall s :: ItemsOf(evidence[..k + 1], s, current) == ItemsOf(evidence[..k], s, current) + IfCounted(evidence[k], s, current)
  {
    forall s ensures ItemsOf(evidence[..k + 1], s, current) == ItemsOf(evidence[..k], s, current) + IfCounted(evidence[k], s, current) {
      assert evidence[..k + 1] == evidence[..k] + [evidence[k]];
      FilterAppend(evidence[..k], [evidence[k]], (e: Evidence) => Counts(e, current) && e.service.value == s);
    }
  }

  method Group(evidence: seq<Evidence>, current: bool) returns (services: seq<string>, groups: map<string, seq<Evidence>>)
    ensures services == Services(evidence, current)
    ensures forall s :: s in groups <==> s in services
    ensures forall s :: s in groups ==> groups[s] == ItemsOf(evidence, s, current)
  {
    services, groups := [], map[];
    for k := 0 to |evidence|
      invariant services == Services(evidence[..k], current)
      invariant forall s :: s in groups <==> s in services
      invariant forall s :: s in groups ==> groups[s] == ItemsOf(evidence[..k], s, current)
    {
      var e := evidence[k];
      assert evidence[..k + 1][..k] == evidence[..k];
      GroupGrows(evidence, k, current);
      if Counts(e, current) {
        var s := e.service.value;
        ItemsOfNamed(evidence[..k], s, current);
        groups := groups[s := (if s in groups then groups[s] else []) + [e]];
        if s !in services {
          services := services + [s];
        }
      }
    }
    assert evidence[..|evidence|] == evidence;
  }

  /** A lookup in a dictionary whose missing entries are empty lists. */
  function Listed(groups: map<string, seq<Evidence>>, s: string): seq<Evidence> {
    if s in groups then groups[s] else []
  }

  ghost predicate Grouped(groups: map<string, seq<Evidence>>, evidence: seq<Evidence>, current: bool) {
    forall s :: Listed(groups, s) == ItemsOf(evidence, s, current)
  }

  lemma GroupsAreComplete(groups: map<string, seq<Evidence>>, evidence: seq<Evidence>, current: bool)
    requires forall s :: s in groups <==> s in Services(evidence, current)
    requires forall s :: s in groups ==> groups[s] == ItemsOf(evidence, s, current)
    ensures Grouped(groups, evidence, current)
  {
    forall s ensures Listed(groups, s) == ItemsOf(evidence, s, current) {
      ItemsOfNamed(evidence, s, current);
    }
  }

  method ScoreService(ghost evidence: seq<Evidence>, service: string, byService: map<string, seq<Evidence>>,
                      historical: map<string, seq<Evidence>>)
    returns (c: Candidate)
    requires Grouped(byService, evidence, true) && Grouped(historical, evidence, false)
    ensures c == CandidateOf(evidence, service)
  {
    var items := Listed(byService, service);
    var diversity := |Sources(items)|;
    c := Candidate(
      Min(1.0, Confidence(items) * 0.70 + (if diversity <= 4 then diversity else 4) as real * 0.0625
               + Confidence(Listed(historical, service)) * 0.05), service);
  }

  method ScoreServices(ghost evidence: seq<Evidence>, services: seq<string>, byService: map<string, seq<Evidence>>,
                       historical: map<string, seq<Evidence>>)
    returns (ranked: seq<Candidate>)
    requires Grouped(byService, evidence, true) && Grouped(historical, evidence, false)
    ensures ranked == Map(services, s => CandidateOf(evidence, s))
  {
    ranked := [];
    for k := 0 to |services|
      invariant |ranked| == k
      invariant forall j :: 0 <= j < k ==> ranked[j] == CandidateOf(evidence, services[j])
    {
      var c := ScoreService(evidence, services[k], byService, historical);
      ranked := ranked + [c];
    }
  }

  method Synthesize(incident: Incident, evidence: seq<Evidence>, role: AgentRole) returns (hypotheses: seq<Hypothesis>)
    ensures hypotheses == Synthesized(incident, evidence, role)
  {
    var services, byService := Group(evidence, true);
    if services == [] {
      return [Fallback(FallbackService(incident, evidence), role)];
    }
    var _, historical := Group(evidence, false);
    GroupsAreComplete(byService, evidence, true);
    GroupsAreComplete(historical, evidence, false);
    var ranked := ScoreServices(evidence, services, byService, historical);
    ranked := Sort(ranked, CandidateBefore);
    hypotheses := Hypothesized(evidence, if |ranked| <= 5 then ranked else ranked[..5], 1, role);
  }

  // ---------- drafts from a language model ----------

  /** What a model returned for one hypothesis; its citations can be anything. */
  datatype Draft = Draft(
    id: string, rootCause: string, failureMode: string, evidenceFor: seq<Id>, evidenceAgainst: seq<Id>,
    confidence: Unit, status: HypothesisStatus)

  function FromDraft(d: Draft, m: Index, rank: nat, role: AgentRole): Hypothesis {
    var supporting := Filter(d.evidenceFor, (i: Id) => i in m);
    Hypothesis(
      d.id, rank, d.rootCause, d.failureMode, 0, 0, supporting, Filter(d.evidenceAgainst, (i: Id) => i in m),
      if supporting != [] then d.confidence else Min(d.confidence, 0.2),
      if (d.status.Supported? || d.status.Confirmed?) && supporting == [] then Rejected else d.status, NO_SCORE, role)
  }

  /** The supplied ids: those of some item, whatever the model made of them. */
  ghost function Supplied(evidence: seq<Evidence>): Id -> bool {
    i => exists e :: e in evidence && e.id == i
  }

  predicate WithoutSupport(d: Draft, h: Hypothesis) {
    && (h.status == d.status || (h.status.Rejected? && (d.status.Supported? || d.status.Confirmed?)))
    && (h.confidence == d.confidence || (h.confidence == 0.2 && d.confidence > 0.2))
  }

  /** `h` is `d` with the citations that were not supplied struck out, in order. Without
      support left, a positive status becomes REJECTED and the confidence is capped; nothing
      else changes. */
  ghost predicate DraftKept(d: Draft, h: Hypothesis, evidence: seq<Evidence>) {
    && h.id == d.id && h.rootCause == d.rootCause && h.failureMode == d.failureMode
    && h.evidenceFor == Filter(d.evidenceFor, Supplied(evidence))
    && h.evidenceAgainst == Filter(d.evidenceAgainst, Supplied(evidence))
    && if h.evidenceFor != [] then h.status == d.status && h.confidence == d.confidence
       else !h.Positive() && h.confidence <= 0.2 && WithoutSupport(d, h)
  }

  lemma DraftIsKept(d: Draft, evidence: seq<Evidence>, rank: nat, role: AgentRole)
    ensures DraftKept(d, FromDraft(d, ById(evidence), rank, role), evidence)
  {
    var m := ById(evidence);
    forall i ensures i in m <==> Supplied(evidence)(i) {
      if i in m { assert m[i] in evidence; }
    }
    FilterSame(d.evidenceFor, (i: Id) => i in m, Supplied(evidence));
    FilterSame(d.evidenceAgainst, (i: Id) => i in m, Supplied(evidence));
  }

  /** The filtering loop: afterwards only supplied evidence is cited, unsupported claims are
      capped, and no positive status is left without support, so the hypothesis validator
      cannot reject a model's answer. */
  method FilterDrafts(drafts: seq<Draft>, evidence: seq<Evidence>, role: AgentRole) returns (hs: seq<Hypothesis>)
    ensures |hs| == |drafts|
    ensures forall k :: 0 <= k < |hs| ==> hs[k].rank == k + 1 && hs[k].generatedBy == role && DraftKept(drafts[k], hs[k], evidence)
  {
    var valid := ById(evidence);
    hs := [];
    for k := 0 to |drafts|
      invariant |hs| == k
      invariant forall j :: 0 <= j < k ==> hs[j].rank == j + 1 && hs[j].generatedBy == role && DraftKept(drafts[j], hs[j], evidence)
    {
      DraftIsKept(drafts[k], evidence, k + 1, role);
      hs := hs + [FromDraft(drafts[k], valid, k + 1, role)];
    }
  }
}

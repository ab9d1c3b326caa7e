/** The investigation runner: a fixed plan of evidence tools, budgets with early exits,
    synthesis, ranking and verification. */
module Agents {
  import opened Prelude
  import opened Ordering
  import opened Contracts
  import opened Verifier
  import opened Causal
  import opened IncidentMemory

  // ---------- tools and bundles ----------

  datatype Bundle = Bundle(agent: AgentRole, evidence: seq<Evidence>, toolCalls: seq<ToolCall>, graph: Option<Snapshot>)

  /** How one tool ended: with evidence, or with an exception it turned into an audit. */
  datatype ToolOutcome = Collected(evidence: seq<Evidence>, graph: Option<Snapshot>) | ToolFailed(message: string)

  function SuccessBundle(agent: AgentRole, tool: string, evidence: seq<Evidence>, graph: Option<Snapshot>): Bundle {
    Bundle(agent, evidence, [ToolCall(agent, tool, true, Map(evidence, (e: Evidence) => e.id))], graph)
  }

  function ErrorBundle(agent: AgentRole, tool: string): Bundle {
    Bundle(agent, [], [ToolCall(agent, tool, false, [])], None)
  }

  function BundleOf(agent: AgentRole, tool: string, outcome: ToolOutcome): Bundle {
    match outcome
    case Collected(evidence, graph) => SuccessBundle(agent, tool, evidence, graph)
    case ToolFailed(_) => ErrorBundle(agent, tool)
  }

  function MemoryBundle(matches: seq<Match>): Bundle {
    SuccessBundle(MemoryAgent, "retrieve_similar_incidents", Priors(matches), None)
  }

  datatype Tools = Tools(metrics: ToolOutcome, traces: ToolOutcome, logs: ToolOutcome, changes: ToolOutcome)

  function AgentFor(mode: Mode, specialist: AgentRole): AgentRole {
    if mode.SingleAgent? then Single else specialist
  }

  /** The four bundles of `_single` and of `_multi`, in the order they are assembled. */
  function Collect(mode: Mode, tools: Tools): seq<Bundle> {
    [ BundleOf(AgentFor(mode, MetricsAgent), "analyze_metrics", tools.metrics),
      BundleOf(AgentFor(mode, TracesAgent), "reconstruct_trace_graph", tools.traces),
      BundleOf(AgentFor(mode, LogsAgent), "summarize_error_logs", tools.logs),
      BundleOf(AgentFor(mode, ChangesAgent), "collect_recent_changes", tools.changes) ]
  }

  function AllEvidence(bundles: seq<Bundle>): seq<Evidence> {
    if bundles == [] then [] else bundles[0].evidence + AllEvidence(bundles[1..])
  }

  function AllCalls(bundles: seq<Bundle>): seq<ToolCall> {
    if bundles == [] then [] else bundles[0].toolCalls + AllCalls(bundles[1..])
  }

  function FirstGraph(bundles: seq<Bundle>): Option<Snapshot> {
    if bundles == [] then None
    else if bundles[0].graph.Some? then bundles[0].graph
    else FirstGraph(bundles[1..])
  }

  // ---------- one run ----------

  /** What the outside does during one run. `memory` is absent when no memory is
      configured; a timeout or an exception can end every awaited stage. */
  datatype Stage<T> = Done(value: T) | TimedOut | Threw(error: string)

  datatype Outside = Outside(
    collected: Stage<Tools>, memory: Option<Stage<seq<Match>>>, synthesis: Stage<seq<Hypothesis>>, overtime: bool)

  datatype Limits = Limits(maxLlmCalls: nat, maxToolCalls: nat)

  function RequiredTools(mode: Mode, withMemory: bool): nat {
    4 + if mode.MultiAgent? && withMemory then 1 else 0
  }

  /** The citation and the budget promise about a finished investigation. */
  ghost predicate InCustody(v: Investigation, h: Hypothesis) {
    && (forall i :: i in h.evidenceFor ==>
          && (exists e :: e in v.evidence && e.id == i && e.Current())
          && (exists t :: t in v.toolCalls && t.success && i in t.evidenceIds))
    && (h.Positive() ==> h.evidenceFor != [])
  }

  /** The bundles of a run whose collection and memory both answered. */
  function Assembled(mode: Mode, tools: Tools, memory: Option<Stage<seq<Match>>>): seq<Bundle> {
    Collect(mode, tools)
    + if mode.MultiAgent? && memory.Some? && memory.value.Done? then [MemoryBundle(memory.value.value)] else []
  }

  predicate MemoryAnswered(mode: Mode, memory: Option<Stage<seq<Match>>>) {
    mode.MultiAgent? && memory.Some? ==> memory.value.Done?
  }

  /** Nothing runs out and nothing is thrown: the run comes to a diagnosis. */
  predicate Diagnoses(mode: Mode, limits: Limits, isOpenAi: bool, outside: Outside) {
    && RequiredTools(mode, outside.memory.Some?) <= limits.maxToolCalls
    && outside.collected.Done? && MemoryAnswered(mode, outside.memory) && outside.synthesis.Done?
    && !(isOpenAi && limits.maxLlmCalls == 0)
  }

  predicate Concludes(limits: Limits, isOpenAi: bool, outside: Outside, bundles: seq<Bundle>) {
    |AllCalls(bundles)| <= limits.maxToolCalls && outside.synthesis.Done? && !(isOpenAi && limits.maxLlmCalls == 0)
  }

  function Diagnosis(mode: Mode, incident: Incident, bundles: seq<Bundle>, synthesized: seq<Hypothesis>): seq<Hypothesis> {
    var ranked := Ranked(synthesized, AllEvidence(bundles), incident, FirstGraph(bundles));
    if mode.MultiAgent? then Verified(ranked, AllEvidence(bundles)) else ranked
  }

  predicate Ranks(hs: seq<Hypothesis>) {
    && (forall k :: 0 <= k < |hs| ==> hs[k].rank == k + 1)
    && (forall j, k :: 0 <= j < k < |hs| ==> hs[j].confidence >= hs[k].confidence)
  }

  // ---------- chain of custody ----------

  predicate Audited(b: Bundle) {
    |b.toolCalls| == 1 && (forall e :: e in b.evidence ==> b.toolCalls[0].success && e.id in b.toolCalls[0].evidenceIds)
  }

  lemma {:induction false} EvidenceIsAudited(bundles: seq<Bundle>, e: Evidence)
    requires (forall b :: b in bundles ==> Audited(b)) && e in AllEvidence(bundles)
    ensures exists t :: t in AllCalls(bundles) && t.success && e.id in t.evidenceIds
  {
    assert bundles[0] in bundles;
    if e in bundles[0].evidence {
      assert bundles[0].toolCalls[0] in AllCalls(bundles);
    } else {
      EvidenceIsAudited(bundles[1..], e);
      var t :| t in AllCalls(bundles[1..]) && t.success && e.id in t.evidenceIds;
      assert t in AllCalls(bundles);
    }
  }

  lemma Custody(ranked: seq<Hypothesis>, bundles: seq<Bundle>, v: Investigation)
    requires forall b :: b in bundles ==> Audited(b)
    requires v.evidence == AllEvidence(bundles) && v.toolCalls == AllCalls(bundles)
    requires v.hypotheses == Verified(ranked, v.evidence)
    ensures forall h :: h in v.hypotheses ==> InCustody(v, h)
  {
    forall h | h in v.hypotheses ensures InCustody(v, h) {
      var k :| 0 <= k < |v.hypotheses| && v.hypotheses[k] == h;
      VerifiedGrounded(ranked, v.evidence, k);
      forall i | i in h.evidenceFor
        ensures exists t :: t in v.toolCalls && t.success && i in t.evidenceIds
      {
        var e :| e in v.evidence && e.id == i && e.Current();
        EvidenceIsAudited(bundles, e);
      }
    }
  }

  // ---------- a run as it is written ----------

  /** Rank what the provider returned and, in a multi-agent run, verify it. */
  method Conclude(incident: Incident, ghost bundles: seq<Bundle>, assembled: Investigation, synthesized: seq<Hypothesis>, overtime: bool)
    returns (v: Investigation)
    requires forall b :: b in bundles ==> Audited(b)
    requires assembled.evidence == AllEvidence(bundles) && assembled.toolCalls == AllCalls(bundles)
    requires assembled.graph == FirstGraph(bundles)
    ensures v == assembled.(
      hypotheses := Diagnosis(assembled.mode, incident, bundles, synthesized),
      status := if overtime then BudgetExhausted else InvestigationStatus.Completed)
    ensures Ranks(v.hypotheses)
    ensures v.mode.MultiAgent? ==> forall h :: h in v.hypotheses ==> InCustody(v, h)
  {
    var ranked := Rank(synthesized, assembled.evidence, incident, assembled.graph);
    RankedIsRanking(synthesized, assembled.evidence, incident, assembled.graph);
    v := assembled.(hypotheses := ranked, status := if overtime then BudgetExhausted else InvestigationStatus.Completed);
    if assembled.mode.MultiAgent? {
      var verified := Verify(ranked, assembled.evidence);
      VerifiedIsRanking(ranked, assembled.evidence);
      v := v.(hypotheses := verified);
      Custody(ranked, bundles, v);
    }
  }

  /** The run from the budget check on: ask the provider, rank and verify. */
  method Synthesize(incident: Incident, forbidden: bool, synthesis: Stage<seq<Hypothesis>>, overtime: bool, ghost bundles: seq<Bundle>,
                    assembled: Investigation)
    returns (r: Result<Investigation, string>)
    requires forall b :: b in bundles ==> Audited(b)
    requires assembled.evidence == AllEvidence(bundles) && assembled.toolCalls == AllCalls(bundles) && assembled.graph == FirstGraph(bundles)
    ensures forbidden || synthesis.TimedOut? ==> r == Ok(assembled)
    ensures !forbidden && synthesis.Threw? ==> r == Err(synthesis.error)
    ensures !forbidden && synthesis.Done? ==> r == Ok(assembled.(
      hypotheses := Diagnosis(assembled.mode, incident, bundles, synthesis.value),
      status := if overtime then BudgetExhausted else InvestigationStatus.Completed))
    ensures !forbidden && synthesis.Done? ==> Ranks(r.value.hypotheses)
    ensures !forbidden && synthesis.Done? && assembled.mode.MultiAgent? ==> forall h :: h in r.value.hypotheses ==> InCustody(r.value, h)
  {
    if forbidden {
      return Ok(assembled);
    }
    if synthesis.TimedOut? {
      return Ok(assembled);
    }
    if synthesis.Threw? {
      return Err(synthesis.error);
    }
    var concluded := Conclude(incident, bundles, assembled, synthesis.value, overtime);
    return Ok(concluded);
  }

  /** The run from the assembled bundles on. */
  method FromBundles(incident: Incident, limits: Limits, isOpenAi: bool, outside: Outside, bundles: seq<Bundle>, exhausted: Investigation)
    returns (r: Result<Investigation, string>)
    requires forall b :: b in bundles ==> Audited(b)
    requires exhausted.status.BudgetExhausted? && exhausted.hypotheses == []
    ensures Concludes(limits, isOpenAi, outside, bundles) ==>
      r == Ok(exhausted.(
        status := if outside.overtime then BudgetExhausted else InvestigationStatus.Completed, evidence := AllEvidence(bundles),
        hypotheses := Diagnosis(exhausted.mode, incident, bundles, outside.synthesis.value),
        toolCalls := AllCalls(bundles), graph := FirstGraph(bundles)))
    ensures !Concludes(limits, isOpenAi, outside, bundles) && r.Ok? ==>
      && r.value == exhausted.(evidence := AllEvidence(bundles), toolCalls := r.value.toolCalls, graph := FirstGraph(bundles))
    ensures r.Ok? ==> |r.value.toolCalls| <= limits.maxToolCalls && Ranks(r.value.hypotheses)
    ensures r.Ok? && exhausted.mode.MultiAgent? ==> forall h :: h in r.value.hypotheses ==> InCustody(r.value, h)
    ensures r.Err? ==> outside.synthesis.Threw?
  {
    var toolCalls := AllCalls(bundles);
    var assembled := exhausted.(evidence := AllEvidence(bundles), toolCalls := toolCalls, graph := FirstGraph(bundles));
    if |toolCalls| > limits.maxToolCalls {
      return Ok(assembled.(toolCalls := toolCalls[..limits.maxToolCalls]));
    }
    r := Synthesize(incident, isOpenAi && limits.maxLlmCalls == 0, outside.synthesis, outside.overtime, bundles, assembled);
  }

  // ---------- the fixed tool plan ----------

  /** A successful bundle's audit lists exactly the evidence it carries. */
  lemma SuccessAudited(agent: AgentRole, tool: string, evidence: seq<Evidence>, graph: Option<Snapshot>)
    ensures var b := SuccessBundle(agent, tool, evidence, graph);
      Audited(b) && forall i :: i in b.toolCalls[0].evidenceIds <==> exists e :: e in b.evidence && e.id == i
  {
    var ids := Map(evidence, (e: Evidence) => e.id);
    forall e | e in evidence ensures e.id in ids {
      var k :| 0 <= k < |evidence| && evidence[k] == e;
      assert ids[k] == e.id;
    }
    forall i | i in ids ensures exists e :: e in evidence && e.id == i {
      var k :| 0 <= k < |ids| && ids[k] == i;
      assert evidence[k].id == i;
    }
  }

  lemma BundlesAreAudited(agent: AgentRole, tool: string, outcome: ToolOutcome)
    ensures Audited(BundleOf(agent, tool, outcome))
  {
    if outcome.Collected? {
      SuccessAudited(agent, tool, outcome.evidence, outcome.graph);
    }
  }

  lemma {:induction false} OneCallEach(bundles: seq<Bundle>)
    requires forall b :: b in bundles ==> Audited(b)
    ensures |AllCalls(bundles)| == |bundles|
  {
    if bundles != [] {
      assert bundles[0] in bundles;
      OneCallEach(bundles[1..]);
    }
  }

  /** Every tool leaves exactly one audit, so the plan uses exactly the calls it
      announced: the budget check after collection can never fire. */
  lemma ToolPlanFits(mode: Mode, tools: Tools, memory: Option<Stage<seq<Match>>>, bundles: seq<Bundle>)
    requires MemoryAnswered(mode, memory) && bundles == Assembled(mode, tools, memory)
    ensures forall b :: b in bundles ==> Audited(b)
    ensures |AllCalls(bundles)| == |bundles| == RequiredTools(mode, memory.Some?)
  {
    BundlesAreAudited(AgentFor(mode, MetricsAgent), "analyze_metrics", tools.metrics);
    BundlesAreAudited(AgentFor(mode, TracesAgent), "reconstruct_trace_graph", tools.traces);
    BundlesAreAudited(AgentFor(mode, LogsAgent), "summarize_error_logs", tools.logs);
    BundlesAreAudited(AgentFor(mode, ChangesAgent), "collect_recent_changes", tools.changes);
    if mode.MultiAgent? && memory.Some? {
      SuccessAudited(MemoryAgent, "retrieve_similar_incidents", Priors(memory.value.value), None);
    }
    OneCallEach(bundles);
  }

  // ---------- the whole run ----------

  /** `run`. Whatever the tools, the memory and the provider return, no exit records more
      tool calls than the budget allows, and a multi-agent run keeps the chain of custody.
      A provider is free to invent citations; none of them survives. */
  method Run(id: Id, incident: Incident, mode: Mode, limits: Limits, isOpenAi: bool, outside: Outside)
    returns (r: Result<Investigation, string>)
    ensures r.Ok? ==>
      && |r.value.toolCalls| <= limits.maxToolCalls
      && r.value.id == id && r.value.incidentId == incident.id && r.value.mode == mode
      && Ranks(r.value.hypotheses)
      && (r.value.status.Completed? ==> RequiredTools(mode, outside.memory.Some?) == |r.value.toolCalls|)
    ensures r.Ok? && mode.MultiAgent? ==> forall h :: h in r.value.hypotheses ==> InCustody(r.value, h)
    ensures Diagnoses(mode, limits, isOpenAi, outside) ==>
      var bundles := Assembled(mode, outside.collected.value, outside.memory);
      r == Ok(Investigation(
        id, incident.id, mode, if outside.overtime then BudgetExhausted else InvestigationStatus.Completed, AllEvidence(bundles),
        Diagnosis(mode, incident, bundles, outside.synthesis.value), AllCalls(bundles), FirstGraph(bundles)))
    ensures !Diagnoses(mode, limits, isOpenAi, outside) && r.Ok? ==> r.value.status.BudgetExhausted? && r.value.hypotheses == []
    ensures r.Err? ==> outside.collected.Threw? || outside.synthesis.Threw? || (outside.memory.Some? && outside.memory.value.Threw?)
  {
    var exhausted := Investigation(id, incident.id, mode, BudgetExhausted, [], [], [], None);
    if limits.maxToolCalls < RequiredTools(mode, outside.memory.Some?) {
      return Ok(exhausted);
    }
    if outside.collected.TimedOut? {
      return Ok(exhausted);
    }
    if outside.collected.Threw? {
      return Err(outside.collected.error);
    }
    var bundles := Collect(mode, outside.collected.value);
    if mode.MultiAgent? && outside.memory.Some? {
      var remembered := outside.memory.value;
      if remembered.TimedOut? {
        return Ok(exhausted.(evidence := AllEvidence(bundles)));
      }
      if remembered.Threw? {
        return Err(remembered.error);
      }
      bundles := bundles + [MemoryBundle(remembered.value)];
    }
    assert bundles == Assembled(mode, outside.collected.value, outside.memory);
    ToolPlanFits(mode, outside.collected.value, outside.memory, bundles);
    r := FromBundles(incident, limits, isOpenAi, outside, bundles, exhausted);
  }

  // ---------- what is collected ----------

  function EvidenceOf(outcome: ToolOutcome): seq<Evidence> { if outcome.Collected? then outcome.evidence else [] }

  function GraphIn(outcome: ToolOutcome): Option<Snapshot> { if outcome.Collected? then outcome.graph else None }

  function EitherGraph(a: Option<Snapshot>, b: Option<Snapshot>): Option<Snapshot> { if a.Some? then a else b }

  lemma Associates(x: seq<Evidence>, y: seq<Evidence>, z: seq<Evidence>)
    ensures x + (y + z) == x + y + z
  {
  }

  lemma {:induction false} EvidenceAppends(a: seq<Bundle>, b: seq<Bundle>)
    ensures AllEvidence(a + b) == AllEvidence(a) + AllEvidence(b)
  {
    if a == [] {
      assert a + b == b;
    } else {
      EvidenceAppends(a[1..], b);
      assert (a + b)[1..] == a[1..] + b && (a + b)[0] == a[0];
      Associates(a[0].evidence, AllEvidence(a[1..]), AllEvidence(b));
    }
  }

  lemma {:induction false} GraphAppends(a: seq<Bundle>, b: seq<Bundle>)
    ensures FirstGraph(a + b) == EitherGraph(FirstGraph(a), FirstGraph(b))
  {
    if a == [] {
      assert a + b == b;
    } else {
      GraphAppends(a[1..], b);
      assert (a + b)[1..] == a[1..] + b;
    }
  }

  lemma OneBundle(b: Bundle)
    ensures AllEvidence([b]) == b.evidence && FirstGraph([b]) == b.graph
  {
    assert [b][1..] == [];
  }

  lemma TwoBundles(a: Bundle, b: Bundle)
    ensures AllEvidence([a, b]) == a.evidence + b.evidence && FirstGraph([a, b]) == EitherGraph(a.graph, b.graph)
  {
    OneBundle(a);
    OneBundle(b);
    EvidenceAppends([a], [b]);
    GraphAppends([a], [b]);
    assert [a] + [b] == [a, b];
  }

  lemma FourBundles(a: Bundle, b: Bundle, c: Bundle, d: Bundle)
    ensures AllEvidence([a, b, c, d]) == a.evidence + b.evidence + c.evidence + d.evidence
    ensures FirstGraph([a, b, c, d]) == EitherGraph(EitherGraph(a.graph, b.graph), EitherGraph(c.graph, d.graph))
  {
    TwoBundles(a, b);
    TwoBundles(c, d);
    EvidenceAppends([a, b], [c, d]);
    GraphAppends([a, b], [c, d]);
    assert [a, b] + [c, d] == [a, b, c, d];
    Associates(a.evidence + b.evidence, c.evidence, d.evidence);
  }

  lemma CollectedSays(mode: Mode, tools: Tools)
    ensures AllEvidence(Collect(mode, tools))
      == EvidenceOf(tools.metrics) + EvidenceOf(tools.traces) + EvidenceOf(tools.logs) + EvidenceOf(tools.changes)
    ensures FirstGraph(Collect(mode, tools))
      == EitherGraph(EitherGraph(GraphIn(tools.metrics), GraphIn(tools.traces)), EitherGraph(GraphIn(tools.logs), GraphIn(tools.changes)))
  {
    var four := Collect(mode, tools);
    FourBundles(four[0], four[1], four[2], four[3]);
  }

  /** A run looks at what the tools found, in the order metrics, traces, logs, changes, and in a
      multi-agent run at what it remembers; the graph is the first one a tool gave. */
  lemma AssembledSays(mode: Mode, tools: Tools, memory: Option<Stage<seq<Match>>>)
    ensures AllEvidence(Assembled(mode, tools, memory))
      == EvidenceOf(tools.metrics) + EvidenceOf(tools.traces) + EvidenceOf(tools.logs) + EvidenceOf(tools.changes)
      + (if mode.MultiAgent? && memory.Some? && memory.value.Done? then Priors(memory.value.value) else [])
    ensures FirstGraph(Assembled(mode, tools, memory))
      == EitherGraph(EitherGraph(GraphIn(tools.metrics), GraphIn(tools.traces)), EitherGraph(GraphIn(tools.logs), GraphIn(tools.changes)))
  {
    var four := Collect(mode, tools);
    CollectedSays(mode, tools);
    if mode.MultiAgent? && memory.Some? && memory.value.Done? {
      var last := MemoryBundle(memory.value.value);
      EvidenceAppends(four, [last]);
      GraphAppends(four, [last]);
      OneBundle(last);
    } else {
      assert Assembled(mode, tools, memory) == four;
    }
  }

  /** What the audit of one tool says. */
  predicate Recorded(call: ToolCall, agent: AgentRole, tool: string, outcome: ToolOutcome) {
    && call.agent == agent && call.tool == tool && call.success == outcome.Collected?
    && |call.evidenceIds| == |EvidenceOf(outcome)| && forall k :: 0 <= k < |call.evidenceIds| ==> call.evidenceIds[k] == EvidenceOf(outcome)[k].id
  }

  lemma OneCall(agent: AgentRole, tool: string, outcome: ToolOutcome)
    ensures var calls := BundleOf(agent, tool, outcome).toolCalls; |calls| == 1 && Recorded(calls[0], agent, tool, outcome)
  {
  }

  lemma CallsOfFour(a: Bundle, b: Bundle, c: Bundle, d: Bundle)
    ensures AllCalls([a, b, c, d]) == a.toolCalls + b.toolCalls + c.toolCalls + d.toolCalls
  {
    assert [a, b, c, d][1..] == [b, c, d] && [b, c, d][1..] == [c, d] && [c, d][1..] == [d] && [d][1..] == [];
    assert AllCalls([d]) == d.toolCalls;
    assert AllCalls([c, d]) == c.toolCalls + d.toolCalls;
    assert AllCalls([b, c, d]) == b.toolCalls + c.toolCalls + d.toolCalls;
  }

  /** Every tool is audited under its name and agent, as successful if and only if it collected,
      with the ids of what it found. */
  lemma CallsSay(mode: Mode, tools: Tools)
    ensures var calls := AllCalls(Collect(mode, tools));
      && |calls| == 4
      && Recorded(calls[0], if mode.SingleAgent? then Single else MetricsAgent, "analyze_metrics", tools.metrics)
      && Recorded(calls[1], if mode.SingleAgent? then Single else TracesAgent, "reconstruct_trace_graph", tools.traces)
      && Recorded(calls[2], if mode.SingleAgent? then Single else LogsAgent, "summarize_error_logs", tools.logs)
      && Recorded(calls[3], if mode.SingleAgent? then Single else ChangesAgent, "collect_recent_changes", tools.changes)
  {
    var four := Collect(mode, tools);
    OneCall(AgentFor(mode, MetricsAgent), "analyze_metrics", tools.metrics);
    OneCall(AgentFor(mode, TracesAgent), "reconstruct_trace_graph", tools.traces);
    OneCall(AgentFor(mode, LogsAgent), "summarize_error_logs", tools.logs);
    OneCall(AgentFor(mode, ChangesAgent), "collect_recent_changes", tools.changes);
    CallsOfFour(four[0], four[1], four[2], four[3]);
  }

  // ---------- the single-agent baseline keeps no custody ----------

  predicate CitesOnlyCurrent(h: Hypothesis, evidence: seq<Evidence>) {
    forall i :: i in h.evidenceFor ==> exists e :: e in evidence && e.id == i && e.Current()
  }

  /** Where a hypothesis is ranked, with its citations. */
  lemma RankedWhere(hs: seq<Hypothesis>, evidence: seq<Evidence>, incident: Incident, graph: Option<Snapshot>, j: nat) returns (k: nat)
    requires j < |hs|
    ensures k < |Ranked(hs, evidence, incident, graph)|
    ensures Ranked(hs, evidence, incident, graph)[k].evidenceFor == hs[j].evidenceFor
  {
    var rows := Rows(hs, evidence, incident, graph);
    SortPermutes(rows, RowBefore);
    assert rows[j] in Sort(rows, RowBefore);
    k :| 0 <= k < |rows| && Sort(rows, RowBefore)[k] == rows[j];
  }

  /** Without the verifier the citations are exactly as good as the provider's. */
  lemma SingleAgentCustodyIff(hs: seq<Hypothesis>, evidence: seq<Evidence>, incident: Incident, graph: Option<Snapshot>)
    ensures (forall h :: h in Ranked(hs, evidence, incident, graph) ==> CitesOnlyCurrent(h, evidence))
      <==> (forall h :: h in hs ==> CitesOnlyCurrent(h, evidence))
  {
    var out := Ranked(hs, evidence, incident, graph);
    if forall h :: h in out ==> CitesOnlyCurrent(h, evidence) {
      forall h | h in hs ensures CitesOnlyCurrent(h, evidence) {
        var j :| 0 <= j < |hs| && hs[j] == h;
        var k := RankedWhere(hs, evidence, incident, graph, j);
        assert out[k] in out && out[k].evidenceFor == h.evidenceFor;
      }
    }
    if forall h :: h in hs ==> CitesOnlyCurrent(h, evidence) {
      forall h | h in out ensures CitesOnlyCurrent(h, evidence) {
        var k :| 0 <= k < |out| && out[k] == h;
        var j := RankedFrom(hs, evidence, incident, graph, k);
        assert hs[j] in hs && h.evidenceFor == hs[j].evidenceFor;
      }
    }
  }

  /** An invented citation survives a single-agent run on no evidence at all. */
  lemma SingleAgentKeepsInventions(incident: Incident)
    ensures var h := Hypothesis("h", 1, "cart", "x", 0, 0, [7], [], 1.0, Supported, NO_SCORE, Single);
      exists k :: 0 <= k < |Ranked([h], [], incident, None)| && !CitesOnlyCurrent(Ranked([h], [], incident, None)[k], [])
  {
    var h := Hypothesis("h", 1, "cart", "x", 0, 0, [7], [], 1.0, Supported, NO_SCORE, Single);
    var j := 0;
    RankedIsRanking([h], [], incident, None);
    j := RankedFrom([h], [], incident, None, 0);
    assert 7 in Ranked([h], [], incident, None)[0].evidenceFor;
  }
}

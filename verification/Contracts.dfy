/** The typed records the investigation and topology code exchanges.
    A `Unit` field is one the API declares with `ge=0, le=1`. Copies made with
    `model_copy` skip that validation there; here the type makes every copy prove it. */
module Contracts {
  import opened Prelude

  type Id = nat
  type Time = real
  type Unit = x: real | 0.0 <= x <= 1.0

  // ---------- topology ----------

  datatype ServiceNode = ServiceNode(service: string, spanCount: nat, traceCount: nat, errorCount: nat, errorRate: real)

  datatype ServiceEdge = ServiceEdge(
    caller: string, callee: string, requestCount: nat, traceCount: nat, failureCount: nat, errorRate: real,
    requestRate: real, p50: real, p95: real, p99: real, firstSeen: Time, lastSeen: Time)

  datatype Snapshot = Snapshot(traceCount: nat, nodes: seq<ServiceNode>, edges: seq<ServiceEdge>)

  // ---------- investigation ----------

  datatype Source = Metrics | Traces | Logs | Changes | Kubernetes | Topology | Memory

  datatype Origin = Current | HistoricalPrior

  /** An attribute value: Python's `int | float` (a `bool` is an `int`), or anything else. */
  datatype Attribute = Number(number: real) | Other

  datatype Evidence = Evidence(
    id: Id, source: Source, origin: Origin, service: Option<string>, signal: string, confidence: Unit,
    observedAt: Time, attributes: map<string, Attribute>)
  {
    predicate Current() { origin.Current? }

    /** `if item.service`: present and not the empty string. */
    predicate Names(s: string) { s != "" && service == Some(s) }

    predicate Named() { service.Some? && service.value != "" }
  }

  datatype HypothesisStatus = Active | Supported | Weak | Rejected | Confirmed

  datatype CausalScore = CausalScore(
    anomaly: Unit, temporal: Unit, criticality: Unit, consistency: Unit, logEvidence: Unit, change: Unit,
    memory: Unit, contradiction: Unit, total: Unit)

  const NO_SCORE := CausalScore(0.0, 0.0, 0.0, 0.0, 0.0, 0.0, 0.0, 0.0, 0.0)

  datatype AgentRole = Single | Manager | MetricsAgent | TracesAgent | LogsAgent | ChangesAgent | Verifier | MemoryAgent

  /** `observations` and `sources` are the two counts the description text is built from. */
  datatype Hypothesis = Hypothesis(
    id: string, rank: nat, rootCause: string, failureMode: string, observations: nat, sources: nat,
    evidenceFor: seq<Id>, evidenceAgainst: seq<Id>, confidence: Unit, status: HypothesisStatus,
    score: CausalScore, generatedBy: AgentRole)
  {
    predicate Positive() { status.Supported? || status.Confirmed? }
  }

  datatype Incident = Incident(id: Id, affectedService: Option<string>, start: Time, end: Time)

  datatype ToolCall = ToolCall(agent: AgentRole, tool: string, success: bool, evidenceIds: seq<Id>)

  datatype Mode = SingleAgent | MultiAgent

  datatype InvestigationStatus = Completed | BudgetExhausted

  datatype Investigation = Investigation(
    id: Id, incidentId: Id, mode: Mode, status: InvestigationStatus, evidence: seq<Evidence>,
    hypotheses: seq<Hypothesis>, toolCalls: seq<ToolCall>, graph: Option<Snapshot>)

  // ---------- evidence by id ----------

  /** `{item.id: item for item in evidence}`: the last item with an id wins. */
  function ById(evidence: seq<Evidence>): (m: map<Id, Evidence>)
    ensures forall k :: k in m ==> m[k] in evidence && m[k].id == k
    ensures forall e :: e in evidence ==> e.id in m
  {
    if evidence == [] then map[]
    else
      var last := evidence[|evidence| - 1];
      ById(evidence[..|evidence| - 1])[last.id := last]
  }

  /** Ids are unique: an id determines the item. */
  ghost predicate UniqueIds(evidence: seq<Evidence>) {
    forall i, j :: 0 <= i < j < |evidence| ==> evidence[i].id != evidence[j].id
  }

  lemma ByIdOfUnique(evidence: seq<Evidence>, e: Evidence)
    requires UniqueIds(evidence) && e in evidence
    ensures ById(evidence)[e.id] == e
  {
    var m := ById(evidence);
    assert m[e.id] in evidence;
  }
}

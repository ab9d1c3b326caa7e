/** The causal ranker: published weights over graph, time and evidence. */
module Causal {
  import opened Prelude
  import opened Ordering
  import opened Aggregates
  import opened Contracts
  import opened Verifier
  import opened ServiceGraph
  import opened GraphScores

  // ---------- the ingredients ----------

  /** The cited items that are there. */
  function Cited(ids: seq<Id>, m: Index): seq<Evidence> {
    if ids == [] then []
    else if ids[0] in m then [m[ids[0]]] + Cited(ids[1..], m)
    else Cited(ids[1..], m)
  }

  function OfSource(items: seq<Evidence>, source: Source): seq<Evidence> {
    Filter(items, (e: Evidence) => e.source == source)
  }

  function Confidences(items: seq<Evidence>): seq<real> { Map(items, (e: Evidence) => e.confidence) }

  lemma ConfidencesInUnit(items: seq<Evidence>)
    ensures forall x :: x in Confidences(items) ==> 0.0 <= x <= 1.0
    ensures 0.0 <= MaxOf(Confidences(items), 0.0) <= 1.0
  {
    forall x | x in Confidences(items) ensures 0.0 <= x <= 1.0 {
      var k :| 0 <= k < |items| && Confidences(items)[k] == x;
      assert x == items[k].confidence;
    }
    MaxOfBounds(Confidences(items), 0.0, 0.0, 1.0);
  }

  /** `_confidence`. */
  function Confidence(items: seq<Evidence>): Unit {
    ConfidencesInUnit(items);
    MaxOf(Confidences(items), 0.0)
  }

  /** The clamped numeric values of an attribute, with the confidence where it is missing. */
  function Values(items: seq<Evidence>, attribute: string): seq<real> {
    if items == [] then []
    else
      var e := items[0];
      var rest := Values(items[1..], attribute);
      if attribute !in e.attributes then [Clamp01(e.confidence)] + rest
      else if e.attributes[attribute].Number? then [Clamp01(e.attributes[attribute].number)] + rest
      else rest
  }

  lemma {:induction false} ValuesInUnit(items: seq<Evidence>, attribute: string)
    ensures forall x :: x in Values(items, attribute) ==> 0.0 <= x <= 1.0
    ensures 0.0 <= MaxOf(Values(items, attribute), 0.0) <= 1.0
  {
    if items != [] {
      ValuesInUnit(items[1..], attribute);
    }
    MaxOfBounds(Values(items, attribute), 0.0, 0.0, 1.0);
  }

  /** `_maximum`. */
  function Maximum(items: seq<Evidence>, attribute: string): Unit {
    ValuesInUnit(items, attribute);
    MaxOf(Values(items, attribute), 0.0)
  }

  function Precedence(e: Evidence, incident: Incident): Unit {
    var duration := Max(1.0, incident.end - incident.start);
    Clamp01(1.0 - Max(0.0, e.observedAt - incident.start) / duration)
  }

  lemma TemporalInUnit(items: seq<Evidence>, incident: Incident)
    ensures 0.0 <= MaxOf(Map(items, (e: Evidence) => Precedence(e, incident) as real), 0.0) <= 1.0
  {
    var ps := Map(items, (e: Evidence) => Precedence(e, incident) as real);
    forall x | x in ps ensures 0.0 <= x <= 1.0 {
      var k :| 0 <= k < |items| && ps[k] == x;
    }
    MaxOfBounds(ps, 0.0, 0.0, 1.0);
  }

  /** `_temporal_precedence`. */
  function Temporal(items: seq<Evidence>, incident: Incident): Unit {
    TemporalInUnit(items, incident);
    MaxOf(Map(items, (e: Evidence) => Precedence(e, incident) as real), 0.0)
  }

  function Memories(evidence: seq<Evidence>, service: string): seq<Evidence> {
    Filter(evidence, (e: Evidence) => e.source.Memory? && e.service == Some(service))
  }

  // ---------- the score ----------

  function Raw(s: CausalScore): real {
    0.25 * s.anomaly + 0.20 * s.temporal + 0.20 * s.criticality + 0.15 * s.consistency
    + 0.10 * s.logEvidence + 0.05 * s.change + 0.05 * s.memory
  }

  function Total(s: CausalScore): Unit { Clamp01(Raw(s) * (1.0 - 0.5 * s.contradiction)) }

  /** Every ingredient but the memory of past incidents. */
  function Observed(supporting: seq<Evidence>, opposing: seq<Evidence>, incident: Incident, graph: (Unit, Unit)): CausalScore {
    CausalScore(
      Maximum(OfSource(supporting, Metrics), "anomaly_score"),
      Temporal(supporting, incident), graph.0, graph.1,
      Confidence(OfSource(supporting, Logs)),
      Max(Confidence(OfSource(supporting, Changes)), Confidence(OfSource(supporting, Kubernetes))),
      0.0, Confidence(opposing), 0.0)
  }

  function WithMemory(observed: CausalScore, memory: Unit): CausalScore {
    var s := observed.(memory := memory);
    s.(total := Total(s))
  }

  function Score(h: Hypothesis, evidence: seq<Evidence>, incident: Incident, graph: Option<Snapshot>): CausalScore {
    var m := ById(evidence);
    var observed := Observed(Cited(Supporting(h, m), m), Cited(Opposing(h, m), m), incident,
                             ScoreOf(graph, incident.affectedService, h.rootCause));
    WithMemory(observed, Maximum(Memories(evidence, h.rootCause), "similarity"))
  }

  function Combine(s: CausalScore, confidence: Unit): Unit { Min(1.0, 0.7 * s.total + 0.3 * confidence) }

  function Combined(h: Hypothesis, evidence: seq<Evidence>, incident: Incident, graph: Option<Snapshot>): Unit {
    Combine(Score(h, evidence, incident, graph), h.confidence)
  }

  // ---------- the ranking ----------

  datatype Row = Row(combined: Unit, hypothesis: Hypothesis, score: CausalScore)

  predicate NameBefore(a: Hypothesis, b: Hypothesis) {
    StrLe(a.rootCause, b.rootCause) && (a.rootCause == b.rootCause ==> StrLe(a.id, b.id))
  }

  /** The sort key `(-combined, root_cause_service, id)`. */
  predicate RowBefore(a: Row, b: Row) {
    || a.combined > b.combined
    || (a.combined == b.combined && NameBefore(a.hypothesis, b.hypothesis))
  }

  function RowOf(h: Hypothesis, evidence: seq<Evidence>, incident: Incident, graph: Option<Snapshot>): Row {
    Row(Combined(h, evidence, incident, graph), h, Score(h, evidence, incident, graph))
  }

  function Rows(hs: seq<Hypothesis>, evidence: seq<Evidence>, incident: Incident, graph: Option<Snapshot>): seq<Row> {
    Map(hs, h => RowOf(h, evidence, incident, graph))
  }

  function RankedStatus(h: Hypothesis, combined: real): HypothesisStatus {
    if h.evidenceFor == [] then Weak
    else if combined >= 0.45 && h.status != Rejected then Supported
    else if h.status != Rejected then Weak
    else Rejected
  }

  function Placed(row: Row, rank: nat): Hypothesis {
    RoundUnit(row.combined);
    row.hypothesis.(rank := rank, confidence := Round6(row.combined),
                    status := RankedStatus(row.hypothesis, row.combined), score := row.score)
  }

  function Placement(rows: seq<Row>, from: nat): (hs: seq<Hypothesis>)
    ensures |hs| == |rows|
    ensures forall k :: 0 <= k < |rows| ==> hs[k] == Placed(rows[k], from + k)
  {
    if rows == [] then [] else [Placed(rows[0], from)] + Placement(rows[1..], from + 1)
  }

  function Ranked(hs: seq<Hypothesis>, evidence: seq<Evidence>, incident: Incident, graph: Option<Snapshot>): seq<Hypothesis> {
    Placement(Sort(Rows(hs, evidence, incident, graph), RowBefore), 1)
  }

  lemma RowsAre(hs: seq<Hypothesis>, evidence: seq<Evidence>, incident: Incident, graph: Option<Snapshot>, rows: seq<Row>)
    requires |rows| == |hs| && forall j :: 0 <= j < |hs| ==> rows[j] == RowOf(hs[j], evidence, incident, graph)
    ensures rows == Rows(hs, evidence, incident, graph)
  {
  }

  ghost predicate ScoresOf(scores: map<string, (Unit, Unit)>, graph: Option<Snapshot>, affected: Option<string>) {
    && (graph.None? || graph.value.nodes == [] ==> scores == map[])
    && (graph.Some? && graph.value.nodes != [] ==> scores.Keys == GraphOf(graph.value).nodes)
    && forall v :: v in scores ==> scores[v] == ScoreOf(graph, affected, v)
  }

  /** `scores.get(service, (0.0, 0.0))`. */
  function Lookup(scores: map<string, (Unit, Unit)>, v: string): (Unit, Unit) {
    if v in scores then scores[v] else (0.0, 0.0)
  }

  method ScoreHypothesis(h: Hypothesis, evidence: seq<Evidence>, evidenceById: Index,
                         graphScores: map<string, (Unit, Unit)>, incident: Incident, ghost graph: Option<Snapshot>)
    returns (row: Row)
    requires evidenceById == ById(evidence) && ScoresOf(graphScores, graph, incident.affectedService)
    ensures row == RowOf(h, evidence, incident, graph)
  {
    assert Lookup(graphScores, h.rootCause) == ScoreOf(graph, incident.affectedService, h.rootCause);
    var supporting := Cited(Supporting(h, evidenceById), evidenceById);
    var opposing := Cited(Opposing(h, evidenceById), evidenceById);
    var graphScore := Lookup(graphScores, h.rootCause);
    var memory := Maximum(Memories(evidence, h.rootCause), "similarity");
    var score := WithMemory(Observed(supporting, opposing, incident, graphScore), memory);
    row := Row(Combine(score, h.confidence), h, score);
  }

  method ScoreEach(hs: seq<Hypothesis>, evidence: seq<Evidence>, evidenceById: Index,
                   graphScores: map<string, (Unit, Unit)>, incident: Incident, ghost graph: Option<Snapshot>)
    returns (scored: seq<Row>)
    requires evidenceById == ById(evidence) && ScoresOf(graphScores, graph, incident.affectedService)
    ensures scored == Rows(hs, evidence, incident, graph)
  {
    scored := [];
    for k := 0 to |hs|
      invariant |scored| == k && forall j :: 0 <= j < k ==> scored[j] == RowOf(hs[j], evidence, incident, graph)
    {
      var row := ScoreHypothesis(hs[k], evidence, evidenceById, graphScores, incident, graph);
      scored := scored + [row];
    }
    RowsAre(hs, evidence, incident, graph, scored);
  }

  method ScoreAll(hs: seq<Hypothesis>, evidence: seq<Evidence>, incident: Incident, graph: Option<Snapshot>)
    returns (scored: seq<Row>)
    ensures scored == Rows(hs, evidence, incident, graph)
  {
    var evidenceById := ById(evidence);
    var graphScores := Scores(graph, incident.affectedService);
    scored := ScoreEach(hs, evidence, evidenceById, graphScores, incident, graph);
  }

  /** The ranker as it is written: score every hypothesis, sort, place. */
  method Rank(hs: seq<Hypothesis>, evidence: seq<Evidence>, incident: Incident, graph: Option<Snapshot>)
    returns (result: seq<Hypothesis>)
    ensures result == Ranked(hs, evidence, incident, graph)
  {
    var scored := ScoreAll(hs, evidence, incident, graph);
    scored := Sort(scored, RowBefore);
    result := [];
    for k := 0 to |scored|
      invariant |result| == k
      invariant forall j :: 0 <= j < k ==> result[j] == Placed(scored[j], 1 + j)
    {
      result := result + [Placed(scored[k], 1 + k)];
    }
  }

  // ---------- what the ranking guarantees ----------

  lemma RowOrder()
    ensures TotalPreorder(RowBefore)
  {
    StringOrder();
  }

  lemma SortedRowsSorted(hs: seq<Hypothesis>, evidence: seq<Evidence>, incident: Incident, graph: Option<Snapshot>)
    ensures var rows := Rows(hs, evidence, incident, graph);
      && Sorted(Sort(rows, RowBefore), RowBefore)
      && Permutation(Sort(rows, RowBefore), rows) && |Sort(rows, RowBefore)| == |hs|
  {
    RowOrder();
    SortSorted(Rows(hs, evidence, incident, graph), RowBefore);
    SortPermutes(Rows(hs, evidence, incident, graph), RowBefore);
  }

  /** Each output is one input hypothesis with its score: nothing is cited that was not. */
  lemma RankedFrom(hs: seq<Hypothesis>, evidence: seq<Evidence>, incident: Incident, graph: Option<Snapshot>, k: nat)
    returns (j: nat)
    requires k < |Ranked(hs, evidence, incident, graph)|
    ensures j < |hs|
    ensures Ranked(hs, evidence, incident, graph)[k] == Placed(RowOf(hs[j], evidence, incident, graph), k + 1)
  {
    var rows := Rows(hs, evidence, incident, graph);
    SortPermutes(rows, RowBefore);
    assert Sort(rows, RowBefore)[k] in rows;
    j :| 0 <= j < |rows| && rows[j] == Sort(rows, RowBefore)[k];
  }

  /** Ranks are 1, ..., n, confidences do not increase and are rounded, and a positive
      status has support. `model_copy` does not check the last of these; the ranker does. */
  lemma RankedIsRanking(hs: seq<Hypothesis>, evidence: seq<Evidence>, incident: Incident, graph: Option<Snapshot>)
    ensures var out := Ranked(hs, evidence, incident, graph);
      && |out| == |hs|
      && (forall k :: 0 <= k < |out| ==>
            && out[k].rank == k + 1
            && Round6(out[k].confidence) == out[k].confidence
            && (out[k].Positive() ==> out[k].evidenceFor != [] && out[k].status == Supported))
      && (forall j, k :: 0 <= j < k < |out| ==> out[j].confidence >= out[k].confidence)
  {
    SortedRowsSorted(hs, evidence, incident, graph);
    var out := Ranked(hs, evidence, incident, graph);
    var rows := Sort(Rows(hs, evidence, incident, graph), RowBefore);
    forall k | 0 <= k < |out| ensures Round6(out[k].confidence) == out[k].confidence {
      Round6Idempotent(rows[k].combined);
    }
    forall j, k | 0 <= j < k < |out| ensures out[j].confidence >= out[k].confidence {
      assert RowBefore(rows[j], rows[k]);
      Round6Monotone(rows[k].combined, rows[j].combined);
    }
  }

  // ---------- memory moves little ----------

  /** A historical item of the incident memory. */
  predicate IsPrior(e: Evidence) { e.source.Memory? && e.origin.HistoricalPrior? }

  function WithoutPriors(evidence: seq<Evidence>): seq<Evidence> { Filter(evidence, (e: Evidence) => !IsPrior(e)) }

  /** The hypothesis does not argue against itself with a prior. */
  ghost predicate OpposesNoPrior(h: Hypothesis, evidence: seq<Evidence>) {
    forall e :: e in evidence && IsPrior(e) ==> e.id !in h.evidenceAgainst
  }

  lemma IndexWithoutPriors(evidence: seq<Evidence>, i: Id)
    requires UniqueIds(evidence)
    ensures var m := ById(evidence); var n := ById(WithoutPriors(evidence));
      (i in n <==> i in m && !IsPrior(m[i])) && (i in n ==> n[i] == m[i])
  {
    var m := ById(evidence);
    var rest := WithoutPriors(evidence);
    var n := ById(rest);
    FilterMembers(evidence, (e: Evidence) => !IsPrior(e));
    if i in n {
      assert n[i] in rest;
      ByIdOfUnique(evidence, n[i]);
    }
    if i in m && !IsPrior(m[i]) {
      assert m[i] in rest;
    }
  }

  lemma {:induction false} CitedSame(ids: seq<Id>, m: Index, n: Index)
    requires forall i :: i in ids ==> (i in m <==> i in n) && (i in m ==> m[i] == n[i])
    ensures Cited(ids, m) == Cited(ids, n)
  {
    if ids != [] {
      CitedSame(ids[1..], m, n);
    }
  }

  lemma CitationsWithoutPriors(h: Hypothesis, evidence: seq<Evidence>)
    requires UniqueIds(evidence) && OpposesNoPrior(h, evidence)
    ensures var m := ById(evidence); var n := ById(WithoutPriors(evidence));
      && Cited(Supporting(h, m), m) == Cited(Supporting(h, n), n)
      && Cited(Opposing(h, m), m) == Cited(Opposing(h, n), n)
  {
    var m := ById(evidence);
    var n := ById(WithoutPriors(evidence));
    forall i ensures Usable(i, m) == Usable(i, n) && (Usable(i, m) ==> m[i] == n[i]) { IndexWithoutPriors(evidence, i); }
    FilterSame(h.evidenceFor, (i: Id) => Usable(i, m), (i: Id) => Usable(i, n));
    assert Supporting(h, m) == Supporting(h, n);
    forall i | i in h.evidenceAgainst ensures (i in m) == (i in n) && (i in m ==> m[i] == n[i]) { IndexWithoutPriors(evidence, i); }
    FilterSame(h.evidenceAgainst, (i: Id) => i in m, (i: Id) => i in n);
    assert Opposing(h, m) == Opposing(h, n);
    FilterMembers(h.evidenceFor, (i: Id) => Usable(i, m));
    FilterMembers(h.evidenceAgainst, (i: Id) => i in m);
    CitedSame(Supporting(h, m), m, n);
    CitedSame(Opposing(h, m), m, n);
  }

  lemma {:induction false} ValuesMembers(items: seq<Evidence>, attribute: string, x: real)
    ensures x in Values(items, attribute) <==> exists e :: e in items && x in Values([e], attribute)
  {
    if items != [] {
      ValuesMembers(items[1..], attribute, x);
      assert items == [items[0]] + items[1..];
      assert Values(items, attribute) == Values([items[0]], attribute) + Values(items[1..], attribute);
    }
  }

  lemma MemoryShrinks(evidence: seq<Evidence>, service: string)
    ensures Maximum(Memories(WithoutPriors(evidence), service), "similarity") <= Maximum(Memories(evidence, service), "similarity")
  {
    var a := Memories(WithoutPriors(evidence), service);
    var b := Memories(evidence, service);
    FilterMembers(evidence, (e: Evidence) => !IsPrior(e));
    FilterMembers(WithoutPriors(evidence), (e: Evidence) => e.source.Memory? && e.service == Some(service));
    FilterMembers(evidence, (e: Evidence) => e.source.Memory? && e.service == Some(service));
    forall x | x in Values(a, "similarity") ensures x in Values(b, "similarity") {
      ValuesMembers(a, "similarity", x);
      ValuesMembers(b, "similarity", x);
    }
    ValuesInUnit(b, "similarity");
    MaxOfMonotone(Values(a, "similarity"), Values(b, "similarity"), 0.0);
  }

  lemma Scaled(d: real, f: real)
    requires 0.0 <= d <= 0.05 && 0.0 <= f <= 1.0
    ensures 0.0 <= d * f <= 0.05
  {
    NonNegativeProduct(d, f);
    NonNegativeProduct(d, 1.0 - f);
    assert d * f == d - d * (1.0 - f);
  }

  lemma MemoryWeight(observed: CausalScore, less: Unit, more: Unit, confidence: Unit)
    requires less <= more
    ensures 0.0 <= Combine(WithMemory(observed, more), confidence) - Combine(WithMemory(observed, less), confidence) <= 0.035
  {
    var a := Raw(observed.(memory := less));
    var b := Raw(observed.(memory := more));
    var f := 1.0 - 0.5 * observed.contradiction;
    assert b - a == 0.05 * (more - less);
    Scaled(b - a, f);
    assert b * f - a * f == (b - a) * f;
  }

  /** Forgetting past incidents lowers a combined score by at most 0.035, and never raises it. */
  lemma PriorsMoveLittle(h: Hypothesis, evidence: seq<Evidence>, incident: Incident, graph: Option<Snapshot>)
    requires UniqueIds(evidence) && OpposesNoPrior(h, evidence)
    ensures 0.0 <= Combined(h, evidence, incident, graph) - Combined(h, WithoutPriors(evidence), incident, graph) <= 0.035
  {
    CitationsWithoutPriors(h, evidence);
    MemoryShrinks(evidence, h.rootCause);
    var m := ById(evidence);
    var observed := Observed(Cited(Supporting(h, m), m), Cited(Opposing(h, m), m), incident,
                             ScoreOf(graph, incident.affectedService, h.rootCause));
    MemoryWeight(observed, Maximum(Memories(WithoutPriors(evidence), h.rootCause), "similarity"),
                 Maximum(Memories(evidence, h.rootCause), "similarity"), h.confidence);
  }

  lemma RowHonest(hs: seq<Hypothesis>, evidence: seq<Evidence>, incident: Incident, graph: Option<Snapshot>, k: nat)
    requires k < |Sort(Rows(hs, evidence, incident, graph), RowBefore)|
    ensures var row := Sort(Rows(hs, evidence, incident, graph), RowBefore)[k];
      row.hypothesis in hs && row.combined == Combined(row.hypothesis, evidence, incident, graph)
  {
    var rows := Rows(hs, evidence, incident, graph);
    SortPermutes(rows, RowBefore);
    assert Sort(rows, RowBefore)[k] in rows;
    var j :| 0 <= j < |rows| && rows[j] == Sort(rows, RowBefore)[k];
    assert rows[j].hypothesis == hs[j];
  }

  /** So memory never swaps two hypotheses that are more than 0.035 apart without it. */
  lemma MemoryNeverSwaps(hs: seq<Hypothesis>, evidence: seq<Evidence>, incident: Incident, graph: Option<Snapshot>)
    requires UniqueIds(evidence) && forall h :: h in hs ==> OpposesNoPrior(h, evidence)
    ensures var rows := Sort(Rows(hs, evidence, incident, graph), RowBefore);
      forall p, q :: 0 <= p < q < |rows| ==>
        Combined(rows[q].hypothesis, WithoutPriors(evidence), incident, graph)
          <= Combined(rows[p].hypothesis, WithoutPriors(evidence), incident, graph) + 0.035
  {
    SortedRowsSorted(hs, evidence, incident, graph);
    var rows := Sort(Rows(hs, evidence, incident, graph), RowBefore);
    forall p, q | 0 <= p < q < |rows|
      ensures Combined(rows[q].hypothesis, WithoutPriors(evidence), incident, graph)
        <= Combined(rows[p].hypothesis, WithoutPriors(evidence), incident, graph) + 0.035
    {
      RowHonest(hs, evidence, incident, graph, p);
      RowHonest(hs, evidence, incident, graph, q);
      assert RowBefore(rows[p], rows[q]);
      PriorsMoveLittle(rows[p].hypothesis, evidence, incident, graph);
      PriorsMoveLittle(rows[q].hypothesis, evidence, incident, graph);
    }
  }

  // ---------- the order of the evidence ----------

  lemma {:induction false} ByIdMembers(evidence: seq<Evidence>, other: seq<Evidence>)
    requires UniqueIds(evidence) && UniqueIds(other) && forall e :: e in evidence <==> e in other
    ensures ById(evidence) == ById(other)
  {
    var m := ById(evidence);
    var n := ById(other);
    forall i | i in m ensures i in n && n[i] == m[i] { ByIdOfUnique(other, m[i]); }
    forall i | i in n ensures i in m { assert n[i] in evidence; }
  }

  lemma UniqueIdsPermute(a: seq<Evidence>, b: seq<Evidence>)
    requires Permutation(a, b) && UniqueIds(a)
    ensures UniqueIds(b)
  {
    MapPermutation(a, b, (e: Evidence) => e.id);
    var ia := Map(a, (e: Evidence) => e.id);
    var ib := Map(b, (e: Evidence) => e.id);
    assert Distinct(ia);
    DistinctPermutation(ia, ib);
    forall i, j | 0 <= i < j < |b| ensures b[i].id != b[j].id { assert ib[i] != ib[j]; }
  }

  lemma SameMaximum(a: seq<Evidence>, b: seq<Evidence>, attribute: string)
    requires forall e :: e in a <==> e in b
    ensures Maximum(a, attribute) == Maximum(b, attribute)
  {
    forall x ensures x in Values(a, attribute) <==> x in Values(b, attribute) {
      ValuesMembers(a, attribute, x);
      ValuesMembers(b, attribute, x);
    }
    ValuesInUnit(a, attribute);
    ValuesInUnit(b, attribute);
    MaxOfMonotone(Values(a, attribute), Values(b, attribute), 0.0);
    MaxOfMonotone(Values(b, attribute), Values(a, attribute), 0.0);
  }

  lemma MemoryOrder(a: seq<Evidence>, b: seq<Evidence>, service: string)
    requires Permutation(a, b)
    ensures Maximum(Memories(a, service), "similarity") == Maximum(Memories(b, service), "similarity")
  {
    FilterPermutation(a, b, (e: Evidence) => e.source.Memory? && e.service == Some(service));
    SamePermutation(Memories(a, service), Memories(b, service));
    SameMaximum(Memories(a, service), Memories(b, service), "similarity");
  }

  /** The ranker cannot tell two orders of the same evidence apart. */
  lemma RankIgnoresEvidenceOrder(hs: seq<Hypothesis>, a: seq<Evidence>, b: seq<Evidence>, incident: Incident, graph: Option<Snapshot>)
    requires Permutation(a, b) && UniqueIds(a)
    ensures Ranked(hs, a, incident, graph) == Ranked(hs, b, incident, graph)
  {
    UniqueIdsPermute(a, b);
    SamePermutation(a, b);
    ByIdMembers(a, b);
    forall k | 0 <= k < |hs| ensures RowOf(hs[k], a, incident, graph) == RowOf(hs[k], b, incident, graph) {
      MemoryOrder(a, b, hs[k].rootCause);
    }
    assert Rows(hs, a, incident, graph) == Rows(hs, b, incident, graph);
  }
}

/** What each ingredient of a causal score measures, said about the items a hypothesis cites,
    and what that does to the ranking. */
module CausalLaws {
  import opened Prelude
  import opened Ordering
  import opened Aggregates
  import opened Contracts
  import opened Verifier
  import opened GraphScores
  import opened Causal

  // ---------- the items behind a hypothesis ----------

  /** The items an id can stand for: of several with one id, the last. */
  function Known(evidence: seq<Evidence>): set<Evidence> { set e | e in evidence && ById(evidence)[e.id] == e }

  /** What speaks for a hypothesis: the current items it cites. */
  function Backing(h: Hypothesis, evidence: seq<Evidence>): set<Evidence> {
    set e | e in Known(evidence) && e.id in h.evidenceFor && e.Current()
  }

  /** What speaks against it, historical items included. */
  function Against(h: Hypothesis, evidence: seq<Evidence>): set<Evidence> {
    set e | e in Known(evidence) && e.id in h.evidenceAgainst
  }

  function From(items: set<Evidence>, sources: set<Source>): set<Evidence> { set e | e in items && e.source in sources }

  lemma {:induction false} CitedItems(ids: seq<Id>, m: Index, e: Evidence)
    ensures e in Cited(ids, m) <==> exists i :: i in ids && i in m && m[i] == e
  {
    if ids != [] {
      CitedItems(ids[1..], m, e);
      assert ids == [ids[0]] + ids[1..];
    }
  }

  lemma BackingIsCited(h: Hypothesis, evidence: seq<Evidence>, e: Evidence)
    ensures e in Cited(Supporting(h, ById(evidence)), ById(evidence)) <==> e in Backing(h, evidence)
  {
    var m := ById(evidence);
    CitedItems(Supporting(h, m), m, e);
    FilterMembers(h.evidenceFor, (i: Id) => Usable(i, m));
    if e in Backing(h, evidence) { assert e.id in Supporting(h, m) && m[e.id] == e; }
  }

  lemma AgainstIsCited(h: Hypothesis, evidence: seq<Evidence>, e: Evidence)
    ensures e in Cited(Opposing(h, ById(evidence)), ById(evidence)) <==> e in Against(h, evidence)
  {
    var m := ById(evidence);
    CitedItems(Opposing(h, m), m, e);
    FilterMembers(h.evidenceAgainst, (i: Id) => i in m);
    if e in Against(h, evidence) { assert e.id in Opposing(h, m) && m[e.id] == e; }
  }

  // ---------- strongest items ----------

  /** `v` is the confidence of the most confident item, or zero if there is none. */
  ghost predicate Strongest(v: real, items: set<Evidence>) {
    if items == {} then v == 0.0
    else (exists e :: e in items && e.confidence == v) && forall e :: e in items ==> e.confidence <= v
  }

  lemma ConfidenceIsStrongest(list: seq<Evidence>, items: set<Evidence>)
    requires forall e :: e in list <==> e in items
    ensures Strongest(Confidence(list), items)
  {
    MaxOfIsMax(Confidences(list), 0.0);
    forall e | e in items ensures e.confidence <= Confidence(list) {
      var k :| 0 <= k < |list| && list[k] == e;
      assert Confidences(list)[k] in Confidences(list);
    }
    if list == [] {
      assert items == {};
    } else {
      assert list[0] in items;
      var k :| 0 <= k < |Confidences(list)| && Confidences(list)[k] == Confidence(list);
      assert list[k] in items;
    }
  }

  lemma StrongestOfTwo(v: real, a: set<Evidence>, w: real, b: set<Evidence>)
    requires Strongest(v, a) && Strongest(w, b)
    ensures Strongest(Max(v, w), a + b)
  {
    forall e | e in a + b ensures e.confidence <= Max(v, w) {
      assert e in a || e in b;
    }
    if a + b != {} {
      if a != {} && (b == {} || v >= w) {
        var e :| e in a && e.confidence == v;
        assert e in a + b;
        if b == {} { assert v >= 0.0; }
      } else {
        var e :| e in b && e.confidence == w;
        assert e in a + b;
        if a == {} { assert w >= 0.0; }
      }
    } else {
      assert a == {} && b == {};
    }
  }

  /** The value an item gives for an attribute: the number it carries, put into [0, 1], its
      confidence if it lacks the attribute, and nothing if it carries something else. */
  function Reading(e: Evidence, attribute: string): Option<real> {
    if attribute !in e.attributes then Some(e.confidence)
    else if e.attributes[attribute].Other? then None
    else if e.attributes[attribute].number < 0.0 then Some(0.0)
    else if e.attributes[attribute].number > 1.0 then Some(1.0)
    else Some(e.attributes[attribute].number)
  }

  /** `v` is the largest value the items give, or zero if they give none. */
  ghost predicate LargestReading(v: real, items: set<Evidence>, attribute: string) {
    if forall e :: e in items ==> Reading(e, attribute).None? then v == 0.0
    else
      && (exists e :: e in items && Reading(e, attribute) == Some(v))
      && forall e :: e in items && Reading(e, attribute).Some? ==> Reading(e, attribute).value <= v
  }

  lemma ValuesAreReadings(list: seq<Evidence>, attribute: string, x: real)
    ensures x in Values(list, attribute) <==> exists e :: e in list && Reading(e, attribute) == Some(x)
  {
    ValuesMembers(list, attribute, x);
    forall e: Evidence ensures x in Values([e], attribute) <==> Reading(e, attribute) == Some(x) {
      assert [e][1..] == [];
    }
  }

  lemma MaximumIsLargest(list: seq<Evidence>, items: set<Evidence>, attribute: string)
    requires forall e :: e in list <==> e in items
    ensures LargestReading(Maximum(list, attribute), items, attribute)
  {
    var vs := Values(list, attribute);
    MaxOfIsMax(vs, 0.0);
    forall x ensures x in vs <==> exists e :: e in list && Reading(e, attribute) == Some(x) { ValuesAreReadings(list, attribute, x); }
    assert forall e :: e in items && Reading(e, attribute).Some? ==> Reading(e, attribute).value in vs;
    if vs != [] {
      assert MaxOf(vs, 0.0) in vs;
    }
  }

  // ---------- the earliest item ----------

  /** `v` is the share of the incident window that was left when `e` was observed; a window is
      at least a second long. */
  predicate ShareLeft(v: real, e: Evidence, incident: Incident) {
    var end := if incident.end >= incident.start + 1.0 then incident.end else incident.start + 1.0;
    && (e.observedAt <= incident.start ==> v == 1.0)
    && (e.observedAt >= end ==> v == 0.0)
    && (incident.start < e.observedAt < end ==> v * (end - incident.start) == end - e.observedAt)
  }

  /** `v` is the share that was left at the earliest of the items, and zero without any. */
  ghost predicate EarliestShare(v: real, items: set<Evidence>, incident: Incident) {
    if items == {} then v == 0.0
    else exists e :: e in items && ShareLeft(v, e, incident) && forall f :: f in items ==> e.observedAt <= f.observedAt
  }

  lemma Stretched(p: real, q: real, c: real)
    requires p > q && c > 0.0
    ensures p * c > q * c
  {
  }

  lemma QuotientBounds(q: real, part: real, whole: real)
    requires whole > 0.0 && q * whole == part >= 0.0
    ensures 0.0 <= q
    ensures part <= whole ==> q <= 1.0
    ensures part >= whole ==> q >= 1.0
  {
    if q < 0.0 { Stretched(0.0, q, whole); }
    if q > 1.0 { Stretched(q, 1.0, whole); }
    if q < 1.0 { Stretched(1.0, q, whole); }
  }

  lemma ClampedShare(q: real, late: real, length: real)
    requires length > 0.0 && q * length == late >= 0.0
    ensures late >= length ==> Clamp01(1.0 - q) == 0.0
    ensures late <= length ==> Clamp01(1.0 - q) * length == length - late
    ensures late == 0.0 ==> Clamp01(1.0 - q) == 1.0
  {
    QuotientBounds(q, late, length);
    assert (1.0 - q) * length == length - q * length;
    if late == 0.0 && q > 0.0 { Stretched(q, 0.0, length); }
  }

  lemma PrecedenceIsShare(e: Evidence, incident: Incident)
    ensures ShareLeft(Precedence(e, incident), e, incident)
  {
    var length := Max(1.0, incident.end - incident.start);
    var late := Max(0.0, e.observedAt - incident.start);
    ClampedShare(late / length, late, length);
  }

  lemma PrecedenceFalls(e: Evidence, f: Evidence, incident: Incident)
    requires e.observedAt <= f.observedAt
    ensures Precedence(e, incident) >= Precedence(f, incident)
  {
    var length := Max(1.0, incident.end - incident.start);
    var a, b := Max(0.0, e.observedAt - incident.start), Max(0.0, f.observedAt - incident.start);
    assert b / length - a / length == (b - a) / length;
  }

  lemma {:induction false} EarliestItem(list: seq<Evidence>) returns (k: nat)
    requires list != []
    ensures k < |list| && forall j :: 0 <= j < |list| ==> list[k].observedAt <= list[j].observedAt
  {
    if |list| == 1 {
      k := 0;
    } else {
      var i := EarliestItem(list[1..]);
      k := if list[0].observedAt <= list[1..][i].observedAt then 0 else i + 1;
      forall j | 0 <= j < |list| ensures list[k].observedAt <= list[j].observedAt {
        assert j == 0 || list[j] == list[1..][j - 1];
      }
    }
  }

  lemma TemporalOfEarliest(list: seq<Evidence>, k: nat, incident: Incident)
    requires k < |list| && forall j :: 0 <= j < |list| ==> list[k].observedAt <= list[j].observedAt
    ensures Temporal(list, incident) == Precedence(list[k], incident)
  {
    var shares := Map(list, (e: Evidence) => Precedence(e, incident) as real);
    forall j | 0 <= j < |list| ensures shares[j] <= shares[k] { PrecedenceFalls(list[k], list[j], incident); }
    MaxOfIsMax(shares, 0.0);
    assert shares[k] in shares;
  }

  lemma TemporalIsEarliest(list: seq<Evidence>, items: set<Evidence>, incident: Incident)
    requires forall e :: e in list <==> e in items
    ensures EarliestShare(Temporal(list, incident), items, incident)
  {
    if list == [] {
      assert items == {};
    } else {
      var k := EarliestItem(list);
      TemporalOfEarliest(list, k, incident);
      PrecedenceIsShare(list[k], incident);
      assert list[k] in items;
    }
  }

  // ---------- what a score says ----------

  function MemoriesOf(service: string, evidence: seq<Evidence>): set<Evidence> {
    set e | e in evidence && e.source.Memory? && e.service == Some(service)
  }

  /** The published weights. */
  function Published(s: CausalScore): real {
    (5.0 * s.anomaly + 4.0 * s.temporal + 4.0 * s.criticality + 3.0 * s.consistency + 2.0 * s.logEvidence + s.change + s.memory) / 20.0
  }

  predicate Weighed(s: CausalScore) { s.total == Published(s) * (1.0 - s.contradiction / 2.0) }

  /** What the items for and against a hypothesis say. */
  ghost predicate Observes(s: CausalScore, backing: set<Evidence>, against: set<Evidence>, incident: Incident) {
    && LargestReading(s.anomaly, From(backing, {Metrics}), "anomaly_score")
    && EarliestShare(s.temporal, backing, incident)
    && Strongest(s.logEvidence, From(backing, {Logs}))
    && Strongest(s.change, From(backing, {Changes, Kubernetes}))
    && Strongest(s.contradiction, against)
  }

  /** Every ingredient of a score, and the total. The weights add up to one, so nothing is
      ever cut off. */
  ghost predicate Means(s: CausalScore, h: Hypothesis, evidence: seq<Evidence>, incident: Incident, graph: Option<Snapshot>) {
    && Observes(s, Backing(h, evidence), Against(h, evidence), incident)
    && (s.criticality, s.consistency) == ScoreOf(graph, incident.affectedService, h.rootCause)
    && LargestReading(s.memory, MemoriesOf(h.rootCause, evidence), "similarity")
    && Weighed(s)
  }

  lemma Uncut(p: real, c: real)
    requires 0.0 <= p <= 1.0 && 0.0 <= c <= 1.0
    ensures Clamp01(p * c) == p * c
  {
    NonNegativeProduct(p, c);
    NonNegativeProduct(p, 1.0 - c);
    assert p * (1.0 - c) == p - p * c;
  }

  lemma TotalIsPublished(s: CausalScore)
    ensures Weighed(s.(total := Causal.Total(s)))
  {
    assert Raw(s) == Published(s) && 0.0 <= Published(s) <= 1.0;
    Uncut(Published(s), 1.0 - 0.5 * s.contradiction);
    assert Published(s.(total := Causal.Total(s))) == Published(s);
  }

  lemma OfSourceItems(list: seq<Evidence>, items: set<Evidence>, source: Source)
    requires forall e :: e in list <==> e in items
    ensures forall e :: e in OfSource(list, source) <==> e in From(items, {source})
  {
    FilterMembers(list, (e: Evidence) => e.source == source);
  }

  lemma ChangeIsStrongest(list: seq<Evidence>, items: set<Evidence>)
    requires forall e :: e in list <==> e in items
    ensures Strongest(Max(Confidence(OfSource(list, Changes)), Confidence(OfSource(list, Kubernetes))), From(items, {Changes, Kubernetes}))
  {
    OfSourceItems(list, items, Changes);
    OfSourceItems(list, items, Kubernetes);
    ConfidenceIsStrongest(OfSource(list, Changes), From(items, {Changes}));
    ConfidenceIsStrongest(OfSource(list, Kubernetes), From(items, {Kubernetes}));
    StrongestOfTwo(Confidence(OfSource(list, Changes)), From(items, {Changes}), Confidence(OfSource(list, Kubernetes)), From(items, {Kubernetes}));
    assert From(items, {Changes}) + From(items, {Kubernetes}) == From(items, {Changes, Kubernetes});
  }

  lemma ObservedObserves(list: seq<Evidence>, backing: set<Evidence>, opposing: seq<Evidence>, against: set<Evidence>,
                         incident: Incident, graph: (Unit, Unit))
    requires (forall e :: e in list <==> e in backing) && forall e :: e in opposing <==> e in against
    ensures Observes(Observed(list, opposing, incident, graph), backing, against, incident)
  {
    OfSourceItems(list, backing, Metrics);
    MaximumIsLargest(OfSource(list, Metrics), From(backing, {Metrics}), "anomaly_score");
    TemporalIsEarliest(list, backing, incident);
    OfSourceItems(list, backing, Logs);
    ConfidenceIsStrongest(OfSource(list, Logs), From(backing, {Logs}));
    ChangeIsStrongest(list, backing);
    ConfidenceIsStrongest(opposing, against);
  }

  lemma MemoryIsLargest(service: string, evidence: seq<Evidence>)
    ensures LargestReading(Maximum(Memories(evidence, service), "similarity"), MemoriesOf(service, evidence), "similarity")
  {
    FilterMembers(evidence, (e: Evidence) => e.source.Memory? && e.service == Some(service));
    MaximumIsLargest(Memories(evidence, service), MemoriesOf(service, evidence), "similarity");
  }

  lemma SameObserved(s: CausalScore, t: CausalScore, backing: set<Evidence>, against: set<Evidence>, incident: Incident)
    requires Observes(s, backing, against, incident) && t == s.(memory := t.memory, total := t.total)
    ensures Observes(t, backing, against, incident)
  {
  }

  /** What a score says about the items its hypothesis cites. */
  lemma ScoreMeans(h: Hypothesis, evidence: seq<Evidence>, incident: Incident, graph: Option<Snapshot>)
    ensures Means(Score(h, evidence, incident, graph), h, evidence, incident, graph)
  {
    var m := ById(evidence);
    var list, opposing := Cited(Supporting(h, m), m), Cited(Opposing(h, m), m);
    var graphScore := ScoreOf(graph, incident.affectedService, h.rootCause);
    var memory := Maximum(Memories(evidence, h.rootCause), "similarity");
    var observed := Observed(list, opposing, incident, graphScore);
    assert Observes(WithMemory(observed, memory), Backing(h, evidence), Against(h, evidence), incident) by {
      forall e ensures e in list <==> e in Backing(h, evidence) { BackingIsCited(h, evidence, e); }
      forall e ensures e in opposing <==> e in Against(h, evidence) { AgainstIsCited(h, evidence, e); }
      ObservedObserves(list, Backing(h, evidence), opposing, Against(h, evidence), incident, graphScore);
      SameObserved(observed, WithMemory(observed, memory), Backing(h, evidence), Against(h, evidence), incident);
    }
    MemoryIsLargest(h.rootCause, evidence);
    TotalIsPublished(observed.(memory := memory));
  }

  // ---------- what the score does to the ranking ----------

  /** Seven tenths score, three tenths the confidence the hypothesis came with. */
  function Blended(s: CausalScore, confidence: Unit): real { (7.0 * s.total + 3.0 * confidence) / 10.0 }

  /** `out` makes the claim of `h`, with the same citations. */
  predicate SameClaim(h: Hypothesis, out: Hypothesis) {
    out == h.(rank := out.rank, confidence := out.confidence, status := out.status, score := out.score)
  }

  predicate Judged(h: Hypothesis, out: Hypothesis) {
    && out.confidence == Round6(Blended(out.score, h.confidence))
    && out.status ==
       if h.evidenceFor == [] then Weak
       else if h.status.Rejected? then Rejected
       else if Blended(out.score, h.confidence) < 0.45 then Weak
       else Supported
  }

  lemma CombinedIsBlended(h: Hypothesis, evidence: seq<Evidence>, incident: Incident, graph: Option<Snapshot>)
    ensures Combined(h, evidence, incident, graph) == Blended(Score(h, evidence, incident, graph), h.confidence)
  {
  }

  lemma SameMeaning(s: CausalScore, h: Hypothesis, out: Hypothesis, evidence: seq<Evidence>, incident: Incident, graph: Option<Snapshot>)
    requires Means(s, h, evidence, incident, graph) && SameClaim(h, out)
    ensures Means(s, out, evidence, incident, graph)
  {
    assert Backing(h, evidence) == Backing(out, evidence) && Against(h, evidence) == Against(out, evidence);
  }

  lemma PlacedSays(row: Row, rank: nat)
    requires row.combined == Blended(row.score, row.hypothesis.confidence)
    ensures var out := Placed(row, rank);
      out.rank == rank && SameClaim(row.hypothesis, out) && Judged(row.hypothesis, out) && out.score == row.score
  {
  }

  /** Every hypothesis in a ranking is one that came in, with a score that means what it
      says, the confidence and the status that go with it, and nothing else changed. */
  lemma RankedSays(hs: seq<Hypothesis>, evidence: seq<Evidence>, incident: Incident, graph: Option<Snapshot>, k: nat) returns (j: nat)
    requires k < |Ranked(hs, evidence, incident, graph)|
    ensures j < |hs|
    ensures var out := Ranked(hs, evidence, incident, graph)[k];
      && out.rank == k + 1 && SameClaim(hs[j], out) && Judged(hs[j], out)
      && Means(out.score, out, evidence, incident, graph)
  {
    j := RankedFrom(hs, evidence, incident, graph, k);
    CombinedIsBlended(hs[j], evidence, incident, graph);
    PlacedSays(RowOf(hs[j], evidence, incident, graph), k + 1);
    ScoreMeans(hs[j], evidence, incident, graph);
    SameMeaning(Score(hs[j], evidence, incident, graph), hs[j], Placed(RowOf(hs[j], evidence, incident, graph), k + 1), evidence, incident, graph);
  }

  /** Stronger hypotheses come first, equally strong ones by root cause and then by id. */
  predicate Precedes(h: Hypothesis, s: CausalScore, g: Hypothesis, t: CausalScore) {
    var x, y := Blended(s, h.confidence), Blended(t, g.confidence);
    || x > y
    || (x == y && if h.rootCause == g.rootCause then StrLe(h.id, g.id) else StrLe(h.rootCause, g.rootCause))
  }

  lemma RankedInOrder(hs: seq<Hypothesis>, evidence: seq<Evidence>, incident: Incident, graph: Option<Snapshot>, p: nat, q: nat)
    returns (i: nat, j: nat)
    requires p < q < |Ranked(hs, evidence, incident, graph)|
    ensures i < |hs| && j < |hs|
    ensures var out := Ranked(hs, evidence, incident, graph);
      SameClaim(hs[i], out[p]) && SameClaim(hs[j], out[q]) && Precedes(hs[i], out[p].score, hs[j], out[q].score)
  {
    var rows := Rows(hs, evidence, incident, graph);
    var sorted := Sort(rows, RowBefore);
    SortedRowsSorted(hs, evidence, incident, graph);
    SamePermutation(sorted, rows);
    assert sorted[p] in rows && sorted[q] in rows && RowBefore(sorted[p], sorted[q]);
    i :| 0 <= i < |rows| && rows[i] == sorted[p];
    j :| 0 <= j < |rows| && rows[j] == sorted[q];
    CombinedIsBlended(hs[i], evidence, incident, graph);
    CombinedIsBlended(hs[j], evidence, incident, graph);
  }

  /** Of two hypotheses the stronger one comes first. */
  lemma StrongerComesFirst(hs: seq<Hypothesis>, evidence: seq<Evidence>, incident: Incident, graph: Option<Snapshot>, a: nat, b: nat)
    returns (p: nat, q: nat)
    requires a < |hs| && b < |hs|
    requires Blended(Score(hs[a], evidence, incident, graph), hs[a].confidence) > Blended(Score(hs[b], evidence, incident, graph), hs[b].confidence)
    ensures var out := Ranked(hs, evidence, incident, graph);
      && p < q < |out|
      && SameClaim(hs[a], out[p]) && out[p].score == Score(hs[a], evidence, incident, graph)
      && SameClaim(hs[b], out[q]) && out[q].score == Score(hs[b], evidence, incident, graph)
  {
    var rows := Rows(hs, evidence, incident, graph);
    var sorted := Sort(rows, RowBefore);
    SortedRowsSorted(hs, evidence, incident, graph);
    SamePermutation(sorted, rows);
    assert rows[a] in sorted && rows[b] in sorted;
    p :| 0 <= p < |sorted| && sorted[p] == rows[a];
    q :| 0 <= q < |sorted| && sorted[q] == rows[b];
    CombinedIsBlended(hs[a], evidence, incident, graph);
    CombinedIsBlended(hs[b], evidence, incident, graph);
    assert q <= p ==> q == p || RowBefore(sorted[q], sorted[p]);
  }

  // ---------- earlier evidence is better evidence ----------

  /** Scores alike in everything but the times of the evidence. */
  predicate AlikeButTime(s: CausalScore, t: CausalScore) { s == t.(temporal := s.temporal, total := s.total) }

  lemma EarlierIsStronger(s: CausalScore, t: CausalScore)
    requires Weighed(s) && Weighed(t) && AlikeButTime(s, t) && s.temporal > t.temporal
    ensures s.total > t.total
  {
    var rest := 1.0 - s.contradiction / 2.0;
    assert Published(s) > Published(t);
    assert s.total == Published(s) * rest && t.total == Published(t) * rest;
    Stretched(Published(s), Published(t), rest);
  }

  /** Of two hypotheses alike in everything but the times of their evidence, the one with the
      earlier evidence comes first. */
  lemma EarlierComesFirst(hs: seq<Hypothesis>, evidence: seq<Evidence>, incident: Incident, graph: Option<Snapshot>, a: nat, b: nat)
    returns (p: nat, q: nat)
    requires a < |hs| && b < |hs| && hs[a].confidence == hs[b].confidence
    requires AlikeButTime(Score(hs[a], evidence, incident, graph), Score(hs[b], evidence, incident, graph))
    requires Score(hs[a], evidence, incident, graph).temporal > Score(hs[b], evidence, incident, graph).temporal
    ensures var out := Ranked(hs, evidence, incident, graph);
      p < q < |out| && SameClaim(hs[a], out[p]) && SameClaim(hs[b], out[q]) && out[p].score.total > out[q].score.total
  {
    ScoreMeans(hs[a], evidence, incident, graph);
    ScoreMeans(hs[b], evidence, incident, graph);
    EarlierIsStronger(Score(hs[a], evidence, incident, graph), Score(hs[b], evidence, incident, graph));
    p, q := StrongerComesFirst(hs, evidence, incident, graph, a, b);
  }

  /** Evidence from before the window counts in full. */
  lemma FromTheStart(hs: seq<Hypothesis>, evidence: seq<Evidence>, incident: Incident, graph: Option<Snapshot>, k: nat, e: Evidence)
    requires k < |Ranked(hs, evidence, incident, graph)|
    requires e in Backing(Ranked(hs, evidence, incident, graph)[k], evidence) && e.observedAt <= incident.start
    ensures Ranked(hs, evidence, incident, graph)[k].score.temporal == 1.0
  {
    var j := RankedSays(hs, evidence, incident, graph, k);
  }

  /** Evidence from the end of the window or later, or none at all, counts for nothing. */
  lemma OnlyFromTheEnd(hs: seq<Hypothesis>, evidence: seq<Evidence>, incident: Incident, graph: Option<Snapshot>, k: nat)
    requires k < |Ranked(hs, evidence, incident, graph)| && incident.end >= incident.start + 1.0
    requires forall e :: e in Backing(Ranked(hs, evidence, incident, graph)[k], evidence) ==> e.observedAt >= incident.end
    ensures Ranked(hs, evidence, incident, graph)[k].score.temporal == 0.0
  {
    var j := RankedSays(hs, evidence, incident, graph, k);
  }

  // ---------- moving evidence to an earlier time ----------

  predicate Moved(e: Evidence, f: Evidence) { f == e.(observedAt := f.observedAt) && f.observedAt <= e.observedAt }

  /** `b` is `a` with nothing but the times changed, none of them to a later one. */
  predicate MovedEarlier(a: seq<Evidence>, b: seq<Evidence>) {
    |a| == |b| && forall k :: 0 <= k < |a| ==> Moved(a[k], b[k])
  }

  lemma {:induction false} IndexMoved(a: seq<Evidence>, b: seq<Evidence>)
    requires MovedEarlier(a, b)
    ensures ById(a).Keys == ById(b).Keys && forall i :: i in ById(a) ==> Moved(ById(a)[i], ById(b)[i])
  {
    if a != [] {
      IndexMoved(a[..|a| - 1], b[..|b| - 1]);
    }
  }

  lemma {:induction false} CitedMoved(ids: seq<Id>, m: Index, n: Index)
    requires m.Keys == n.Keys && forall i :: i in m ==> Moved(m[i], n[i])
    ensures MovedEarlier(Cited(ids, m), Cited(ids, n))
  {
    if ids != [] {
      CitedMoved(ids[1..], m, n);
    }
  }

  lemma {:induction false} FilterMoved(a: seq<Evidence>, b: seq<Evidence>, p: Evidence -> bool)
    requires MovedEarlier(a, b) && forall e, f :: Moved(e, f) ==> p(e) == p(f)
    ensures MovedEarlier(Filter(a, p), Filter(b, p))
  {
    if a != [] {
      assert Moved(a[0], b[0]);
      FilterMoved(a[1..], b[1..], p);
    }
  }

  lemma ConfidenceMoved(a: seq<Evidence>, b: seq<Evidence>)
    requires MovedEarlier(a, b)
    ensures Confidence(a) == Confidence(b)
  {
    assert Confidences(a) == Confidences(b);
  }

  lemma {:induction false} ValuesMoved(a: seq<Evidence>, b: seq<Evidence>, attribute: string)
    requires MovedEarlier(a, b)
    ensures Values(a, attribute) == Values(b, attribute)
  {
    if a != [] {
      assert Moved(a[0], b[0]);
      ValuesMoved(a[1..], b[1..], attribute);
    }
  }

  lemma TemporalMoved(a: seq<Evidence>, b: seq<Evidence>, incident: Incident)
    requires MovedEarlier(a, b)
    ensures Temporal(a, incident) <= Temporal(b, incident)
  {
    var x := Map(a, (e: Evidence) => Precedence(e, incident) as real);
    var y := Map(b, (e: Evidence) => Precedence(e, incident) as real);
    MaxOfIsMax(x, 0.0);
    MaxOfIsMax(y, 0.0);
    if a != [] {
      var k :| 0 <= k < |x| && x[k] == MaxOf(x, 0.0);
      PrecedenceFalls(b[k], a[k], incident);
      assert y[k] in y;
    }
  }

  lemma ObservedMoved(a: seq<Evidence>, b: seq<Evidence>, x: seq<Evidence>, y: seq<Evidence>, incident: Incident, graph: (Unit, Unit))
    requires MovedEarlier(a, b) && MovedEarlier(x, y)
    ensures var s, t := Observed(a, x, incident, graph), Observed(b, y, incident, graph);
      t == s.(temporal := t.temporal) && s.temporal <= t.temporal
  {
    FilterMoved(a, b, (e: Evidence) => e.source == Metrics);
    FilterMoved(a, b, (e: Evidence) => e.source == Logs);
    FilterMoved(a, b, (e: Evidence) => e.source == Changes);
    FilterMoved(a, b, (e: Evidence) => e.source == Kubernetes);
    ValuesMoved(OfSource(a, Metrics), OfSource(b, Metrics), "anomaly_score");
    ConfidenceMoved(OfSource(a, Logs), OfSource(b, Logs));
    ConfidenceMoved(OfSource(a, Changes), OfSource(b, Changes));
    ConfidenceMoved(OfSource(a, Kubernetes), OfSource(b, Kubernetes));
    ConfidenceMoved(x, y);
    TemporalMoved(a, b, incident);
  }

  lemma CitationsMoved(h: Hypothesis, a: seq<Evidence>, b: seq<Evidence>)
    requires MovedEarlier(a, b)
    ensures var m, n := ById(a), ById(b);
      && MovedEarlier(Cited(Supporting(h, m), m), Cited(Supporting(h, n), n))
      && MovedEarlier(Cited(Opposing(h, m), m), Cited(Opposing(h, n), n))
  {
    var m, n := ById(a), ById(b);
    IndexMoved(a, b);
    FilterSame(h.evidenceFor, (i: Id) => Usable(i, m), (i: Id) => Usable(i, n));
    FilterSame(h.evidenceAgainst, (i: Id) => i in m, (i: Id) => i in n);
    assert Supporting(h, m) == Supporting(h, n) && Opposing(h, m) == Opposing(h, n);
    CitedMoved(Supporting(h, m), m, n);
    CitedMoved(Opposing(h, m), m, n);
  }

  lemma TotalMoved(s: CausalScore, t: CausalScore, memory: Unit)
    requires t == s.(temporal := t.temporal) && s.temporal <= t.temporal
    ensures AlikeButTime(WithMemory(s, memory), WithMemory(t, memory))
    ensures WithMemory(s, memory).total <= WithMemory(t, memory).total
  {
    var x, y := WithMemory(s, memory), WithMemory(t, memory);
    TotalIsPublished(s.(memory := memory));
    TotalIsPublished(t.(memory := memory));
    if s.temporal < t.temporal { EarlierIsStronger(y, x); }
  }

  /** Evidence that is moved to an earlier time, with nothing else changed, never weakens the
      hypothesis it speaks for and touches no other ingredient of its score. */
  lemma EarlierNeverWeakens(h: Hypothesis, a: seq<Evidence>, b: seq<Evidence>, incident: Incident, graph: Option<Snapshot>)
    requires MovedEarlier(a, b)
    ensures var s, t := Score(h, a, incident, graph), Score(h, b, incident, graph);
      AlikeButTime(s, t) && s.temporal <= t.temporal && s.total <= t.total
  {
    var m, n := ById(a), ById(b);
    var graphScore := ScoreOf(graph, incident.affectedService, h.rootCause);
    CitationsMoved(h, a, b);
    FilterMoved(a, b, (e: Evidence) => e.source.Memory? && e.service == Some(h.rootCause));
    ValuesMoved(Memories(a, h.rootCause), Memories(b, h.rootCause), "similarity");
    var s := Observed(Cited(Supporting(h, m), m), Cited(Opposing(h, m), m), incident, graphScore);
    var t := Observed(Cited(Supporting(h, n), n), Cited(Opposing(h, n), n), incident, graphScore);
    ObservedMoved(Cited(Supporting(h, m), m), Cited(Supporting(h, n), n), Cited(Opposing(h, m), m), Cited(Opposing(h, n), n), incident, graphScore);
    TotalMoved(s, t, Maximum(Memories(a, h.rootCause), "similarity"));
  }
}

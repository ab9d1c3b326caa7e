/** How much a service matters in the dependency graph, and how well it fits the
    service the incident is about. */
module GraphScores {
  import opened Prelude
  import opened Ordering
  import opened Aggregates
  import opened Contracts
  import opened ServiceGraph

  /** In-degree plus out-degree; a self-loop counts twice. */
  function Degree(g: Graph, v: string): nat {
    |set e | e in g.edges && e.0 == v| + |set e | e in g.edges && e.1 == v|
  }

  /** The nodes in the order they are added to the graph, with repetitions. */
  function NodeList(s: Snapshot): seq<string> {
    Map(s.nodes, (n: ServiceNode) => n.service) + Map(s.edges, (e: ServiceEdge) => e.caller)
    + Map(s.edges, (e: ServiceEdge) => e.callee)
  }

  /** How many requests the edges into `v` saw. */
  function RequestCount(edges: seq<ServiceEdge>, v: string): nat {
    if edges == [] then 0
    else RequestCount(edges[..|edges| - 1], v) + if edges[|edges| - 1].callee == v then edges[|edges| - 1].requestCount else 0
  }

  function Degrees(g: Graph, vs: seq<string>): seq<real> { Map(vs, v => Degree(g, v) as real) }

  function Requests(edges: seq<ServiceEdge>): seq<real> {
    Map(edges, (e: ServiceEdge) => RequestCount(edges, e.callee) as real)
  }

  function MaxDegree(s: Snapshot): real { MaxOf(Degrees(GraphOf(s), NodeList(s)), 1.0) }

  function MaxRequests(s: Snapshot): real { MaxOf(Requests(s.edges), 1.0) }

  function Share(part: real, whole: real): real {
    if whole != 0.0 then part / whole else 0.0
  }

  function DegreeScore(s: Snapshot, v: string): real { Share(Degree(GraphOf(s), v) as real, MaxDegree(s)) }

  function TrafficScore(s: Snapshot, v: string): real { Share(RequestCount(s.edges, v) as real, MaxRequests(s)) }

  lemma ShareBounds(part: real, whole: real)
    requires 0.0 <= part <= whole
    ensures 0.0 <= Share(part, whole) <= 1.0
  {
  }

  lemma InNodeList(s: Snapshot, v: string)
    requires v in GraphOf(s).nodes
    ensures v in NodeList(s)
  {
    var a := Map(s.nodes, (n: ServiceNode) => n.service);
    var b := Map(s.edges, (e: ServiceEdge) => e.caller);
    var c := Map(s.edges, (e: ServiceEdge) => e.callee);
    if i :| 0 <= i < |s.nodes| && s.nodes[i].service == v {
      assert a[i] == v;
    } else if i :| 0 <= i < |s.edges| && s.edges[i].caller == v {
      assert b[i] == v;
    } else {
      var i :| 0 <= i < |s.edges| && s.edges[i].callee == v;
      assert c[i] == v;
    }
  }

  lemma ElementBounded(xs: seq<real>, i: nat)
    requires i < |xs|
    ensures xs[i] <= MaxOf(xs, 1.0)
  {
    MaxOfIsMax(xs, 1.0);
    assert xs[i] in xs;
  }

  lemma DegreeBounded(g: Graph, vs: seq<string>, v: string)
    requires v in vs
    ensures Degree(g, v) as real <= MaxOf(Degrees(g, vs), 1.0)
  {
    var i :| 0 <= i < |vs| && vs[i] == v;
    ElementBounded(Degrees(g, vs), i);
  }

  lemma DegreeScoreBounds(s: Snapshot, v: string)
    requires v in GraphOf(s).nodes
    ensures 0.0 <= DegreeScore(s, v) <= 1.0
  {
    InNodeList(s, v);
    DegreeBounded(GraphOf(s), NodeList(s), v);
    ShareBounds(Degree(GraphOf(s), v) as real, MaxDegree(s));
  }

  lemma {:induction false} NoRequests(edges: seq<ServiceEdge>, v: string)
    requires forall e :: e in edges ==> e.callee != v
    ensures RequestCount(edges, v) == 0
  {
    if edges != [] {
      NoRequests(edges[..|edges| - 1], v);
    }
  }

  lemma RequestsBounded(edges: seq<ServiceEdge>, i: nat)
    requires i < |edges|
    ensures RequestCount(edges, edges[i].callee) as real <= MaxOf(Requests(edges), 1.0)
  {
    ElementBounded(Requests(edges), i);
  }

  lemma TrafficScoreBounds(s: Snapshot, v: string)
    ensures 0.0 <= TrafficScore(s, v) <= 1.0
  {
    if i :| 0 <= i < |s.edges| && s.edges[i].callee == v {
      RequestsBounded(s.edges, i);
      ShareBounds(RequestCount(s.edges, v) as real, MaxRequests(s));
    } else {
      NoRequests(s.edges, v);
    }
  }

  function Criticality(s: Snapshot, v: string): Unit
    requires v in GraphOf(s).nodes
  {
    DegreeScoreBounds(s, v);
    TrafficScoreBounds(s, v);
    Min(1.0, 0.5 * DegreeScore(s, v) + 0.5 * TrafficScore(s, v))
  }

  function Decay(scale: Unit, distance: nat): (r: Unit)
    ensures scale > 0.0 ==> r > 0.0
  {
    scale / (1 + distance) as real
  }

  /** One for the affected service, falling with the distance from it; less for services
      that only call it. The downstream branch wins when both directions exist. */
  function Consistency(s: Snapshot, affected: Option<string>, v: string): Unit
    requires v in GraphOf(s).nodes
  {
    var g := GraphOf(s);
    if affected.None? || affected.value !in g.nodes then
      DegreeScoreBounds(s, v);
      DegreeScore(s, v)
    else if v == affected.value then 1.0
    else if Distance(g, affected.value, v).Some? then Decay(1.0, Distance(g, affected.value, v).value)
    else if Distance(g, v, affected.value).Some? then Decay(0.8, Distance(g, v, affected.value).value)
    else 0.0
  }

  /** `_graph_scores(...).get(service, (0.0, 0.0))`. */
  function ScoreOf(snapshot: Option<Snapshot>, affected: Option<string>, v: string): (Unit, Unit) {
    if snapshot.None? || snapshot.value.nodes == [] || v !in GraphOf(snapshot.value).nodes then (0.0, 0.0)
    else (Criticality(snapshot.value, v), Consistency(snapshot.value, affected, v))
  }

  /** A lookup in a dictionary whose missing entries are zero. */
  function Counted(requests: map<string, nat>, v: string): nat {
    if v in requests then requests[v] else 0
  }

  method ScoreService(s: Snapshot, g: Graph, requests: map<string, nat>, affected: Option<string>, v: string)
    returns (score: (Unit, Unit))
    requires g == GraphOf(s) && v in g.nodes
    requires Counted(requests, v) == RequestCount(s.edges, v)
    ensures score == (Criticality(s, v), Consistency(s, affected, v))
  {
    DegreeScoreBounds(s, v);
    TrafficScoreBounds(s, v);
    var degreeScore := Share(Degree(g, v) as real, MaxDegree(s));
    var trafficScore := Share(Counted(requests, v) as real, MaxRequests(s));
    score := (Min(1.0, 0.5 * degreeScore + 0.5 * trafficScore), Consistency(s, affected, v));
  }

  method CountRequests(edges: seq<ServiceEdge>) returns (requests: map<string, nat>)
    ensures forall v :: Counted(requests, v) == RequestCount(edges, v)
  {
    requests := map[];
    for k := 0 to |edges|
      invariant forall v :: Counted(requests, v) == RequestCount(edges[..k], v)
    {
      var e := edges[k];
      assert edges[..k + 1][..k] == edges[..k];
      requests := requests[e.callee := Counted(requests, e.callee) + e.requestCount];
    }
    assert edges[..|edges|] == edges;
  }

  /** The dictionary as the loops fill it. */
  method Scores(snapshot: Option<Snapshot>, affected: Option<string>) returns (scores: map<string, (Unit, Unit)>)
    ensures snapshot.None? || snapshot.value.nodes == [] ==> scores == map[]
    ensures snapshot.Some? && snapshot.value.nodes != [] ==> scores.Keys == GraphOf(snapshot.value).nodes
    ensures forall v :: v in scores ==> scores[v] == ScoreOf(snapshot, affected, v)
  {
    scores := map[];
    if snapshot.None? || snapshot.value.nodes == [] {
      return;
    }
    var g := GraphOf(snapshot.value);
    var requests := CountRequests(snapshot.value.edges);
    var todo := g.nodes;
    while todo != {}
      invariant todo <= g.nodes && scores.Keys == g.nodes - todo
      invariant forall v :: v in scores ==> scores[v] == ScoreOf(snapshot, affected, v)
      decreases todo
    {
      var v :| v in todo;
      var score := ScoreService(snapshot.value, g, requests, affected, v);
      scores := scores[v := score];
      todo := todo - {v};
    }
  }

  // ---------- what the consistency score means ----------

  /** Positive exactly on the affected service, its dependencies and its callers. */
  lemma ConsistencyPositiveIff(s: Snapshot, affected: string, v: string)
    requires affected in GraphOf(s).nodes && v in GraphOf(s).nodes
    ensures Consistency(s, Some(affected), v) > 0.0 <==>
      v == affected || v in Descendants(GraphOf(s), affected) || v in Ancestors(GraphOf(s), affected)
  {
    var g := GraphOf(s);
    GraphOfClosed(s);
    DescendantsAreReached(g, affected, v);
    AncestorsReach(g, affected, v);
    DistanceIsShortest(g, affected, v);
    DistanceIsShortest(g, v, affected);
  }

  /** Downstream of the affected service the score is one over one plus the length of a
      shortest walk. */
  lemma ConsistencyDownstream(s: Snapshot, affected: string, v: string)
    requires affected in GraphOf(s).nodes && v in GraphOf(s).nodes
    requires v == affected || v in Descendants(GraphOf(s), affected)
    ensures Distance(GraphOf(s), affected, v).Some?
    ensures Consistency(s, Some(affected), v) == 1.0 / (1 + Distance(GraphOf(s), affected, v).value) as real
  {
    var g := GraphOf(s);
    GraphOfClosed(s);
    DescendantsAreReached(g, affected, v);
    DistanceIsShortest(g, affected, v);
    if v == affected {
      DistanceIs(g, v, v, 0);
    } else {
      assert Distance(g, affected, v).Some?;
    }
  }

  lemma HopDistance(g: Graph, s: string, u: string, v: string)
    requires Closed(g) && s in g.nodes && (u, v) in g.edges && Distance(g, s, u).Some?
    ensures Reaches(g, s, v) && Distance(g, s, v).Some? && Distance(g, s, v).value <= Distance(g, s, u).value + 1
  {
    DistanceIsShortest(g, s, u);
    DistanceIsShortest(g, s, v);
    var p :| Walk(g, p, s, u) && |p| - 1 == Distance(g, s, u).value;
    assert Walk(g, p + [v], s, v);
  }

  lemma ReciprocalOrder(a: real, b: real)
    requires 0.0 < a <= b
    ensures 1.0 / b <= 1.0 / a
  {
    assert 1.0 / a - 1.0 / b == (b - a) / (a * b);
  }

  lemma HarmonicStep(d: nat, e: nat)
    requires e <= d + 1
    ensures var c := 1.0 / (1 + d) as real;
      1.0 / (1 + e) as real >= c / (1.0 + c)
  {
    var x := (1 + d) as real;
    var y := (1 + e) as real;
    var c := 1.0 / x;
    assert y <= x + 1.0;
    assert c * x == 1.0;
    assert c * (x + 1.0) == 1.0 + c;
    assert c / (1.0 + c) == 1.0 / (x + 1.0);
    ReciprocalOrder(y, x + 1.0);
  }

  /** One more hop costs at most one step of the harmonic decay, on cyclic graphs too. */
  lemma ConsistencyAlongEdge(s: Snapshot, affected: string, u: string, v: string)
    requires affected in GraphOf(s).nodes && (u, v) in GraphOf(s).edges
    requires u == affected || u in Descendants(GraphOf(s), affected)
    ensures u in GraphOf(s).nodes && v in GraphOf(s).nodes
    ensures var c := Consistency(s, Some(affected), u);
      Consistency(s, Some(affected), v) >= c / (1.0 + c)
  {
    var g := GraphOf(s);
    GraphOfClosed(s);
    DescendantsAreReached(g, affected, u);
    ConsistencyDownstream(s, affected, u);
    var d := Distance(g, affected, u).value;
    HopDistance(g, affected, u, v);
    var e := Distance(g, affected, v).value;
    DescendantsAreReached(g, affected, v);
    ConsistencyDownstream(s, affected, v);
    HarmonicStep(d, e);
  }

  lemma FourFifths(x: real)
    requires x > 0.0
    ensures 0.8 / x == 4.0 / (5.0 * x)
  {
    assert 4.0 / (5.0 * x) * (5.0 * x) == 4.0;
    assert 0.8 / x * (5.0 * x) == 4.0;
  }

  /** Upstream, where the affected service is not reached back, it is four fifths of that. */
  lemma ConsistencyUpstream(s: Snapshot, affected: string, v: string)
    requires affected in GraphOf(s).nodes && v in GraphOf(s).nodes && v != affected
    requires v in Ancestors(GraphOf(s), affected) && v !in Descendants(GraphOf(s), affected)
    ensures Distance(GraphOf(s), v, affected).Some?
    ensures Consistency(s, Some(affected), v) == 4.0 / (5.0 * (1 + Distance(GraphOf(s), v, affected).value) as real)
  {
    var g := GraphOf(s);
    GraphOfClosed(s);
    DescendantsAreReached(g, affected, v);
    AncestorsReach(g, affected, v);
    DistanceIsShortest(g, affected, v);
    DistanceIsShortest(g, v, affected);
    FourFifths((1 + Distance(g, v, affected).value) as real);
  }

  // ---------- what the criticality score means ----------

  /** How many edges leave or enter a service. */
  function Touching(s: Snapshot, v: string): nat {
    |set e | e in GraphOf(s).edges && e.0 == v| + |set e | e in GraphOf(s).edges && e.1 == v|
  }

  /** `most` is what the busiest of `vs` has of `of`. */
  ghost predicate Busiest(most: real, vs: set<string>, of: string -> real) {
    (exists v :: v in vs && of(v) == most) && forall v :: v in vs ==> of(v) <= most
  }

  function Callees(s: Snapshot): set<string> { set e | e in s.edges :: e.callee }

  function TouchCount(s: Snapshot): string -> real { v => Touching(s, v) as real }

  function AnswerCount(s: Snapshot): string -> real { v => RequestCount(s.edges, v) as real }

  lemma HalfAndHalf(x: real, y: real)
    requires x <= 1.0 && y <= 1.0
    ensures Min(1.0, 0.5 * x + 0.5 * y) == (x + y) / 2.0
  {
  }

  function Part(count: nat, whole: real): real { if whole == 0.0 then 0.0 else count as real / whole }

  lemma CriticalityIs(s: Snapshot, v: string)
    requires v in GraphOf(s).nodes
    ensures Criticality(s, v) == (Part(Touching(s, v), MaxDegree(s)) + Part(RequestCount(s.edges, v), MaxRequests(s))) / 2.0
  {
    var x, y := DegreeScore(s, v), TrafficScore(s, v);
    DegreeScoreBounds(s, v);
    TrafficScoreBounds(s, v);
    HalfAndHalf(x, y);
    assert x == Part(Touching(s, v), MaxDegree(s)) && y == Part(RequestCount(s.edges, v), MaxRequests(s));
  }

  lemma NodesAreListed(s: Snapshot, v: string)
    ensures v in NodeList(s) <==> v in GraphOf(s).nodes
  {
    if v in GraphOf(s).nodes { InNodeList(s, v); }
    if v in NodeList(s) {
      var a, b := Map(s.nodes, (n: ServiceNode) => n.service), Map(s.edges, (e: ServiceEdge) => e.caller);
      var c := Map(s.edges, (e: ServiceEdge) => e.callee);
      assert v in a || v in b || v in c;
      if v in a {
        var i :| 0 <= i < |a| && a[i] == v;
        assert s.nodes[i] in s.nodes;
      } else if v in b {
        var i :| 0 <= i < |b| && b[i] == v;
        assert s.edges[i] in s.edges;
      } else {
        var i :| 0 <= i < |c| && c[i] == v;
        assert s.edges[i] in s.edges;
      }
    }
  }

  lemma MaxDegreeIsBusiest(s: Snapshot, some: string)
    requires some in GraphOf(s).nodes
    ensures Busiest(MaxDegree(s), GraphOf(s).nodes, TouchCount(s))
  {
    var g, vs := GraphOf(s), NodeList(s);
    var ds := Degrees(g, vs);
    forall v ensures v in vs <==> v in g.nodes { NodesAreListed(s, v); }
    MaxOfIsMax(ds, 1.0);
    assert some in vs;
    var k :| 0 <= k < |ds| && ds[k] == MaxOf(ds, 1.0);
    assert vs[k] in g.nodes && TouchCount(s)(vs[k]) == MaxDegree(s);
    forall v | v in g.nodes ensures TouchCount(s)(v) <= MaxDegree(s) { DegreeBounded(g, vs, v); }
  }

  lemma MaxRequestsIsBusiest(s: Snapshot)
    requires s.edges != []
    ensures Busiest(MaxRequests(s), Callees(s), AnswerCount(s))
  {
    var rs := Requests(s.edges);
    MaxOfIsMax(rs, 1.0);
    var k :| 0 <= k < |rs| && rs[k] == MaxOf(rs, 1.0);
    assert s.edges[k].callee in Callees(s) && AnswerCount(s)(s.edges[k].callee) == MaxRequests(s);
    forall v | v in Callees(s) ensures AnswerCount(s)(v) <= MaxRequests(s) {
      var i :| 0 <= i < |s.edges| && s.edges[i].callee == v;
      RequestsBounded(s.edges, i);
    }
  }

  /** Half of a criticality is the share of the best-connected service's edges, and half the
      share of the busiest service's requests; nobody has a share of nothing. */
  lemma CriticalitySays(s: Snapshot, v: string) returns (edges: real, requests: real)
    requires v in GraphOf(s).nodes
    ensures Busiest(edges, GraphOf(s).nodes, TouchCount(s))
    ensures if s.edges == [] then requests == 1.0 else Busiest(requests, Callees(s), AnswerCount(s))
    ensures Criticality(s, v) == (Part(Touching(s, v), edges) + Part(RequestCount(s.edges, v), requests)) / 2.0
  {
    edges, requests := MaxDegree(s), MaxRequests(s);
    MaxDegreeIsBusiest(s, v);
    if s.edges != [] { MaxRequestsIsBusiest(s); }
    CriticalityIs(s, v);
  }

  /** Without an affected service in the graph, consistency is the share of edges alone. */
  lemma ConsistencyWithoutAffected(s: Snapshot, affected: Option<string>, v: string) returns (edges: real)
    requires v in GraphOf(s).nodes && (affected.None? || affected.value !in GraphOf(s).nodes)
    ensures Busiest(edges, GraphOf(s).nodes, TouchCount(s)) && Consistency(s, affected, v) == Part(Touching(s, v), edges)
  {
    edges := MaxDegree(s);
    MaxDegreeIsBusiest(s, v);
  }
}

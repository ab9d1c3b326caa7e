/** Service graphs reconstructed from trace spans: a one-pass fold into accumulators,
    and the declarative graph it must agree with. */
module TraceGraph {
  import opened Prelude
  import opened Ordering
  import opened Percentiles
  import opened Contracts

  datatype Span = Span(
    traceId: string, spanId: string, parent: Option<string>, service: Option<string>, start: Time, end: Time,
    statusCode: Option<string>)

  type EdgeKey = (string, string)

  type SpanIndex = map<(string, string), Span>

  /** `{(span.trace_id, span.span_id): span for span in spans}`: the last one wins. */
  function IndexOf(spans: seq<Span>): (m: SpanIndex)
    ensures forall k :: k in m ==> m[k] in spans && (m[k].traceId, m[k].spanId) == k
    ensures forall x :: x in spans ==> (x.traceId, x.spanId) in m
  {
    if spans == [] then map[]
    else
      var last := spans[|spans| - 1];
      IndexOf(spans[..|spans| - 1])[(last.traceId, last.spanId) := last]
  }

  function Upper(c: char): char { if 'a' <= c <= 'z' then c - 'a' + 'A' else c }

  /** `status_code.upper().endswith("ERROR")`. */
  predicate IsError(x: Span) {
    && x.statusCode.Some? && |x.statusCode.value| >= 5
    && Map(x.statusCode.value[|x.statusCode.value| - 5..], c => Upper(c)) == "ERROR"
  }

  function Latency(x: Span): real { Max(x.end - x.start, 0.0) * 1000.0 }

  /** The edge a span is evidence for if `parent` is its parent: both have a service, and
      not the same one. */
  function EdgeFrom(x: Span, parent: Span): Option<EdgeKey> {
    if x.service.None? || parent.service.None? || parent.service == x.service then None
    else Some((parent.service.value, x.service.value))
  }

  /** The edge a span is evidence for, when its parent was seen. */
  function EdgeOf(x: Span, m: SpanIndex): Option<EdgeKey> {
    if x.parent.None? || (x.traceId, x.parent.value) !in m then None
    else EdgeFrom(x, m[(x.traceId, x.parent.value)])
  }

  // ---------- accumulators, declaratively ----------

  datatype NodeAcc = NodeAcc(spans: nat, errors: nat, traces: set<string>)

  datatype EdgeAcc = EdgeAcc(
    requests: nat, failures: nat, traces: set<string>, latencies: seq<real>, firstSeen: Option<Time>, lastSeen: Option<Time>)

  function ServiceKey(): Span -> Option<string> { (x: Span) => x.service }

  function EdgeKeyOf(m: SpanIndex): Span -> Option<EdgeKey> { (x: Span) => EdgeOf(x, m) }

  function OfService(spans: seq<Span>, s: string): seq<Span> { Group(spans, ServiceKey(), s) }

  function OnEdge(spans: seq<Span>, m: SpanIndex, k: EdgeKey): seq<Span> { Group(spans, EdgeKeyOf(m), k) }

  function Errors(xs: seq<Span>): nat { |Filter(xs, (x: Span) => IsError(x))| }

  function TraceIds(xs: seq<Span>): set<string> { set x | x in xs :: x.traceId }

  function Starts(xs: seq<Span>): seq<real> { Map(xs, (x: Span) => x.start) }

  function Ends(xs: seq<Span>): seq<real> { Map(xs, (x: Span) => x.end) }

  function Latencies(xs: seq<Span>): seq<real> { Map(xs, (x: Span) => Latency(x)) }

  function Least(xs: seq<real>): Option<real> {
    if xs == [] then None
    else if |xs| == 1 then Some(xs[0])
    else Some(Min(Least(xs[..|xs| - 1]).value, xs[|xs| - 1]))
  }

  function Greatest(xs: seq<real>): Option<real> {
    if xs == [] then None
    else if |xs| == 1 then Some(xs[0])
    else Some(Max(Greatest(xs[..|xs| - 1]).value, xs[|xs| - 1]))
  }

  function NodeAt(xs: seq<Span>): NodeAcc { NodeAcc(|xs|, Errors(xs), TraceIds(xs)) }

  function EdgeAt(xs: seq<Span>): EdgeAcc {
    EdgeAcc(|xs|, Errors(xs), TraceIds(xs), Latencies(xs), Least(Starts(xs)), Greatest(Ends(xs)))
  }

  // ---------- the fold ----------

  function NodePlus(a: NodeAcc, x: Span): NodeAcc {
    NodeAcc(a.spans + 1, a.errors + if IsError(x) then 1 else 0, a.traces + {x.traceId})
  }

  function EdgePlus(a: EdgeAcc, x: Span): EdgeAcc {
    EdgeAcc(a.requests + 1, a.failures + if IsError(x) then 1 else 0, a.traces + {x.traceId}, a.latencies + [Latency(x)],
            Some(if a.firstSeen.None? then x.start else Min(a.firstSeen.value, x.start)),
            Some(if a.lastSeen.None? then x.end else Max(a.lastSeen.value, x.end)))
  }

  const NO_NODE := NodeAcc(0, 0, {})
  const NO_EDGE := EdgeAcc(0, 0, {}, [], None, None)

  lemma ErrorsPlus(xs: seq<Span>, x: Span)
    ensures Errors(xs + [x]) == Errors(xs) + if IsError(x) then 1 else 0
  {
    FilterAppend(xs, [x], (x: Span) => IsError(x));
  }

  lemma NodeAtPlus(xs: seq<Span>, x: Span)
    ensures NodeAt(xs + [x]) == NodePlus(NodeAt(xs), x)
  {
    ErrorsPlus(xs, x);
  }

  lemma ExtremesPlus(xs: seq<real>, x: real)
    ensures Least(xs + [x]) == Some(if xs == [] then x else Min(Least(xs).value, x))
    ensures Greatest(xs + [x]) == Some(if xs == [] then x else Max(Greatest(xs).value, x))
  {
    assert (xs + [x])[..|xs + [x]| - 1] == xs;
  }

  lemma ListsPlus(xs: seq<Span>, x: Span)
    ensures Starts(xs + [x]) == Starts(xs) + [x.start]
    ensures Ends(xs + [x]) == Ends(xs) + [x.end]
    ensures Latencies(xs + [x]) == Latencies(xs) + [Latency(x)]
  {
    MapAppend(xs, [x], (x: Span) => x.start);
    MapAppend(xs, [x], (x: Span) => x.end);
    MapAppend(xs, [x], (x: Span) => Latency(x));
  }

  lemma TracesPlus(xs: seq<Span>, x: Span)
    ensures TraceIds(xs + [x]) == TraceIds(xs) + {x.traceId}
  {
  }

  lemma NoneOrSome(xs: seq<real>)
    ensures Least(xs).None? <==> xs == []
    ensures Greatest(xs).None? <==> xs == []
  {
  }

  lemma EdgeAtPlus(xs: seq<Span>, x: Span)
    ensures EdgeAt(xs + [x]) == EdgePlus(EdgeAt(xs), x)
  {
    ErrorsPlus(xs, x);
    ListsPlus(xs, x);
    TracesPlus(xs, x);
    ExtremesPlus(Starts(xs), x.start);
    ExtremesPlus(Ends(xs), x.end);
    NoneOrSome(Starts(xs));
    NoneOrSome(Ends(xs));
  }

  /** The dictionaries hold exactly the declarative accumulators, and nothing else. */
  ghost predicate NodesHold(nodes: map<string, NodeAcc>, spans: seq<Span>) {
    && (forall s :: s in nodes <==> OfService(spans, s) != [])
    && (forall s :: s in nodes ==> nodes[s] == NodeAt(OfService(spans, s)))
  }

  ghost predicate EdgesHold(edges: map<EdgeKey, EdgeAcc>, spans: seq<Span>, m: SpanIndex) {
    && (forall k :: k in edges <==> OnEdge(spans, m, k) != [])
    && (forall k :: k in edges ==> edges[k] == EdgeAt(OnEdge(spans, m, k)))
  }

  lemma OfServicePlus(spans: seq<Span>, x: Span, s: string)
    ensures OfService(spans + [x], s) == if x.service == Some(s) then OfService(spans, s) + [x] else OfService(spans, s)
  {
    GroupAppend(spans, [x], ServiceKey(), s);
    GroupOne(x, ServiceKey(), s);
  }

  lemma OnEdgePlus(spans: seq<Span>, m: SpanIndex, x: Span, k: EdgeKey)
    ensures OnEdge(spans + [x], m, k) == if EdgeOf(x, m) == Some(k) then OnEdge(spans, m, k) + [x] else OnEdge(spans, m, k)
  {
    GroupAppend(spans, [x], EdgeKeyOf(m), k);
    GroupOne(x, EdgeKeyOf(m), k);
  }

  function PutNode(nodes: map<string, NodeAcc>, s: string, x: Span): map<string, NodeAcc> {
    nodes[s := NodePlus(if s in nodes then nodes[s] else NO_NODE, x)]
  }

  function PutEdge(edges: map<EdgeKey, EdgeAcc>, k: EdgeKey, x: Span): map<EdgeKey, EdgeAcc> {
    edges[k := EdgePlus(if k in edges then edges[k] else NO_EDGE, x)]
  }

  lemma NodesPlus(nodes: map<string, NodeAcc>, spans: seq<Span>, x: Span)
    requires NodesHold(nodes, spans)
    ensures NodesHold(if x.service.None? then nodes else PutNode(nodes, x.service.value, x), spans + [x])
  {
    var after := if x.service.None? then nodes else PutNode(nodes, x.service.value, x);
    assert NodeAt([]) == NO_NODE;
    forall s ensures s in after <==> OfService(spans + [x], s) != [] { OfServicePlus(spans, x, s); }
    forall s | s in after ensures after[s] == NodeAt(OfService(spans + [x], s)) {
      OfServicePlus(spans, x, s);
      if x.service == Some(s) { NodeAtPlus(OfService(spans, s), x); }
    }
  }

  lemma EdgeEntry(edges: map<EdgeKey, EdgeAcc>, spans: seq<Span>, m: SpanIndex, x: Span, k: EdgeKey, e: Option<EdgeKey>)
    requires k in edges <==> OnEdge(spans, m, k) != []
    requires k in edges ==> edges[k] == EdgeAt(OnEdge(spans, m, k))
    ensures var after := if e.None? then edges else PutEdge(edges, e.value, x);
      var xs := if e == Some(k) then OnEdge(spans, m, k) + [x] else OnEdge(spans, m, k);
      (k in after <==> xs != []) && (k in after ==> after[k] == EdgeAt(xs))
  {
    EdgeAtPlus(OnEdge(spans, m, k), x);
    assert EdgeAt([]) == NO_EDGE;
  }

  lemma EdgesPlus(edges: map<EdgeKey, EdgeAcc>, spans: seq<Span>, m: SpanIndex, x: Span)
    requires EdgesHold(edges, spans, m)
    ensures EdgesHold(if EdgeOf(x, m).None? then edges else PutEdge(edges, EdgeOf(x, m).value, x), spans + [x], m)
  {
    var after := if EdgeOf(x, m).None? then edges else PutEdge(edges, EdgeOf(x, m).value, x);
    forall k
      ensures k in after <==> OnEdge(spans + [x], m, k) != []
      ensures k in after ==> after[k] == EdgeAt(OnEdge(spans + [x], m, k))
    {
      OnEdgePlus(spans, m, x, k);
      EdgeEntry(edges, spans, m, x, k, EdgeOf(x, m));
    }
  }

  /** Its body. */
  method Add(before: map<string, NodeAcc>, edgesBefore: map<EdgeKey, EdgeAcc>, ghost seen: seq<Span>, spansById: SpanIndex, x: Span)
    returns (nodes: map<string, NodeAcc>, edges: map<EdgeKey, EdgeAcc>)
    requires NodesHold(before, seen) && EdgesHold(edgesBefore, seen, spansById)
    ensures NodesHold(nodes, seen + [x]) && EdgesHold(edges, seen + [x], spansById)
  {
    nodes, edges := before, edgesBefore;
    NodesPlus(before, seen, x);
    EdgesPlus(edgesBefore, seen, spansById, x);
    if x.service.None? {
      return;
    }
    nodes := PutNode(nodes, x.service.value, x);
    var key := EdgeOf(x, spansById);
    if key.None? {
      return;
    }
    edges := PutEdge(edges, key.value, x);
  }

  /** The loop over the spans. */
  method Accumulate(spans: seq<Span>, spansById: SpanIndex) returns (nodes: map<string, NodeAcc>, edges: map<EdgeKey, EdgeAcc>)
    ensures NodesHold(nodes, spans) && EdgesHold(edges, spans, spansById)
  {
    nodes, edges := map[], map[];
    for i := 0 to |spans|
      invariant NodesHold(nodes, spans[..i]) && EdgesHold(edges, spans[..i], spansById)
    {
      nodes, edges := Add(nodes, edges, spans[..i], spansById, spans[i]);
      assert spans[..i + 1] == spans[..i] + [spans[i]];
    }
    assert spans[..|spans|] == spans;
  }

  // ---------- the normalised graph ----------

  function Names(spans: seq<Span>): seq<string> { Dedup(KeyList(spans, ServiceKey())) }

  function Keys(spans: seq<Span>, m: SpanIndex): seq<EdgeKey> { Dedup(KeyList(spans, EdgeKeyOf(m))) }

  function NodeFor(s: string, a: NodeAcc): ServiceNode {
    ServiceNode(s, a.spans, |a.traces|, a.errors, Ratio(a.errors, a.spans))
  }

  function EdgeFor(k: EdgeKey, a: EdgeAcc, window: real): ServiceEdge
    requires window > 0.0
  {
    var latencies := Sort(a.latencies, RealLe);
    ServiceEdge(k.0, k.1, a.requests, |a.traces|, a.failures, Ratio(a.failures, a.requests), a.requests as real / window,
                Percentile(latencies, 0.50), Percentile(latencies, 0.95), Percentile(latencies, 0.99),
                a.firstSeen.GetOr(0.0), a.lastSeen.GetOr(0.0))
  }

  function NodeList(spans: seq<Span>, names: seq<string>): seq<ServiceNode> {
    Map(names, s => NodeFor(s, NodeAt(OfService(spans, s))))
  }

  function EdgeList(spans: seq<Span>, m: SpanIndex, keys: seq<EdgeKey>, window: real): seq<ServiceEdge>
    requires window > 0.0
  {
    Map(keys, k => EdgeFor(k, EdgeAt(OnEdge(spans, m, k)), window))
  }

  /** The graph the spans stand for, defined without a loop. */
  function Graphed(spans: seq<Span>, window: real): Snapshot
    requires window > 0.0
  {
    var m := IndexOf(spans);
    Snapshot(|TraceIds(spans)|, NodeList(spans, Sort(Names(spans), StrLe)), EdgeList(spans, m, Sort(Keys(spans, m), PairLe), window))
  }

  lemma NamesAre(spans: seq<Span>)
    ensures Distinct(Names(spans))
    ensures forall s :: s in Names(spans) <==> OfService(spans, s) != []
  {
    DedupIsDistinct(KeyList(spans, ServiceKey()));
    forall s ensures s in Names(spans) <==> OfService(spans, s) != [] {
      KeyListMembers(spans, ServiceKey(), s);
    }
  }

  lemma KeysAre(spans: seq<Span>, m: SpanIndex)
    ensures Distinct(Keys(spans, m))
    ensures forall k :: k in Keys(spans, m) <==> OnEdge(spans, m, k) != []
  {
    DedupIsDistinct(KeyList(spans, EdgeKeyOf(m)));
    forall k: EdgeKey ensures k in Keys(spans, m) <==> OnEdge(spans, m, k) != [] {
      KeyListMembers(spans, EdgeKeyOf(m), k);
      assert OnEdge(spans, m, k) == Group(spans, EdgeKeyOf(m), k);
    }
  }

  predicate Observed(a: EdgeAcc) { a.firstSeen.Some? && a.lastSeen.Some? && a.requests > 0 }

  /** `_normalize_edge`; an observed edge always has timestamps. */
  method NormalizeEdge(k: EdgeKey, value: EdgeAcc, window: real) returns (e: ServiceEdge)
    requires window > 0.0 && Observed(value)
    ensures e == EdgeFor(k, value, window)
  {
    var latencies := Sort(value.latencies, RealLe);
    e := ServiceEdge(k.0, k.1, value.requests, |value.traces|, value.failures,
                     value.failures as real / value.requests as real, value.requests as real / window,
                     Percentile(latencies, 0.50), Percentile(latencies, 0.95), Percentile(latencies, 0.99),
                     value.firstSeen.value, value.lastSeen.value);
  }

  lemma SortedNames(spans: seq<Span>, nodes: map<string, NodeAcc>, names: seq<string>)
    requires NodesHold(nodes, spans)
    requires (forall s :: s in names <==> s in nodes) && Sorted(names, StrLe) && Distinct(names)
    ensures names == Sort(Names(spans), StrLe)
  {
    StringOrder();
    NamesAre(spans);
    SortedKeysUnique(names, Names(spans), StrLe);
  }

  /** Lookups in the two dictionaries. */
  function NodeIn(nodes: map<string, NodeAcc>, s: string): NodeAcc { if s in nodes then nodes[s] else NO_NODE }

  method ListNodes(nodes: map<string, NodeAcc>, names: seq<string>) returns (list: seq<ServiceNode>)
    ensures list == Map(names, s => NodeFor(s, NodeIn(nodes, s)))
  {
    ghost var expected := Map(names, s => NodeFor(s, NodeIn(nodes, s)));
    list := [];
    for i := 0 to |names|
      invariant list == expected[..i]
    {
      var node := NodeFor(names[i], NodeIn(nodes, names[i]));
      assert expected[i] == node;
      list := list + [node];
    }
  }

  method NormalizeNodes(ghost spans: seq<Span>, nodes: map<string, NodeAcc>) returns (list: seq<ServiceNode>)
    requires NodesHold(nodes, spans)
    ensures list == NodeList(spans, Sort(Names(spans), StrLe))
  {
    StringOrder();
    var names := SortedSet(nodes.Keys, StrLe);
    SortedNames(spans, nodes, names);
    list := ListNodes(nodes, names);
    assert list == NodeList(spans, names);
  }

  lemma ObservedEdge(xs: seq<Span>)
    requires xs != []
    ensures Observed(EdgeAt(xs))
  {
  }

  lemma AllObserved(spans: seq<Span>, m: SpanIndex, edges: map<EdgeKey, EdgeAcc>)
    requires EdgesHold(edges, spans, m)
    ensures forall k :: k in edges ==> Observed(edges[k])
  {
    forall k | k in edges ensures Observed(edges[k]) {
      ObservedEdge(OnEdge(spans, m, k));
    }
  }

  function EdgeIn(edges: map<EdgeKey, EdgeAcc>, k: EdgeKey): EdgeAcc { if k in edges then edges[k] else NO_EDGE }

  lemma ListedEdges(spans: seq<Span>, m: SpanIndex, edges: map<EdgeKey, EdgeAcc>, keys: seq<EdgeKey>, window: real)
    requires EdgesHold(edges, spans, m) && window > 0.0 && forall k :: k in keys ==> k in edges
    ensures Map(keys, (k: EdgeKey) => EdgeFor(k, EdgeIn(edges, k), window)) == EdgeList(spans, m, keys, window)
  {
  }

  lemma SortedEdgeKeys(spans: seq<Span>, m: SpanIndex, edges: map<EdgeKey, EdgeAcc>, keys: seq<EdgeKey>)
    requires EdgesHold(edges, spans, m)
    requires (forall k :: k in keys <==> k in edges) && Sorted(keys, PairLe) && Distinct(keys)
    ensures keys == Sort(Keys(spans, m), PairLe)
  {
    PairOrder();
    KeysAre(spans, m);
    SortedKeysUnique(keys, Keys(spans, m), PairLe);
  }

  method ListEdges(edges: map<EdgeKey, EdgeAcc>, keys: seq<EdgeKey>, window: real) returns (list: seq<ServiceEdge>)
    requires window > 0.0
    requires forall k :: k in keys ==> k in edges && Observed(edges[k])
    ensures list == Map(keys, (k: EdgeKey) => EdgeFor(k, EdgeIn(edges, k), window))
  {
    ghost var expected := Map(keys, (k: EdgeKey) => EdgeFor(k, EdgeIn(edges, k), window));
    list := [];
    for i := 0 to |keys|
      invariant list == expected[..i]
    {
      var e := NormalizeEdge(keys[i], edges[keys[i]], window);
      assert expected[i] == e;
      list := list + [e];
    }
  }

  method NormalizeEdges(ghost spans: seq<Span>, ghost m: SpanIndex, edges: map<EdgeKey, EdgeAcc>, window: real)
    returns (list: seq<ServiceEdge>)
    requires EdgesHold(edges, spans, m) && window > 0.0
    ensures list == EdgeList(spans, m, Sort(Keys(spans, m), PairLe), window)
  {
    PairOrder();
    var keys := SortedSet(edges.Keys, PairLe);
    SortedEdgeKeys(spans, m, edges, keys);
    AllObserved(spans, m, edges);
    list := ListEdges(edges, keys, window);
    ListedEdges(spans, m, edges, keys, window);
  }

  /** The builder as it is written agrees with the declarative graph. */
  method Build(spans: seq<Span>, window: real) returns (g: Snapshot)
    requires window > 0.0
    ensures g == Graphed(spans, window)
  {
    var nodes, edges := Accumulate(spans, IndexOf(spans));
    var normalizedNodes := NormalizeNodes(spans, nodes);
    var normalizedEdges := NormalizeEdges(spans, IndexOf(spans), edges, window);
    g := Snapshot(|TraceIds(spans)|, normalizedNodes, normalizedEdges);
  }
}

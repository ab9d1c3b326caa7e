/** Laws of the reconstructed service graph: when it does not depend on the order of the
    spans, that it can be built trace by trace, and that its counts are conserved. */
module TraceGraphLaws {
  import opened Prelude
  import opened Ordering
  import opened Percentiles
  import opened Contracts
  import opened TraceGraph

  // ---------- the order of the spans ----------

  predicate SameId(x: Span, y: Span) { x.traceId == y.traceId && x.spanId == y.spanId }

  /** `z` says that `x` is its parent. */
  predicate RefersTo(z: Span, x: Span) { z.traceId == x.traceId && z.parent == Some(x.spanId) }

  /** Whichever of two spans with one id counts as the parent, every span that refers to
      that id is evidence for the same edge, or for none. */
  predicate Agreed(spans: seq<Span>) {
    forall x, y, z :: x in spans && y in spans && z in spans && SameId(x, y) && RefersTo(z, x) ==> EdgeFrom(z, x) == EdgeFrom(z, y)
  }

  lemma SameEdges(a: seq<Span>, b: seq<Span>, z: Span)
    requires Agreed(a) && z in a && forall y :: y in a <==> y in b
    ensures EdgeOf(z, IndexOf(a)) == EdgeOf(z, IndexOf(b))
  {
    var ma, mb := IndexOf(a), IndexOf(b);
    if z.parent.Some? {
      var k := (z.traceId, z.parent.value);
      if k in ma { assert (ma[k].traceId, ma[k].spanId) in mb; }
      if k in mb { assert (mb[k].traceId, mb[k].spanId) in ma; }
      if k in ma { assert SameId(ma[k], mb[k]) && RefersTo(z, ma[k]); }
    }
  }

  lemma {:induction false} ExtremesAre(xs: seq<real>)
    requires xs != []
    ensures Least(xs).Some? && Least(xs).value in xs && forall x :: x in xs ==> Least(xs).value <= x
    ensures Greatest(xs).Some? && Greatest(xs).value in xs && forall x :: x in xs ==> x <= Greatest(xs).value
  {
    if |xs| > 1 {
      var init := xs[..|xs| - 1];
      ExtremesAre(init);
      assert xs == init + [xs[|xs| - 1]];
    }
  }

  lemma ExtremesPermute(a: seq<real>, b: seq<real>)
    requires Permutation(a, b)
    ensures Least(a) == Least(b) && Greatest(a) == Greatest(b)
  {
    SamePermutation(a, b);
    if a != [] {
      ExtremesAre(a);
      ExtremesAre(b);
    }
  }

  lemma NodePermutes(a: seq<Span>, b: seq<Span>)
    requires Permutation(a, b)
    ensures NodeAt(a) == NodeAt(b)
  {
    SamePermutation(a, b);
    FilterPermutation(a, b, (x: Span) => IsError(x));
  }

  lemma RealOrder(xs: seq<real>)
    ensures TotalPreorder(RealLe) && TieFree(xs, RealLe)
  {
  }

  lemma EdgePermutes(a: seq<Span>, b: seq<Span>, k: EdgeKey, window: real)
    requires Permutation(a, b) && window > 0.0
    ensures EdgeFor(k, EdgeAt(a), window) == EdgeFor(k, EdgeAt(b), window)
  {
    NodePermutes(a, b);
    MapPermutation(a, b, (x: Span) => x.start);
    MapPermutation(a, b, (x: Span) => x.end);
    MapPermutation(a, b, (x: Span) => Latency(x));
    ExtremesPermute(Starts(a), Starts(b));
    ExtremesPermute(Ends(a), Ends(b));
    RealOrder(Latencies(a));
    SortOrderFree(Latencies(a), Latencies(b), RealLe);
  }

  lemma NodeListPermutes(a: seq<Span>, b: seq<Span>, names: seq<string>)
    requires Permutation(a, b)
    ensures NodeList(a, names) == NodeList(b, names)
  {
    forall s ensures NodeAt(OfService(a, s)) == NodeAt(OfService(b, s)) {
      GroupPermutes(a, b, ServiceKey(), s);
      NodePermutes(OfService(a, s), OfService(b, s));
    }
  }

  lemma OnEdgePermutes(a: seq<Span>, b: seq<Span>, k: EdgeKey)
    requires Permutation(a, b) && Agreed(a)
    ensures Permutation(OnEdge(a, IndexOf(a), k), OnEdge(b, IndexOf(b), k))
  {
    SamePermutation(a, b);
    forall x | x in b ensures EdgeKeyOf(IndexOf(a))(x) == EdgeKeyOf(IndexOf(b))(x) { SameEdges(a, b, x); }
    GroupSame(b, EdgeKeyOf(IndexOf(a)), EdgeKeyOf(IndexOf(b)), k);
    GroupPermutes(a, b, EdgeKeyOf(IndexOf(a)), k);
  }

  lemma EdgeListPermutes(a: seq<Span>, b: seq<Span>, keys: seq<EdgeKey>, window: real)
    requires Permutation(a, b) && Agreed(a) && window > 0.0
    ensures EdgeList(a, IndexOf(a), keys, window) == EdgeList(b, IndexOf(b), keys, window)
  {
    forall k: EdgeKey
      ensures EdgeFor(k, EdgeAt(OnEdge(a, IndexOf(a), k)), window) == EdgeFor(k, EdgeAt(OnEdge(b, IndexOf(b), k)), window)
    {
      OnEdgePermutes(a, b, k);
      EdgePermutes(OnEdge(a, IndexOf(a), k), OnEdge(b, IndexOf(b), k), k, window);
    }
  }

  lemma NamesPermute(a: seq<Span>, b: seq<Span>)
    requires Permutation(a, b)
    ensures Sort(Names(a), StrLe) == Sort(Names(b), StrLe)
  {
    StringOrder();
    KeyListPermutes(a, b, ServiceKey());
    SortOrderFree(Names(a), Names(b), StrLe);
  }

  lemma KeysPermute(a: seq<Span>, b: seq<Span>)
    requires Permutation(a, b) && Agreed(a)
    ensures Sort(Keys(a, IndexOf(a)), PairLe) == Sort(Keys(b, IndexOf(b)), PairLe)
  {
    PairOrder();
    SamePermutation(a, b);
    forall x | x in b ensures EdgeKeyOf(IndexOf(a))(x) == EdgeKeyOf(IndexOf(b))(x) { SameEdges(a, b, x); }
    KeyListSame(b, EdgeKeyOf(IndexOf(a)), EdgeKeyOf(IndexOf(b)));
    KeyListPermutes(a, b, EdgeKeyOf(IndexOf(a)));
    SortOrderFree(Keys(a, IndexOf(a)), Keys(b, IndexOf(b)), PairLe);
  }

  /** The builder cannot tell two orders of the same spans apart, as long as spans that
      share an id agree. */
  lemma GraphIgnoresOrder(a: seq<Span>, b: seq<Span>, window: real)
    requires Permutation(a, b) && Agreed(a) && window > 0.0
    ensures Graphed(a, window) == Graphed(b, window)
  {
    SamePermutation(a, b);
    NamesPermute(a, b);
    KeysPermute(a, b);
    NodeListPermutes(a, b, Sort(Names(a), StrLe));
    EdgeListPermutes(a, b, Sort(Keys(a, IndexOf(a)), PairLe), window);
    assert TraceIds(a) == TraceIds(b);
  }

  // ---------- trace by trace ----------

  predicate TraceDisjoint(a: seq<Span>, b: seq<Span>) { TraceIds(a) !! TraceIds(b) }

  function MergeNodes(a: NodeAcc, b: NodeAcc): NodeAcc {
    NodeAcc(a.spans + b.spans, a.errors + b.errors, a.traces + b.traces)
  }

  function MergeTimes(a: Option<Time>, b: Option<Time>, pick: (Time, Time) -> Time): Option<Time> {
    if a.None? then b else if b.None? then a else Some(pick(a.value, b.value))
  }

  function MergeEdges(a: EdgeAcc, b: EdgeAcc): EdgeAcc {
    EdgeAcc(a.requests + b.requests, a.failures + b.failures, a.traces + b.traces, a.latencies + b.latencies,
            MergeTimes(a.firstSeen, b.firstSeen, Min), MergeTimes(a.lastSeen, b.lastSeen, Max))
  }

  /** The index of the whole is, on the traces of each part, the index of that part. */
  lemma {:induction false} IndexOfParts(a: seq<Span>, b: seq<Span>, k: (string, string))
    ensures k in IndexOf(a + b) <==> k in IndexOf(a) || k in IndexOf(b)
    ensures k in IndexOf(b) ==> IndexOf(a + b)[k] == IndexOf(b)[k]
    ensures k in IndexOf(a) && k !in IndexOf(b) ==> IndexOf(a + b)[k] == IndexOf(a)[k]
  {
    if b == [] {
      assert a + b == a;
    } else {
      IndexOfParts(a, b[..|b| - 1], k);
      assert (a + b)[..|a + b| - 1] == a + b[..|b| - 1];
    }
  }

  lemma EdgeOfParts(a: seq<Span>, b: seq<Span>, x: Span)
    requires TraceDisjoint(a, b)
    ensures x in a ==> EdgeOf(x, IndexOf(a + b)) == EdgeOf(x, IndexOf(a))
    ensures x in b ==> EdgeOf(x, IndexOf(a + b)) == EdgeOf(x, IndexOf(b))
  {
    if x.parent.Some? {
      var k := (x.traceId, x.parent.value);
      IndexOfParts(a, b, k);
      if k in IndexOf(a) { assert IndexOf(a)[k].traceId in TraceIds(a); }
      if k in IndexOf(b) { assert IndexOf(b)[k].traceId in TraceIds(b); }
      if x in a { assert x.traceId in TraceIds(a); }
      if x in b { assert x.traceId in TraceIds(b); }
    }
  }

  lemma OnEdgeParts(a: seq<Span>, b: seq<Span>, k: EdgeKey)
    requires TraceDisjoint(a, b)
    ensures OnEdge(a + b, IndexOf(a + b), k) == OnEdge(a, IndexOf(a), k) + OnEdge(b, IndexOf(b), k)
  {
    var m := IndexOf(a + b);
    GroupAppend(a, b, EdgeKeyOf(m), k);
    forall x | x in a ensures EdgeKeyOf(m)(x) == EdgeKeyOf(IndexOf(a))(x) { EdgeOfParts(a, b, x); }
    forall x | x in b ensures EdgeKeyOf(m)(x) == EdgeKeyOf(IndexOf(b))(x) { EdgeOfParts(a, b, x); }
    GroupSame(a, EdgeKeyOf(m), EdgeKeyOf(IndexOf(a)), k);
    GroupSame(b, EdgeKeyOf(m), EdgeKeyOf(IndexOf(b)), k);
  }

  lemma ErrorsParts(a: seq<Span>, b: seq<Span>)
    ensures Errors(a + b) == Errors(a) + Errors(b)
    ensures TraceIds(a + b) == TraceIds(a) + TraceIds(b)
  {
    FilterAppend(a, b, (x: Span) => IsError(x));
  }

  lemma LeastIs(xs: seq<real>, v: real)
    requires v in xs && forall x :: x in xs ==> v <= x
    ensures Least(xs) == Some(v)
  {
    ExtremesAre(xs);
  }

  lemma GreatestIs(xs: seq<real>, v: real)
    requires v in xs && forall x :: x in xs ==> x <= v
    ensures Greatest(xs) == Some(v)
  {
    ExtremesAre(xs);
  }

  lemma ExtremesParts(a: seq<real>, b: seq<real>)
    ensures Least(a + b) == MergeTimes(Least(a), Least(b), Min)
    ensures Greatest(a + b) == MergeTimes(Greatest(a), Greatest(b), Max)
  {
    if a == [] {
      assert a + b == b;
    } else if b == [] {
      assert a + b == a;
      ExtremesAre(a);
    } else {
      ExtremesAre(a);
      ExtremesAre(b);
      LeastIs(a + b, Min(Least(a).value, Least(b).value));
      GreatestIs(a + b, Max(Greatest(a).value, Greatest(b).value));
    }
  }

  lemma EdgeAtParts(a: seq<Span>, b: seq<Span>)
    ensures EdgeAt(a + b) == MergeEdges(EdgeAt(a), EdgeAt(b))
  {
    ErrorsParts(a, b);
    MapAppend(a, b, (x: Span) => x.start);
    MapAppend(a, b, (x: Span) => x.end);
    MapAppend(a, b, (x: Span) => Latency(x));
    ExtremesParts(Starts(a), Starts(b));
    ExtremesParts(Ends(a), Ends(b));
  }

  function MergedNodes(a: map<string, NodeAcc>, b: map<string, NodeAcc>): map<string, NodeAcc> {
    map s | s in a.Keys + b.Keys :: MergeNodes(NodeIn(a, s), NodeIn(b, s))
  }

  function MergedEdges(a: map<EdgeKey, EdgeAcc>, b: map<EdgeKey, EdgeAcc>): map<EdgeKey, EdgeAcc> {
    map k | k in a.Keys + b.Keys :: MergeEdges(EdgeIn(a, k), EdgeIn(b, k))
  }

  /** Spans of different traces can be folded apart: the merge of the two results is the
      result of folding them together. */
  lemma NodesMerge(na: map<string, NodeAcc>, nb: map<string, NodeAcc>, a: seq<Span>, b: seq<Span>)
    requires NodesHold(na, a) && NodesHold(nb, b)
    ensures NodesHold(MergedNodes(na, nb), a + b)
  {
    var merged := MergedNodes(na, nb);
    assert NodeAt([]) == NO_NODE;
    forall s
      ensures s in merged <==> OfService(a + b, s) != []
      ensures s in merged ==> merged[s] == NodeAt(OfService(a + b, s))
    {
      GroupAppend(a, b, ServiceKey(), s);
      ErrorsParts(OfService(a, s), OfService(b, s));
    }
  }

  lemma EdgeInIs(edges: map<EdgeKey, EdgeAcc>, k: EdgeKey, xs: seq<Span>)
    requires (k in edges <==> xs != []) && (k in edges ==> edges[k] == EdgeAt(xs))
    ensures EdgeIn(edges, k) == EdgeAt(xs)
  {
    assert EdgeAt([]) == NO_EDGE;
  }

  lemma MergedEdge(ea: map<EdgeKey, EdgeAcc>, eb: map<EdgeKey, EdgeAcc>, k: EdgeKey)
    ensures k in MergedEdges(ea, eb) <==> k in ea || k in eb
    ensures k in MergedEdges(ea, eb) ==> MergedEdges(ea, eb)[k] == MergeEdges(EdgeIn(ea, k), EdgeIn(eb, k))
  {
  }

  lemma EdgesMerge(ea: map<EdgeKey, EdgeAcc>, eb: map<EdgeKey, EdgeAcc>, a: seq<Span>, b: seq<Span>)
    requires TraceDisjoint(a, b) && EdgesHold(ea, a, IndexOf(a)) && EdgesHold(eb, b, IndexOf(b))
    ensures EdgesHold(MergedEdges(ea, eb), a + b, IndexOf(a + b))
  {
    forall k: EdgeKey
      ensures k in MergedEdges(ea, eb) <==> OnEdge(a + b, IndexOf(a + b), k) != []
      ensures k in MergedEdges(ea, eb) ==> MergedEdges(ea, eb)[k] == EdgeAt(OnEdge(a + b, IndexOf(a + b), k))
    {
      OnEdgeParts(a, b, k);
      EdgeInIs(ea, k, OnEdge(a, IndexOf(a), k));
      EdgeInIs(eb, k, OnEdge(b, IndexOf(b), k));
      EdgeAtParts(OnEdge(a, IndexOf(a), k), OnEdge(b, IndexOf(b), k));
      MergedEdge(ea, eb, k);
    }
  }

  /** Disjoint traces are counted once each. */
  lemma TraceCountsAdd(a: seq<Span>, b: seq<Span>, window: real)
    requires TraceDisjoint(a, b) && window > 0.0
    ensures Graphed(a + b, window).traceCount == Graphed(a, window).traceCount + Graphed(b, window).traceCount
  {
    ErrorsParts(a, b);
  }

  // ---------- conservation ----------

  function SpanCount(): ServiceNode -> nat { (n: ServiceNode) => n.spanCount }

  function Requests(): ServiceEdge -> nat { (e: ServiceEdge) => e.requestCount }

  function Failures(): ServiceEdge -> nat { (e: ServiceEdge) => e.failureCount }

  function SortedNamesOf(spans: seq<Span>): seq<string> { Sort(Names(spans), StrLe) }

  function SortedKeysOf(spans: seq<Span>, m: SpanIndex): seq<EdgeKey> { Sort(Keys(spans, m), PairLe) }

  lemma ListedNames(spans: seq<Span>)
    ensures Distinct(SortedNamesOf(spans))
    ensures forall s :: s in SortedNamesOf(spans) <==> OfService(spans, s) != []
  {
    NamesAre(spans);
    SortDistinct(Names(spans), StrLe);
  }

  lemma ListedKeys(spans: seq<Span>, m: SpanIndex)
    ensures Distinct(SortedKeysOf(spans, m))
    ensures forall k: EdgeKey :: k in SortedKeysOf(spans, m) <==> OnEdge(spans, m, k) != []
  {
    KeysAre(spans, m);
    SortDistinct(Keys(spans, m), PairLe);
    forall k: EdgeKey ensures k in SortedKeysOf(spans, m) <==> OnEdge(spans, m, k) != [] {
      SortMember(Keys(spans, m), PairLe, k);
    }
  }

  lemma NodeTotals(spans: seq<Span>, names: seq<string>)
    ensures Total(NodeList(spans, names), SpanCount()) == Total(names, Sizes(spans, ServiceKey()))
  {
    TotalByIndex(NodeList(spans, names), SpanCount(), names, Sizes(spans, ServiceKey()));
  }

  lemma NamedSpans(spans: seq<Span>, names: seq<string>)
    requires Distinct(names) && forall s :: OfService(spans, s) != [] ==> s in names
    ensures Total(names, Sizes(spans, ServiceKey())) == |Filter(spans, (x: Span) => x.service.Some?)|
  {
    GroupsCover(spans, ServiceKey(), names);
    FilterSame(spans, Keyed(ServiceKey()), (x: Span) => x.service.Some?);
  }

  /** Every span with a service is counted at exactly one node. */
  lemma SpansConserved(spans: seq<Span>, window: real)
    requires window > 0.0
    ensures Total(Graphed(spans, window).nodes, SpanCount()) == |Filter(spans, (x: Span) => x.service.Some?)|
  {
    ListedNames(spans);
    NodeTotals(spans, SortedNamesOf(spans));
    NamedSpans(spans, SortedNamesOf(spans));
  }

  lemma EdgeTotals(spans: seq<Span>, m: SpanIndex, keys: seq<EdgeKey>, window: real)
    requires window > 0.0
    ensures Total(EdgeList(spans, m, keys, window), Requests()) == Total(keys, Sizes(spans, EdgeKeyOf(m)))
  {
    TotalByIndex(EdgeList(spans, m, keys, window), Requests(), keys, Sizes(spans, EdgeKeyOf(m)));
  }

  lemma EdgeSpans(spans: seq<Span>, m: SpanIndex, keys: seq<EdgeKey>)
    requires Distinct(keys) && forall k: EdgeKey :: OnEdge(spans, m, k) != [] ==> k in keys
    ensures Total(keys, Sizes(spans, EdgeKeyOf(m))) == |Filter(spans, (x: Span) => EdgeOf(x, m).Some?)|
  {
    GroupsCover(spans, EdgeKeyOf(m), keys);
    FilterSame(spans, Keyed(EdgeKeyOf(m)), (x: Span) => EdgeOf(x, m).Some?);
  }

  /** Every cross-service child span is counted at exactly one edge. */
  lemma RequestsConserved(spans: seq<Span>, window: real)
    requires window > 0.0
    ensures Total(Graphed(spans, window).edges, Requests()) == |Filter(spans, (x: Span) => EdgeOf(x, IndexOf(spans)).Some?)|
  {
    var m := IndexOf(spans);
    ListedKeys(spans, m);
    EdgeTotals(spans, m, SortedKeysOf(spans, m), window);
    EdgeSpans(spans, m, SortedKeysOf(spans, m));
  }

  // ---------- a service and the requests it serves ----------

  /** The edges of a graph that lead to `v`. */
  function Incoming(g: Snapshot, v: string): seq<ServiceEdge> { Filter(g.edges, (e: ServiceEdge) => e.callee == v) }

  function CallsTo(v: string): EdgeKey -> bool { (k: EdgeKey) => k.1 == v }

  lemma {:induction false} IncomingEdges(spans: seq<Span>, m: SpanIndex, keys: seq<EdgeKey>, window: real, v: string)
    requires window > 0.0
    ensures Filter(EdgeList(spans, m, keys, window), (e: ServiceEdge) => e.callee == v)
      == EdgeList(spans, m, Filter(keys, CallsTo(v)), window)
  {
    if keys != [] {
      IncomingEdges(spans, m, keys[1..], window, v);
      assert EdgeList(spans, m, keys, window)[1..] == EdgeList(spans, m, keys[1..], window);
    }
  }

  lemma EdgeOfNames(x: Span, m: SpanIndex, k: EdgeKey)
    requires EdgeOf(x, m) == Some(k)
    ensures x.service == Some(k.1) && k.0 != k.1
    ensures x.parent.Some? && (x.traceId, x.parent.value) in m && m[(x.traceId, x.parent.value)].service == Some(k.0)
  {
  }

  /** Of any part of the spans, those on edges to `v` are spans of `v`. */
  lemma ServedSpans(spans: seq<Span>, m: SpanIndex, keys: seq<EdgeKey>, v: string)
    requires Distinct(keys)
    ensures Total(Filter(keys, CallsTo(v)), Sizes(spans, EdgeKeyOf(m))) <= |OfService(spans, v)|
  {
    var into := Filter(keys, CallsTo(v));
    FilterDistinct(keys, CallsTo(v));
    forall x | x in spans && HasKeyIn(EdgeKeyOf(m), into, x) ensures ServiceKey()(x) == Some(v) {
      FilterMembers(keys, CallsTo(v));
      EdgeOfNames(x, m, EdgeOf(x, m).value);
    }
    GroupsWithin(spans, EdgeKeyOf(m), into, ServiceKey(), v);
  }

  function Failed(spans: seq<Span>): seq<Span> { Filter(spans, (x: Span) => IsError(x)) }

  lemma {:induction false} ErrorsOfGroup<K>(spans: seq<Span>, key: Span -> Option<K>, k: K)
    ensures Errors(Group(spans, key, k)) == |Group(Failed(spans), key, k)|
  {
    if spans != [] {
      ErrorsOfGroup(spans[1..], key, k);
    }
  }

  lemma FailureTotals(spans: seq<Span>, m: SpanIndex, keys: seq<EdgeKey>, window: real)
    requires window > 0.0
    ensures Total(EdgeList(spans, m, keys, window), Failures()) == Total(keys, Sizes(Failed(spans), EdgeKeyOf(m)))
  {
    forall i | 0 <= i < |keys|
      ensures Failures()(EdgeList(spans, m, keys, window)[i]) == Sizes(Failed(spans), EdgeKeyOf(m))(keys[i])
    {
      ErrorsOfGroup(spans, EdgeKeyOf(m), keys[i]);
    }
    TotalByIndex(EdgeList(spans, m, keys, window), Failures(), keys, Sizes(Failed(spans), EdgeKeyOf(m)));
  }

  /** What a service answers to its callers is part of what it does: the requests on the
      edges to it are among its spans, and the failures among its errors. */
  lemma IncomingBounded(spans: seq<Span>, window: real, v: string)
    requires window > 0.0
    ensures Total(Incoming(Graphed(spans, window), v), Requests()) <= NodeAt(OfService(spans, v)).spans
    ensures Total(Incoming(Graphed(spans, window), v), Failures()) <= NodeAt(OfService(spans, v)).errors
  {
    var m := IndexOf(spans);
    var keys := SortedKeysOf(spans, m);
    var into := Filter(keys, CallsTo(v));
    ListedKeys(spans, m);
    IncomingEdges(spans, m, keys, window, v);
    EdgeTotals(spans, m, into, window);
    ServedSpans(spans, m, keys, v);
    FailureTotals(spans, m, into, window);
    ServedSpans(Failed(spans), m, keys, v);
    ErrorsOfGroup(spans, ServiceKey(), v);
  }

  // ---------- well-formedness of the result ----------

  /** The node of a service, and where it is listed. */
  lemma NodeListed(spans: seq<Span>, window: real, v: string) returns (i: nat)
    requires window > 0.0 && OfService(spans, v) != []
    ensures var g := Graphed(spans, window);
      i < |g.nodes| && g.nodes[i] == NodeFor(v, NodeAt(OfService(spans, v)))
  {
    ListedNames(spans);
    i :| 0 <= i < |SortedNamesOf(spans)| && SortedNamesOf(spans)[i] == v;
  }

  lemma EdgeListed(spans: seq<Span>, window: real, i: nat) returns (k: EdgeKey)
    requires window > 0.0 && i < |Graphed(spans, window).edges|
    ensures OnEdge(spans, IndexOf(spans), k) != []
    ensures Graphed(spans, window).edges[i] == EdgeFor(k, EdgeAt(OnEdge(spans, IndexOf(spans), k)), window)
  {
    var m := IndexOf(spans);
    k := SortedKeysOf(spans, m)[i];
    ListedKeys(spans, m);
    assert k in SortedKeysOf(spans, m);
  }

  lemma ServiceSeen(spans: seq<Span>, x: Span, s: string)
    requires x in spans && x.service == Some(s)
    ensures OfService(spans, s) != []
  {
    GroupMembers(spans, ServiceKey(), s);
    assert x in OfService(spans, s);
  }

  /** Every edge joins two different listed nodes. */
  lemma EdgesJoinNodes(spans: seq<Span>, window: real, i: nat)
    requires window > 0.0 && i < |Graphed(spans, window).edges|
    ensures var g := Graphed(spans, window);
      && g.edges[i].caller != g.edges[i].callee
      && (exists n :: n in g.nodes && n.service == g.edges[i].caller)
      && (exists n :: n in g.nodes && n.service == g.edges[i].callee)
  {
    var m := IndexOf(spans);
    var k := EdgeListed(spans, window, i);
    var x := OnEdge(spans, m, k)[0];
    GroupMembers(spans, EdgeKeyOf(m), k);
    assert x in OnEdge(spans, m, k);
    EdgeOfNames(x, m, k);
    var parent := m[(x.traceId, x.parent.value)];
    ServiceSeen(spans, parent, k.0);
    ServiceSeen(spans, x, k.1);
    var a := NodeListed(spans, window, k.0);
    var b := NodeListed(spans, window, k.1);
    assert Graphed(spans, window).nodes[a] in Graphed(spans, window).nodes;
    assert Graphed(spans, window).nodes[b] in Graphed(spans, window).nodes;
  }

  lemma LatenciesNonNegative(xs: seq<Span>)
    ensures forall v :: v in Latencies(xs) ==> v >= 0.0
  {
    forall v | v in Latencies(xs) ensures v >= 0.0 {
      var j :| 0 <= j < |xs| && Latencies(xs)[j] == v;
      assert v == Latency(xs[j]);
    }
  }

  lemma PercentilesOf(xs: seq<real>)
    requires xs != []
    ensures Least(xs).Some? && Greatest(xs).Some?
    ensures var s := Sort(xs, RealLe);
      Least(xs).value <= Percentile(s, 0.50) <= Percentile(s, 0.95) <= Percentile(s, 0.99) <= Greatest(xs).value
  {
    var s := Sort(xs, RealLe);
    RealOrder(xs);
    SortSorted(xs, RealLe);
    SortPermutes(xs, RealLe);
    ExtremesAre(xs);
    assert s[0] in s && s[|s| - 1] in s;
    PercentileRange(s, 0.50);
    PercentileRange(s, 0.99);
    PercentileMonotone(s, 0.50, 0.95);
    PercentileMonotone(s, 0.95, 0.99);
  }

  /** The reported percentiles lie in order between the smallest and the largest latency
      seen on the edge. */
  lemma PercentilesOrdered(spans: seq<Span>, window: real, i: nat)
    requires window > 0.0 && i < |Graphed(spans, window).edges|
    ensures var e := Graphed(spans, window).edges[i];
      var xs := Latencies(OnEdge(spans, IndexOf(spans), (e.caller, e.callee)));
      xs != [] && 0.0 <= Least(xs).value <= e.p50 <= e.p95 <= e.p99 <= Greatest(xs).value
  {
    var m := IndexOf(spans);
    var k := EdgeListed(spans, window, i);
    var xs := Latencies(OnEdge(spans, m, k));
    PercentilesOf(xs);
    LatenciesNonNegative(OnEdge(spans, m, k));
    ExtremesAre(xs);
  }

  lemma OneMore(s: set<string>, x: string)
    ensures 0 < |s + {x}| <= |s| + 1
  {
    if x in s {
      assert s + {x} == s;
    }
    assert x in s + {x};
  }

  lemma {:induction false} TracesOfSpans(xs: seq<Span>)
    ensures |TraceIds(xs)| <= |xs|
    ensures xs != [] ==> |TraceIds(xs)| > 0
  {
    if xs != [] {
      var init, last := xs[..|xs| - 1], xs[|xs| - 1];
      assert xs == init + [last];
      TracesOfSpans(init);
      TracesPlus(init, last);
      OneMore(TraceIds(init), last.traceId);
    }
  }

  lemma FirstAndLast(xs: seq<Span>)
    requires xs != []
    ensures Least(Starts(xs)).Some? && Greatest(Ends(xs)).Some?
    ensures exists x :: x in xs && x.start == Least(Starts(xs)).value
    ensures exists x :: x in xs && x.end == Greatest(Ends(xs)).value
    ensures forall x :: x in xs ==> Least(Starts(xs)).value <= x.start && x.end <= Greatest(Ends(xs)).value
  {
    var starts, ends := Starts(xs), Ends(xs);
    ExtremesAre(starts);
    ExtremesAre(ends);
    var i :| 0 <= i < |starts| && starts[i] == Least(starts).value;
    var j :| 0 <= j < |ends| && ends[j] == Greatest(ends).value;
    assert xs[i] in xs && xs[j] in xs;
    forall x | x in xs ensures Least(starts).value <= x.start && x.end <= Greatest(ends).value {
      var k :| 0 <= k < |xs| && xs[k] == x;
      assert starts[k] in starts && ends[k] in ends;
    }
  }

  /** What the rates of an edge mean. */
  predicate RatesHold(e: ServiceEdge, window: real) {
    && 0.0 <= e.errorRate <= 1.0 && e.errorRate * e.requestCount as real == e.failureCount as real
    && e.requestRate * window == e.requestCount as real
  }

  /** The interval an edge reports starts with its first span and ends with its last. */
  ghost predicate IntervalHolds(e: ServiceEdge, xs: seq<Span>) {
    && (forall x :: x in xs ==> e.firstSeen <= x.start && x.end <= e.lastSeen)
    && (exists x :: x in xs && x.start == e.firstSeen) && (exists x :: x in xs && x.end == e.lastSeen)
  }

  lemma RatesOf(k: EdgeKey, a: EdgeAcc, window: real)
    requires window > 0.0 && 0 <= a.failures <= a.requests && a.requests > 0
    ensures RatesHold(EdgeFor(k, a, window), window)
  {
    var part, whole := a.failures as real, a.requests as real;
    assert part / whole * whole == part && whole / window * window == whole;
  }

  /** Every listed edge describes the spans that are evidence for it: how many there are, in
      how many traces and how many failed, the rates that go with that, and the interval
      they cover. */
  lemma EdgeDescribesItsSpans(spans: seq<Span>, window: real, i: nat)
    requires window > 0.0 && i < |Graphed(spans, window).edges|
    ensures var e := Graphed(spans, window).edges[i];
      var xs := OnEdge(spans, IndexOf(spans), (e.caller, e.callee));
      && xs != [] && e.requestCount == |xs| && e.failureCount == |Failed(xs)| <= e.requestCount
      && e.traceCount == |TraceIds(xs)| && 0 < e.traceCount <= e.requestCount
      && RatesHold(e, window) && IntervalHolds(e, xs)
  {
    var k := EdgeListed(spans, window, i);
    var xs := OnEdge(spans, IndexOf(spans), k);
    FilterMembers(xs, (x: Span) => IsError(x));
    TracesOfSpans(xs);
    FirstAndLast(xs);
    RatesOf(k, EdgeAt(xs), window);
  }
}

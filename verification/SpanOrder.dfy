/** Exactly when the order of the spans matters to the reconstructed graph. */
module SpanOrder {
  import opened Prelude
  import opened Ordering
  import opened Contracts
  import opened TraceGraph
  import opened TraceGraphLaws

  function IdOf(x: Span): (string, string) { (x.traceId, x.spanId) }

  /** Of two spans with one id at the end of a list, the last one is in the index. */
  lemma LastWins(rest: seq<Span>, x: Span, y: Span)
    requires SameId(x, y)
    ensures IndexOf(rest + [y, x]) == IndexOf(rest)[IdOf(x) := x]
  {
    var s := rest + [y, x];
    assert s[..|s| - 1] == rest + [y];
    assert (rest + [y])[..|rest + [y]| - 1] == rest;
  }

  /** With `y` in the place of `x`, no span becomes evidence for the edge from `x` to the
      span `z` that tells them apart, and `z` stops being evidence for it. */
  lemma EdgeLost(m: SpanIndex, x: Span, y: Span, z: Span, k: EdgeKey, u: Span)
    requires SameId(x, y) && RefersTo(z, x) && EdgeFrom(z, x) == Some(k) && EdgeFrom(z, y) != Some(k)
    ensures EdgeOf(z, m[IdOf(x) := x]) == Some(k) && EdgeOf(z, m[IdOf(x) := y]) != Some(k)
    ensures EdgeOf(u, m[IdOf(x) := y]) == Some(k) ==> EdgeOf(u, m[IdOf(x) := x]) == Some(k)
  {
  }

  lemma LastTwo(rest: seq<Span>, x: Span, y: Span)
    ensures Permutation(rest + [x, y], rest + [y, x])
  {
    assert multiset([x, y]) == multiset([y, x]);
  }

  /** The number of requests on edge `k` depends on which of `x` and `y` comes last. */
  lemma RequestsDiffer(rest: seq<Span>, x: Span, y: Span, z: Span, k: EdgeKey)
    requires SameId(x, y) && RefersTo(z, x) && EdgeFrom(z, x) == Some(k) && EdgeFrom(z, y) != Some(k)
    requires z in rest + [y, x]
    ensures |OnEdge(rest + [x, y], IndexOf(rest + [x, y]), k)| < |OnEdge(rest + [y, x], IndexOf(rest + [y, x]), k)|
  {
    var b, c, m := rest + [y, x], rest + [x, y], IndexOf(rest);
    var mb, mc := m[IdOf(x) := x], m[IdOf(x) := y];
    LastWins(rest, x, y);
    LastWins(rest, y, x);
    EdgeLost(m, x, y, z, k, z);
    forall u | u in b && EdgeKeyOf(mc)(u) == Some(k) ensures EdgeKeyOf(mb)(u) == Some(k) { EdgeLost(m, x, y, z, k, u); }
    GroupShrinks(b, EdgeKeyOf(mc), EdgeKeyOf(mb), k, z);
    LastTwo(rest, x, y);
    GroupPermutes(c, b, EdgeKeyOf(mc), k);
    SamePermutation(OnEdge(c, mc, k), OnEdge(b, mc, k));
  }

  /** An edge is listed with the number of spans that are evidence for it. */
  lemma RequestsListed(spans: seq<Span>, window: real, k: EdgeKey) returns (i: nat)
    requires window > 0.0 && OnEdge(spans, IndexOf(spans), k) != []
    ensures var g := Graphed(spans, window);
      && i < |g.edges| && g.edges[i].caller == k.0 && g.edges[i].callee == k.1
      && g.edges[i].requestCount == |OnEdge(spans, IndexOf(spans), k)|
  {
    var m := IndexOf(spans);
    ListedKeys(spans, m);
    i :| 0 <= i < |SortedKeysOf(spans, m)| && SortedKeysOf(spans, m)[i] == k;
  }

  lemma GraphsDiffer(a: seq<Span>, b: seq<Span>, window: real, k: EdgeKey)
    requires window > 0.0 && |OnEdge(a, IndexOf(a), k)| < |OnEdge(b, IndexOf(b), k)|
    ensures Graphed(a, window) != Graphed(b, window)
  {
    var i := RequestsListed(b, window, k);
    if Graphed(a, window) == Graphed(b, window) {
      var l := EdgeListed(a, window, i);
    }
  }

  /** Put two spans that disagree last, in either order, and the graphs differ. */
  lemma DisagreementShows(rest: seq<Span>, x: Span, y: Span, z: Span, window: real)
    requires window > 0.0 && SameId(x, y) && RefersTo(z, x) && EdgeFrom(z, x) != EdgeFrom(z, y)
    requires z in rest + [y, x]
    ensures Graphed(rest + [x, y], window) != Graphed(rest + [y, x], window)
  {
    if EdgeFrom(z, x).Some? {
      RequestsDiffer(rest, x, y, z, EdgeFrom(z, x).value);
      GraphsDiffer(rest + [x, y], rest + [y, x], window, EdgeFrom(z, x).value);
    } else {
      assert z in rest + [x, y];
      RequestsDiffer(rest, y, x, z, EdgeFrom(z, y).value);
      GraphsDiffer(rest + [y, x], rest + [x, y], window, EdgeFrom(z, y).value);
    }
  }

  lemma TakeOut(a: seq<Span>, x: Span) returns (rest: seq<Span>)
    requires x in a
    ensures Permutation(a, rest + [x]) && forall u :: u in a && u != x ==> u in rest
  {
    var i :| 0 <= i < |a| && a[i] == x;
    rest := a[..i] + a[i + 1..];
    WithoutAt(a, i);
    SamePermutation(a, rest + [x]);
  }

  /** Any two spans of a list can be put last. */
  lemma PutLast(a: seq<Span>, x: Span, y: Span) returns (rest: seq<Span>)
    requires x in a && y in a && x != y
    ensures Permutation(a, rest + [y, x])
  {
    var one := TakeOut(a, x);
    rest := TakeOut(one, y);
    assert rest + [y, x] == (rest + [y]) + [x];
  }

  /** Spans that disagree have an order in which the graph is another one. */
  lemma DisagreementMatters(a: seq<Span>, window: real) returns (b: seq<Span>)
    requires window > 0.0 && !Agreed(a)
    ensures Permutation(a, b) && Graphed(b, window) != Graphed(a, window)
  {
    var x, y, z :| x in a && y in a && z in a && SameId(x, y) && RefersTo(z, x) && EdgeFrom(z, x) != EdgeFrom(z, y);
    var rest := PutLast(a, x, y);
    var c, d := rest + [y, x], rest + [x, y];
    LastTwo(rest, x, y);
    SamePermutation(a, c);
    DisagreementShows(rest, x, y, z, window);
    b := if Graphed(c, window) == Graphed(a, window) then d else c;
  }

  /** The graph is the same for every order of the spans if and only if spans that share an
      id agree about the edge of every span that refers to that id. */
  lemma OrderFreeIff(a: seq<Span>, window: real)
    requires window > 0.0
    ensures (forall b :: Permutation(a, b) ==> Graphed(b, window) == Graphed(a, window)) <==> Agreed(a)
  {
    if Agreed(a) {
      forall b | Permutation(a, b) ensures Graphed(b, window) == Graphed(a, window) { GraphIgnoresOrder(a, b, window); }
    } else {
      var b := DisagreementMatters(a, window);
    }
  }

  /** Ids that are unique, as trace and span ids should be, leave nothing to disagree about. */
  lemma UniqueIdsAgree(spans: seq<Span>)
    requires forall i, j :: 0 <= i < j < |spans| ==> !SameId(spans[i], spans[j])
    ensures Agreed(spans)
  {
  }

  // ---------- inputs on either side ----------

  function Root(service: string): Span { Span("t", "1", None, Some(service), 0.0, 1.0, None) }

  function Child(): Span { Span("t", "2", Some("1"), Some("cart"), 0.0, 1.0, None) }

  /** A child of two roots with one id: the graph depends on which root comes last. */
  lemma OrderMatters(window: real)
    requires window > 0.0
    ensures var a, b := [Child()] + [Root("web"), Root("api")], [Child()] + [Root("api"), Root("web")];
      Permutation(a, b) && Graphed(a, window) != Graphed(b, window)
  {
    LastTwo([Child()], Root("web"), Root("api"));
    DisagreementShows([Child()], Root("web"), Root("api"), Child(), window);
  }

  /** The same two roots without the child: they name different services, and no order of
      them makes a difference. */
  lemma DisagreementCanBeHarmless(window: real)
    requires window > 0.0
    ensures forall b :: Permutation([Root("web"), Root("api")], b) ==> Graphed(b, window) == Graphed([Root("web"), Root("api")], window)
  {
    assert Agreed([Root("web"), Root("api")]);
    OrderFreeIff([Root("web"), Root("api")], window);
  }
}

/** Which spans a reconstructed graph counts as failed, what its nodes say, and one graph in full. */
module SpanStatus {
  import opened Prelude
  import opened Ordering
  import opened Percentiles
  import opened Contracts
  import opened TraceGraph
  import opened TraceGraphLaws

  /** The letters of `word`, each as a capital or not. */
  predicate Spells(letters: string, word: string, capitals: string)
    requires |word| == |capitals|
  {
    |letters| == |word| && forall k :: 0 <= k < |letters| ==> letters[k] == word[k] || letters[k] == capitals[k]
  }

  /** A status that ends in "error", in any mixture of cases. */
  predicate EndsInError(status: string) {
    |status| >= 5 && Spells(status[|status| - 5..], "error", "ERROR")
  }

  predicate Fails(x: Span) { x.statusCode.Some? && EndsInError(x.statusCode.value) }

  function FailTest(): Span -> bool { (x: Span) => Fails(x) }

  lemma UpperIs(c: char, small: char, capital: char)
    requires 'a' <= small <= 'z' && capital == small - 'a' + 'A'
    ensures Upper(c) == capital <==> c == small || c == capital
  {
  }

  lemma UppersSpell(letters: string)
    requires |letters| == 5
    ensures Map(letters, c => Upper(c)) == "ERROR" <==> Spells(letters, "error", "ERROR")
  {
    var upper := Map(letters, c => Upper(c));
    UpperIs(letters[0], 'e', 'E');
    UpperIs(letters[1], 'r', 'R');
    UpperIs(letters[2], 'r', 'R');
    UpperIs(letters[3], 'o', 'O');
    UpperIs(letters[4], 'r', 'R');
    if Spells(letters, "error", "ERROR") {
      assert forall k :: 0 <= k < 5 ==> upper[k] == "ERROR"[k];
    } else {
      var k :| 0 <= k < 5 && letters[k] != "error"[k] && letters[k] != "ERROR"[k];
      assert upper[k] != "ERROR"[k];
    }
  }

  /** A span counts as failed if and only if its status ends in "error", whatever the case. */
  lemma ErrorIff(x: Span)
    ensures IsError(x) <==> Fails(x)
  {
    if x.statusCode.Some? && |x.statusCode.value| >= 5 {
      UppersSpell(x.statusCode.value[|x.statusCode.value| - 5..]);
    }
  }

  /** In front of the word there can be anything. */
  lemma PrefixedError(prefix: string, word: string)
    ensures Spells(word, "error", "ERROR") ==> EndsInError(prefix + word)
    ensures |word| == 5 && EndsInError(prefix + word) ==> Spells(word, "error", "ERROR")
  {
    if |word| == 5 {
      assert (prefix + word)[|prefix + word| - 5..] == word;
    }
  }

  lemma ErrorsFail(xs: seq<Span>)
    ensures Errors(xs) == |Filter(xs, FailTest())|
  {
    forall x | x in xs ensures IsError(x) == FailTest()(x) { ErrorIff(x); }
    FilterSame(xs, (x: Span) => IsError(x), FailTest());
  }

  // ---------- nodes ----------

  function OfNode(s: string): Span -> bool { (x: Span) => x.service == Some(s) }

  lemma {:induction false} OfServiceIs(spans: seq<Span>, s: string)
    ensures OfService(spans, s) == Filter(spans, OfNode(s))
  {
    if spans != [] {
      OfServiceIs(spans[1..], s);
    }
  }

  /** Every node describes the spans of its service: how many there are, in how many traces,
      and how many failed. */
  predicate Describes(n: ServiceNode, xs: seq<Span>) {
    && xs != [] && n.spanCount == |xs| && n.errorCount == |Filter(xs, FailTest())|
    && n.traceCount == |TraceIds(xs)| && n.errorRate * n.spanCount as real == n.errorCount as real
  }

  lemma RatioTimes(part: nat, whole: nat)
    requires whole > 0
    ensures Ratio(part, whole) * whole as real == part as real
  {
  }

  lemma NodeOfSpans(s: string, xs: seq<Span>)
    requires xs != []
    ensures Describes(NodeFor(s, NodeAt(xs)), xs)
  {
    var n := NodeFor(s, NodeAt(xs));
    ErrorsFail(xs);
    RatioTimes(Errors(xs), |xs|);
    assert n.errorRate == Ratio(Errors(xs), |xs|) && n.errorCount == Errors(xs) && n.spanCount == |xs|;
  }

  lemma NodeAtIndex(spans: seq<Span>, window: real, i: nat) returns (s: string)
    requires window > 0.0 && i < |Graphed(spans, window).nodes|
    ensures Graphed(spans, window).nodes[i] == NodeFor(s, NodeAt(OfService(spans, s))) && OfService(spans, s) != []
  {
    s := SortedNamesOf(spans)[i];
    ListedNames(spans);
    assert s in SortedNamesOf(spans);
  }

  lemma NodeDescribesItsSpans(spans: seq<Span>, window: real, i: nat)
    requires window > 0.0 && i < |Graphed(spans, window).nodes|
    ensures var n := Graphed(spans, window).nodes[i]; Describes(n, Filter(spans, OfNode(n.service)))
  {
    var s := NodeAtIndex(spans, window, i);
    OfServiceIs(spans, s);
    NodeOfSpans(s, OfService(spans, s));
  }

  /** One more span adds one to the spans of its service and, exactly if it failed, one to its errors. */
  lemma OneMoreSpan(spans: seq<Span>, x: Span, s: string)
    requires x.service == Some(s)
    ensures Filter(spans + [x], OfNode(s)) == Filter(spans, OfNode(s)) + [x]
    ensures |Filter(Filter(spans + [x], OfNode(s)), FailTest())| == |Filter(Filter(spans, OfNode(s)), FailTest())| + if Fails(x) then 1 else 0
  {
    FilterAppend(spans, [x], OfNode(s));
    FilterAppend(Filter(spans, OfNode(s)), [x], FailTest());
    assert [x][1..] == [];
  }

  // ---------- edges ----------

  /** The failures of an edge are those of its spans whose status ends in "error". */
  lemma EdgeCountsFailures(spans: seq<Span>, window: real, i: nat)
    requires window > 0.0 && i < |Graphed(spans, window).edges|
    ensures var e := Graphed(spans, window).edges[i];
      e.failureCount == |Filter(OnEdge(spans, IndexOf(spans), (e.caller, e.callee)), FailTest())|
  {
    var k := EdgeListed(spans, window, i);
    ErrorsFail(OnEdge(spans, IndexOf(spans), k));
  }

  /** A span is on the edge from the service of its parent to its own. */
  lemma OnEdgeIff(spans: seq<Span>, x: Span, k: EdgeKey)
    ensures x in OnEdge(spans, IndexOf(spans), k) <==>
      && x in spans && x.parent.Some? && (x.traceId, x.parent.value) in IndexOf(spans)
      && IndexOf(spans)[(x.traceId, x.parent.value)].service == Some(k.0) && x.service == Some(k.1) && k.0 != k.1
  {
    GroupMembers(spans, EdgeKeyOf(IndexOf(spans)), k);
  }

  // ---------- the order of nodes and edges ----------

  /** Nodes are listed by service, each once. */
  lemma NodesInOrder(spans: seq<Span>, window: real, i: nat, j: nat)
    requires window > 0.0 && i < j < |Graphed(spans, window).nodes|
    ensures var a, b := Graphed(spans, window).nodes[i], Graphed(spans, window).nodes[j];
      a.service != b.service && StrLe(a.service, b.service)
  {
    StringOrder();
    ListedNames(spans);
    SortSorted(Names(spans), StrLe);
    var names := SortedNamesOf(spans);
    assert names[i] != names[j] && StrLe(names[i], names[j]);
  }

  lemma KeysInOrder(spans: seq<Span>, m: SpanIndex, i: nat, j: nat)
    requires i < j < |SortedKeysOf(spans, m)|
    ensures SortedKeysOf(spans, m)[i] != SortedKeysOf(spans, m)[j] && PairLe(SortedKeysOf(spans, m)[i], SortedKeysOf(spans, m)[j])
  {
    PairOrder();
    ListedKeys(spans, m);
    SortSorted(Keys(spans, m), PairLe);
  }

  /** Edges are listed by caller and callee, each once. */
  lemma EdgesInOrder(spans: seq<Span>, window: real, i: nat, j: nat)
    requires window > 0.0 && i < j < |Graphed(spans, window).edges|
    ensures var a, b := Graphed(spans, window).edges[i], Graphed(spans, window).edges[j];
      if a.caller == b.caller then a.callee != b.callee && StrLe(a.callee, b.callee) else StrLe(a.caller, b.caller)
  {
    KeysInOrder(spans, IndexOf(spans), i, j);
  }

  // ---------- one graph ----------

  const FRONT := Span("t", "1", None, Some("web"), 0.0, 1.0, None)
  const FAST := Span("t", "2", Some("1"), Some("cart"), 0.1, 0.2, Some("STATUS_CODE_OK"))
  const SLOW := Span("t", "3", Some("1"), Some("cart"), 0.2, 0.5, Some("STATUS_CODE_ERROR"))

  function Three(): seq<Span> { [FRONT, FAST, SLOW] }

  lemma StatusOfThree()
    ensures !Fails(FRONT) && !Fails(FAST) && Fails(SLOW)
  {
    var ok, bad := "STATUS_CODE_OK", "STATUS_CODE_ERROR";
    assert ok[|ok| - 5..][0] == 'D' && bad[|bad| - 5..] == "ERROR";
  }

  lemma ServicesOfThree(s: string)
    ensures OfService(Three(), s) == if s == "web" then [FRONT] else if s == "cart" then [FAST, SLOW] else []
  {
    OfServiceIs(Three(), s);
    assert Three()[1..] == [FAST, SLOW] && Three()[1..][1..] == [SLOW] && Three()[1..][1..][1..] == [];
    assert "web" != "cart" by { assert "web"[0] != "cart"[0]; }
  }

  lemma NamesOfThree()
    ensures SortedNamesOf(Three()) == ["cart", "web"]
  {
    var names := ["cart", "web"];
    ListedNames(Three());
    forall s ensures s in names <==> s in SortedNamesOf(Three()) { ServicesOfThree(s); }
    assert "cart"[0] < "web"[0];
    StringOrder();
    SortSorted(Names(Three()), StrLe);
    DistinctSameMembers(names, SortedNamesOf(Three()));
    SortedUnique(names, SortedNamesOf(Three()), StrLe);
  }

  lemma IndexOfThree()
    ensures IndexOf(Three()) == map[("t", "1") := FRONT, ("t", "2") := FAST, ("t", "3") := SLOW]
  {
    assert Three()[..2] == [FRONT, FAST] && [FRONT, FAST][..1] == [FRONT] && [FRONT][..0] == [];
  }

  lemma KeyOfEach(m: SpanIndex)
    requires m == IndexOf(Three())
    ensures EdgeOf(FRONT, m) == None && EdgeOf(FAST, m) == Some(("web", "cart")) && EdgeOf(SLOW, m) == Some(("web", "cart"))
  {
    IndexOfThree();
    assert "web"[0] != "cart"[0];
  }

  lemma GroupOfThree(key: Span -> Option<EdgeKey>, k: EdgeKey)
    requires key(FRONT) == None && key(FAST) == key(SLOW) == Some(("web", "cart"))
    ensures Group(Three(), key, k) == if k == ("web", "cart") then [FAST, SLOW] else []
  {
    GroupAppend([FRONT], [FAST, SLOW], key, k);
    GroupAppend([FAST], [SLOW], key, k);
    GroupOne(FRONT, key, k);
    GroupOne(FAST, key, k);
    GroupOne(SLOW, key, k);
    assert [FRONT] + [FAST, SLOW] == Three() && [FAST] + [SLOW] == [FAST, SLOW];
  }

  lemma EdgesOfThree(k: EdgeKey)
    ensures OnEdge(Three(), IndexOf(Three()), k) == if k == ("web", "cart") then [FAST, SLOW] else []
  {
    KeyOfEach(IndexOf(Three()));
    GroupOfThree(EdgeKeyOf(IndexOf(Three())), k);
  }

  lemma KeysOfThree()
    ensures SortedKeysOf(Three(), IndexOf(Three())) == [("web", "cart")]
  {
    var keys := SortedKeysOf(Three(), IndexOf(Three()));
    ListedKeys(Three(), IndexOf(Three()));
    forall k: EdgeKey ensures k in keys <==> k in [("web", "cart")] { EdgesOfThree(k); }
    DistinctSameMembers([("web", "cart")], keys);
    SamePermutation([("web", "cart")], keys);
  }

  lemma PercentilesOfTwo()
    ensures Percentile([100.0, 300.0], 0.50) == 200.0
    ensures Percentile([100.0, 300.0], 0.95) == 290.0
    ensures Percentile([100.0, 300.0], 0.99) == 298.0
  {
  }

  lemma AccumulatedOfTwo()
    ensures EdgeAt([FAST, SLOW]) == EdgeAcc(2, 1, {"t"}, [100.0, 300.0], Some(0.1), Some(0.5))
  {
    var xs := [FAST, SLOW];
    StatusOfThree();
    ErrorsFail(xs);
    assert xs[1..] == [SLOW] && xs[..1] == [FAST] && [SLOW][1..] == [];
    assert Filter([SLOW], FailTest()) == [SLOW] + Filter([SLOW][1..], FailTest()) == [SLOW];
    assert Filter(xs, FailTest()) == Filter([SLOW], FailTest());
    assert Starts(xs) == [0.1, 0.2] && Ends(xs) == [0.2, 0.5] && Latencies(xs) == [100.0, 300.0];
    assert [0.1, 0.2][..1] == [0.1] && [0.2, 0.5][..1] == [0.2];
  }

  lemma EdgeOfThree(window: real)
    requires window == 10.0
    ensures EdgeFor(("web", "cart"), EdgeAt([FAST, SLOW]), window)
      == ServiceEdge("web", "cart", 2, 1, 1, 0.5, 0.2, 200.0, 290.0, 298.0, 0.1, 0.5)
  {
    AccumulatedOfTwo();
    PercentilesOfTwo();
    SortOfSorted([100.0, 300.0], RealLe);
  }

  lemma NodesOfThree()
    ensures NodeFor("cart", NodeAt([FAST, SLOW])) == ServiceNode("cart", 2, 1, 1, 0.5)
    ensures NodeFor("web", NodeAt([FRONT])) == ServiceNode("web", 1, 1, 0, 0.0)
  {
    AccumulatedOfTwo();
    StatusOfThree();
    ErrorsFail([FRONT]);
    assert [FRONT][1..] == [];
    assert TraceIds([FRONT]) == {"t"};
  }

  lemma NodeListOfThree()
    ensures NodeList(Three(), ["cart", "web"]) == [ServiceNode("cart", 2, 1, 1, 0.5), ServiceNode("web", 1, 1, 0, 0.0)]
  {
    ServicesOfThree("cart");
    ServicesOfThree("web");
    NodesOfThree();
  }

  lemma EdgeListOfThree(m: SpanIndex, window: real)
    requires m == IndexOf(Three()) && window == 10.0
    ensures EdgeList(Three(), m, [("web", "cart")], window)
      == [ServiceEdge("web", "cart", 2, 1, 1, 0.5, 0.2, 200.0, 290.0, 298.0, 0.1, 0.5)]
  {
    EdgesOfThree(("web", "cart"));
    EdgeOfThree(window);
  }

  lemma NodesAre(spans: seq<Span>, window: real, names: seq<string>, nodes: seq<ServiceNode>)
    requires window > 0.0 && names == SortedNamesOf(spans) && nodes == NodeList(spans, names)
    ensures Graphed(spans, window).nodes == nodes
  {
  }

  lemma EdgesAre(spans: seq<Span>, window: real, keys: seq<EdgeKey>, edges: seq<ServiceEdge>)
    requires window > 0.0 && keys == SortedKeysOf(spans, IndexOf(spans)) && edges == EdgeList(spans, IndexOf(spans), keys, window)
    ensures Graphed(spans, window).edges == edges
  {
  }

  /** A front end and two requests it made, of which the second failed: two nodes ... */
  lemma NodesOfGraph(spans: seq<Span>, window: real)
    requires spans == Three() && window > 0.0
    ensures Graphed(spans, window).nodes == [ServiceNode("cart", 2, 1, 1, 0.5), ServiceNode("web", 1, 1, 0, 0.0)]
  {
    NamesOfThree();
    NodeListOfThree();
    NodesAre(spans, window, ["cart", "web"], [ServiceNode("cart", 2, 1, 1, 0.5), ServiceNode("web", 1, 1, 0, 0.0)]);
  }

  /** ... and one edge, with its rates, latencies and times. */
  lemma EdgesOfGraph(spans: seq<Span>, window: real)
    requires spans == Three() && window == 10.0
    ensures Graphed(spans, window).edges == [ServiceEdge("web", "cart", 2, 1, 1, 0.5, 0.2, 200.0, 290.0, 298.0, 0.1, 0.5)]
  {
    KeysOfThree();
    EdgeListOfThree(IndexOf(spans), window);
    EdgesAre(spans, window, [("web", "cart")], [ServiceEdge("web", "cart", 2, 1, 1, 0.5, 0.2, 200.0, 290.0, 298.0, 0.1, 0.5)]);
  }
}

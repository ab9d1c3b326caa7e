/** Service dependency graphs: walks, breadth-first search, and the traversal queries. */
module ServiceGraph {
  import opened Prelude
  import opened Ordering
  import opened Contracts

  datatype Graph = Graph(nodes: set<string>, edges: set<(string, string)>)

  /** Every edge joins two nodes: adding an edge adds its ends. */
  ghost predicate Closed(g: Graph) {
    forall e :: e in g.edges ==> e.0 in g.nodes && e.1 in g.nodes
  }

  function GraphOf(s: Snapshot): Graph {
    Graph((set n | n in s.nodes :: n.service) + (set e | e in s.edges :: e.caller) + (set e | e in s.edges :: e.callee),
          set e | e in s.edges :: (e.caller, e.callee))
  }

  /** An edge leads from a caller to a callee, and the services are those of the nodes and the edges. */
  lemma GraphSays(s: Snapshot, u: string, v: string)
    ensures (u, v) in GraphOf(s).edges <==> exists e :: e in s.edges && e.caller == u && e.callee == v
    ensures v in GraphOf(s).nodes <==>
      (exists n :: n in s.nodes && n.service == v) || exists e :: e in s.edges && (e.caller == v || e.callee == v)
  {
  }

  // ---------- iterating a growing function ----------

  function Iterate(f: set<string> -> set<string>, x: set<string>, n: nat): set<string> {
    if n == 0 then x else f(Iterate(f, x, n - 1))
  }

  ghost predicate Inflationary(f: set<string> -> set<string>) {
    forall y :: y <= f(y)
  }

  lemma SubsetSize(a: set<string>, b: set<string>)
    requires a <= b
    ensures |a| <= |b| && (a != b ==> |a| < |b|)
  {
    var rest := b - a;
    assert b == a + rest;
    assert |b| == |a| + |rest|;
    if a != b {
      assert rest != {};
    }
  }

  lemma {:induction false} IterateStops(f: set<string> -> set<string>, x: set<string>, m: nat, n: nat)
    requires m <= n && Iterate(f, x, m + 1) == Iterate(f, x, m)
    ensures Iterate(f, x, n) == Iterate(f, x, m)
    decreases n
  {
    if m < n {
      IterateStops(f, x, m, n - 1);
    }
  }

  lemma {:induction false} IterateGrows(f: set<string> -> set<string>, x: set<string>, m: nat, n: nat)
    requires m <= n && Inflationary(f)
    ensures Iterate(f, x, m) <= Iterate(f, x, n)
    decreases n
  {
    if m < n {
      IterateGrows(f, x, m, n - 1);
    }
  }

  /** Until it stops, every step adds something. */
  lemma {:induction false} StoppedOrLarge(f: set<string> -> set<string>, x: set<string>, n: nat)
    requires Inflationary(f) && x != {}
    ensures Iterate(f, x, n + 1) == Iterate(f, x, n) || |Iterate(f, x, n)| >= n + 1
    decreases n
  {
    if n == 0 {
      assert |x| > 0;
    } else {
      StoppedOrLarge(f, x, n - 1);
      if Iterate(f, x, n) != Iterate(f, x, n - 1) {
        IterateGrows(f, x, n - 1, n);
        SubsetSize(Iterate(f, x, n - 1), Iterate(f, x, n));
      } else {
        IterateStops(f, x, n - 1, n + 1);
      }
    }
  }

  /** Inside a finite bound, as many steps as the bound has elements are enough. */
  lemma Saturates(f: set<string> -> set<string>, x: set<string>, bound: set<string>, n: nat)
    requires Inflationary(f) && x != {} && Iterate(f, x, |bound|) <= bound
    ensures Iterate(f, x, n) <= Iterate(f, x, |bound|)
    ensures n >= |bound| ==> Iterate(f, x, n) == Iterate(f, x, |bound|)
  {
    if n <= |bound| {
      IterateGrows(f, x, n, |bound|);
    } else {
      StoppedOrLarge(f, x, |bound|);
      SubsetSize(Iterate(f, x, |bound|), bound);
      IterateStops(f, x, |bound|, n);
    }
  }

  // ---------- walks ----------

  /** A walk from `s` to `t` along observed edges; its length in hops is `|p| - 1`. */
  ghost predicate Walk(g: Graph, p: seq<string>, s: string, t: string) {
    && p != [] && p[0] == s && p[|p| - 1] == t
    && forall i :: 0 <= i < |p| - 1 ==> (p[i], p[i + 1]) in g.edges
  }

  ghost predicate Reaches(g: Graph, s: string, t: string) {
    exists p :: Walk(g, p, s, t)
  }

  function Successors(g: Graph, xs: set<string>): set<string> {
    set e | e in g.edges && e.0 in xs :: e.1
  }

  /** One more hop. */
  function Grow(g: Graph, xs: set<string>): set<string> { xs + Successors(g, xs) }

  function Hop(g: Graph): set<string> -> set<string> { (xs: set<string>) => Grow(g, xs) }

  /** What is reached from `s` in at most `n` hops. */
  function Ball(g: Graph, s: string, n: nat): set<string> { Iterate(Hop(g), {s}, n) }

  lemma BallGrows(g: Graph, s: string, m: nat, n: nat)
    requires m <= n
    ensures Ball(g, s, m) <= Ball(g, s, n)
  {
    IterateGrows(Hop(g), {s}, m, n);
  }

  lemma {:induction false} WalkInBall(g: Graph, p: seq<string>, s: string, t: string)
    requires Walk(g, p, s, t)
    ensures t in Ball(g, s, |p| - 1)
    decreases |p|
  {
    if |p| > 1 {
      var q := p[..|p| - 1];
      assert Walk(g, q, s, q[|q| - 1]);
      WalkInBall(g, q, s, q[|q| - 1]);
      assert (p[|p| - 2], p[|p| - 1]) in g.edges;
    }
  }

  lemma {:induction false} BallHasWalk(g: Graph, s: string, t: string, n: nat) returns (p: seq<string>)
    requires t in Ball(g, s, n)
    ensures Walk(g, p, s, t) && |p| <= n + 1
    decreases n
  {
    if n == 0 {
      p := [s];
    } else if t in Ball(g, s, n - 1) {
      p := BallHasWalk(g, s, t, n - 1);
    } else {
      var e :| e in g.edges && e.0 in Ball(g, s, n - 1) && e.1 == t;
      var q := BallHasWalk(g, s, e.0, n - 1);
      p := q + [t];
    }
  }

  lemma {:induction false} BallInNodes(g: Graph, s: string, n: nat)
    requires Closed(g) && s in g.nodes
    ensures Ball(g, s, n) <= g.nodes
  {
    if n > 0 {
      BallInNodes(g, s, n - 1);
    }
  }

  lemma FullBall(g: Graph, s: string, n: nat)
    requires Closed(g) && s in g.nodes
    ensures Ball(g, s, n) <= Ball(g, s, |g.nodes|)
    ensures n >= |g.nodes| ==> Ball(g, s, n) == Ball(g, s, |g.nodes|)
  {
    BallInNodes(g, s, |g.nodes|);
    Saturates(Hop(g), {s}, g.nodes, n);
  }

  /** As many hops as there are nodes are always enough, cycles or not. */
  lemma BallIsReach(g: Graph, s: string, t: string)
    requires Closed(g) && s in g.nodes
    ensures t in Ball(g, s, |g.nodes|) <==> Reaches(g, s, t)
  {
    if t in Ball(g, s, |g.nodes|) {
      var p := BallHasWalk(g, s, t, |g.nodes|);
    }
    if Reaches(g, s, t) {
      var p :| Walk(g, p, s, t);
      WalkInBall(g, p, s, t);
      FullBall(g, s, |p| - 1);
    }
  }

  // ---------- distances ----------

  /** The first of `from, from + 1, ..., limit` that satisfies `p`. */
  function FirstLevel(p: nat -> bool, from: nat, limit: nat): Option<nat>
    requires from <= limit
    decreases limit - from
  {
    if p(from) then Some(from)
    else if from == limit then None
    else FirstLevel(p, from + 1, limit)
  }

  lemma {:induction false} FirstLevelIsFirst(p: nat -> bool, from: nat, limit: nat)
    requires from <= limit && forall k :: 0 <= k < from ==> !p(k)
    ensures FirstLevel(p, from, limit).None? ==> !p(limit)
    ensures var d := FirstLevel(p, from, limit);
      d.Some? ==> d.value <= limit && p(d.value) && forall k :: 0 <= k < d.value ==> !p(k)
    decreases limit - from
  {
    if !p(from) && from < limit {
      FirstLevelIsFirst(p, from + 1, limit);
    }
  }

  function ReachedAt(g: Graph, s: string, t: string): nat -> bool { (n: nat) => t in Ball(g, s, n) }

  /** `nx.shortest_path_length`, or `None` where `nx.has_path` is false. */
  function Distance(g: Graph, s: string, t: string): Option<nat> {
    FirstLevel(ReachedAt(g, s, t), 0, |g.nodes|)
  }

  lemma DistanceIsFirst(g: Graph, s: string, t: string)
    ensures Distance(g, s, t).None? <==> t !in Ball(g, s, |g.nodes|)
    ensures var d := Distance(g, s, t);
      d.Some? ==> d.value <= |g.nodes| && t in Ball(g, s, d.value) && forall k :: 0 <= k < d.value ==> t !in Ball(g, s, k)
  {
    var p := ReachedAt(g, s, t);
    FirstLevelIsFirst(p, 0, |g.nodes|);
    var d := Distance(g, s, t);
    if d.Some? {
      assert p(d.value);
      BallGrows(g, s, d.value, |g.nodes|);
      forall k | 0 <= k < d.value ensures t !in Ball(g, s, k) { assert !p(k); }
    } else {
      assert !p(|g.nodes|);
    }
  }

  /** The distance exists exactly for reachable nodes and is the length of a shortest walk. */
  lemma DistanceIsShortest(g: Graph, s: string, t: string)
    requires Closed(g) && s in g.nodes
    ensures Distance(g, s, t).Some? <==> Reaches(g, s, t)
    ensures Distance(g, s, t).Some? ==>
      && (exists p :: Walk(g, p, s, t) && |p| - 1 == Distance(g, s, t).value)
      && (forall p :: Walk(g, p, s, t) ==> Distance(g, s, t).value <= |p| - 1)
  {
    DistanceIsFirst(g, s, t);
    BallIsReach(g, s, t);
    var d := Distance(g, s, t);
    if d.Some? {
      forall p | Walk(g, p, s, t) ensures d.value <= |p| - 1 {
        WalkInBall(g, p, s, t);
      }
      var p := BallHasWalk(g, s, t, d.value);
    }
  }

  lemma DistanceIs(g: Graph, s: string, t: string, d: nat)
    requires Closed(g) && s in g.nodes
    requires t in Ball(g, s, d) && (d > 0 ==> t !in Ball(g, s, d - 1))
    ensures Distance(g, s, t) == Some(d)
  {
    var p := BallHasWalk(g, s, t, d);
    DistanceIsShortest(g, s, t);
    DistanceIsFirst(g, s, t);
    var e := Distance(g, s, t).value;
    if e < d {
      BallGrows(g, s, e, d - 1);
    }
  }

  // ---------- dependencies and callers ----------

  function Reverse(g: Graph): Graph {
    Graph(g.nodes, set e | e in g.edges :: (e.1, e.0))
  }

  /** `nx.descendants`: never the source itself, not even on a cycle. */
  function Descendants(g: Graph, s: string): set<string> { Ball(g, s, |g.nodes|) - {s} }

  /** `nx.ancestors`: a search against the edges. */
  function Ancestors(g: Graph, s: string): set<string> { Descendants(Reverse(g), s) }

  lemma WalkBackwards(g: Graph, p: seq<string>, s: string, t: string) returns (q: seq<string>)
    requires Walk(g, p, s, t)
    ensures Walk(Reverse(g), q, t, s) && |q| == |p|
  {
    q := seq(|p|, i requires 0 <= i < |p| => p[|p| - 1 - i]);
    forall i | 0 <= i < |q| - 1 ensures (q[i], q[i + 1]) in Reverse(g).edges {
      var e := (p[|p| - 2 - i], p[|p| - 1 - i]);
      assert p[|p| - 2 - i + 1] == p[|p| - 1 - i];
      assert e in g.edges;
    }
  }

  lemma ReverseTwice(g: Graph)
    ensures Reverse(Reverse(g)) == g
  {
    var r := Reverse(Reverse(g));
    forall e | e in g.edges ensures e in r.edges {
      assert (e.1, e.0) in Reverse(g).edges;
    }
    assert r.edges == g.edges;
  }

  lemma ReachesBackwards(g: Graph, s: string, t: string)
    ensures Reaches(g, s, t) <==> Reaches(Reverse(g), t, s)
  {
    if Reaches(g, s, t) {
      var p :| Walk(g, p, s, t);
      var q := WalkBackwards(g, p, s, t);
    }
    if Reaches(Reverse(g), t, s) {
      var p :| Walk(Reverse(g), p, t, s);
      var q := WalkBackwards(Reverse(g), p, t, s);
      ReverseTwice(g);
    }
  }

  lemma DescendantsAreReached(g: Graph, s: string, t: string)
    requires Closed(g) && s in g.nodes
    ensures t in Descendants(g, s) <==> t != s && Reaches(g, s, t)
    ensures t in Descendants(g, s) ==> t in g.nodes
  {
    BallIsReach(g, s, t);
    BallInNodes(g, s, |g.nodes|);
  }

  lemma AncestorsReach(g: Graph, s: string, t: string)
    requires Closed(g) && s in g.nodes
    ensures t in Ancestors(g, s) <==> t != s && Reaches(g, t, s)
    ensures t in Ancestors(g, s) ==> t in g.nodes
  {
    assert Closed(Reverse(g));
    DescendantsAreReached(Reverse(g), s, t);
    ReachesBackwards(g, t, s);
  }

  /** `t` is a dependency of `s` exactly when `s` is a caller of `t`. */
  lemma DependenciesMirrorCallers(g: Graph, s: string, t: string)
    requires Closed(g) && s in g.nodes && t in g.nodes
    ensures t in Descendants(g, s) <==> s in Ancestors(g, t)
  {
    DescendantsAreReached(g, s, t);
    AncestorsReach(g, t, s);
  }

  // ---------- breadth-first search ----------

  /** The frontier of level `n`. */
  function Shell(g: Graph, s: string, n: nat): set<string> {
    if n == 0 then {s} else Ball(g, s, n) - Ball(g, s, n - 1)
  }

  lemma NextShell(g: Graph, s: string, n: nat)
    ensures Shell(g, s, n + 1) == Successors(g, Shell(g, s, n)) - Ball(g, s, n)
  {
    if n > 0 {
      assert Successors(g, Ball(g, s, n - 1)) <= Ball(g, s, n);
    }
  }

  ghost predicate ShortestTo(g: Graph, s: string, t: string, p: seq<string>) {
    && Walk(g, p, s, t)
    && t in Ball(g, s, |p| - 1) && (|p| > 1 ==> t !in Ball(g, s, |p| - 2))
  }

  /** Every entry is a walk from `s` as long as the level its end was first reached at. */
  ghost predicate Shortest(g: Graph, s: string, paths: map<string, seq<string>>) {
    forall t :: t in paths ==> ShortestTo(g, s, t, paths[t])
  }

  /** What the search knows once it has reached level `n`. */
  ghost predicate Level(g: Graph, s: string, n: nat, frontier: set<string>, paths: map<string, seq<string>>) {
    && paths.Keys == Ball(g, s, n) && frontier == Shell(g, s, n)
    && Shortest(g, s, paths)
    && (forall t :: t in frontier ==> t in paths && |paths[t]| == n + 1)
  }

  lemma LevelGrows(g: Graph, s: string, n: nat)
    requires Closed(g) && s in g.nodes
    ensures Shell(g, s, n + 1) == Successors(g, Shell(g, s, n)) - Ball(g, s, n)
    ensures Ball(g, s, n + 1) == Ball(g, s, n) + Shell(g, s, n + 1)
    ensures Shell(g, s, n) <= Ball(g, s, n) <= g.nodes && Ball(g, s, n + 1) <= g.nodes
  {
    NextShell(g, s, n);
    BallGrows(g, s, n, n + 1);
    BallInNodes(g, s, n);
    BallInNodes(g, s, n + 1);
  }

  lemma LastShell(g: Graph, s: string, n: nat)
    requires n > 0 && Shell(g, s, n) == {}
    ensures Iterate(Hop(g), {s}, n) == Iterate(Hop(g), {s}, n - 1)
  {
    BallGrows(g, s, n - 1, n);
    forall x | x in Ball(g, s, n) ensures x in Ball(g, s, n - 1) { assert x !in Shell(g, s, n); }
  }

  lemma StopsFrom(f: set<string> -> set<string>, x: set<string>, n: nat, limit: nat)
    requires 0 < n <= limit && Iterate(f, x, n) == Iterate(f, x, n - 1)
    ensures Iterate(f, x, n) == Iterate(f, x, limit)
  {
    IterateStops(f, x, n - 1, limit);
  }

  lemma EmptyShellStops(g: Graph, s: string, n: nat)
    requires 0 < n <= |g.nodes| && Shell(g, s, n) == {}
    ensures Iterate(Hop(g), {s}, n) == Iterate(Hop(g), {s}, |g.nodes|)
  {
    LastShell(g, s, n);
    StopsFrom(Hop(g), {s}, n, |g.nodes|);
  }

  lemma EmptyShell(g: Graph, s: string, n: nat)
    requires Closed(g) && s in g.nodes && Shell(g, s, n) == {}
    ensures Ball(g, s, n) == Ball(g, s, |g.nodes|)
  {
    assert s in Shell(g, s, 0);
    if n > |g.nodes| {
      FullBall(g, s, n);
    } else {
      EmptyShellStops(g, s, n);
    }
  }

  /** `p` is the walk to some frontier node, extended by one hop to `v`. */
  ghost predicate OneHop(g: Graph, frontier: set<string>, paths: map<string, seq<string>>, v: string, p: seq<string>) {
    exists u :: u in frontier && u in paths && (u, v) in g.edges && p == paths[u] + [v]
  }

  /** Give each newly reached node such a walk. */
  method Expand(g: Graph, frontier: set<string>, reached: set<string>, paths: map<string, seq<string>>)
    returns (more: map<string, seq<string>>)
    requires frontier <= paths.Keys && reached <= Successors(g, frontier) && reached !! paths.Keys
    ensures more.Keys == paths.Keys + reached
    ensures forall t :: t in paths ==> more[t] == paths[t]
    ensures forall v :: v in reached ==> OneHop(g, frontier, paths, v, more[v])
  {
    more := paths;
    var todo := reached;
    while todo != {}
      invariant todo <= reached && more.Keys == paths.Keys + (reached - todo)
      invariant forall t :: t in paths ==> more[t] == paths[t]
      invariant forall v :: v in reached - todo ==> OneHop(g, frontier, paths, v, more[v])
      decreases todo
    {
      var v :| v in todo;
      var e :| e in g.edges && e.0 in frontier && e.1 == v;
      more := more[v := paths[e.0] + [v]];
      todo := todo - {v};
    }
  }

  lemma ExtendShortest(g: Graph, s: string, n: nat, u: string, v: string, p: seq<string>)
    requires ShortestTo(g, s, u, p) && |p| == n + 1 && u in Shell(g, s, n)
    requires (u, v) in g.edges && v in Shell(g, s, n + 1)
    ensures ShortestTo(g, s, v, p + [v])
  {
    var q := p + [v];
    forall i | 0 <= i < |q| - 1 ensures (q[i], q[i + 1]) in g.edges {
      if i < |p| - 1 {
        assert (p[i], p[i + 1]) in g.edges;
      }
    }
  }

  lemma LevelUp(g: Graph, s: string, n: nat, frontier: set<string>, paths: map<string, seq<string>>,
                reached: set<string>, more: map<string, seq<string>>)
    requires Level(g, s, n, frontier, paths)
    requires reached == Shell(g, s, n + 1) && Ball(g, s, n + 1) == Ball(g, s, n) + Shell(g, s, n + 1)
    requires more.Keys == paths.Keys + reached
    requires forall t :: t in paths ==> more[t] == paths[t]
    requires forall v :: v in reached ==> OneHop(g, frontier, paths, v, more[v])
    ensures Level(g, s, n + 1, reached, more)
  {
    forall v | v in reached ensures ShortestTo(g, s, v, more[v]) && |more[v]| == n + 2 {
      var u :| u in frontier && u in paths && (u, v) in g.edges && more[v] == paths[u] + [v];
      ExtendShortest(g, s, n, u, v, paths[u]);
    }
  }

  /** Breadth-first search, level by level. */
  method Search(g: Graph, s: string) returns (paths: map<string, seq<string>>)
    requires Closed(g) && s in g.nodes
    ensures paths.Keys == Ball(g, s, |g.nodes|) && Shortest(g, s, paths)
  {
    paths := map[s := [s]];
    var frontier := {s};
    ghost var n := 0;
    assert Level(g, s, 0, frontier, paths) by { assert ShortestTo(g, s, s, [s]); }
    while frontier != {}
      invariant Level(g, s, n, frontier, paths)
      decreases g.nodes - Ball(g, s, n), frontier
    {
      LevelGrows(g, s, n);
      var reached := Successors(g, frontier) - paths.Keys;
      var more := Expand(g, frontier, reached, paths);
      LevelUp(g, s, n, frontier, paths, reached, more);
      paths := more;
      frontier := reached;
      n := n + 1;
    }
    EmptyShell(g, s, n);
  }

  // ---------- the queries ----------

  datatype QueryError = ServiceNotFound(service: string) | PathNotFound(source: string, target: string)

  ghost function Ends(es: seq<ServiceEdge>): set<string> {
    (set e | e in es :: e.caller) + (set e | e in es :: e.callee)
  }

  ghost function Pairs(es: seq<ServiceEdge>): set<(string, string)> {
    set e | e in es :: (e.caller, e.callee)
  }

  lemma OneMoreEdge(es: seq<ServiceEdge>, k: nat)
    requires k < |es|
    ensures Ends(es[..k + 1]) == Ends(es[..k]) + {es[k].caller, es[k].callee}
    ensures Pairs(es[..k + 1]) == Pairs(es[..k]) + {(es[k].caller, es[k].callee)}
  {
    assert es[..k + 1] == es[..k] + [es[k]];
  }

  lemma GraphOfClosed(snapshot: Snapshot)
    ensures Closed(GraphOf(snapshot))
  {
  }

  /** Traversal in caller-to-callee direction. */
  class Traversal {
    var nodes: set<string>
    var edges: set<(string, string)>

    ghost predicate Valid()
      reads this
    {
      Closed(Graph(nodes, edges))
    }

    method AddEdges(snapshot: Snapshot)
      requires nodes == (set n | n in snapshot.nodes :: n.service) && edges == {}
      modifies this
      ensures Valid() && Graph(nodes, edges) == GraphOf(snapshot)
    {
      ghost var own := nodes;
      for k := 0 to |snapshot.edges|
        invariant nodes == own + Ends(snapshot.edges[..k]) && edges == Pairs(snapshot.edges[..k])
      {
        var e := snapshot.edges[k];
        OneMoreEdge(snapshot.edges, k);
        nodes := nodes + {e.caller, e.callee};
        edges := edges + {(e.caller, e.callee)};
      }
      assert snapshot.edges[..|snapshot.edges|] == snapshot.edges;
      GraphOfClosed(snapshot);
    }

    constructor (snapshot: Snapshot)
      ensures Valid() && Graph(nodes, edges) == GraphOf(snapshot)
    {
      nodes, edges := {}, {};
      new;
      for k := 0 to |snapshot.nodes|
        invariant nodes == (set n | n in snapshot.nodes[..k] :: n.service) && edges == {}
      {
        nodes := nodes + {snapshot.nodes[k].service};
        assert snapshot.nodes[..k + 1] == snapshot.nodes[..k] + [snapshot.nodes[k]];
      }
      assert snapshot.nodes[..|snapshot.nodes|] == snapshot.nodes;
      AddEdges(snapshot);
    }

    method DirectDependencies(service: string) returns (r: Result<seq<string>, QueryError>)
      ensures service !in nodes ==> r == Err(ServiceNotFound(service))
      ensures service in nodes ==>
        && r.Ok? && Sorted(r.value, StrLe) && Distinct(r.value)
        && forall t :: t in r.value <==> (service, t) in edges
    {
      if service !in nodes { return Err(ServiceNotFound(service)); }
      StringOrder();
      var services := SortedSet(Successors(Graph(nodes, edges), {service}), StrLe);
      forall t ensures t in services <==> (service, t) in edges {
        if (service, t) in edges { assert t in Successors(Graph(nodes, edges), {service}); }
      }
      return Ok(services);
    }

    method Dependencies(service: string) returns (r: Result<seq<string>, QueryError>)
      requires Valid()
      ensures service !in nodes ==> r == Err(ServiceNotFound(service))
      ensures service in nodes ==>
        && r.Ok? && Sorted(r.value, StrLe) && Distinct(r.value)
        && forall t :: t in r.value <==> t != service && Reaches(Graph(nodes, edges), service, t)
    {
      if service !in nodes { return Err(ServiceNotFound(service)); }
      var paths := Search(Graph(nodes, edges), service);
      StringOrder();
      var services := SortedSet(paths.Keys - {service}, StrLe);
      forall t ensures t in services <==> t != service && Reaches(Graph(nodes, edges), service, t) {
        BallIsReach(Graph(nodes, edges), service, t);
      }
      return Ok(services);
    }

    method Callers(service: string) returns (r: Result<seq<string>, QueryError>)
      requires Valid()
      ensures service !in nodes ==> r == Err(ServiceNotFound(service))
      ensures service in nodes ==>
        && r.Ok? && Sorted(r.value, StrLe) && Distinct(r.value)
        && forall t :: t in r.value <==> t != service && Reaches(Graph(nodes, edges), t, service)
    {
      if service !in nodes { return Err(ServiceNotFound(service)); }
      var g := Reverse(Graph(nodes, edges));
      var paths := Search(g, service);
      StringOrder();
      var services := SortedSet(paths.Keys - {service}, StrLe);
      forall t ensures t in services <==> t != service && Reaches(Graph(nodes, edges), t, service) {
        BallIsReach(g, service, t);
        ReachesBackwards(Graph(nodes, edges), t, service);
      }
      return Ok(services);
    }

    /** A shortest walk over observed edges, or the right error. */
    method ShortestDependencyPath(source: string, target: string) returns (r: Result<seq<string>, QueryError>)
      requires Valid()
      ensures source !in nodes ==> r == Err(ServiceNotFound(source))
      ensures source in nodes && target !in nodes ==> r == Err(ServiceNotFound(target))
      ensures source in nodes && target in nodes ==>
        (r.Ok? <==> Reaches(Graph(nodes, edges), source, target))
      ensures source in nodes && target in nodes && r.Err? ==> r.error == PathNotFound(source, target)
      ensures r.Ok? ==>
        && Walk(Graph(nodes, edges), r.value, source, target)
        && forall p :: Walk(Graph(nodes, edges), p, source, target) ==> |r.value| <= |p|
    {
      if source !in nodes { return Err(ServiceNotFound(source)); }
      if target !in nodes { return Err(ServiceNotFound(target)); }
      var g := Graph(nodes, edges);
      var paths := Search(g, source);
      BallIsReach(g, source, target);
      if target !in paths {
        return Err(PathNotFound(source, target));
      }
      DistanceIs(g, source, target, |paths[target]| - 1);
      DistanceIsShortest(g, source, target);
      return Ok(paths[target]);
    }
  }
}

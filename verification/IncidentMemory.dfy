/** Past incidents: feature-hash embeddings, their similarity, and the priors built from
    similar incidents. */
module IncidentMemory {
  import opened Prelude
  import opened Ordering
  import opened Contracts

  const DIMENSIONS := 128

  /** A token after hashing: which coordinate it moves, and which way. */
  datatype Token = Token(index: nat, positive: bool)

  predicate Hashed(tokens: seq<Token>) { forall t :: t in tokens ==> t.index < DIMENSIONS }

  function Push(t: Token, i: nat): real {
    if t.index != i then 0.0 else if t.positive then 1.0 else -1.0
  }

  /** The net weight of coordinate `i`. */
  function Weight(tokens: seq<Token>, i: nat): real {
    if tokens == [] then 0.0
    else Weight(tokens[..|tokens| - 1], i) + Push(tokens[|tokens| - 1], i)
  }

  function SumSquares(v: seq<real>): real {
    if v == [] then 0.0 else v[0] * v[0] + SumSquares(v[1..])
  }

  function Dot(a: seq<real>, b: seq<real>): real
    requires |a| == |b|
  {
    if a == [] then 0.0 else a[0] * b[0] + Dot(a[1..], b[1..])
  }

  function Scaled(v: seq<real>, norm: real): (r: seq<real>)
    requires norm != 0.0
    ensures |r| == |v|
  {
    if v == [] then [] else [v[0] / norm] + Scaled(v[1..], norm)
  }

  function Weights(tokens: seq<Token>): seq<real> { seq(DIMENSIONS, i requires 0 <= i < DIMENSIONS => Weight(tokens, i)) }

  /** `embed`, with the square root of the sum of squares handed in. */
  function Embedding(tokens: seq<Token>, norm: real): seq<real> {
    if norm == 0.0 then Weights(tokens) else Scaled(Weights(tokens), norm)
  }

  ghost predicate IsNorm(norm: real, tokens: seq<Token>) {
    norm >= 0.0 && norm * norm == SumSquares(Weights(tokens))
  }

  method Embed(tokens: seq<Token>, norm: real) returns (v: seq<real>)
    requires Hashed(tokens) && IsNorm(norm, tokens)
    ensures v == Embedding(tokens, norm)
  {
    var vector := new real[DIMENSIONS](_ => 0.0);
    for k := 0 to |tokens|
      invariant forall i :: 0 <= i < DIMENSIONS ==> vector[i] == Weight(tokens[..k], i)
    {
      var t := tokens[k];
      assert t in tokens;
      assert tokens[..k + 1][..k] == tokens[..k];
      vector[t.index] := vector[t.index] + if t.positive then 1.0 else -1.0;
    }
    assert tokens[..|tokens|] == tokens;
    assert vector[..] == Weights(tokens);
    v := if norm == 0.0 then vector[..] else Scaled(vector[..], norm);
  }

  // ---------- similarity ----------

  lemma Regroup(q: real, n: real)
    ensures q * q * (n * n) == (q * n) * (q * n)
  {
    assert q * q * (n * n) == q * (q * (n * n));
    assert q * (n * n) == (q * n) * n;
    assert q * ((q * n) * n) == (q * (q * n)) * n;
    assert (q * n) * (q * n) == (q * (q * n)) * n;
  }

  lemma QuotientSquared(x: real, norm: real)
    requires norm != 0.0
    ensures (x / norm) * (x / norm) * (norm * norm) == x * x
  {
    var q := x / norm;
    assert q * norm == x;
    Regroup(q, norm);
  }

  lemma Distribute(a: real, b: real, c: real)
    ensures (a + b) * c == a * c + b * c
  {
  }

  lemma {:induction false} SumSquaresScaled(v: seq<real>, norm: real)
    requires norm != 0.0
    ensures SumSquares(Scaled(v, norm)) * (norm * norm) == SumSquares(v)
  {
    if v != [] {
      SumSquaresScaled(v[1..], norm);
      QuotientSquared(v[0], norm);
      var x := v[0] / norm;
      var rest := SumSquares(Scaled(v[1..], norm));
      assert Scaled(v, norm)[1..] == Scaled(v[1..], norm);
      Distribute(x * x, rest, norm * norm);
    }
  }

  lemma PositiveProduct(a: real, b: real, t: real)
    requires a > 0.0 && b > 0.0 && t == a * b
    ensures t > 0.0
  {
  }

  lemma Cancel(unit: real, square: real, total: real)
    requires square > 0.0 && unit * square == total && square == total
    ensures unit == 1.0
  {
    assert unit * square == square;
    assert (unit - 1.0) * square == 0.0;
  }

  lemma Normalised(unit: real, square: real, total: real, norm: real)
    requires norm > 0.0 && square == norm * norm && square == total && unit * square == total
    ensures unit == 1.0
  {
    PositiveProduct(norm, norm, square);
    Cancel(unit, square, total);
  }

  /** An embedding has length one, or it is the zero vector of an empty text. */
  lemma EmbeddingIsUnit(tokens: seq<Token>, norm: real)
    requires IsNorm(norm, tokens)
    ensures SumSquares(Embedding(tokens, norm)) == if norm == 0.0 then 0.0 else 1.0
  {
    if norm != 0.0 {
      SumSquaresScaled(Weights(tokens), norm);
      Normalised(SumSquares(Scaled(Weights(tokens), norm)), norm * norm, SumSquares(Weights(tokens)), norm);
    }
  }

  lemma Square(x: real)
    ensures x * x >= 0.0
  {
  }

  lemma {:induction false} DotBound(a: seq<real>, b: seq<real>)
    requires |a| == |b|
    ensures 2.0 * Dot(a, b) <= SumSquares(a) + SumSquares(b)
    ensures -2.0 * Dot(a, b) <= SumSquares(a) + SumSquares(b)
  {
    if a != [] {
      DotBound(a[1..], b[1..]);
      var x, y := a[0], b[0];
      Square(x - y);
      Square(x + y);
      assert (x - y) * (x - y) == x * x - 2.0 * (x * y) + y * y;
      assert (x + y) * (x + y) == x * x + 2.0 * (x * y) + y * y;
    }
  }

  /** The exact similarity of two embeddings lies in [-1, 1]: the clamp never acts. */
  lemma CosineNeedsNoClamp(a: seq<Token>, b: seq<Token>, m: real, n: real)
    requires IsNorm(m, a) && IsNorm(n, b)
    ensures -1.0 <= Dot(Embedding(a, m), Embedding(b, n)) <= 1.0
  {
    EmbeddingIsUnit(a, m);
    EmbeddingIsUnit(b, n);
    DotBound(Embedding(a, m), Embedding(b, n));
  }

  lemma {:induction false} WeightAppend(a: seq<Token>, b: seq<Token>, i: nat)
    ensures Weight(a + b, i) == Weight(a, i) + Weight(b, i)
  {
    if b == [] {
      assert a + b == a;
    } else {
      WeightAppend(a, b[..|b| - 1], i);
      assert (a + b)[..|a + b| - 1] == a + b[..|b| - 1];
    }
  }

  lemma {:induction false} WeightPermutes(a: seq<Token>, b: seq<Token>, i: nat)
    requires Permutation(a, b)
    ensures Weight(a, i) == Weight(b, i)
  {
    if a == [] {
      SamePermutation(a, b);
    } else {
      var k := HeadIn(a, b);
      WeightPermutes(a[1..], b[..k] + b[k + 1..], i);
      WeightAppend(b[..k], b[k + 1..], i);
      WeightAppend(b[..k], [b[k]], i);
      WeightAppend(b[..k] + [b[k]], b[k + 1..], i);
      WeightAppend([a[0]], a[1..], i);
      assert a == [a[0]] + a[1..] && b == b[..k] + [b[k]] + b[k + 1..];
    }
  }

  /** An embedding sees a bag of tokens: their order does not matter. */
  lemma EmbeddingIgnoresOrder(a: seq<Token>, b: seq<Token>, norm: real)
    requires Permutation(a, b)
    ensures Embedding(a, norm) == Embedding(b, norm)
    ensures IsNorm(norm, a) ==> IsNorm(norm, b)
  {
    forall i: nat | i < DIMENSIONS ensures Weight(a, i) == Weight(b, i) { WeightPermutes(a, b, i); }
    assert Weights(a) == Weights(b);
  }

  // ---------- priors ----------

  type Similarity = x: real | -1.0 <= x <= 1.0

  /** A past incident found by the search, with its similarity and a fresh id for
      the evidence item. */
  datatype Match = Match(service: string, similarity: Similarity, freshId: Id, observedAt: Time)

  function PriorOf(x: Match): Evidence {
    Evidence(x.freshId, Memory, HistoricalPrior, Some(x.service), "similar_incident", Max(0.0, x.similarity), x.observedAt,
             map["similarity" := Number(Max(0.0, x.similarity)), "historical_incident_id" := Other, "resolution" := Other])
  }

  function Priors(matches: seq<Match>): seq<Evidence> {
    Map(Filter(matches, (x: Match) => x.similarity > 0.0), x => PriorOf(x))
  }

  /** Whatever the search returns, memory contributes nothing but historical priors. */
  lemma PriorsAreHistorical(matches: seq<Match>, e: Evidence)
    requires e in Priors(matches)
    ensures e.source == Memory && e.origin == HistoricalPrior && !e.Current() && e.confidence > 0.0
  {
    var found := Filter(matches, (x: Match) => x.similarity > 0.0);
    FilterMembers(matches, (x: Match) => x.similarity > 0.0);
    var k :| 0 <= k < |found| && Priors(matches)[k] == e;
    assert found[k] in found;
  }

  /** Exactly the matches that are similar at all become priors, in their order, each as
      confident as it is similar and about the service of the past incident. */
  lemma PriorsSay(matches: seq<Match>, k: nat)
    requires k < |Priors(matches)|
    ensures var found := Filter(matches, (x: Match) => x.similarity > 0.0);
      && |Priors(matches)| == |found|
      && var e, x := Priors(matches)[k], found[k];
         && e.id == x.freshId && e.service == Some(x.service) && e.observedAt == x.observedAt
         && e.confidence == x.similarity && "similarity" in e.attributes && e.attributes["similarity"] == Number(x.similarity)
  {
    var found := Filter(matches, (x: Match) => x.similarity > 0.0);
    FilterMembers(matches, (x: Match) => x.similarity > 0.0);
    assert found[k] in found;
  }

  function Pushes(i: nat, positive: bool): Token -> bool { (t: Token) => t.index == i && t.positive == positive }

  /** The weight of a coordinate is the number of tokens that push it up, less those that push it down. */
  lemma {:induction false} WeightSays(tokens: seq<Token>, i: nat)
    ensures Weight(tokens, i) == |Filter(tokens, Pushes(i, true))| as real - |Filter(tokens, Pushes(i, false))| as real
  {
    if tokens != [] {
      var init, last := tokens[..|tokens| - 1], tokens[|tokens| - 1];
      WeightSays(init, i);
      assert tokens == init + [last];
      FilterAppend(init, [last], Pushes(i, true));
      FilterAppend(init, [last], Pushes(i, false));
      assert [last][1..] == [];
    }
  }
}

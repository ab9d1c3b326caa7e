/** The evidence verifier: drops citations that cannot be used, weakens or rejects
    what is left, sorts and re-ranks. */
module Verifier {
  import opened Prelude
  import opened Ordering
  import opened Aggregates
  import opened Contracts

  type Index = map<Id, Evidence>

  predicate Usable(i: Id, m: Index) { i in m && m[i].Current() }

  function Supporting(h: Hypothesis, m: Index): seq<Id> { Filter(h.evidenceFor, (i: Id) => Usable(i, m)) }

  function Opposing(h: Hypothesis, m: Index): seq<Id> { Filter(h.evidenceAgainst, (i: Id) => i in m) }

  function ConfidenceOf(i: Id, m: Index): Unit { if i in m then m[i].confidence else 0.0 }

  lemma StrengthBounds(ids: seq<Id>, m: Index)
    ensures 0.0 <= MaxOf(Map(ids, (i: Id) => ConfidenceOf(i, m)), 0.0) <= 1.0
  {
    var cs := Map(ids, (i: Id) => ConfidenceOf(i, m));
    forall x | x in cs ensures 0.0 <= x <= 1.0 {
      var k :| 0 <= k < |cs| && cs[k] == x;
    }
    MaxOfBounds(cs, 0.0, 0.0, 1.0);
  }

  /** `max(available[item].confidence for item in ids)`. */
  function Strength(ids: seq<Id>, m: Index): Unit {
    StrengthBounds(ids, m);
    MaxOf(Map(ids, (i: Id) => ConfidenceOf(i, m)), 0.0)
  }

  predicate Contradicted(h: Hypothesis, m: Index) {
    && Opposing(h, m) != []
    && Strength(Opposing(h, m), m) >= Strength(Supporting(h, m), m)
  }

  /** The upper limit the verifier puts on a confidence, and the status it forces. */
  function Cap(h: Hypothesis, m: Index): Unit {
    if Supporting(h, m) == [] then 0.1
    else if Contradicted(h, m) then Strength(Supporting(h, m), m) * 0.5
    else 1.0
  }

  function Verdict(h: Hypothesis, m: Index): HypothesisStatus {
    if Supporting(h, m) == [] then Rejected
    else if Contradicted(h, m) then Weak
    else h.status
  }

  lemma RoundUnit(x: real)
    requires 0.0 <= x <= 1.0
    ensures 0.0 <= Round6(x) <= 1.0
  {
    Round6OnGrid(0);
    Round6OnGrid(1000000);
    Round6Monotone(0.0, x);
    Round6Monotone(x, 1.0);
  }

  function Review(h: Hypothesis, m: Index): Hypothesis {
    RoundUnit(Min(h.confidence, Cap(h, m)));
    h.(evidenceFor := Supporting(h, m), evidenceAgainst := Opposing(h, m), status := Verdict(h, m),
       confidence := Round6(Min(h.confidence, Cap(h, m))))
  }

  /** The sort key `(-confidence, rank, id)`. */
  predicate Before(a: Hypothesis, b: Hypothesis) {
    || a.confidence > b.confidence
    || (a.confidence == b.confidence && (a.rank < b.rank || (a.rank == b.rank && StrLe(a.id, b.id))))
  }

  /** Ranks `from`, `from + 1`, ... in the order given. */
  function Reranked(hs: seq<Hypothesis>, from: nat): (r: seq<Hypothesis>)
    ensures |r| == |hs|
    ensures forall k :: 0 <= k < |hs| ==> r[k] == hs[k].(rank := from + k)
  {
    Enumerate(hs, (h: Hypothesis, rank: nat) => h.(rank := rank), from)
  }

  function Reviewed(hs: seq<Hypothesis>, evidence: seq<Evidence>): seq<Hypothesis> {
    Map(hs, h => Review(h, ById(evidence)))
  }

  function Verified(hs: seq<Hypothesis>, evidence: seq<Evidence>): seq<Hypothesis> {
    Reranked(Sort(Reviewed(hs, evidence), Before), 1)
  }

  /** The body of the loop, which rebinds status and confidence. */
  method ReviewOne(h: Hypothesis, available: Index) returns (r: Hypothesis)
    ensures r == Review(h, available)
  {
    var supporting := Supporting(h, available);
    var opposing := Opposing(h, available);
    var status: HypothesisStatus, confidence: real := h.status, h.confidence;
    if supporting == [] {
      status := Rejected;
      confidence := Min(confidence, 0.1);
    } else if opposing != [] {
      var supportStrength := Strength(supporting, available);
      var opposeStrength := Strength(opposing, available);
      if opposeStrength >= supportStrength {
        status := Weak;
        confidence := Min(confidence, supportStrength * 0.5);
      }
    }
    RoundUnit(confidence);
    return h.(evidenceFor := supporting, evidenceAgainst := opposing, status := status, confidence := Round6(confidence));
  }

  /** The verifier as it is written: one pass, a sort, a re-ranking. */
  method Verify(hs: seq<Hypothesis>, evidence: seq<Evidence>) returns (result: seq<Hypothesis>)
    ensures result == Verified(hs, evidence)
  {
    var available := ById(evidence);
    var verified: seq<Hypothesis> := [];
    for k := 0 to |hs|
      invariant |verified| == k
      invariant forall j :: 0 <= j < k ==> verified[j] == Review(hs[j], available)
    {
      var r := ReviewOne(hs[k], available);
      verified := verified + [r];
    }
    assert verified == Reviewed(hs, evidence);
    result := Reranked(Sort(verified, Before), 1);
  }

  // ---------- one review ----------

  lemma {:induction false} FilterIds(s: seq<Id>, p: Id -> bool)
    ensures Filter(Filter(s, p), p) == Filter(s, p)
  {
    FilterMembers(s, p);
    FilterAll(Filter(s, p), p);
  }

  /** Reviewing twice is reviewing once, rounding included. */
  lemma ReviewIdempotent(h: Hypothesis, m: Index)
    ensures Review(Review(h, m), m) == Review(h, m)
  {
    var r := Review(h, m);
    FilterIds(h.evidenceFor, (i: Id) => Usable(i, m));
    FilterIds(h.evidenceAgainst, (i: Id) => i in m);
    assert Supporting(r, m) == Supporting(h, m);
    assert Opposing(r, m) == Opposing(h, m);
    assert Cap(r, m) == Cap(h, m);
    Round6Cap(h.confidence, Cap(h, m));
  }

  /** A review never raises a confidence beyond its own rounding; on what the ranker
      produced, which is rounded already, it never raises it at all. */
  lemma ReviewNeverRaises(h: Hypothesis, m: Index)
    ensures Review(h, m).confidence <= Round6(h.confidence)
    ensures Round6(h.confidence) == h.confidence ==> Review(h, m).confidence <= h.confidence
    ensures Supporting(h, m) == [] ==> Review(h, m).confidence <= 0.1
  {
    Round6Monotone(Min(h.confidence, Cap(h, m)), h.confidence);
    Round6OnGrid(100000);
    Round6Monotone(Min(h.confidence, Cap(h, m)), Cap(h, m));
  }

  /** What is still cited is usable, and a positive status still has support. */
  lemma ReviewGrounds(h: Hypothesis, m: Index)
    ensures var r := Review(h, m);
      && (forall i :: i in r.evidenceFor <==> i in h.evidenceFor && Usable(i, m))
      && (forall i :: i in r.evidenceAgainst <==> i in h.evidenceAgainst && i in m)
      && (r.Positive() ==> r.evidenceFor != [])
      && (r.evidenceFor == [] ==> r.status == Rejected)
  {
    FilterMembers(h.evidenceFor, (i: Id) => Usable(i, m));
    FilterMembers(h.evidenceAgainst, (i: Id) => i in m);
  }

  // ---------- the whole list ----------

  lemma BeforeOrder()
    ensures TotalPreorder(Before)
  {
    StringOrder();
  }

  function Unranked(hs: seq<Hypothesis>): seq<Hypothesis> {
    Map(hs, (h: Hypothesis) => h.(rank := 0))
  }

  /** The output is the reviewed input, reordered: confidences do not increase and the
      ranks are 1, 2, ..., n. */
  lemma VerifiedIsRanking(hs: seq<Hypothesis>, evidence: seq<Evidence>)
    ensures var out := Verified(hs, evidence);
      && |out| == |hs|
      && Permutation(Unranked(out), Unranked(Reviewed(hs, evidence)))
      && (forall k :: 0 <= k < |out| ==> out[k].rank == k + 1)
      && (forall j, k :: 0 <= j < k < |out| ==> out[j].confidence >= out[k].confidence)
  {
    var reviewed := Reviewed(hs, evidence);
    var sorted := Sort(reviewed, Before);
    BeforeOrder();
    SortSorted(reviewed, Before);
    SortPermutes(reviewed, Before);
    MapPermutation(sorted, reviewed, (h: Hypothesis) => h.(rank := 0));
    var out := Verified(hs, evidence);
    assert Unranked(out) == Unranked(sorted);
    forall j, k | 0 <= j < k < |out| ensures out[j].confidence >= out[k].confidence {
      assert Before(sorted[j], sorted[k]);
    }
  }

  /** Every output is one reviewed input under a new rank. */
  lemma VerifiedFrom(hs: seq<Hypothesis>, evidence: seq<Evidence>, k: nat) returns (j: nat)
    requires k < |Verified(hs, evidence)|
    ensures j < |hs| && Verified(hs, evidence)[k] == Review(hs[j], ById(evidence)).(rank := k + 1)
  {
    var reviewed := Reviewed(hs, evidence);
    SortPermutes(reviewed, Before);
    assert Sort(reviewed, Before)[k] in reviewed;
    j :| 0 <= j < |reviewed| && reviewed[j] == Sort(reviewed, Before)[k];
  }

  lemma VerifiedGrounded(hs: seq<Hypothesis>, evidence: seq<Evidence>, k: nat)
    requires k < |Verified(hs, evidence)|
    ensures var out := Verified(hs, evidence)[k];
      && (forall i :: i in out.evidenceFor ==> exists e :: e in evidence && e.id == i && e.Current())
      && (out.Positive() ==> out.evidenceFor != [])
  {
    var j := VerifiedFrom(hs, evidence, k);
    ReviewGrounds(hs[j], ById(evidence));
    var out := Verified(hs, evidence)[k];
    forall i | i in out.evidenceFor ensures exists e :: e in evidence && e.id == i && e.Current() {
      var e := ById(evidence)[i];
      assert e in evidence && e.id == i;
    }
  }

  lemma RankIgnored(h: Hypothesis, rank: nat, m: Index)
    ensures Review(h.(rank := rank), m) == Review(h, m).(rank := rank)
  {
    var g := h.(rank := rank);
    assert Supporting(g, m) == Supporting(h, m) && Opposing(g, m) == Opposing(h, m);
  }

  /** Verifying a verified list changes nothing: not a status, not a rounded digit,
      not a rank. */
  lemma VerifyIdempotent(hs: seq<Hypothesis>, evidence: seq<Evidence>)
    ensures Verified(Verified(hs, evidence), evidence) == Verified(hs, evidence)
  {
    var out := Verified(hs, evidence);
    var m := ById(evidence);
    VerifiedIsRanking(hs, evidence);
    var again := Reviewed(out, evidence);
    forall k | 0 <= k < |out| ensures again[k] == out[k] {
      var j := VerifiedFrom(hs, evidence, k);
      ReviewIdempotent(hs[j], m);
      RankIgnored(Review(hs[j], m), k + 1, m);
    }
    assert again == out;
    assert Sorted(out, Before);
    SortOfSorted(out, Before);
    assert Reranked(out, 1) == out;
  }
}

/** What the verifier decides about a hypothesis, said about the items that are left of its
    citations, and the order it puts the hypotheses in. */
module VerifierLaws {
  import opened Prelude
  import opened Ordering
  import opened Aggregates
  import opened Contracts
  import opened Verifier

  /** How confident the item behind a citation is. */
  function Trust(i: Id, evidence: seq<Evidence>): real {
    if i in ById(evidence) then ById(evidence)[i].confidence else 0.0
  }

  function IsKnown(evidence: seq<Evidence>): Id -> bool { i => i in ById(evidence) }

  function IsCurrent(evidence: seq<Evidence>): Id -> bool { i => i in ById(evidence) && ById(evidence)[i].origin.Current? }

  /** `i` is one of the most trusted of `ids`. */
  predicate MostTrusted(i: Id, ids: seq<Id>, evidence: seq<Evidence>) {
    i in ids && forall j :: j in ids ==> Trust(j, evidence) <= Trust(i, evidence)
  }

  /** Something against the hypothesis is trusted as much as everything for it. */
  predicate Outweighed(h: Hypothesis, evidence: seq<Evidence>) {
    exists o :: o in h.evidenceAgainst && forall i :: i in h.evidenceFor ==> Trust(i, evidence) <= Trust(o, evidence)
  }

  /** Something for the hypothesis is trusted more than everything against it. */
  predicate Upheld(h: Hypothesis, evidence: seq<Evidence>) {
    exists i :: i in h.evidenceFor && forall o :: o in h.evidenceAgainst ==> Trust(o, evidence) < Trust(i, evidence)
  }

  lemma {:induction false} SomeMostTrusted(ids: seq<Id>, evidence: seq<Evidence>) returns (i: Id)
    requires ids != []
    ensures MostTrusted(i, ids, evidence)
  {
    if |ids| == 1 {
      i := ids[0];
    } else {
      var j := SomeMostTrusted(ids[1..], evidence);
      assert ids == [ids[0]] + ids[1..];
      i := if Trust(ids[0], evidence) >= Trust(j, evidence) then ids[0] else j;
    }
  }

  /** With support, a hypothesis is upheld if and only if it is not outweighed. */
  lemma UpheldIff(h: Hypothesis, evidence: seq<Evidence>)
    requires h.evidenceFor != []
    ensures Upheld(h, evidence) <==> !Outweighed(h, evidence)
  {
    var i := SomeMostTrusted(h.evidenceFor, evidence);
    if !Outweighed(h, evidence) {
      forall o | o in h.evidenceAgainst ensures Trust(o, evidence) < Trust(i, evidence) {
        assert Trust(o, evidence) >= Trust(i, evidence) ==> forall j :: j in h.evidenceFor ==> Trust(j, evidence) <= Trust(o, evidence);
      }
    }
  }

  lemma StrengthIsTrust(ids: seq<Id>, evidence: seq<Evidence>, i: Id)
    requires MostTrusted(i, ids, evidence)
    ensures Strength(ids, ById(evidence)) == Trust(i, evidence)
  {
    var m := ById(evidence);
    var cs := Map(ids, (j: Id) => ConfidenceOf(j, m));
    MaxOfIsMax(cs, 0.0);
    var k :| 0 <= k < |ids| && ids[k] == i;
    assert cs[k] in cs;
    var l :| 0 <= l < |cs| && cs[l] == MaxOf(cs, 0.0);
    assert ids[l] in ids;
  }

  /** What is left of a claim: the citations, the status and the confidence can change. */
  predicate Remains(h: Hypothesis, out: Hypothesis, evidence: seq<Evidence>) {
    && out == h.(rank := out.rank, evidenceFor := out.evidenceFor, evidenceAgainst := out.evidenceAgainst,
                 status := out.status, confidence := out.confidence)
    && out.evidenceFor == Filter(h.evidenceFor, IsCurrent(evidence))
    && out.evidenceAgainst == Filter(h.evidenceAgainst, IsKnown(evidence))
  }

  /** The verdict on `h`, of which `out` is left. */
  ghost predicate Sentenced(h: Hypothesis, out: Hypothesis, evidence: seq<Evidence>) {
    && (out.evidenceFor == [] ==> out.status == Rejected && out.confidence == Round6(Min(h.confidence, 0.1)))
    && (Upheld(out, evidence) ==> out.status == h.status && out.confidence == Round6(h.confidence))
    && (out.evidenceFor != [] && Outweighed(out, evidence) ==>
          && out.status == Weak
          && exists i :: MostTrusted(i, out.evidenceFor, evidence) && out.confidence == Round6(Min(h.confidence, Trust(i, evidence) / 2.0)))
  }

  lemma ReviewRemains(h: Hypothesis, evidence: seq<Evidence>)
    ensures Remains(h, Review(h, ById(evidence)), evidence)
  {
    var m := ById(evidence);
    FilterSame(h.evidenceFor, (i: Id) => Usable(i, m), IsCurrent(evidence));
    FilterSame(h.evidenceAgainst, (i: Id) => i in m, IsKnown(evidence));
  }

  lemma ContradictedIff(h: Hypothesis, evidence: seq<Evidence>)
    requires Supporting(h, ById(evidence)) != []
    ensures Contradicted(h, ById(evidence)) <==> Outweighed(Review(h, ById(evidence)), evidence)
  {
    var m := ById(evidence);
    var r := Review(h, m);
    var i := SomeMostTrusted(r.evidenceFor, evidence);
    StrengthIsTrust(r.evidenceFor, evidence, i);
    if r.evidenceAgainst != [] {
      var o := SomeMostTrusted(r.evidenceAgainst, evidence);
      StrengthIsTrust(r.evidenceAgainst, evidence, o);
    }
  }

  lemma WeakSentence(h: Hypothesis, r: Hypothesis, evidence: seq<Evidence>, i: Id)
    requires MostTrusted(i, r.evidenceFor, evidence) && Outweighed(r, evidence) && !Upheld(r, evidence)
    requires r.status == Weak && r.confidence == Round6(Min(h.confidence, Trust(i, evidence) * 0.5))
    ensures Sentenced(h, r, evidence)
  {
    assert Trust(i, evidence) * 0.5 == Trust(i, evidence) / 2.0;
  }

  lemma CapOf(h: Hypothesis, evidence: seq<Evidence>, i: Id)
    requires MostTrusted(i, Supporting(h, ById(evidence)), evidence)
    ensures Cap(h, ById(evidence)) == if Contradicted(h, ById(evidence)) then Trust(i, evidence) * 0.5 else 1.0
  {
    StrengthIsTrust(Supporting(h, ById(evidence)), evidence, i);
  }

  lemma ReviewSentences(h: Hypothesis, evidence: seq<Evidence>)
    ensures Sentenced(h, Review(h, ById(evidence)), evidence)
  {
    var m := ById(evidence);
    var r := Review(h, m);
    assert r.status == Verdict(h, m) && r.confidence == Round6(Min(h.confidence, Cap(h, m)));
    if Supporting(h, m) != [] {
      ContradictedIff(h, evidence);
      UpheldIff(r, evidence);
      var i := SomeMostTrusted(Supporting(h, m), evidence);
      CapOf(h, evidence, i);
      if Contradicted(h, m) {
        WeakSentence(h, r, evidence, i);
      } else {
        assert Min(h.confidence, 1.0) == h.confidence;
      }
    }
  }

  lemma SameSentence(h: Hypothesis, out: Hypothesis, rank: nat, evidence: seq<Evidence>)
    requires Remains(h, out, evidence) && Sentenced(h, out, evidence)
    ensures Remains(h, out.(rank := rank), evidence) && Sentenced(h, out.(rank := rank), evidence)
  {
  }

  /** Every verified hypothesis is what is left of one that came in: rejected without current
      support, weakened when something known against it is trusted at least as much as all its
      support, and otherwise upheld as it was. */
  lemma VerifiedSays(hs: seq<Hypothesis>, evidence: seq<Evidence>, k: nat) returns (j: nat)
    requires k < |Verified(hs, evidence)|
    ensures j < |hs|
    ensures var out := Verified(hs, evidence)[k];
      && out.rank == k + 1 && Remains(hs[j], out, evidence) && Sentenced(hs[j], out, evidence)
      && (out.evidenceFor != [] ==> (Upheld(out, evidence) <==> !Outweighed(out, evidence)))
  {
    j := VerifiedFrom(hs, evidence, k);
    ReviewRemains(hs[j], evidence);
    ReviewSentences(hs[j], evidence);
    SameSentence(hs[j], Review(hs[j], ById(evidence)), k + 1, evidence);
    if Verified(hs, evidence)[k].evidenceFor != [] { UpheldIff(Verified(hs, evidence)[k], evidence); }
  }

  /** More confident hypotheses come first, equally confident ones in the order of their old
      ranks, and then of their ids. */
  lemma VerifiedInOrder(hs: seq<Hypothesis>, evidence: seq<Evidence>, p: nat, q: nat) returns (i: nat, j: nat)
    requires p < q < |Verified(hs, evidence)|
    ensures i < |hs| && j < |hs|
    ensures var a, b := Verified(hs, evidence)[p], Verified(hs, evidence)[q];
      && Remains(hs[i], a, evidence) && Remains(hs[j], b, evidence)
      && a.confidence >= b.confidence
      && (a.confidence == b.confidence ==> hs[i].rank <= hs[j].rank)
      && (a.confidence == b.confidence && hs[i].rank == hs[j].rank ==> StrLe(a.id, b.id))
  {
    var reviewed := Reviewed(hs, evidence);
    var sorted := Sort(reviewed, Before);
    BeforeOrder();
    SortSorted(reviewed, Before);
    SortPermutes(reviewed, Before);
    assert sorted[p] in reviewed && sorted[q] in reviewed && Before(sorted[p], sorted[q]);
    i :| 0 <= i < |reviewed| && reviewed[i] == sorted[p];
    j :| 0 <= j < |reviewed| && reviewed[j] == sorted[q];
    ReviewRemains(hs[i], evidence);
    ReviewRemains(hs[j], evidence);
  }
}

/** Provider, ranker and verifier in a row, and what the diagnosis does not depend on. */
module Pipeline {
  import opened Prelude
  import opened Ordering
  import opened Aggregates
  import opened Contracts
  import opened Verifier
  import opened Causal
  import opened Provider

  function Diagnosed(incident: Incident, evidence: seq<Evidence>, graph: Option<Snapshot>, role: AgentRole): seq<Hypothesis> {
    Verified(Ranked(Synthesized(incident, evidence, role), evidence, incident, graph), evidence)
  }

  // ---------- every ingredient is blind to the order of the evidence ----------

  lemma ServicesPermute(a: seq<Evidence>, b: seq<Evidence>, current: bool)
    requires Permutation(a, b)
    ensures Permutation(Services(a, current), Services(b, current))
  {
    SamePermutation(a, b);
    ServicesAre(a, current);
    ServicesAre(b, current);
    forall s ensures s in Services(a, current) <==> s in Services(b, current) {
      if s in Services(a, current) {
        var e :| e in a && Counts(e, current) && e.service.value == s;
        assert e in b;
      }
      if s in Services(b, current) {
        var e :| e in b && Counts(e, current) && e.service.value == s;
        assert e in a;
      }
    }
    DistinctSameMembers(Services(a, current), Services(b, current));
  }

  lemma ItemsPermute(a: seq<Evidence>, b: seq<Evidence>, service: string, current: bool)
    requires Permutation(a, b)
    ensures Permutation(ItemsOf(a, service, current), ItemsOf(b, service, current))
    ensures Confidence(ItemsOf(a, service, current)) == Confidence(ItemsOf(b, service, current))
    ensures Sources(ItemsOf(a, service, current)) == Sources(ItemsOf(b, service, current))
  {
    FilterPermutation(a, b, (e: Evidence) => Counts(e, current) && e.service.value == service);
    var x := ItemsOf(a, service, current);
    var y := ItemsOf(b, service, current);
    SamePermutation(x, y);
    MapPermutation(x, y, (e: Evidence) => e.confidence as real);
    assert Confidences(x) == Map(x, (e: Evidence) => e.confidence as real);
    assert Confidences(y) == Map(y, (e: Evidence) => e.confidence as real);
    MaxOfPermutation(Confidences(x), Confidences(y), 0.0);
  }

  lemma ScorePermutes(a: seq<Evidence>, b: seq<Evidence>, service: string)
    requires Permutation(a, b)
    ensures CandidateOf(a, service) == CandidateOf(b, service)
  {
    ItemsPermute(a, b, service, true);
    ItemsPermute(a, b, service, false);
  }

  lemma CandidatesTieFree(evidence: seq<Evidence>, services: seq<string>)
    ensures TieFree(Map(services, s => CandidateOf(evidence, s)), CandidateBefore)
  {
    var cs := Map(services, s => CandidateOf(evidence, s));
    StringOrder();
    forall x, y | x in cs && y in cs && CandidateBefore(x, y) && CandidateBefore(y, x) ensures x == y {
      var i :| 0 <= i < |cs| && cs[i] == x;
      var j :| 0 <= j < |cs| && cs[j] == y;
      assert x.service == services[i] && y.service == services[j];
    }
  }

  lemma CandidateOrder()
    ensures TotalPreorder(CandidateBefore)
  {
    StringOrder();
  }

  lemma CandidatesPermute(a: seq<Evidence>, b: seq<Evidence>)
    requires Permutation(a, b)
    ensures Candidates(a) == Candidates(b)
  {
    var sa := Services(a, true);
    var sb := Services(b, true);
    ServicesPermute(a, b, true);
    MapPermutation(sa, sb, s => CandidateOf(a, s));
    var x := Map(sa, s => CandidateOf(a, s));
    var y := Map(sb, s => CandidateOf(a, s));
    var z := Map(sb, s => CandidateOf(b, s));
    forall k | 0 <= k < |sb| ensures y[k] == z[k] { ScorePermutes(a, b, sb[k]); }
    assert y == z;
    CandidatesTieFree(a, sa);
    CandidateOrder();
    SortOrderFree(x, y, CandidateBefore);
  }

  lemma ItemsTieFree(evidence: seq<Evidence>, service: string)
    requires UniqueIds(evidence)
    ensures TieFree(ItemsOf(evidence, service, true), ItemBefore)
  {
    var items := ItemsOf(evidence, service, true);
    FilterMembers(evidence, (e: Evidence) => Counts(e, true) && e.service.value == service);
    forall x, y | x in items && y in items && ItemBefore(x, y) && ItemBefore(y, x) ensures x == y {
      ByIdOfUnique(evidence, x);
      ByIdOfUnique(evidence, y);
    }
  }

  lemma HypothesizePermutes(a: seq<Evidence>, b: seq<Evidence>, c: Candidate, rank: nat, role: AgentRole)
    requires Permutation(a, b) && UniqueIds(a)
    ensures Hypothesize(a, c, rank, role) == Hypothesize(b, c, rank, role)
  {
    ItemsPermute(a, b, c.service, true);
    ItemsTieFree(a, c.service);
    SortOrderFree(ItemsOf(a, c.service, true), ItemsOf(b, c.service, true), ItemBefore);
  }

  /** With current evidence that names a service, synthesis is blind to the order. */
  lemma SynthesisIgnoresOrder(incident: Incident, a: seq<Evidence>, b: seq<Evidence>, role: AgentRole)
    requires Permutation(a, b) && UniqueIds(a) && Services(a, true) != []
    ensures Synthesized(incident, a, role) == Synthesized(incident, b, role)
  {
    ServicesPermute(a, b, true);
    SamePermutation(Services(a, true), Services(b, true));
    CandidatesPermute(a, b);
    var cs := if |Candidates(a)| <= 5 then Candidates(a) else Candidates(a)[..5];
    forall k | 0 <= k < |cs| ensures Hypothesize(a, cs[k], 1 + k, role) == Hypothesize(b, cs[k], 1 + k, role) {
      HypothesizePermutes(a, b, cs[k], 1 + k, role);
    }
    assert Hypothesized(a, cs, 1, role) == Hypothesized(b, cs, 1, role);
  }

  lemma VerifierIgnoresOrder(hs: seq<Hypothesis>, a: seq<Evidence>, b: seq<Evidence>)
    requires Permutation(a, b) && UniqueIds(a)
    ensures Verified(hs, a) == Verified(hs, b)
  {
    UniqueIdsPermute(a, b);
    SamePermutation(a, b);
    ByIdMembers(a, b);
    assert Reviewed(hs, a) == Reviewed(hs, b);
  }

  lemma DiagnosisFollowsSynthesis(incident: Incident, a: seq<Evidence>, b: seq<Evidence>, graph: Option<Snapshot>, role: AgentRole)
    requires Permutation(a, b) && UniqueIds(a) && Synthesized(incident, a, role) == Synthesized(incident, b, role)
    ensures Diagnosed(incident, a, graph, role) == Diagnosed(incident, b, graph, role)
  {
    var hs := Synthesized(incident, a, role);
    RankIgnoresEvidenceOrder(hs, a, b, incident, graph);
    VerifierIgnoresOrder(Ranked(hs, a, incident, graph), a, b);
  }

  /** The whole diagnosis, ranks, citations and confidences included, is the same for
      every order of the evidence. */
  lemma DiagnosisIgnoresOrder(incident: Incident, a: seq<Evidence>, b: seq<Evidence>, graph: Option<Snapshot>, role: AgentRole)
    requires Permutation(a, b) && UniqueIds(a)
    requires exists e :: e in a && e.Current() && e.Named()
    ensures Diagnosed(incident, a, graph, role) == Diagnosed(incident, b, graph, role)
  {
    ServicesAre(a, true);
    var e :| e in a && e.Current() && e.Named();
    assert Counts(e, true);
    assert e.service.value in Services(a, true);
    SynthesisIgnoresOrder(incident, a, b, role);
    DiagnosisFollowsSynthesis(incident, a, b, graph, role);
  }

  // ---------- the fallback: exactly when the order matters ----------

  predicate Best(evidence: seq<Evidence>, s: string) {
    s in Services(evidence, false) && forall t :: t in Services(evidence, false) ==> Prior(evidence, t) <= Prior(evidence, s)
  }

  /** Two different services share the strongest prior. */
  ghost predicate Contested(evidence: seq<Evidence>) {
    exists s, t :: s != t && Best(evidence, s) && Best(evidence, t)
  }

  lemma {:induction false} FirstBestIsBest(evidence: seq<Evidence>, services: seq<string>)
    requires services != []
    ensures FirstBest(evidence, services) in services
    ensures forall t :: t in services ==> Prior(evidence, t) <= Prior(evidence, FirstBest(evidence, services))
  {
    if |services| > 1 {
      var init := services[..|services| - 1];
      FirstBestIsBest(evidence, init);
      assert services == init + [services[|services| - 1]];
    }
  }

  /** The first entry wins every tie. */
  lemma {:induction false} FirstBestPrefersFirst(evidence: seq<Evidence>, services: seq<string>)
    requires services != [] && forall t :: t in services ==> Prior(evidence, t) <= Prior(evidence, services[0])
    ensures FirstBest(evidence, services) == services[0]
  {
    if |services| > 1 {
      FirstBestPrefersFirst(evidence, services[..|services| - 1]);
    }
  }

  lemma {:induction false} FirstMentionFirst(evidence: seq<Evidence>, current: bool)
    requires evidence != [] && Counts(evidence[0], current)
    ensures Services(evidence, current) != [] && Services(evidence, current)[0] == evidence[0].service.value
  {
    if |evidence| > 1 {
      FirstMentionFirst(evidence[..|evidence| - 1], current);
    } else {
      assert evidence[..0] == [];
    }
  }

  lemma BestPermutes(a: seq<Evidence>, b: seq<Evidence>, s: string)
    requires Permutation(a, b) && Best(a, s)
    ensures Best(b, s)
  {
    ServicesPermute(a, b, false);
    SamePermutation(Services(a, false), Services(b, false));
    forall t | t in Services(b, false) ensures Prior(b, t) <= Prior(b, s) {
      ItemsPermute(a, b, t, false);
      ItemsPermute(a, b, s, false);
    }
  }

  /** Put an item naming a best service first, and the fallback names that service. */
  lemma MoveToFront(incident: Incident, evidence: seq<Evidence>, s: string) returns (b: seq<Evidence>)
    requires Best(evidence, s)
    ensures Permutation(evidence, b) && FallbackService(incident, b) == s
  {
    ServicesAre(evidence, false);
    var e :| e in evidence && Counts(e, false) && e.service.value == s;
    var k :| 0 <= k < |evidence| && evidence[k] == e;
    b := [e] + (evidence[..k] + evidence[k + 1..]);
    WithoutAt(evidence, k);
    assert multiset(b) == multiset{e} + multiset(evidence[..k] + evidence[k + 1..]);
    BestPermutes(evidence, b, s);
    FirstMentionFirst(b, false);
    FirstBestPrefersFirst(b, Services(b, false));
  }

  lemma FallbackDiagnosis(incident: Incident, evidence: seq<Evidence>, graph: Option<Snapshot>, role: AgentRole)
    requires Services(evidence, true) == []
    ensures var out := Diagnosed(incident, evidence, graph, role);
      |out| == 1 && out[0].rootCause == FallbackService(incident, evidence)
  {
    var hs := Synthesized(incident, evidence, role);
    var ranked := Ranked(hs, evidence, incident, graph);
    RankedIsRanking(hs, evidence, incident, graph);
    var i := RankedFrom(hs, evidence, incident, graph, 0);
    VerifiedIsRanking(ranked, evidence);
    var j := VerifiedFrom(ranked, evidence, 0);
  }

  lemma UncontestedFallback(incident: Incident, a: seq<Evidence>, b: seq<Evidence>)
    requires Permutation(a, b) && !Contested(a)
    ensures FallbackService(incident, a) == FallbackService(incident, b)
  {
    ServicesPermute(a, b, false);
    SamePermutation(Services(a, false), Services(b, false));
    if Services(a, false) != [] {
      FirstBestIsBest(a, Services(a, false));
      FirstBestIsBest(b, Services(b, false));
      assert Best(b, FallbackService(incident, b));
      BestPermutes(b, a, FallbackService(incident, b));
      assert Best(a, FallbackService(incident, a));
    }
  }

  lemma NoCurrentPermutes(a: seq<Evidence>, b: seq<Evidence>)
    requires Permutation(a, b) && Services(a, true) == []
    ensures Services(b, true) == []
  {
    ServicesPermute(a, b, true);
    SamePermutation(Services(a, true), Services(b, true));
  }

  /** When no current item names a service, the diagnosis is the same for every order of
      the evidence if and only if no two services share the strongest prior. */
  lemma FallbackOrderFreeIff(incident: Incident, a: seq<Evidence>, graph: Option<Snapshot>, role: AgentRole)
    requires UniqueIds(a) && Services(a, true) == []
    ensures (forall b :: Permutation(a, b) ==> Diagnosed(incident, b, graph, role) == Diagnosed(incident, a, graph, role))
      <==> !Contested(a)
  {
    if Contested(a) {
      var s, t :| s != t && Best(a, s) && Best(a, t);
      var u := if s == FallbackService(incident, a) then t else s;
      var b := MoveToFront(incident, a, u);
      NoCurrentPermutes(a, b);
      FallbackDiagnosis(incident, a, graph, role);
      FallbackDiagnosis(incident, b, graph, role);
      assert Permutation(a, b) && Diagnosed(incident, b, graph, role) != Diagnosed(incident, a, graph, role);
    } else {
      forall b | Permutation(a, b) ensures Diagnosed(incident, b, graph, role) == Diagnosed(incident, a, graph, role) {
        NoCurrentPermutes(a, b);
        UncontestedFallback(incident, a, b);
        DiagnosisFollowsSynthesis(incident, a, b, graph, role);
      }
    }
  }

  function PastIncident(id: Id, service: string): Evidence {
    Evidence(id, Memory, HistoricalPrior, Some(service), "similar_incident", 0.5, 0.0, map[])
  }

  /** Two equally similar past incidents of different services. */
  function TwoPriors(): seq<Evidence> { [PastIncident(1, "cart"), PastIncident(2, "web")] }

  lemma PriorOfPast(s: string)
    requires s in Services(TwoPriors(), false)
    ensures Prior(TwoPriors(), s) == 0.5
  {
    var items := ItemsOf(TwoPriors(), s, false);
    ItemsOfNamed(TwoPriors(), s, false);
    FilterMembers(TwoPriors(), (e: Evidence) => Counts(e, false) && e.service.value == s);
    MaxOfIsMax(Confidences(items), 0.0);
    var k :| 0 <= k < |items| && Confidences(items)[k] == Prior(TwoPriors(), s);
    assert items[k] in items && items[k] in TwoPriors();
  }

  lemma {:induction false} NobodyNamed(evidence: seq<Evidence>, current: bool)
    requires forall e :: e in evidence ==> !Counts(e, current)
    ensures Services(evidence, current) == []
  {
    if evidence != [] {
      assert evidence[|evidence| - 1] in evidence;
      NobodyNamed(evidence[..|evidence| - 1], current);
    }
  }

  lemma TwoPriorsContested()
    ensures Contested(TwoPriors())
  {
    var a := TwoPriors();
    ServicesAre(a, false);
    assert a[0] in a && Counts(a[0], false) && a[0].service.value == "cart";
    assert a[1] in a && Counts(a[1], false) && a[1].service.value == "web";
    forall s | s in Services(a, false) ensures Prior(a, s) == 0.5 { PriorOfPast(s); }
    assert Best(a, "cart") && Best(a, "web");
  }

  lemma TwoPriorsOnly()
    ensures UniqueIds(TwoPriors()) && Services(TwoPriors(), true) == []
  {
    NobodyNamed(TwoPriors(), true);
  }

  lemma ContestedDepends(incident: Incident, a: seq<Evidence>, graph: Option<Snapshot>, role: AgentRole) returns (b: seq<Evidence>)
    requires UniqueIds(a) && Services(a, true) == [] && Contested(a)
    ensures Permutation(a, b) && Diagnosed(incident, b, graph, role) != Diagnosed(incident, a, graph, role)
  {
    FallbackOrderFreeIff(incident, a, graph, role);
    b :| Permutation(a, b) && Diagnosed(incident, b, graph, role) != Diagnosed(incident, a, graph, role);
  }

  /** With these two priors and nothing else, another order of the evidence gives another
      diagnosis. */
  lemma FallbackDependsOnOrder(incident: Incident, graph: Option<Snapshot>, role: AgentRole) returns (b: seq<Evidence>)
    ensures UniqueIds(TwoPriors()) && Services(TwoPriors(), true) == []
    ensures Permutation(TwoPriors(), b)
    ensures Diagnosed(incident, b, graph, role) != Diagnosed(incident, TwoPriors(), graph, role)
  {
    TwoPriorsContested();
    TwoPriorsOnly();
    b := ContestedDepends(incident, TwoPriors(), graph, role);
  }

  // ---------- what a diagnosis rests on ----------

  /** Every citation of a diagnosis is current evidence of the incident, and every
      positive status has at least one. */
  lemma DiagnosisGrounded(incident: Incident, evidence: seq<Evidence>, graph: Option<Snapshot>, role: AgentRole, k: nat)
    requires k < |Diagnosed(incident, evidence, graph, role)|
    ensures var h := Diagnosed(incident, evidence, graph, role)[k];
      && (forall i :: i in h.evidenceFor ==> exists e :: e in evidence && e.id == i && e.Current())
      && (h.Positive() ==> h.evidenceFor != [])
  {
    VerifiedGrounded(Ranked(Synthesized(incident, evidence, role), evidence, incident, graph), evidence, k);
  }

  /** Verification never raises a confidence the ranker produced: every verified hypothesis
      is one ranked hypothesis, and its confidence is at most what it was there. */
  lemma VerifierNeverRaises(hs: seq<Hypothesis>, evidence: seq<Evidence>, incident: Incident, graph: Option<Snapshot>, k: nat)
    returns (j: nat)
    requires k < |Verified(Ranked(hs, evidence, incident, graph), evidence)|
    ensures var ranked := Ranked(hs, evidence, incident, graph);
      && j < |ranked|
      && Verified(ranked, evidence)[k] == Review(ranked[j], ById(evidence)).(rank := k + 1)
      && Verified(ranked, evidence)[k].confidence <= ranked[j].confidence
  {
    var ranked := Ranked(hs, evidence, incident, graph);
    j := VerifiedFrom(ranked, evidence, k);
    RankedIsRanking(hs, evidence, incident, graph);
    ReviewNeverRaises(ranked[j], ById(evidence));
  }
}

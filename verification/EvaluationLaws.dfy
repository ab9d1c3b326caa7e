/** What the benchmark can report: trials of the full system never claim evidence that is
    not in the case, and the metrics say so for any set of cases. */
module EvaluationLaws {
  import opened Prelude
  import opened Ordering
  import opened Contracts
  import opened Verifier
  import opened Causal
  import opened Provider
  import opened Evaluation

  // ---------- lists of citations that cannot overlap ----------

  /** `ids` are different items of the evidence, all of them about `service`. */
  ghost predicate CitesOwn(service: string, ids: seq<Id>, evidence: seq<Evidence>) {
    && Distinct(ids)
    && forall i :: i in ids ==> exists e :: e in evidence && e.id == i && e.service == Some(service)
  }

  /** One list of citations for each of several different services. */
  ghost predicate Separate(services: seq<string>, lists: seq<seq<Id>>, evidence: seq<Evidence>) {
    && |services| == |lists| && Distinct(services)
    && forall k :: 0 <= k < |lists| ==> CitesOwn(services[k], lists[k], evidence)
  }

  lemma {:induction false} ConcatMembers(lists: seq<seq<Id>>, i: Id)
    ensures i in Concat(lists) <==> exists k :: 0 <= k < |lists| && i in lists[k]
  {
    if lists != [] {
      ConcatMembers(lists[..|lists| - 1], i);
      assert forall k :: 0 <= k < |lists| - 1 ==> lists[..|lists| - 1][k] == lists[k];
    }
  }

  lemma OneService(evidence: seq<Evidence>, a: seq<Id>, b: seq<Id>, s: string, t: string, i: Id)
    requires UniqueIds(evidence) && CitesOwn(s, a, evidence) && CitesOwn(t, b, evidence) && i in a && i in b
    ensures s == t
  {
    var e :| e in evidence && e.id == i && e.service == Some(s);
    var f :| f in evidence && f.id == i && f.service == Some(t);
    ByIdOfUnique(evidence, e);
    ByIdOfUnique(evidence, f);
  }

  lemma DistinctAppend(a: seq<Id>, b: seq<Id>)
    requires Distinct(a) && Distinct(b) && forall i :: i in a ==> i !in b
    ensures Distinct(a + b)
  {
    forall j, k | 0 <= j < k < |a + b| ensures (a + b)[j] != (a + b)[k] {
      if j < |a| <= k {
        assert (a + b)[j] in a && (a + b)[k] in b;
      }
    }
  }

  /** Separate lists can be strung together without a repetition. */
  lemma {:induction false} ConcatDistinct(services: seq<string>, lists: seq<seq<Id>>, evidence: seq<Evidence>)
    requires Separate(services, lists, evidence) && UniqueIds(evidence)
    ensures Distinct(Concat(lists))
    ensures forall i :: i in Concat(lists) ==> exists e :: e in evidence && e.id == i
  {
    if lists != [] {
      var n := |lists| - 1;
      ConcatDistinct(services[..n], lists[..n], evidence);
      forall i | i in Concat(lists[..n]) ensures i !in lists[n] {
        ConcatMembers(lists[..n], i);
        var k :| 0 <= k < n && i in lists[..n][k];
        if i in lists[n] {
          OneService(evidence, lists[k], lists[n], services[k], services[n], i);
        }
      }
      DistinctAppend(Concat(lists[..n]), lists[n]);
    }
  }

  lemma SeparatePrefix(services: seq<string>, lists: seq<seq<Id>>, evidence: seq<Evidence>)
    requires Separate(services, lists, evidence)
    ensures Separate(FirstThree(services), FirstThree(lists), evidence)
  {
  }

  // ---------- the claims of the multi-agent proxy ----------

  lemma {:induction false} IdsDistinct(items: seq<Evidence>, evidence: seq<Evidence>)
    requires Distinct(items) && UniqueIds(evidence) && forall e :: e in items ==> e in evidence
    ensures Distinct(Ids(items))
  {
    forall j, k | 0 <= j < k < |items| ensures Ids(items)[j] != Ids(items)[k] {
      assert items[j] in items && items[k] in items;
      ByIdOfUnique(evidence, items[j]);
      ByIdOfUnique(evidence, items[k]);
    }
  }

  lemma ItemsCiteOwn(items: seq<Evidence>, evidence: seq<Evidence>, service: string)
    requires UniqueIds(evidence) && Distinct(items)
    requires forall e :: e in items ==> e in evidence && e.service == Some(service)
    ensures CitesOwn(service, Ids(items), evidence)
  {
    IdsDistinct(items, evidence);
    forall i | i in Ids(items) ensures exists e :: e in evidence && e.id == i && e.service == Some(service) {
      var k :| 0 <= k < |items| && Ids(items)[k] == i;
      assert items[k] in items;
    }
  }

  lemma DistinctEvidence(evidence: seq<Evidence>)
    requires UniqueIds(evidence)
    ensures Distinct(evidence)
  {
  }

  lemma NamedCiteOwn(evidence: seq<Evidence>, s: string)
    requires UniqueIds(evidence)
    ensures CitesOwn(s, Ids(Named(evidence, s)), evidence)
  {
    GroupMembers(evidence, NameKey(), s);
    DistinctEvidence(evidence);
    GroupDistinct(evidence, NameKey(), s);
    ItemsCiteOwn(Named(evidence, s), evidence, s);
  }

  lemma BucketsSeparate(evidence: seq<Evidence>)
    requires UniqueIds(evidence)
    ensures var rows := Buckets(evidence);
      Separate(Map(rows, (b: Bucket) => b.service), BucketIds(rows), evidence)
  {
    var names := Names(evidence);
    var unsorted := Map(names, BucketOf(evidence));
    var rows := Buckets(evidence);
    var services := Map(rows, (b: Bucket) => b.service);
    SortPermutes(unsorted, BucketBefore);
    MapPermutation(rows, unsorted, (b: Bucket) => b.service);
    assert Map(unsorted, (b: Bucket) => b.service) == names;
    DedupIsDistinct(KeyList(evidence, NameKey()));
    DistinctPermutation(names, services);
    forall k | 0 <= k < |rows| ensures CitesOwn(services[k], BucketIds(rows)[k], evidence) {
      assert rows[k] in unsorted;
      var j :| 0 <= j < |names| && unsorted[j] == rows[k];
      NamedCiteOwn(evidence, names[j]);
    }
  }

  lemma MultiRankClaims(evidence: seq<Evidence>)
    requires UniqueIds(evidence)
    ensures Distinct(MultiRanked(evidence).1)
    ensures forall i :: i in MultiRanked(evidence).1 ==> exists e :: e in evidence && e.id == i
  {
    BucketsSeparate(evidence);
    var rows := Buckets(evidence);
    var services := Map(rows, (b: Bucket) => b.service);
    SeparatePrefix(services, BucketIds(rows), evidence);
    assert FirstThree(BucketIds(rows)) == BucketIds(FirstThree(rows));
    ConcatDistinct(FirstThree(services), FirstThree(BucketIds(rows)), evidence);
  }

  // ---------- the claims of the full system ----------

  ghost predicate Attributed(hs: seq<Hypothesis>, evidence: seq<Evidence>) {
    Separate(RootCauses(hs), Supports(hs), evidence)
  }

  lemma CurrentItemsCiteOwn(evidence: seq<Evidence>, s: string)
    requires UniqueIds(evidence)
    ensures CitesOwn(s, Ids(ItemsOf(evidence, s, true)), evidence)
  {
    FilterMembers(evidence, (e: Evidence) => Counts(e, true) && e.service.value == s);
    DistinctEvidence(evidence);
    FilterDistinct(evidence, (e: Evidence) => Counts(e, true) && e.service.value == s);
    ItemsCiteOwn(ItemsOf(evidence, s, true), evidence, s);
  }

  lemma ReplayAttributed(evidence: seq<Evidence>)
    requires UniqueIds(evidence)
    ensures Attributed(Replay(evidence), evidence)
  {
    var services := Sort(Services(evidence, true), StrLe);
    var hs := Replay(evidence);
    ServicesAre(evidence, true);
    SortDistinct(Services(evidence, true), StrLe);
    assert RootCauses(hs) == services;
    forall k | 0 <= k < |hs| ensures CitesOwn(services[k], Supports(hs)[k], evidence) {
      CurrentItemsCiteOwn(evidence, services[k]);
    }
  }

  /** Ranking moves hypotheses and leaves their citations alone. */
  lemma RankedAttributed(hs: seq<Hypothesis>, evidence: seq<Evidence>, incident: Incident, graph: Option<Snapshot>)
    requires Attributed(hs, evidence)
    ensures Attributed(Ranked(hs, evidence, incident, graph), evidence)
  {
    var rows := Causal.Rows(hs, evidence, incident, graph);
    var sorted := Sort(rows, RowBefore);
    var out := Ranked(hs, evidence, incident, graph);
    SortPermutes(rows, RowBefore);
    MapPermutation(sorted, rows, (r: Row) => r.hypothesis.rootCause);
    assert Map(rows, (r: Row) => r.hypothesis.rootCause) == RootCauses(hs);
    assert Map(sorted, (r: Row) => r.hypothesis.rootCause) == RootCauses(out);
    DistinctPermutation(RootCauses(hs), RootCauses(out));
    forall k | 0 <= k < |out| ensures CitesOwn(RootCauses(out)[k], Supports(out)[k], evidence) {
      var j := RankedFrom(hs, evidence, incident, graph, k);
      assert CitesOwn(RootCauses(hs)[j], Supports(hs)[j], evidence);
    }
  }

  lemma FewerCitations(h: Hypothesis, evidence: seq<Evidence>)
    requires CitesOwn(h.rootCause, h.evidenceFor, evidence)
    ensures CitesOwn(h.rootCause, Review(h, ById(evidence)).evidenceFor, evidence)
  {
    var m := ById(evidence);
    FilterMembers(h.evidenceFor, (i: Id) => Usable(i, m));
    FilterDistinct(h.evidenceFor, (i: Id) => Usable(i, m));
  }

  /** So does the verifier, which only drops citations. */
  lemma VerifiedAttributed(hs: seq<Hypothesis>, evidence: seq<Evidence>)
    requires Attributed(hs, evidence)
    ensures Attributed(Verified(hs, evidence), evidence)
  {
    var reviewed := Reviewed(hs, evidence);
    var sorted := Sort(reviewed, Before);
    var out := Verified(hs, evidence);
    SortPermutes(reviewed, Before);
    MapPermutation(sorted, reviewed, (h: Hypothesis) => h.rootCause);
    assert RootCauses(reviewed) == RootCauses(hs);
    assert RootCauses(sorted) == RootCauses(out);
    DistinctPermutation(RootCauses(hs), RootCauses(out));
    forall k | 0 <= k < |out| ensures CitesOwn(RootCauses(out)[k], Supports(out)[k], evidence) {
      var j := VerifiedFrom(hs, evidence, k);
      assert CitesOwn(RootCauses(hs)[j], Supports(hs)[j], evidence);
      FewerCitations(hs[j], evidence);
    }
  }

  lemma FilteredUnique(evidence: seq<Evidence>, p: Evidence -> bool)
    requires UniqueIds(evidence)
    ensures UniqueIds(Filter(evidence, p))
    ensures forall e :: e in Filter(evidence, p) ==> e in evidence
  {
    var kept := Filter(evidence, p);
    DistinctEvidence(evidence);
    FilterDistinct(evidence, p);
    FilterMembers(evidence, p);
    forall i, j | 0 <= i < j < |kept| ensures kept[i].id != kept[j].id {
      assert kept[i] in kept && kept[j] in kept;
      ByIdOfUnique(evidence, kept[i]);
      ByIdOfUnique(evidence, kept[j]);
    }
  }

  lemma ClaimsOf(hs: seq<Hypothesis>, evidence: seq<Evidence>)
    requires UniqueIds(evidence) && Attributed(hs, evidence)
    ensures Distinct(Concat(Supports(FirstThree(hs))))
    ensures forall i :: i in Concat(Supports(FirstThree(hs))) ==> exists e :: e in evidence && e.id == i
  {
    SeparatePrefix(RootCauses(hs), Supports(hs), evidence);
    assert FirstThree(Supports(hs)) == Supports(FirstThree(hs));
    ConcatDistinct(FirstThree(RootCauses(hs)), FirstThree(Supports(hs)), evidence);
  }

  lemma ConcludedClaims(c: Case, a: Option<Ablation>)
    requires UniqueIds(c.evidence)
    ensures var claims := Concat(Supports(FirstThree(Concluded(c, a))));
      Distinct(claims) && forall i :: i in claims ==> exists e :: e in FilterEvidence(c.evidence, a) && e.id == i
  {
    var evidence := FilterEvidence(c.evidence, a);
    FilteredUnique(c.evidence, (e: Evidence) => Some(e.source) != RemovedSource(a));
    ReplayAttributed(evidence);
    RankedAttributed(Replay(evidence), evidence, c.incident, GraphFor(c, a));
    VerifiedAttributed(Ranked(Replay(evidence), evidence, c.incident, GraphFor(c, a)), evidence);
    ClaimsOf(Concluded(c, a), evidence);
  }

  /** The claims are different from each other and in the list of valid ids. */
  ghost predicate ClaimsHold(t: Trial) { Distinct(t.claims) && forall i :: i in t.claims ==> i in t.valid }

  lemma IdListed(evidence: seq<Evidence>, e: Evidence)
    requires e in evidence
    ensures e.id in Ids(evidence)
  {
    var k :| 0 <= k < |evidence| && evidence[k] == e;
    assert Ids(evidence)[k] == e.id;
  }

  /** Under every ablation, for every case whose ids are unique, a trial claims no id twice
      and none that is not in the case. */
  lemma TrialClaimsHold(c: Case, a: Option<Ablation>, elapsed: real)
    requires UniqueIds(c.evidence)
    ensures ClaimsHold(Trialled(c, a, elapsed))
  {
    var t := Trialled(c, a, elapsed);
    var evidence := FilterEvidence(c.evidence, a);
    FilteredUnique(c.evidence, (e: Evidence) => Some(e.source) != RemovedSource(a));
    FilteredUnique(evidence, (e: Evidence) => e.source.Metrics?);
    ConcludedClaims(c, a);
    MultiRankClaims(MetricItems(evidence));
    forall i | i in t.claims ensures i in t.valid {
      var e :| e in evidence && e.id == i;
      IdListed(c.evidence, e);
    }
  }

  // ---------- what the metrics then say ----------

  lemma RatioIsOne(n: nat)
    requires n > 0
    ensures Ratio(n, n) == 1.0
  {
  }

  lemma RatioIsZero(part: nat, whole: nat)
    requires part <= whole
    ensures Ratio(part, whole) == 0.0 <==> part == 0
  {
  }

  lemma {:induction false} AllTrialsValid(trials: seq<Trial>)
    ensures (forall t :: t in trials ==> ValidClaims()(t) == Claims()(t)) <==> (forall t :: t in trials ==> ClaimsHold(t))
  {
    forall t | t in trials ensures ValidClaims()(t) == Claims()(t) <==> ClaimsHold(t) { ValidAtMostClaimed(t); }
  }

  lemma {:induction false} AnyClaims(trials: seq<Trial>)
    ensures Ordering.Total(trials, Claims()) > 0 <==> exists t :: t in trials && t.claims != []
  {
    if trials != [] {
      AnyClaims(trials[1..]);
      assert trials == [trials[0]] + trials[1..];
      if trials[0].claims != [] {
        assert trials[0] in trials;
      }
    }
  }

  /** The reported hallucination rate is zero exactly when every claim of every trial holds,
      and then the precision is one as soon as anything is claimed. */
  lemma NoHallucinationIff(trials: seq<Trial>)
    requires trials != []
    ensures Aggregated(trials).hallucinated == 0.0 <==> forall t :: t in trials ==> ClaimsHold(t)
    ensures Aggregated(trials).hallucinated == 0.0 ==>
      Aggregated(trials).precision == if exists t :: t in trials && t.claims != [] then 1.0 else 0.0
  {
    var claims, valid := Ordering.Total(trials, Claims()), Ordering.Total(trials, ValidClaims());
    AllValid(trials);
    AllTrialsValid(trials);
    RatioIsZero(claims - valid, claims);
    AnyClaims(trials);
    if claims > 0 { RatioIsOne(claims); }
  }

  /** The trials of one benchmark run. */
  ghost predicate Replays(trials: seq<Trial>) {
    forall t :: t in trials ==> exists c: Case, a: Option<Ablation>, elapsed: real :: t == Trialled(c, a, elapsed) && UniqueIds(c.evidence)
  }

  /** For every set of cases with unique ids and every mixture of ablations: no
      hallucinations, and full precision as soon as anything is claimed. */
  lemma ReplaysNeverHallucinate(trials: seq<Trial>)
    requires trials != [] && Replays(trials)
    ensures Aggregated(trials).hallucinated == 0.0
    ensures (exists t :: t in trials && t.claims != []) ==> Aggregated(trials).precision == 1.0
  {
    forall t | t in trials ensures ClaimsHold(t) {
      var c: Case, a: Option<Ablation>, elapsed: real :| t == Trialled(c, a, elapsed) && UniqueIds(c.evidence);
      TrialClaimsHold(c, a, elapsed);
    }
    NoHallucinationIff(trials);
  }

  lemma RatioOrder(a: nat, b: nat, n: nat)
    requires a <= b <= n && n > 0
    ensures 0.0 <= Ratio(a, n) <= Ratio(b, n) <= 1.0
  {
  }

  /** The first prediction is among the first three. */
  lemma Top1AtMostTop3(trials: seq<Trial>)
    requires trials != []
    ensures 0.0 <= Aggregated(trials).top1 <= Aggregated(trials).top3 <= 1.0
  {
    FilterImplies(trials, HitsFirst, HitsThree);
    FilterMembers(trials, HitsThree);
    RatioOrder(|Filter(trials, HitsFirst)|, |Filter(trials, HitsThree)|, |trials|);
  }

  // ---------- the reported percentile ----------

  /** At least 95 in 100 latencies are at most the reported value, and fewer than 95 in 100
      are below it. */
  lemma P95IsPercentile(trials: seq<Trial>)
    requires trials != []
    ensures var n, p95 := |trials|, Aggregated(trials).p95Latency;
      && 100 * |Filter(Latencies(trials), AtMost(p95))| >= 95 * n
      && 100 * |Filter(Latencies(trials), Below(p95))| < 95 * n
      && p95 in Latencies(trials)
  {
    var xs := Latencies(trials);
    var s := Sort(xs, RealLe);
    var i := P95Index(|trials|);
    SortSorted(xs, RealLe);
    SortPermutes(xs, RealLe);
    FilterPermutation(s, xs, AtMost(s[i]));
    FilterPermutation(s, xs, Below(s[i]));
    forall k | 0 <= k < i + 1 ensures AtMost(s[i])(s[k]) { assert k == i || RealLe(s[k], s[i]); }
    forall k | i <= k < |s| ensures !Below(s[i])(s[k]) { assert k == i || RealLe(s[i], s[k]); }
    PrefixCount(s, AtMost(s[i]), i + 1);
    SuffixCount(s, Below(s[i]), i);
    assert s[i] in s;
  }
}

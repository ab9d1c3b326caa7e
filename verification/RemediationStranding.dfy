/** A plan can stay APPROVED or EXECUTING for good: nothing repairs what a crashed owner left
    behind. How a run gets there, and one run from the beginning that does. */
module RemediationStranding {
  import opened Prelude
  import opened Contracts
  import opened RemediationPolicy
  import opened RemediationProtocol
  import opened RemediationCalls
  import opened RemediationSafety
  import opened RemediationProgress

  // ---------- nothing repairs a stranded plan ----------

  lemma OtherOwnerSpares(u: World, d: Id, answer: Answer, p: Id)
    requires p in u.rows && d in u.calls && CallInv(u, d) && u.calls[d].request.Approve? && u.calls[d].request.planId != p
    requires u.calls[d].phase.GivingUp? || u.calls[d].phase.ClaimingExecution? || u.calls[d].phase.Finishing?
    requires RowInv(u, u.calls[d].request.planId)
    ensures p in Step(u, d, answer).rows && Step(u, d, answer).rows[p] == u.rows[p]
  {
  }

  lemma ClaimSpares(u: World, d: Id, decision: Plan, p: Id)
    requires d in u.calls && p in u.rows && u.rows[p].status != Proposed
    ensures p in Claim(u, d, u.calls[d].request, decision).rows
    ensures Claim(u, d, u.calls[d].request, decision).rows[p] == u.rows[p]
  {
  }

  /** Nobody but its owner writes a row that has been claimed. */
  lemma OthersSpare(u: World, d: Id, answer: Answer, p: Id)
    requires Inv(u) && d in u.calls && p in u.owner && u.owner[p] != d
    ensures p in u.rows && p in Step(u, d, answer).rows && Step(u, d, answer).rows[p] == u.rows[p]
  {
    assert OwnerInv(u, p) && RowInv(u, p) && CallInv(u, d);
    var phase := u.calls[d].phase;
    if phase.Claiming? {
      ClaimSpares(u, d, phase.decision, p);
    } else if phase.GivingUp? || phase.ClaimingExecution? || phase.Finishing? {
      assert RowInv(u, u.calls[d].request.planId);
      OtherOwnerSpares(u, d, answer, p);
    } else {
      QuietClimbs(u, d, answer, p);
    }
  }

  /** No action touches the row of a crashed owner, or the owner. */
  lemma NextSpares(u: World, a: Action, c: Id, p: Id)
    requires Inv(u) && CrashedOwner(u, c, p)
    ensures p in u.rows && p in Next(u, a).rows && Next(u, a).rows[p] == u.rows[p] && CrashedOwner(Next(u, a), c, p)
  {
    assert CallInv(u, c);
    if !Mentions(a, c) { OtherActionKeepsCall(u, a, c); }
    if a.Resume? && a.c in u.calls && u.calls[a.c].alive { OthersSpare(u, a.c, a.answer, p); }
  }

  /** Once the owner of a plan has crashed between its claim and its last write, the plan
      stays as it is, however the run goes on. */
  lemma {:induction false} StrandedForever(w: World, actions: seq<Action>, c: Id, p: Id)
    requires Inv(w) && CrashedOwner(w, c, p)
    ensures p in w.rows && p in Run(w, actions).rows && Run(w, actions).rows[p] == w.rows[p]
    ensures CrashedOwner(Run(w, actions), c, p)
  {
    if actions == [] {
      assert CallInv(w, c);
    } else {
      var init, last := actions[..|actions| - 1], actions[|actions| - 1];
      StrandedForever(w, init, c, p);
      RunKeeps(w, init);
      NextSpares(Run(w, init), last, c, p);
    }
  }

  // ---------- how a plan gets stranded ----------

  lemma ReachableNext(w: World, a: Action)
    requires Reachable(w)
    ensures Reachable(Next(w, a))
  {
    var w0, actions :| Initial(w0) && w == Run(w0, actions);
    assert (actions + [a])[..|actions|] == actions;
    assert Next(w, a) == Run(w0, actions + [a]);
  }

  lemma ReachableAlone(w: World, c: Id, answer: Answer, v: World)
    requires Reachable(w) && Leads(w, c, answer, v)
    ensures Reachable(v)
  {
    var w0, actions :| Initial(w0) && w == Run(w0, actions);
    var n: nat :| Run(w, Alone(c, answer, n)) == v;
    RunAppend(w0, actions, Alone(c, answer, n));
  }

  predicate Stranded(w: World, c: Id, p: Id) {
    Quiescent(w) && p in w.rows && w.rows[p].status.Approved? && CrashedOwner(w, c, p)
  }

  lemma CrashStrands(w: World, won: World, c: Id, approved: Plan)
    requires Quiescent(w) && won.calls.Keys == w.calls.Keys + {c} && won.rows == w.rows[approved.id := Written(approved)]
    requires (forall d :: d in w.calls && d != c ==> won.calls[d] == w.calls[d]) && approved.status.Approved?
    requires won.calls[c].phase == ReadingInvestigation(approved)
    requires won.calls[c].request.Approve? && won.calls[c].request.planId == approved.id
    ensures Stranded(Next(won, Crash(c)), c, approved.id)
  {
  }

  /** Whenever a plan can be approved, a crash right after the claim strands it. */
  lemma ApprovalCanStrand(w: World, c: Id, r: Request, answer: Answer) returns (v: World)
    requires Reachable(w) && Quiescent(w) && c !in w.calls && r.Approve? && Claimable(w, r)
    ensures Reachable(v) && Stranded(v, c, r.planId)
  {
    var u := Next(w, Submit(c, r));
    StatusTellsHistory(w, r.planId);
    ReachableNext(w, Submit(c, r));
    ClaimedAlone(u, c, answer);
    var won := Won(u, c, Approval(u, r, answer));
    ReachableAlone(u, c, answer, won);
    v := Next(won, Crash(c));
    ReachableNext(won, Crash(c));
    CrashStrands(w, won, c, Approval(u, r, answer));
  }

  /** A proposal that rests on the diagnosis is filed as PROPOSED. */
  lemma DraftProposed(allowed: set<string>, r: Request, v: Investigation, uuid: Id)
    requires r.Propose? && v.hypotheses != [] && Grounded(allowed, Drafted(allowed, r, v, uuid), v)
    ensures Drafted(allowed, r, v, uuid).status == Proposed
  {
    var plan := Drafted(allowed, r, v, uuid).(status := Proposed, checks := []);
    ProposalAllowedIff(allowed, plan, v);
  }

  lemma ProposedAlone(w: World, c: Id, r: Request, answer: Answer) returns (v: World)
    requires Reachable(w) && Quiescent(w) && c !in w.calls && r.Propose? && answer.uuid !in w.rows
    requires r.incidentId in w.incidents && r.incidentId in w.investigations && w.investigations[r.incidentId].hypotheses != []
    ensures Reachable(v) && Quiescent(v) && v.calls.Keys == w.calls.Keys + {c} && v.incidents == w.incidents
    ensures v.rows == Create(w.rows, Drafted(w.allowed, r, w.investigations[r.incidentId], answer.uuid))
  {
    var asked := Next(w, Submit(c, r));
    var drafted := Next(asked, Resume(c, answer));
    v := Next(drafted, Resume(c, answer));
    ReachableNext(w, Submit(c, r));
    ReachableNext(asked, Resume(c, answer));
    ReachableNext(drafted, Resume(c, answer));
  }

  // ---------- one run ----------

  const SOME_EVIDENCE := Evidence(7, Metrics, Current, Some("web"), "latency", 1.0, 0.0, map[])

  const SOME_HYPOTHESIS := Hypothesis("h", 1, "web", "latency", 1, 1, [7], [], 1.0, Supported, NO_SCORE, Manager)

  const SOME_INVESTIGATION := Investigation(3, 0, MultiAgent, Completed, [SOME_EVIDENCE], [SOME_HYPOTHESIS], [], None)

  const START := World({"shop"}, {0}, map[0 := SOME_INVESTIGATION], map[], [], [], map[], map[])

  lemma StartIsInitial()
    ensures Initial(START) && Reachable(START)
  {
    assert Run(START, []) == START;
  }

  /** From nothing, one proposal and one approval reach a world where nothing is running any
      more and the plan is still APPROVED. */
  lemma PlanCanStrand() returns (w: World, c: Id, p: Id)
    ensures Reachable(w) && Stranded(w, c, p)
  {
    var r := Propose(0, RestartPod, "shop", "web-1", "web", "");
    var answer := Answer(0.0, 5, None, false);
    StartIsInitial();
    var u := ProposedAlone(START, 1, r, answer);
    var plan := Drafted(START.allowed, r, SOME_INVESTIGATION, 5);
    assert SOME_EVIDENCE in SOME_INVESTIGATION.evidence;
    DraftProposed(START.allowed, r, SOME_INVESTIGATION, 5);
    c, p := 2, 5;
    w := ApprovalCanStrand(u, c, Approve(0, p, "sre", ""), answer);
  }
}

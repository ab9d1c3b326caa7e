/** What the workflow writes down: the plan a proposal files, the decision on it, the pod that
    is looked up, and the receipt of a restart. */
module RemediationRecords {
  import opened Prelude
  import opened Contracts
  import opened RemediationPolicy
  import opened RemediationProtocol
  import opened RemediationCalls
  import opened RemediationSafety
  import opened RemediationProgress

  // ---------- proposals and decisions ----------

  /** A draft says what was asked for, about the latest investigation and on the evidence of its
      top hypothesis, and waits for a decision if and only if it is grounded. */
  lemma DraftSays(allowed: set<string>, r: Request, v: Investigation, uuid: Id)
    requires r.Propose? && v.hypotheses != []
    ensures var plan := Drafted(allowed, r, v, uuid);
      && plan.id == uuid && plan.incidentId == r.incidentId && plan.investigationId == v.id
      && plan.actionType == r.actionType && plan.namespace == r.namespace && plan.target == r.target
      && plan.targetService == r.service && plan.rationale == r.rationale
      && plan.evidenceIds == v.hypotheses[0].evidenceFor
      && plan.decidedAt.None? && plan.decidedBy.None? && plan.decisionReason.None?
      && plan.status == (if Grounded(allowed, plan, v) then Proposed else RecommendationOnly)
      && PolicyAllows(plan.checks) == Grounded(allowed, plan, v)
  {
    var plan := Drafted(allowed, r, v, uuid);
    var asked := plan.(status := if plan.riskLevel.Elevated? || plan.riskLevel.Prohibited? then RecommendationOnly else Proposed, checks := []);
    ProposalAllowedIff(allowed, asked, v);
    assert Grounded(allowed, asked, v) == Grounded(allowed, plan, v);
  }

  /** A decision names who took it, when and why, and changes nothing else. */
  lemma DecisionSays(plan: Plan, r: Request, now: Time)
    requires !r.Propose?
    ensures var decision := Decided(plan, r, now);
      && decision.decidedBy == Some(r.actor) && decision.decidedAt == Some(now) && decision.decisionReason == Some(r.reason)
      && (r.Approve? ==> decision.status == Approved) && (r.Reject? ==> decision.status == Status.Rejected)
      && decision.checks == plan.checks && SameIdentity(plan, decision)
  {
  }

  predicate IsFirst(pods: seq<Pod>, k: nat, name: string)
    requires k < |pods|
  {
    pods[k].name == name && forall j :: 0 <= j < k ==> pods[j].name != name
  }

  /** The pod that is looked up is the first one of that name. */
  lemma {:induction false} FirstOfTheName(pods: seq<Pod>, name: string)
    ensures FindPod(pods, name).None? <==> forall k :: 0 <= k < |pods| ==> pods[k].name != name
    ensures FindPod(pods, name).Some? ==>
      exists k :: 0 <= k < |pods| && pods[k] == FindPod(pods, name).value && IsFirst(pods, k, name)
  {
    if pods != [] {
      FirstOfTheName(pods[1..], name);
      if pods[0].name == name {
        assert IsFirst(pods, 0, name);
      } else if FindPod(pods[1..], name).Some? {
        var k :| 0 <= k < |pods[1..]| && pods[1..][k] == FindPod(pods[1..], name).value && IsFirst(pods[1..], k, name);
        assert pods[k + 1] == pods[1..][k];
        forall j | 0 <= j < k + 1 ensures pods[j].name != name { assert j == 0 || pods[j] == pods[1..][j - 1]; }
        assert IsFirst(pods, k + 1, name);
      }
    }
  }

  // ---------- receipts ----------

  /** A receipt describes the plan in its row. */
  predicate Matches(w: World, r: Receipt) {
    && r.planId in w.rows
    && var plan := w.rows[r.planId].snapshot;
       plan.incidentId == r.incidentId && plan.actionType == r.actionType && plan.namespace == r.namespace && plan.target == r.target
  }

  lemma StillMatches(w: World, a: Action, r: Receipt)
    requires Inv(w) && Matches(w, r)
    ensures Matches(Next(w, a), r)
  {
    NextClimbs(w, a, r.planId);
  }

  lemma ListPodsReceiptsNothing(w: World, c: Id, approved: Plan, v: Investigation, answer: Answer)
    requires c in w.calls
    ensures ListPods(w, c, approved, v, answer).receipts == w.receipts
  {
  }

  lemma OnlySavingReceipts(w: World, c: Id, answer: Answer)
    requires c in w.calls && !w.calls[c].phase.SavingReceipt? && !w.calls[c].phase.ListingPods?
    ensures Step(w, c, answer).receipts == w.receipts
  {
  }

  lemma NewReceiptMatches(w: World, c: Id, e: Plan, ok: bool, answer: Answer)
    requires Inv(w) && c in w.calls && w.calls[c].phase == SavingReceipt(e, ok)
    ensures Step(w, c, answer).receipts == w.receipts + [ReceiptFor(e, w.calls[c].request.incidentId, ok)]
    ensures Matches(w, ReceiptFor(e, w.calls[c].request.incidentId, ok))
  {
    assert CallInv(w, c) && RowInv(w, w.calls[c].request.planId);
  }

  lemma NextMatches(w: World, a: Action, r: Receipt)
    requires Inv(w) && (r in w.receipts ==> Matches(w, r)) && r in Next(w, a).receipts
    ensures Matches(Next(w, a), r)
  {
    if a.Resume? && a.c in w.calls && w.calls[a.c].alive {
      var phase := w.calls[a.c].phase;
      if phase.SavingReceipt? {
        NewReceiptMatches(w, a.c, phase.executing, phase.ok, a.answer);
      } else if phase.ListingPods? {
        ListPodsReceiptsNothing(w, a.c, phase.approved, phase.investigation, a.answer);
      } else {
        OnlySavingReceipts(w, a.c, a.answer);
      }
    }
    StillMatches(w, a, r);
  }

  lemma {:induction false} RunMatches(w0: World, actions: seq<Action>, r: Receipt)
    requires Initial(w0) && r in Run(w0, actions).receipts
    ensures Matches(Run(w0, actions), r)
  {
    if actions != [] {
      var init := actions[..|actions| - 1];
      RunKeeps(w0, init);
      if r in Run(w0, init).receipts { RunMatches(w0, init, r); }
      NextMatches(Run(w0, init), actions[|actions| - 1], r);
    }
  }

  /** Every receipt in every reachable state belongs to a plan that was executed, and names the
      incident, the action, the namespace and the target of that plan. */
  lemma ReceiptsMatch(w: World, r: Receipt)
    requires Reachable(w) && r in w.receipts
    ensures Matches(w, r) && Executed(w, r.planId)
  {
    var w0, actions :| Initial(w0) && w == Run(w0, actions);
    RunMatches(w0, actions, r);
    StatusTellsHistory(w, r.planId);
    assert ReceiptOf(w, r.planId, r.succeeded);
  }

  // ---------- a proposal and a rejection when nobody interferes ----------

  lemma RunOne(w: World, c: Id, answer: Answer, n: nat)
    ensures Run(w, Alone(c, answer, n + 1)) == Next(Run(w, Alone(c, answer, n)), Resume(c, answer))
  {
    var actions := Alone(c, answer, n + 1);
    assert actions == Alone(c, answer, n) + [Resume(c, answer)];
    assert actions[..|actions| - 1] == Alone(c, answer, n);
  }

  lemma RunNone(w: World, c: Id, answer: Answer)
    ensures Run(w, Alone(c, answer, 0)) == w
  {
  }

  /** `v` is `w` after call `c` was refused: nothing but its position has changed. */
  predicate TurnedDown(w: World, v: World, c: Id) {
    c in w.calls && c in v.calls && v.calls[c].phase == Raised(false) && v == w.(calls := v.calls)
  }

  /** `v` is `w` after call `c` wrote `plan` and returned it: nothing else has changed. */
  predicate Wrote(w: World, v: World, c: Id, plan: Plan) {
    && c in w.calls && c in v.calls && v.calls[c].phase == Returned(plan)
    && v == w.(calls := v.calls, rows := w.rows[plan.id := Row(plan.status, plan)])
  }

  /** Call `c` is at `phase` and its segments are run. */
  ghost predicate Runs(w: World, c: Id, phase: Phase) { c in w.calls && w.calls[c].alive && w.calls[c].phase == phase }

  lemma Refused(w: World, c: Id, answer: Answer)
    requires Runs(w, c, Starting)
    ensures var u := Goto(w, c, Raised(false)); Next(u, Resume(c, answer)) == u && TurnedDown(w, u, c)
  {
  }

  predicate Diagnosed(w: World, r: Request) {
    r.incidentId in w.incidents && r.incidentId in w.investigations && w.investigations[r.incidentId].hypotheses != []
  }

  lemma ProposalStarts(w: World, c: Id, answer: Answer)
    requires Runs(w, c, Starting) && w.calls[c].request.Propose?
    ensures var r := w.calls[c].request;
      Next(w, Resume(c, answer)) == Goto(w, c,
        if Diagnosed(w, r) then Creating(Drafted(w.allowed, r, w.investigations[r.incidentId], answer.uuid)) else Raised(false))
  {
  }

  lemma DraftInserted(w: World, c: Id, draft: Plan, answer: Answer)
    requires Runs(w, c, Starting)
    ensures var v := Next(Goto(w, c, Creating(draft)), Resume(c, answer));
      if draft.id in w.rows then TurnedDown(w, v, c) else Wrote(w, v, c, draft)
  {
  }

  /** A proposal files its draft if and only if the incident is known and has a diagnosis with a
      hypothesis, and the id is new. */
  lemma ProposalAlone(w: World, c: Id, answer: Answer) returns (v: World)
    requires Runs(w, c, Starting) && w.calls[c].request.Propose?
    ensures v == Run(w, Alone(c, answer, 2))
    ensures var r := w.calls[c].request;
      if Diagnosed(w, r) && answer.uuid !in w.rows
      then Wrote(w, v, c, Drafted(w.allowed, r, w.investigations[r.incidentId], answer.uuid))
      else TurnedDown(w, v, c)
  {
    var r, u := w.calls[c].request, Next(w, Resume(c, answer));
    v := Next(u, Resume(c, answer));
    RunNone(w, c, answer);
    RunOne(w, c, answer, 0);
    RunOne(w, c, answer, 1);
    ProposalStarts(w, c, answer);
    if Diagnosed(w, r) {
      DraftInserted(w, c, Drafted(w.allowed, r, w.investigations[r.incidentId], answer.uuid), answer);
    } else {
      Refused(w, c, answer);
    }
  }

  predicate Waiting(w: World, r: Request)
    requires r.Reject?
  {
    && r.incidentId in w.incidents && r.planId in w.rows
    && w.rows[r.planId].snapshot.incidentId == r.incidentId && w.rows[r.planId].status == Proposed
  }

  lemma RejectionStarts(w: World, c: Id, answer: Answer)
    requires Runs(w, c, Starting) && w.calls[c].request.Reject?
    ensures Next(w, Resume(c, answer)) == Goto(w, c, if w.calls[c].request.incidentId in w.incidents then Loading else Raised(false))
  {
  }

  lemma RejectionLoads(w: World, c: Id, answer: Answer)
    requires Runs(w, c, Starting) && w.calls[c].request.Reject?
    requires w.calls[c].request.incidentId in w.incidents
    requires var p := w.calls[c].request.planId; p in w.rows ==> w.rows[p].snapshot.status == w.rows[p].status
    ensures var r := w.calls[c].request;
      Next(Goto(w, c, Loading), Resume(c, answer))
        == Goto(w, c, if Waiting(w, r) then Claiming(w.rows[r.planId].snapshot, Decided(w.rows[r.planId].snapshot, r, answer.now))
                      else Raised(false))
  {
    var u := Goto(w, c, Loading);
    var v := Next(u, Resume(c, answer));
    assert forall phase :: Goto(u, c, phase).calls == Goto(w, c, phase).calls;
  }

  lemma RejectionClaims(w: World, c: Id, read: Plan, decision: Plan, answer: Answer)
    requires Runs(w, c, Starting) && w.calls[c].request.Reject? && CanTransition(w.rows, decision, Proposed)
    ensures Wrote(w, Next(Goto(w, c, Claiming(read, decision)), Resume(c, answer)), c, decision)
  {
  }

  /** A rejection is recorded if and only if the plan waits for a decision and belongs to the incident. */
  lemma RejectionAlone(w: World, c: Id, answer: Answer) returns (v: World)
    requires Reachable(w) && Runs(w, c, Starting) && w.calls[c].request.Reject?
    ensures v == Run(w, Alone(c, answer, 3))
    ensures var r := w.calls[c].request;
      if Waiting(w, r) then Wrote(w, v, c, Decided(w.rows[r.planId].snapshot, r, answer.now)) else TurnedDown(w, v, c)
  {
    var r, u := w.calls[c].request, Next(w, Resume(c, answer));
    var t := Next(u, Resume(c, answer));
    v := Next(t, Resume(c, answer));
    RunNone(w, c, answer);
    RunOne(w, c, answer, 0);
    RunOne(w, c, answer, 1);
    RunOne(w, c, answer, 2);
    if r.planId in w.rows { StatusTellsHistory(w, r.planId); }
    RejectionStarts(w, c, answer);
    Refused(w, c, answer);
    if r.incidentId in w.incidents {
      RejectionLoads(w, c, answer);
      if Waiting(w, r) {
        var read := w.rows[r.planId].snapshot;
        RejectionClaims(w, c, read, Decided(read, r, answer.now), answer);
      }
    }
  }
}

/** What the workflow guarantees in every run: any number of calls, any interleaving,
    crashes at any point, failing pod listings and failing executors. */
module RemediationSafety {
  import opened Prelude
  import opened Contracts
  import opened RemediationPolicy
  import opened RemediationProtocol

  ghost predicate Reachable(w: World) {
    exists w0, actions :: Initial(w0) && w == Run(w0, actions)
  }

  lemma ReachableInv(w: World)
    requires Reachable(w)
    ensures Inv(w)
  {
    var w0, actions :| Initial(w0) && w == Run(w0, actions);
    RunKeeps(w0, actions);
  }

  lemma {:induction false} RunAppend(w: World, a: seq<Action>, b: seq<Action>)
    ensures Run(w, a + b) == Run(Run(w, a), b)
  {
    if b == [] {
      assert a + b == a;
    } else {
      RunAppend(w, a, b[..|b| - 1]);
      assert (a + b)[..|a + b| - 1] == a + b[..|b| - 1];
    }
  }

  // ---------- at most one restart, never of a rejected plan ----------

  predicate Executed(w: World, p: Id) { exists i :: 0 <= i < |w.executions| && w.executions[i].plan.id == p }

  predicate ReceiptOf(w: World, p: Id, ok: bool) {
    exists i :: 0 <= i < |w.receipts| && w.receipts[i].planId == p && w.receipts[i].succeeded == ok
  }

  lemma AtMostOneRestart(w: World)
    requires Reachable(w)
    ensures forall i, j :: 0 <= i < j < |w.executions| ==> w.executions[i].plan.id != w.executions[j].plan.id
    ensures forall i, j :: 0 <= i < j < |w.receipts| ==> w.receipts[i].planId != w.receipts[j].planId
  {
    ReachableInv(w);
  }

  lemma ExecutionOwned(w: World, i: nat)
    requires Inv(w) && i < |w.executions|
    ensures var p := w.executions[i].plan.id;
      && p in w.owner && p in w.rows && w.owner[p] in w.calls
      && Invoked(w.calls[w.owner[p]].phase)
      && (w.rows[p].status.Executing? || w.rows[p].status.Succeeded? || w.rows[p].status.Failed?)
  {
    var e := w.executions[i];
    assert ExecutionInv(w, e);
    assert CallInv(w, e.callId) && OwnerInv(w, e.plan.id) && RowInv(w, e.plan.id);
  }

  lemma ReceiptOwned(w: World, i: nat)
    requires Inv(w) && i < |w.receipts|
    ensures var p := w.receipts[i].planId;
      && p in w.rows && Executed(w, p)
      && (w.rows[p].status.Executing? || w.rows[p].status == if w.receipts[i].succeeded then Succeeded else Failed)
  {
    var r := w.receipts[i];
    assert ReceiptInv(w, r) && OwnerInv(w, r.planId) && RowInv(w, r.planId);
    var c := w.owner[r.planId];
    assert CallInv(w, c);
    assert Invoked(w.calls[c].phase);
    var j :| 0 <= j < |w.executions| && w.executions[j].callId == c;
    assert ExecutionInv(w, w.executions[j]);
    assert CallInv(w, c) && OwnerInv(w, w.executions[j].plan.id);
  }

  lemma OwnerReturned(w: World, p: Id)
    requires Inv(w) && p in w.rows && p in w.owner && OwnerInv(w, p) && RowInv(w, p)
    requires w.rows[p].status.Succeeded? || (w.rows[p].status.Failed? && Executed(w, p))
    ensures ReceiptOf(w, p, w.rows[p].status.Succeeded?)
  {
    var c := w.owner[p];
    assert CallInv(w, c);
    if w.rows[p].status.Failed? {
      var i :| 0 <= i < |w.executions| && w.executions[i].plan.id == p;
      ExecutionOwned(w, i);
    }
    assert Receipted(w.calls[c].phase, w.rows[p].status.Succeeded?);
  }

  /** The status column tells what happened to a plan: nothing was executed before
      EXECUTING or after a rejection, SUCCEEDED means one receipt and it says so, and
      a plan that failed after it was executed has one receipt and it says that. */
  lemma StatusTellsHistory(w: World, p: Id)
    requires Reachable(w) && p in w.rows
    ensures w.rows[p].status == w.rows[p].snapshot.status && w.rows[p].snapshot.id == p
    ensures Executed(w, p) ==> w.rows[p].status.Executing? || w.rows[p].status.Succeeded? || w.rows[p].status.Failed?
    ensures w.rows[p].status.Succeeded? <==> ReceiptOf(w, p, true) && !w.rows[p].status.Executing?
    ensures w.rows[p].status.Failed? && Executed(w, p) <==> ReceiptOf(w, p, false) && !w.rows[p].status.Executing?
    ensures ReceiptOf(w, p, true) || ReceiptOf(w, p, false) ==> Executed(w, p)
    ensures !(ReceiptOf(w, p, true) && ReceiptOf(w, p, false))
  {
    ReachableInv(w);
    assert RowInv(w, p);
    if Executed(w, p) {
      var i :| 0 <= i < |w.executions| && w.executions[i].plan.id == p;
      ExecutionOwned(w, i);
    }
    if w.rows[p].status.Succeeded? || (w.rows[p].status.Failed? && Executed(w, p)) {
      assert OwnerInv(w, p);
      OwnerReturned(w, p);
    }
    forall ok | ReceiptOf(w, p, ok)
      ensures Executed(w, p)
      ensures w.rows[p].status.Executing? || w.rows[p].status == if ok then Succeeded else Failed
    {
      var i :| 0 <= i < |w.receipts| && w.receipts[i].planId == p && w.receipts[i].succeeded == ok;
      ReceiptOwned(w, i);
    }
    AtMostOneRestart(w);
    if ReceiptOf(w, p, true) {
      var i :| 0 <= i < |w.receipts| && w.receipts[i].planId == p && w.receipts[i].succeeded;
      forall j | 0 <= j < |w.receipts| && w.receipts[j].planId == p ensures w.receipts[j].succeeded {
        assert !(i < j) && !(j < i);
      }
    }
  }

  lemma RejectedNeverRestarted(w: World, p: Id)
    requires Reachable(w) && p in w.rows && w.rows[p].status.Rejected?
    ensures !Executed(w, p)
  {
    StatusTellsHistory(w, p);
  }

  // ---------- every restart was warranted ----------

  lemma EveryRestartWarranted(w: World, i: nat)
    requires Reachable(w) && i < |w.executions|
    ensures var e := w.executions[i];
      && e.plan.actionType == RestartPod && e.plan.riskLevel == Low
      && e.pod.Some? && Warranted(w.allowed, e.plan, e.investigation, e.pod.value)
      && e.investigation.id == e.plan.investigationId
      && e.callId in w.calls && w.calls[e.callId].request.Approve?
      && e.plan.decidedBy == Some(w.calls[e.callId].request.actor)
      && e.plan.id in w.rows && SameIdentity(e.plan, w.rows[e.plan.id].snapshot)
  {
    ReachableInv(w);
    assert ExecutionInv(w, w.executions[i]);
  }

  // ---------- no lost update, no failing second claim ----------

  /** When a claim is won, the stored snapshot is the one the decision was taken on. */
  lemma ClaimSeesItsSnapshot(w: World, c: Id)
    requires Reachable(w) && c in w.calls && w.calls[c].phase.Claiming?
    requires CanTransition(w.rows, w.calls[c].phase.decision, Proposed)
    ensures w.rows[w.calls[c].phase.decision.id].snapshot == w.calls[c].phase.read
    ensures w.calls[c].phase.decision.id !in w.owner
  {
    ReachableInv(w);
    assert CallInv(w, c);
    assert RowInv(w, w.calls[c].phase.decision.id);
  }

  lemma SecondClaimNeverFails(w: World, c: Id)
    requires Reachable(w) && c in w.calls && w.calls[c].phase.ClaimingExecution?
    ensures CanTransition(w.rows, w.calls[c].phase.executing, Approved)
  {
    ReachableInv(w);
    ClaimExecutionKeeps(w, c, w.calls[c].phase.executing, w.calls[c].phase.investigation, w.calls[c].phase.pod);
  }

  /** At most one call is ever past the approval claim of a plan. */
  lemma OneOwner(w: World, c: Id, d: Id)
    requires Reachable(w) && c in w.calls && d in w.calls
    requires Owning(w.calls[c].phase) && Owning(w.calls[d].phase)
    requires w.calls[c].request.Approve? && w.calls[d].request.Approve?
    requires w.calls[c].request.planId == w.calls[d].request.planId
    ensures c == d
  {
    ReachableInv(w);
    assert CallInv(w, c) && CallInv(w, d);
  }

  // ---------- writes only climb ----------

  predicate Climbs(old_: Row, new_: Row) {
    && SameIdentity(old_.snapshot, new_.snapshot)
    && (new_ == old_ || Height(new_.status) > Height(old_.status))
  }

  lemma {:induction false} ClimbTransitive(a: Row, b: Row, c: Row)
    requires Climbs(a, b) && Climbs(b, c)
    ensures Climbs(a, c)
  {
  }

  lemma QuietClimbs(w: World, c: Id, answer: Answer, p: Id)
    requires c in w.calls && p in w.rows && !w.calls[c].phase.Claiming?
    requires !w.calls[c].phase.GivingUp? && !w.calls[c].phase.ClaimingExecution? && !w.calls[c].phase.Finishing?
    ensures p in Step(w, c, answer).rows && Step(w, c, answer).rows[p] == w.rows[p]
  {
  }

  lemma OwnerClimbs(w: World, c: Id, answer: Answer, p: Id)
    requires c in w.calls && p in w.rows && RowInv(w, p) && CallInv(w, c)
    requires w.calls[c].phase.GivingUp? || w.calls[c].phase.ClaimingExecution? || w.calls[c].phase.Finishing?
    requires RowInv(w, w.calls[c].request.planId)
    ensures p in Step(w, c, answer).rows && Climbs(w.rows[p], Step(w, c, answer).rows[p])
  {
  }

  lemma ClaimClimbs(w: World, c: Id, decision: Plan, p: Id)
    requires c in w.calls && p in w.rows && RowInv(w, p)
    requires w.calls[c].phase.Claiming? && w.calls[c].phase.decision == decision && CallInv(w, c)
    ensures p in Claim(w, c, w.calls[c].request, decision).rows
    ensures Climbs(w.rows[p], Claim(w, c, w.calls[c].request, decision).rows[p])
  {
  }

  lemma StepClimbs(w: World, c: Id, answer: Answer, p: Id)
    requires Inv(w) && c in w.calls && p in w.rows
    ensures p in Step(w, c, answer).rows && Climbs(w.rows[p], Step(w, c, answer).rows[p])
  {
    assert CallInv(w, c) && RowInv(w, p);
    var phase := w.calls[c].phase;
    if phase.Claiming? {
      ClaimClimbs(w, c, phase.decision, p);
    } else if phase.GivingUp? || phase.ClaimingExecution? || phase.Finishing? {
      assert RowInv(w, w.calls[c].request.planId);
      OwnerClimbs(w, c, answer, p);
    } else {
      QuietClimbs(w, c, answer, p);
    }
  }

  /** One action either leaves a row alone or raises its status, and never touches
      what the plan is about. */
  lemma NextClimbs(w: World, a: Action, p: Id)
    requires Inv(w) && p in w.rows
    ensures p in Next(w, a).rows && Climbs(w.rows[p], Next(w, a).rows[p])
  {
    if a.Resume? && a.c in w.calls && w.calls[a.c].alive {
      StepClimbs(w, a.c, a.answer, p);
    }
  }

  /** The two unguarded updates always hit their own row, and always raise it. */
  lemma BlindWritesClimb(w: World, c: Id, answer: Answer)
    requires Reachable(w) && c in w.calls && (w.calls[c].phase.GivingUp? || w.calls[c].phase.Finishing?)
    ensures w.calls[c].request.Approve?
    ensures var p := w.calls[c].request.planId;
      && p in w.rows && p in w.owner && w.owner[p] == c
      && Height(Step(w, c, answer).rows[p].status) > Height(w.rows[p].status)
      && forall q :: q in w.rows && q != p ==> Step(w, c, answer).rows[q] == w.rows[q]
  {
    ReachableInv(w);
    assert CallInv(w, c) && RowInv(w, w.calls[c].request.planId);
  }

  lemma {:induction false} RunClimbs(w: World, actions: seq<Action>, p: Id)
    requires Inv(w) && p in w.rows
    ensures p in Run(w, actions).rows && Climbs(w.rows[p], Run(w, actions).rows[p])
  {
    if actions != [] {
      var before := actions[..|actions| - 1];
      RunClimbs(w, before, p);
      RunKeeps(w, before);
      NextClimbs(Run(w, before), actions[|actions| - 1], p);
      ClimbTransitive(w.rows[p], Run(w, before).rows[p], Run(w, actions).rows[p]);
    }
  }

  /** A decided-for-good plan never changes again, and what a plan is about never does:
      compare any two moments of any run. */
  lemma FinalForever(w0: World, before: seq<Action>, after: seq<Action>, p: Id)
    requires Initial(w0) && p in Run(w0, before).rows
    ensures p in Run(w0, before + after).rows
    ensures SameIdentity(Run(w0, before).rows[p].snapshot, Run(w0, before + after).rows[p].snapshot)
    ensures Final(Run(w0, before).rows[p].status) ==> Run(w0, before + after).rows[p] == Run(w0, before).rows[p]
  {
    RunAppend(w0, before, after);
    RunKeeps(w0, before);
    RunClimbs(Run(w0, before), after, p);
  }

  /** Once rejected, a plan is never restarted, however the run goes on. */
  lemma RejectionStands(w0: World, before: seq<Action>, after: seq<Action>, p: Id)
    requires Initial(w0) && p in Run(w0, before).rows && Run(w0, before).rows[p].status.Rejected?
    ensures !Executed(Run(w0, before + after), p)
  {
    FinalForever(w0, before, after, p);
    RejectedNeverRestarted(Run(w0, before + after), p);
  }

  // ---------- when a plan is stranded ----------

  /** Every call has returned, raised or crashed. */
  predicate Quiescent(w: World) {
    forall c :: c in w.calls && w.calls[c].alive ==> w.calls[c].phase.Returned? || w.calls[c].phase.Raised?
  }

  predicate CrashedOwner(w: World, c: Id, p: Id) {
    && c in w.calls && !w.calls[c].alive
    && w.calls[c].request.Approve? && w.calls[c].request.planId == p
    && Owning(w.calls[c].phase) && !w.calls[c].phase.Returned? && !w.calls[c].phase.Raised?
  }

  /** Approved plans need not finish, and this is exactly when they do not: the
      approving call crashed between winning the claim and its last write. */
  lemma StrandedIff(w: World, p: Id)
    requires Reachable(w) && Quiescent(w) && p in w.rows
    ensures w.rows[p].status.Approved? || w.rows[p].status.Executing? <==> exists c :: CrashedOwner(w, c, p)
  {
    ReachableInv(w);
    assert RowInv(w, p);
    if w.rows[p].status.Approved? || w.rows[p].status.Executing? {
      assert OwnerInv(w, p);
      assert CallInv(w, w.owner[p]);
      assert CrashedOwner(w, w.owner[p], p);
    }
    if c :| CrashedOwner(w, c, p) {
      assert CallInv(w, c);
    }
  }
}

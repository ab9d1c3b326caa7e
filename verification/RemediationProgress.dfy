/** What an approval does when nobody interferes: exactly when it restarts the pod, and
    where it leaves the plan otherwise. */
module RemediationProgress {
  import opened Prelude
  import opened Contracts
  import opened RemediationPolicy
  import opened RemediationProtocol
  import opened RemediationSafety

  /** Call `c` runs `n` segments in a row. */
  function Alone(c: Id, answer: Answer, n: nat): (actions: seq<Action>)
    ensures |actions| == n
  {
    if n == 0 then [] else Alone(c, answer, n - 1) + [Resume(c, answer)]
  }

  /** Running `c` alone leads from `w` to `v`. */
  ghost predicate Leads(w: World, c: Id, answer: Answer, v: World) {
    exists n: nat :: Run(w, Alone(c, answer, n)) == v
  }

  lemma {:induction false} AloneAdds(c: Id, answer: Answer, m: nat, n: nat)
    ensures Alone(c, answer, m + n) == Alone(c, answer, m) + Alone(c, answer, n)
  {
    if n > 0 {
      AloneAdds(c, answer, m, n - 1);
    }
  }

  lemma LeadsOn(u: World, w: World, v: World, c: Id, answer: Answer)
    requires Leads(u, c, answer, w) && Leads(w, c, answer, v)
    ensures Leads(u, c, answer, v)
  {
    var m: nat :| Run(u, Alone(c, answer, m)) == w;
    var n: nat :| Run(w, Alone(c, answer, n)) == v;
    AloneAdds(c, answer, m, n);
    RunAppend(u, Alone(c, answer, m), Alone(c, answer, n));
    assert Run(u, Alone(c, answer, m + n)) == v;
  }

  lemma LeadsStep(w: World, v: World, c: Id, answer: Answer)
    requires Next(w, Resume(c, answer)) == v
    ensures Leads(w, c, answer, v)
  {
    var one := Alone(c, answer, 1);
    assert one[0] == Resume(c, answer) && one[..0] == [];
    assert Run(w, one) == v;
  }

  // ---------- single segments ----------

  ghost predicate At(w: World, c: Id, phase: Phase) {
    c in w.calls && w.calls[c].alive && w.calls[c].request.Approve? && w.calls[c].phase == phase
  }

  /** The approval will win its claim. */
  predicate Claimable(w: World, r: Request)
    requires !r.Propose?
  {
    r.incidentId in w.incidents && Decidable(w.rows, r)
  }

  lemma FromStarting(w: World, c: Id, answer: Answer)
    requires At(w, c, Starting)
    ensures w.calls[c].request.incidentId in w.incidents ==> Leads(w, c, answer, Goto(w, c, Loading))
    ensures w.calls[c].request.incidentId !in w.incidents ==> Leads(w, c, answer, Goto(w, c, Raised(false)))
  {
    LeadsStep(w, Next(w, Resume(c, answer)), c, answer);
  }

  lemma FromLoading(w: World, c: Id, answer: Answer)
    requires At(w, c, Loading)
    ensures var r := w.calls[c].request;
      && (!Decidable(w.rows, r) ==> Leads(w, c, answer, Goto(w, c, Raised(false))))
      && (Decidable(w.rows, r) ==>
            var read := w.rows[r.planId].snapshot;
            Leads(w, c, answer, Goto(w, c, Claiming(read, Decided(read, r, answer.now)))))
  {
    LeadsStep(w, Next(w, Resume(c, answer)), c, answer);
  }

  lemma FromClaiming(w: World, c: Id, read: Plan, decision: Plan, answer: Answer)
    requires At(w, c, Claiming(read, decision)) && CanTransition(w.rows, decision, Proposed)
    ensures Leads(w, c, answer, Goto(w.(rows := w.rows[decision.id := Written(decision)], owner := w.owner[decision.id := c]), c,
                                     ReadingInvestigation(decision)))
  {
    LeadsStep(w, Next(w, Resume(c, answer)), c, answer);
  }

  lemma FromReading(w: World, c: Id, approved: Plan, answer: Answer)
    requires At(w, c, ReadingInvestigation(approved))
    ensures var i := w.calls[c].request.incidentId;
      if i in w.investigations && w.investigations[i].id == approved.investigationId
      then Leads(w, c, answer, Goto(w, c, ListingPods(approved, w.investigations[i])))
      else Leads(w, c, answer, Goto(w, c, GivingUp(approved.(status := Failed))))
  {
    LeadsStep(w, Next(w, Resume(c, answer)), c, answer);
  }

  function Rechecked(w: World, approved: Plan, investigation: Investigation, pod: Option<Pod>, status: Status): Plan {
    approved.(checks := EvaluateExecution(w.allowed, approved, investigation, pod), status := status)
  }

  lemma FromListing(w: World, c: Id, approved: Plan, investigation: Investigation, answer: Answer)
    requires At(w, c, ListingPods(approved, investigation))
    ensures answer.pods.None? ==> Leads(w, c, answer, Goto(w, c, GivingUp(approved.(status := Failed))))
    ensures answer.pods.Some? ==>
      var pod := FindPod(answer.pods.value, approved.target);
      if pod.Some? && Warranted(w.allowed, approved, investigation, pod.value)
      then Leads(w, c, answer, Goto(w, c, ClaimingExecution(Rechecked(w, approved, investigation, pod, Executing), investigation, pod)))
      else Leads(w, c, answer, Goto(w, c, GivingUp(Rechecked(w, approved, investigation, pod, Failed))))
  {
    LeadsStep(w, Next(w, Resume(c, answer)), c, answer);
    if answer.pods.Some? {
      ExecutionAllowedIff(w.allowed, approved, investigation, FindPod(answer.pods.value, approved.target));
    }
  }

  lemma FromGivingUp(w: World, c: Id, failed: Plan, answer: Answer)
    requires At(w, c, GivingUp(failed)) && failed.id in w.rows
    ensures Leads(w, c, answer, Goto(w.(rows := w.rows[failed.id := Written(failed)]), c, Raised(true)))
  {
    LeadsStep(w, Next(w, Resume(c, answer)), c, answer);
  }

  lemma FromClaimingExecution(w: World, c: Id, executing: Plan, investigation: Investigation, pod: Option<Pod>, answer: Answer)
    requires At(w, c, ClaimingExecution(executing, investigation, pod)) && CanTransition(w.rows, executing, Approved)
    ensures Leads(w, c, answer, Goto(w.(rows := w.rows[executing.id := Written(executing)]), c, Calling(executing, investigation, pod)))
  {
    LeadsStep(w, Next(w, Resume(c, answer)), c, answer);
  }

  lemma FromCalling(w: World, c: Id, executing: Plan, investigation: Investigation, pod: Option<Pod>, answer: Answer)
    requires At(w, c, Calling(executing, investigation, pod))
    ensures Leads(w, c, answer, Goto(w.(executions := w.executions + [Execution(c, executing, investigation, pod)]), c, Awaiting(executing)))
  {
    LeadsStep(w, Next(w, Resume(c, answer)), c, answer);
  }

  lemma FromAwaiting(w: World, c: Id, executing: Plan, answer: Answer)
    requires At(w, c, Awaiting(executing))
    ensures Leads(w, c, answer, Goto(w, c, SavingReceipt(executing, answer.executed)))
  {
    LeadsStep(w, Next(w, Resume(c, answer)), c, answer);
  }

  lemma FromSaving(w: World, c: Id, executing: Plan, ok: bool, answer: Answer)
    requires At(w, c, SavingReceipt(executing, ok))
    ensures Leads(w, c, answer, Goto(w.(receipts := w.receipts + [ReceiptFor(executing, w.calls[c].request.incidentId, ok)]), c,
                                     Finishing(executing, ok)))
  {
    LeadsStep(w, Next(w, Resume(c, answer)), c, answer);
  }

  lemma FromFinishing(w: World, c: Id, executing: Plan, ok: bool, answer: Answer)
    requires At(w, c, Finishing(executing, ok)) && executing.id in w.rows
    ensures var final := executing.(status := if ok then Succeeded else Failed);
      Leads(w, c, answer, Goto(w.(rows := w.rows[executing.id := Written(final)]), c, Returned(final)))
  {
    LeadsStep(w, Next(w, Resume(c, answer)), c, answer);
  }

  // ---------- the claim ----------

  function Approval(w: World, r: Request, answer: Answer): Plan
    requires r.Approve? && r.planId in w.rows
  {
    Decided(w.rows[r.planId].snapshot, r, answer.now)
  }

  /** The world right after the claim was won. */
  function Won(w: World, c: Id, approved: Plan): World
    requires c in w.calls
  {
    Goto(w.(rows := w.rows[approved.id := Written(approved)], owner := w.owner[approved.id := c]), c, ReadingInvestigation(approved))
  }

  lemma Regoto(w: World, c: Id, a: Phase, b: Phase)
    requires c in w.calls
    ensures Goto(Goto(w, c, a), c, b) == Goto(w, c, b)
  {
    assert Goto(Goto(w, c, a), c, b).calls == Goto(w, c, b).calls;
  }

  /** An approval that cannot win its claim raises and changes nothing. */
  lemma RefusedAlone(w: World, c: Id, answer: Answer)
    requires At(w, c, Starting) && !Claimable(w, w.calls[c].request)
    ensures Leads(w, c, answer, Goto(w, c, Raised(false)))
  {
    FromStarting(w, c, answer);
    if w.calls[c].request.incidentId in w.incidents {
      var loading := Goto(w, c, Loading);
      FromLoading(loading, c, answer);
      Regoto(w, c, Loading, Raised(false));
      LeadsOn(w, loading, Goto(w, c, Raised(false)), c, answer);
    }
  }

  /** Rows of a reachable table are what their plans say. */
  predicate Filed(w: World, p: Id) {
    p in w.rows ==> w.rows[p].snapshot.id == p && w.rows[p].status == w.rows[p].snapshot.status
  }

  lemma LoadedAlone(w: World, c: Id, answer: Answer)
    requires At(w, c, Starting) && Claimable(w, w.calls[c].request)
    ensures var r := w.calls[c].request;
      Leads(w, c, answer, Goto(w, c, Claiming(w.rows[r.planId].snapshot, Approval(w, r, answer))))
  {
    var r := w.calls[c].request;
    var claiming := Claiming(w.rows[r.planId].snapshot, Approval(w, r, answer));
    FromStarting(w, c, answer);
    FromLoading(Goto(w, c, Loading), c, answer);
    Regoto(w, c, Loading, claiming);
    LeadsOn(w, Goto(w, c, Loading), Goto(w, c, claiming), c, answer);
  }

  lemma ClaimedAlone(w: World, c: Id, answer: Answer)
    requires At(w, c, Starting) && Claimable(w, w.calls[c].request) && Filed(w, w.calls[c].request.planId)
    ensures Leads(w, c, answer, Won(w, c, Approval(w, w.calls[c].request, answer)))
  {
    var r := w.calls[c].request;
    var read, approved := w.rows[r.planId].snapshot, Approval(w, r, answer);
    var claiming, won := Goto(w, c, Claiming(read, approved)), Won(w, c, approved);
    LoadedAlone(w, c, answer);
    FromClaiming(claiming, c, read, approved, answer);
    assert Won(claiming, c, approved).calls == won.calls;
    LeadsOn(w, claiming, won, c, answer);
  }

  // ---------- the revalidation ----------

  /** The diagnosis is still the latest one, the pod is listed, and everything about them
      is as promised. */
  ghost predicate Sound(w: World, approved: Plan, incident: Id, answer: Answer) {
    && incident in w.investigations && w.investigations[incident].id == approved.investigationId
    && answer.pods.Some? && FindPod(answer.pods.value, approved.target).Some?
    && Warranted(w.allowed, approved, w.investigations[incident], FindPod(answer.pods.value, approved.target).value)
  }

  lemma RecordedFailure(w: World, c: Id, approved: Plan, failed: Plan, answer: Answer)
    requires At(w, c, ReadingInvestigation(approved)) && approved.id in w.rows && failed.id == approved.id
    requires Leads(w, c, answer, Goto(w, c, GivingUp(failed)))
    ensures Leads(w, c, answer, Goto(w.(rows := w.rows[approved.id := Written(failed)]), c, Raised(true)))
  {
    var giving := Goto(w, c, GivingUp(failed));
    var v := Goto(w.(rows := w.rows[approved.id := Written(failed)]), c, Raised(true));
    FromGivingUp(giving, c, failed, answer);
    assert Goto(giving.(rows := giving.rows[failed.id := Written(failed)]), c, Raised(true)).calls == v.calls;
    LeadsOn(w, giving, v, c, answer);
  }

  /** An approved plan that is no longer sound is recorded as failed, and the call raises. */
  lemma FailedAlone(w: World, c: Id, approved: Plan, answer: Answer) returns (failed: Plan)
    requires At(w, c, ReadingInvestigation(approved)) && approved.id in w.rows
    requires !Sound(w, approved, w.calls[c].request.incidentId, answer)
    ensures failed == approved.(status := Failed, checks := failed.checks)
    ensures Leads(w, c, answer, Goto(w.(rows := w.rows[approved.id := Written(failed)]), c, Raised(true)))
  {
    var i := w.calls[c].request.incidentId;
    FromReading(w, c, approved, answer);
    failed := approved.(status := Failed);
    if i in w.investigations && w.investigations[i].id == approved.investigationId {
      var listing := Goto(w, c, ListingPods(approved, w.investigations[i]));
      FromListing(listing, c, approved, w.investigations[i], answer);
      if answer.pods.Some? {
        failed := Rechecked(w, approved, w.investigations[i], FindPod(answer.pods.value, approved.target), Failed);
      }
      Regoto(w, c, ListingPods(approved, w.investigations[i]), GivingUp(failed));
      LeadsOn(w, listing, Goto(w, c, GivingUp(failed)), c, answer);
    }
    RecordedFailure(w, c, approved, failed, answer);
  }

  // ---------- the execution ----------

  function ObservedPod(approved: Plan, answer: Answer): Option<Pod>
    requires answer.pods.Some?
  {
    FindPod(answer.pods.value, approved.target)
  }

  /** What is handed to the executor. */
  function Handed(w: World, approved: Plan, incident: Id, answer: Answer): Plan
    requires incident in w.investigations && answer.pods.Some?
  {
    Rechecked(w, approved, w.investigations[incident], ObservedPod(approved, answer), Executing)
  }

  lemma RevalidatedAlone(w: World, c: Id, approved: Plan, answer: Answer)
    requires At(w, c, ReadingInvestigation(approved)) && CanTransition(w.rows, approved, Approved)
    requires Sound(w, approved, w.calls[c].request.incidentId, answer)
    ensures var i := w.calls[c].request.incidentId;
      var executing := Handed(w, approved, i, answer);
      Leads(w, c, answer, Goto(w.(rows := w.rows[approved.id := Written(executing)]), c,
                               Calling(executing, w.investigations[i], ObservedPod(approved, answer))))
  {
    var i := w.calls[c].request.incidentId;
    var inv, pod, executing := w.investigations[i], ObservedPod(approved, answer), Handed(w, approved, i, answer);
    var listing, claiming := Goto(w, c, ListingPods(approved, inv)), Goto(w, c, ClaimingExecution(executing, inv, pod));
    FromReading(w, c, approved, answer);
    FromListing(listing, c, approved, inv, answer);
    Regoto(w, c, ListingPods(approved, inv), ClaimingExecution(executing, inv, pod));
    LeadsOn(w, listing, claiming, c, answer);
    FromClaimingExecution(claiming, c, executing, inv, pod, answer);
    var v := Goto(w.(rows := w.rows[approved.id := Written(executing)]), c, Calling(executing, inv, pod));
    assert Goto(claiming.(rows := claiming.rows[executing.id := Written(executing)]), c, Calling(executing, inv, pod)).calls == v.calls;
    LeadsOn(w, claiming, v, c, answer);
  }

  /** The world after an execution was made, recorded and finished. */
  function AfterExecution(w: World, c: Id, executing: Plan, investigation: Investigation, pod: Option<Pod>, ok: bool): World
    requires c in w.calls
  {
    var final := executing.(status := if ok then Succeeded else Failed);
    Goto(w.(executions := w.executions + [Execution(c, executing, investigation, pod)],
            receipts := w.receipts + [ReceiptFor(executing, w.calls[c].request.incidentId, ok)],
            rows := w.rows[executing.id := Written(final)]), c, Returned(final))
  }

  lemma SavedAlone(w: World, saving: World, c: Id, executing: Plan, ok: bool, answer: Answer)
    requires c in w.calls && saving == Goto(w, c, SavingReceipt(executing, ok)) && At(saving, c, SavingReceipt(executing, ok))
    requires executing.id in w.rows
    ensures var final := executing.(status := if ok then Succeeded else Failed);
      Leads(saving, c, answer, Goto(w.(receipts := w.receipts + [ReceiptFor(executing, w.calls[c].request.incidentId, ok)],
                                      rows := w.rows[executing.id := Written(final)]), c, Returned(final)))
  {
    var final := executing.(status := if ok then Succeeded else Failed);
    var saved := w.(receipts := w.receipts + [ReceiptFor(executing, w.calls[c].request.incidentId, ok)]);
    var finishing := Goto(saved, c, Finishing(executing, ok));
    FromSaving(saving, c, executing, ok, answer);
    assert Goto(saving.(receipts := saved.receipts), c, Finishing(executing, ok)).calls == finishing.calls;
    FromFinishing(finishing, c, executing, ok, answer);
    var done := Goto(saved.(rows := saved.rows[executing.id := Written(final)]), c, Returned(final));
    assert Goto(finishing.(rows := done.rows), c, Returned(final)).calls == done.calls;
    LeadsOn(saving, finishing, done, c, answer);
  }

  lemma CalledAlone(w: World, c: Id, executing: Plan, investigation: Investigation, pod: Option<Pod>, answer: Answer)
    requires At(w, c, Calling(executing, investigation, pod)) && executing.id in w.rows
    ensures Leads(w, c, answer, AfterExecution(w, c, executing, investigation, pod, answer.executed))
  {
    var ok := answer.executed;
    var called := w.(executions := w.executions + [Execution(c, executing, investigation, pod)]);
    var awaiting, saving := Goto(called, c, Awaiting(executing)), Goto(called, c, SavingReceipt(executing, ok));
    FromCalling(w, c, executing, investigation, pod, answer);
    FromAwaiting(awaiting, c, executing, answer);
    Regoto(called, c, Awaiting(executing), SavingReceipt(executing, ok));
    LeadsOn(w, awaiting, saving, c, answer);
    SavedAlone(called, saving, c, executing, ok, answer);
    LeadsOn(w, saving, AfterExecution(w, c, executing, investigation, pod, ok), c, answer);
  }

  // ---------- the whole call ----------

  lemma ExecutedAlone(w: World, c: Id, approved: Plan, answer: Answer) returns (v: World)
    requires At(w, c, ReadingInvestigation(approved)) && CanTransition(w.rows, approved, Approved)
    requires Sound(w, approved, w.calls[c].request.incidentId, answer)
    ensures Leads(w, c, answer, v)
    ensures var i := w.calls[c].request.incidentId;
      v.executions == w.executions + [Execution(c, Handed(w, approved, i, answer), w.investigations[i], ObservedPod(approved, answer))]
    ensures w.executions <= v.executions && SameIdentity(v.executions[|w.executions|].plan, approved)
    ensures v.receipts == w.receipts + [ReceiptFor(approved, w.calls[c].request.incidentId, answer.executed)]
    ensures approved.id in v.rows && v.rows[approved.id].status == if answer.executed then Succeeded else Failed
    ensures forall p :: p in w.rows && p != approved.id ==> p in v.rows && v.rows[p] == w.rows[p]
    ensures c in v.calls && v.calls[c].phase.Returned?
  {
    var i := w.calls[c].request.incidentId;
    var inv, pod, executing := w.investigations[i], ObservedPod(approved, answer), Handed(w, approved, i, answer);
    var calling := Goto(w.(rows := w.rows[approved.id := Written(executing)]), c, Calling(executing, inv, pod));
    RevalidatedAlone(w, c, approved, answer);
    CalledAlone(calling, c, executing, inv, pod, answer);
    v := AfterExecution(calling, c, executing, inv, pod, answer.executed);
    LeadsOn(w, calling, v, c, answer);
  }

  /** `v` is `w` after `c` raised without a trace. */
  predicate Refused(w: World, v: World, c: Id) {
    c in w.calls && v == Goto(w, c, Raised(false))
  }

  /** Nothing was executed, and the plan ended FAILED. */
  predicate Abandoned(w: World, v: World, c: Id, p: Id) {
    && c in v.calls && v.calls[c].phase.Raised?
    && v.executions == w.executions && v.receipts == w.receipts
    && p in v.rows && v.rows[p].status == Failed
  }

  /** One execution of the plan and one receipt were added, and the plan ended as the
      executor said. */
  predicate Restarted(w: World, v: World, c: Id, approved: Plan, incident: Id, ok: bool) {
    && c in v.calls && v.calls[c].phase.Returned?
    && |v.executions| == |w.executions| + 1 && w.executions <= v.executions
    && v.executions[|w.executions|].callId == c && SameIdentity(v.executions[|w.executions|].plan, approved)
    && v.receipts == w.receipts + [ReceiptFor(approved, incident, ok)]
    && approved.id in v.rows && v.rows[approved.id].status == if ok then Succeeded else Failed
  }

  predicate OthersKept(w: World, v: World, p: Id) {
    forall q :: q in w.rows && q != p ==> q in v.rows && v.rows[q] == w.rows[q]
  }

  lemma AbandonedAlone(w: World, c: Id, answer: Answer) returns (v: World)
    requires At(w, c, Starting) && Claimable(w, w.calls[c].request) && Filed(w, w.calls[c].request.planId)
    requires !Sound(w, Approval(w, w.calls[c].request, answer), w.calls[c].request.incidentId, answer)
    ensures Leads(w, c, answer, v)
    ensures Abandoned(w, v, c, w.calls[c].request.planId) && OthersKept(w, v, w.calls[c].request.planId)
  {
    var approved := Approval(w, w.calls[c].request, answer);
    var won := Won(w, c, approved);
    ClaimedAlone(w, c, answer);
    var failed := FailedAlone(won, c, approved, answer);
    v := Goto(won.(rows := won.rows[approved.id := Written(failed)]), c, Raised(true));
    LeadsOn(w, won, v, c, answer);
  }

  lemma RestartedAlone(w: World, c: Id, answer: Answer) returns (v: World)
    requires At(w, c, Starting) && Claimable(w, w.calls[c].request) && Filed(w, w.calls[c].request.planId)
    requires Sound(w, Approval(w, w.calls[c].request, answer), w.calls[c].request.incidentId, answer)
    ensures Leads(w, c, answer, v)
    ensures var r := w.calls[c].request;
      Restarted(w, v, c, Approval(w, r, answer), r.incidentId, answer.executed) && OthersKept(w, v, r.planId)
  {
    var approved := Approval(w, w.calls[c].request, answer);
    var won := Won(w, c, approved);
    ClaimedAlone(w, c, answer);
    v := ExecutedAlone(won, c, approved, answer);
    LeadsOn(w, won, v, c, answer);
  }

  /** Left alone, an approval restarts the pod exactly when it can be claimed and is sound.
      Otherwise nothing is executed: a plan that was claimed ends FAILED, and one that
      could not be claimed is untouched. */
  lemma ApprovalAlone(w: World, c: Id, answer: Answer) returns (v: World)
    requires Reachable(w) && At(w, c, Starting)
    ensures Leads(w, c, answer, v)
    ensures var r := w.calls[c].request;
      && OthersKept(w, v, r.planId)
      && if !Claimable(w, r) then Refused(w, v, c)
         else if Sound(w, Approval(w, r, answer), r.incidentId, answer)
         then Restarted(w, v, c, Approval(w, r, answer), r.incidentId, answer.executed)
         else Abandoned(w, v, c, r.planId)
  {
    var r := w.calls[c].request;
    if !Claimable(w, r) {
      v := Goto(w, c, Raised(false));
      RefusedAlone(w, c, answer);
    } else {
      StatusTellsHistory(w, r.planId);
      if Sound(w, Approval(w, r, answer), r.incidentId, answer) {
        v := RestartedAlone(w, c, answer);
      } else {
        v := AbandonedAlone(w, c, answer);
      }
    }
  }
}

/** The remediation code itself, in the order it is written: a table that is updated in
    place and a service whose calls suspend at every `await`. Whatever the other calls
    do while one is suspended, what it does is a run of the protocol. */
module RemediationService {
  import opened Prelude
  import opened Contracts
  import opened RemediationPolicy
  import opened RemediationProtocol
  import opened RemediationCalls
  import opened RemediationSafety

  class Repository {
    var rows: Table
    var receipts: seq<Receipt>

    constructor ()
      ensures rows == map[] && receipts == []
    {
      rows, receipts := map[], [];
    }

    /** An insert whose primary key must be new. */
    method Create(plan: Plan) returns (inserted: bool)
      modifies this`rows
      ensures inserted <==> plan.id !in old(rows)
      ensures rows == if inserted then RemediationProtocol.Create(old(rows), plan) else old(rows)
    {
      inserted := plan.id !in rows;
      if inserted {
        rows := rows[plan.id := Written(plan)];
      }
    }

    /** A blind write; a missing row stays missing. */
    method Update(plan: Plan)
      modifies this`rows
      ensures rows == RemediationProtocol.Update(old(rows), plan)
    {
      if plan.id in rows {
        rows := rows[plan.id := Written(plan)];
      }
    }

    /** Compare-and-set on the status column. */
    method Transition(plan: Plan, expected: Status) returns (claimed: bool)
      modifies this`rows
      ensures claimed <==> CanTransition(old(rows), plan, expected)
      ensures rows == RemediationProtocol.Transition(old(rows), plan, expected)
    {
      claimed := false;
      if plan.id in rows && rows[plan.id].status == expected {
        rows := rows[plan.id := Written(plan)];
        claimed := true;
      }
    }

    method Get(planId: Id) returns (plan: Option<Plan>)
      ensures plan == if planId in rows then Some(rows[planId].snapshot) else None
    {
      plan := if planId in rows then Some(rows[planId].snapshot) else None;
    }

    method SaveAction(receipt: Receipt)
      modifies this`receipts
      ensures receipts == old(receipts) + [receipt]
    {
      receipts := receipts + [receipt];
    }
  }

  /** From position `from` on, call `c` was submitted and then only resumed with its own answers. */
  predicate OwnPart(trace: seq<Action>, from: nat, c: Id, request: Request, answer: Answer) {
    && from < |trace| && trace[from] == Submit(c, request)
    && forall i :: from < i < |trace| && Mentions(trace[i], c) ==> trace[i] == Resume(c, answer)
  }

  /** What the caller got is what the call's final position says. */
  predicate Delivered(phase: Phase, result: Result<Plan, string>) {
    match result
    case Ok(plan) => phase == Returned(plan)
    case Err(_) => phase.Raised?
  }

  /** The calls, the tables and the outside world one service instance works in.
      `calls` records where each coroutine is suspended; `start` and `trace` are the
      run the instance has gone through so far. */
  class Service {
    const repository: Repository
    const allowed: set<string>
    var incidents: set<Id>
    var investigations: map<Id, Investigation>
    var executions: seq<Execution>
    var calls: map<Id, Call>
    var owner: map<Id, Id>
    ghost var start: World
    ghost var trace: seq<Action>

    ghost function Observed(): World
      reads this, repository
    {
      World(allowed, incidents, investigations, repository.rows, repository.receipts, executions, calls, owner)
    }

    /** What the instance holds is where a run of the protocol has arrived. */
    ghost predicate Valid()
      reads this, repository
    {
      Initial(start) && Observed() == Run(start, trace)
    }

    constructor (allowed: set<string>)
      ensures Valid() && fresh(repository) && this.allowed == allowed
      ensures Initial(Observed())
    {
      this.repository := new Repository();
      this.allowed := allowed;
      incidents, investigations, executions, calls, owner := {}, map[], [], map[], map[];
      start := World(allowed, {}, map[], map[], [], [], map[], map[]);
      trace := [];
    }

    /** Everybody else runs. */
    method Others(gap: seq<Action>)
      requires Valid()
      modifies this, repository
      ensures Valid() && start == old(start) && trace == old(trace) + gap
      ensures Observed() == Run(old(Observed()), gap)
    {
      ghost var here := Observed();
      for i := 0 to |gap|
        invariant Observed() == Run(here, gap[..i])
        invariant start == old(start) && trace == old(trace)
      {
        assert gap[..i + 1][..i] == gap[..i];
        var w := World(allowed, incidents, investigations, repository.rows, repository.receipts, executions, calls, owner);
        var v := Next(w, gap[i]);
        if gap[i].Resume? && gap[i].c in w.calls { StepMovesOnlyCaller(w, gap[i].c, gap[i].answer); }
        incidents, investigations, executions, calls, owner := v.incidents, v.investigations, v.executions, v.calls, v.owner;
        repository.rows, repository.receipts := v.rows, v.receipts;
      }
      assert gap[..|gap|] == gap;
      RunAppend(start, trace, gap);
      trace := trace + gap;
    }

    /** Start call `c`, and let the others run before its first segment. */
    method Begin(c: Id, request: Request, gap: seq<Action>, ghost answer: Answer)
      requires Valid() && c !in calls && Elsewhere(gap, c)
      modifies this, repository
      ensures Valid() && old(trace) <= trace && OwnPart(trace, |old(trace)|, c, request, answer)
      ensures c in calls && calls[c] == Call(request, Starting, true)
    {
      calls := calls[c := Call(request, Starting, true)];
      ghost var a := Submit(c, request);
      trace := trace + [a];
      assert trace[..|trace| - 1] == old(trace);
      ElsewhereKeepsCall(Observed(), gap, c);
      Others(gap);
    }

    /** Call `c` woke up in world `w`, has run one segment and suspends at `phase`;
        the others run. */
    method Await(c: Id, phase: Phase, gap: seq<Action>, ghost answer: Answer, ghost w: World, ghost from: nat)
      requires c in calls && c in w.calls && w.calls[c].alive && Elsewhere(gap, c)
      requires Initial(start) && w == Run(start, trace) && OwnPart(trace, from, c, calls[c].request, answer)
      requires Goto(Observed(), c, phase) == Step(w, c, answer)
      modifies this, repository
      ensures Valid() && old(trace) <= trace && OwnPart(trace, from, c, old(calls[c].request), answer)
      ensures c in calls && calls[c] == old(calls[c]).(phase := phase)
    {
      calls := calls[c := calls[c].(phase := phase)];
      ghost var a := Resume(c, answer);
      trace := trace + [a];
      assert trace[..|trace| - 1] == old(trace);
      assert Observed() == Next(w, a);
      ElsewhereKeepsCall(Observed(), gap, c);
      Others(gap);
    }

    /** The own part of call `c` so far, and where it is suspended. */
    ghost predicate Suspended(c: Id, phase: Phase, request: Request, answer: Answer, from: nat)
      reads this, repository
    {
      && Valid() && OwnPart(trace, from, c, request, answer)
      && c in calls && calls[c] == Call(request, phase, true)
    }

    /** Call `c` raises before it has won a claim. */
    method Refuse(c: Id, ghost answer: Answer, ghost from: nat)
      requires Valid() && c in calls && calls[c].alive && OwnPart(trace, from, c, calls[c].request, answer)
      requires Step(Observed(), c, answer) == Goto(Observed(), c, Raised(false))
      modifies this, repository
      ensures old(trace) <= trace && Suspended(c, Raised(false), old(calls[c].request), answer, from)
    {
      Await(c, Raised(false), [], answer, Observed(), from);
    }

    /** ... because the plan it has just read cannot be decided this way. */
    method RefuseDecision(c: Id, ghost answer: Answer, ghost from: nat)
      requires c in calls && Suspended(c, Loading, calls[c].request, answer, from)
      requires !calls[c].request.Propose? && !Decidable(repository.rows, calls[c].request)
      modifies this, repository
      ensures old(trace) <= trace && Suspended(c, Raised(false), old(calls[c].request), answer, from)
    {
      Refuse(c, answer, from);
    }

    /** `_required_plan`, entered by call `c`. `gaps[k]` is what the other calls do while
        this one is suspended for the k-th time. On success the call has just read the plan. */
    method RequiredPlan(c: Id, request: Request, gaps: seq<seq<Action>>, ghost answer: Answer)
      returns (plan: Result<Plan, string>)
      requires Valid() && c !in calls && !request.Propose?
      requires |gaps| >= 2 && Elsewhere(gaps[0], c) && Elsewhere(gaps[1], c)
      modifies this, repository
      ensures old(trace) <= trace
      ensures plan.Err? ==> Suspended(c, Raised(false), request, answer, |old(trace)|)
      ensures plan.Ok? ==>
        && Suspended(c, Loading, request, answer, |old(trace)|)
        && request.planId in repository.rows && repository.rows[request.planId].snapshot == plan.value
        && plan.value.incidentId == request.incidentId
    {
      ghost var n := |trace|;
      Begin(c, request, gaps[0], answer);
      if request.incidentId !in incidents {
        Refuse(c, answer, n);
        return Err("incident does not exist");
      }
      Await(c, Loading, gaps[1], answer, Observed(), n);
      var stored := repository.Get(request.planId);
      if stored.None? || stored.value.incidentId != request.incidentId {
        Refuse(c, answer, n);
        return Err("remediation plan does not exist for this incident");
      }
      return Ok(stored.value);
    }

    /** Claim the PROPOSED plan with a decision taken on the snapshot just read. */
    method Decide(c: Id, decision: Plan, claimGap: seq<Action>, nextGap: seq<Action>, ghost answer: Answer, ghost from: nat)
      returns (claimed: bool)
      requires c in calls && Suspended(c, Loading, calls[c].request, answer, from)
      requires var r := calls[c].request;
        && !r.Propose? && Decidable(repository.rows, r)
        && decision == Decided(repository.rows[r.planId].snapshot, r, answer.now)
      requires Elsewhere(claimGap, c) && Elsewhere(nextGap, c)
      modifies this, repository
      ensures old(trace) <= trace
      ensures var r := old(calls[c].request);
        Suspended(c, if !claimed then Raised(false) else if r.Approve? then ReadingInvestigation(decision) else Returned(decision),
                  r, answer, from)
    {
      Await(c, Claiming(repository.rows[calls[c].request.planId].snapshot, decision), claimGap, answer, Observed(), from);
      ghost var w := Observed();
      claimed := repository.Transition(decision, Proposed);
      if !claimed {
        Refuse(c, answer, from);
      } else if calls[c].request.Approve? {
        owner := owner[decision.id := c];
        Await(c, ReadingInvestigation(decision), nextGap, answer, w, from);
      } else {
        Await(c, Returned(decision), nextGap, answer, w, from);
      }
    }

    /** `reject`. */
    method Reject(c: Id, incidentId: Id, planId: Id, actor: string, reason: string, gaps: seq<seq<Action>>, answer: Answer)
      returns (result: Result<Plan, string>)
      requires Valid() && c !in calls && |gaps| == 3 && forall k :: 0 <= k < 3 ==> Elsewhere(gaps[k], c)
      modifies this, repository
      ensures Valid() && old(trace) <= trace
      ensures OwnPart(trace, |old(trace)|, c, Request.Reject(incidentId, planId, actor, reason), answer)
      ensures c in calls && Delivered(calls[c].phase, result)
    {
      ghost var n := |trace|;
      var required := RequiredPlan(c, Request.Reject(incidentId, planId, actor, reason), gaps, answer);
      if required.Err? {
        return Err(required.error);
      }
      var plan := required.value;
      if plan.status != Proposed {
        RefuseDecision(c, answer, n);
        return Err("cannot reject this plan");
      }
      var rejected := plan.(status := Status.Rejected, decidedAt := Some(answer.now), decidedBy := Some(actor),
                            decisionReason := Some(reason));
      var claimed := Decide(c, rejected, gaps[2], [], answer, n);
      if !claimed {
        return Err("remediation plan was already decided");
      }
      return Ok(rejected);
    }

    /** Record the failure of an approved plan and raise: an unguarded write. */
    method GiveUp(c: Id, failed: Plan, gap: seq<Action>, ghost answer: Answer, ghost from: nat)
      requires c in calls && calls[c].alive && Elsewhere(gap, c)
      requires Valid() && OwnPart(trace, from, c, calls[c].request, answer)
      requires Step(Observed(), c, answer) == Goto(Observed(), c, GivingUp(failed))
      modifies this, repository
      ensures old(trace) <= trace && Suspended(c, Raised(true), old(calls[c].request), answer, from)
    {
      Await(c, GivingUp(failed), gap, answer, Observed(), from);
      ghost var w := Observed();
      repository.Update(failed);
      Await(c, Raised(true), [], answer, w, from);
    }

    method ClaimExecution(c: Id, plan: Plan, investigation: Investigation, pod: Option<Pod>, gap: seq<Action>,
                          ghost answer: Answer, ghost from: nat)
      returns (executing: Result<Plan, string>)
      requires c in calls && Suspended(c, ClaimingExecution(plan, investigation, pod), calls[c].request, answer, from)
      requires Elsewhere(gap, c)
      modifies this, repository
      ensures old(trace) <= trace
      ensures executing.Err? ==> Suspended(c, Raised(true), old(calls[c].request), answer, from)
      ensures executing.Ok? ==>
        && executing.value == plan
        && Suspended(c, Calling(plan, investigation, pod), old(calls[c].request), answer, from)
    {
      ghost var w := Observed();
      var claimed := repository.Transition(plan, Approved);
      if !claimed {
        Await(c, Raised(true), [], answer, w, from);
        return Err("remediation plan execution was already claimed");
      }
      Await(c, Calling(plan, investigation, pod), gap, answer, w, from);
      return Ok(plan);
    }

    method CheckPod(c: Id, approved: Plan, investigation: Investigation, gap: seq<Action>, claimGap: seq<Action>,
                    answer: Answer, ghost from: nat)
      returns (executing: Result<Plan, string>)
      requires c in calls && Suspended(c, ListingPods(approved, investigation), calls[c].request, answer, from)
      requires Elsewhere(gap, c) && Elsewhere(claimGap, c)
      modifies this, repository
      ensures old(trace) <= trace
      ensures executing.Err? ==> Suspended(c, Raised(true), old(calls[c].request), answer, from)
      ensures executing.Ok? ==>
        && c in calls && calls[c].phase.Calling? && calls[c].phase.executing == executing.value
        && Suspended(c, calls[c].phase, old(calls[c].request), answer, from)
    {
      if answer.pods.None? {
        GiveUp(c, approved.(status := Failed), gap, answer, from);
        return Err("could not verify target pod");
      }
      var pod := FindPod(answer.pods.value, approved.target);
      var checks := EvaluateExecution(allowed, approved, investigation, pod);
      if !PolicyAllows(checks) {
        GiveUp(c, approved.(checks := checks, status := Failed), gap, answer, from);
        return Err("execution policy rejected the approved action");
      }
      var claiming := approved.(checks := checks, status := Executing);
      Await(c, ClaimingExecution(claiming, investigation, pod), gap, answer, Observed(), from);
      executing := ClaimExecution(c, claiming, investigation, pod, claimGap, answer, from);
    }

    /** Everything `approve_and_execute` checks between its two claims. On success the call
        is about to call the executor. */
    method Revalidate(c: Id, approved: Plan, gaps: seq<seq<Action>>, answer: Answer, ghost from: nat)
      returns (executing: Result<Plan, string>)
      requires c in calls && Suspended(c, ReadingInvestigation(approved), calls[c].request, answer, from)
      requires |gaps| == 4 && forall k :: 0 <= k < 4 ==> Elsewhere(gaps[k], c)
      modifies this, repository
      ensures old(trace) <= trace
      ensures executing.Err? ==> Suspended(c, Raised(true), old(calls[c].request), answer, from)
      ensures executing.Ok? ==>
        && c in calls && calls[c].phase.Calling? && calls[c].phase.executing == executing.value
        && Suspended(c, calls[c].phase, old(calls[c].request), answer, from)
    {
      var i := calls[c].request.incidentId;
      if i !in investigations || investigations[i].id != approved.investigationId {
        GiveUp(c, approved.(status := Failed), gaps[0], answer, from);
        return Err("the approved investigation is no longer current");
      }
      var investigation := investigations[i];
      Await(c, ListingPods(approved, investigation), gaps[1], answer, Observed(), from);
      executing := CheckPod(c, approved, investigation, gaps[2], gaps[3], answer, from);
    }

    /** Call the executor once. */
    method CallExecutor(c: Id, executing: Plan, gaps: seq<seq<Action>>, answer: Answer, ghost from: nat)
      returns (succeeded: bool)
      requires c in calls && calls[c].phase.Calling? && calls[c].phase.executing == executing
      requires Suspended(c, calls[c].phase, calls[c].request, answer, from)
      requires |gaps| >= 2 && Elsewhere(gaps[0], c) && Elsewhere(gaps[1], c)
      modifies this, repository
      ensures old(trace) <= trace && succeeded == answer.executed
      ensures Suspended(c, SavingReceipt(executing, succeeded), old(calls[c].request), answer, from)
    {
      ghost var w := Observed();
      executions := executions + [Execution(c, executing, calls[c].phase.investigation, calls[c].phase.pod)];
      Await(c, Awaiting(executing), gaps[0], answer, w, from);
      succeeded := answer.executed;
      Await(c, SavingReceipt(executing, succeeded), gaps[1], answer, Observed(), from);
    }

    /** Store the receipt and write the outcome. */
    method RecordOutcome(c: Id, executing: Plan, succeeded: bool, gap: seq<Action>, ghost answer: Answer, ghost from: nat)
      returns (final: Plan)
      requires c in calls && Suspended(c, SavingReceipt(executing, succeeded), calls[c].request, answer, from)
      requires Elsewhere(gap, c)
      modifies this, repository
      ensures old(trace) <= trace && Suspended(c, Returned(final), old(calls[c].request), answer, from)
      ensures final == executing.(status := if succeeded then Succeeded else Failed)
    {
      ghost var w := Observed();
      repository.SaveAction(ReceiptFor(executing, calls[c].request.incidentId, succeeded));
      Await(c, Finishing(executing, succeeded), gap, answer, w, from);
      w := Observed();
      final := executing.(status := if succeeded then Succeeded else Failed);
      repository.Update(final);
      Await(c, Returned(final), [], answer, w, from);
    }

    /** The first half of `approve_and_execute`: win the approval claim. */
    method ClaimApproval(c: Id, incidentId: Id, planId: Id, actor: string, reason: string,
                         gaps: seq<seq<Action>>, answer: Answer)
      returns (approved: Result<Plan, string>)
      requires Valid() && c !in calls && |gaps| == 4 && forall k :: 0 <= k < 4 ==> Elsewhere(gaps[k], c)
      modifies this, repository
      ensures old(trace) <= trace
      ensures Suspended(c, if approved.Ok? then ReadingInvestigation(approved.value) else Raised(false),
                        Approve(incidentId, planId, actor, reason), answer, |old(trace)|)
    {
      ghost var n := |trace|;
      var required := RequiredPlan(c, Approve(incidentId, planId, actor, reason), gaps, answer);
      if required.Err? {
        return Err(required.error);
      }
      var plan := required.value;
      if plan.status != Proposed {
        RefuseDecision(c, answer, n);
        return Err("cannot approve this plan");
      }
      if plan.riskLevel != Low || plan.actionType != RestartPod {
        RefuseDecision(c, answer, n);
        return Err("policy forbids execution of this action type");
      }
      var decision := plan.(status := Approved, decidedAt := Some(answer.now), decidedBy := Some(actor),
                            decisionReason := Some(reason));
      var claimed := Decide(c, decision, gaps[2], gaps[3], answer, n);
      return if claimed then Ok(decision) else Err("remediation plan was already decided");
    }

    /** `approve_and_execute`. */
    method ApproveAndExecute(c: Id, incidentId: Id, planId: Id, actor: string, reason: string,
                             gaps: seq<seq<Action>>, answer: Answer)
      returns (result: Result<Plan, string>)
      requires Valid() && c !in calls && |gaps| == 11 && forall k :: 0 <= k < 11 ==> Elsewhere(gaps[k], c)
      modifies this, repository
      ensures Valid() && old(trace) <= trace
      ensures OwnPart(trace, |old(trace)|, c, Approve(incidentId, planId, actor, reason), answer)
      ensures c in calls && Delivered(calls[c].phase, result)
      ensures result.Ok? ==> result.value.status == if answer.executed then Succeeded else Failed
    {
      ghost var n := |trace|;
      var approved := ClaimApproval(c, incidentId, planId, actor, reason, gaps[..4], answer);
      if approved.Err? {
        return Err(approved.error);
      }
      var executing := Revalidate(c, approved.value, gaps[4..8], answer, n);
      if executing.Err? {
        return Err(executing.error);
      }
      var succeeded := CallExecutor(c, executing.value, gaps[8..11], answer, n);
      var final := RecordOutcome(c, executing.value, succeeded, gaps[10], answer, n);
      return Ok(final);
    }

    method InsertDraft(c: Id, plan: Plan, ghost answer: Answer, ghost from: nat) returns (result: Result<Plan, string>)
      requires c in calls && Suspended(c, Creating(plan), calls[c].request, answer, from)
      modifies this, repository
      ensures old(trace) <= trace
      ensures Suspended(c, if result.Ok? then Returned(plan) else Raised(false), old(calls[c].request), answer, from)
      ensures result.Ok? ==> result.value == plan
    {
      ghost var w := Observed();
      var inserted := repository.Create(plan);
      if !inserted {
        Await(c, Raised(false), [], answer, w, from);
        return Err("duplicate plan id");
      }
      Await(c, Returned(plan), [], answer, w, from);
      return Ok(plan);
    }

    /** `propose`: the uuid of the new plan comes from `answer`. */
    method Propose(c: Id, request: Request, gaps: seq<seq<Action>>, answer: Answer)
      returns (result: Result<Plan, string>)
      requires Valid() && c !in calls && request.Propose?
      requires |gaps| == 2 && forall k :: 0 <= k < 2 ==> Elsewhere(gaps[k], c)
      modifies this, repository
      ensures Valid() && old(trace) <= trace
      ensures OwnPart(trace, |old(trace)|, c, request, answer)
      ensures c in calls && Delivered(calls[c].phase, result)
    {
      ghost var n := |trace|;
      Begin(c, request, gaps[0], answer);
      var i := request.incidentId;
      if i !in incidents || i !in investigations || investigations[i].hypotheses == [] {
        Refuse(c, answer, n);
        return Err("a completed diagnosis is required before remediation");
      }
      var plan := Drafted(allowed, request, investigations[i], answer.uuid);
      Await(c, Creating(plan), gaps[1], answer, Observed(), n);
      result := InsertDraft(c, plan, answer, n);
    }

    /** Whatever was called and however it was interleaved, no plan was restarted twice,
        none was restarted after its rejection, and every restart was warranted. */
    lemma Safe()
      requires Valid()
      ensures forall i, j :: 0 <= i < j < |executions| ==> executions[i].plan.id != executions[j].plan.id
      ensures forall i :: 0 <= i < |executions| ==>
        executions[i].pod.Some? && Warranted(allowed, executions[i].plan, executions[i].investigation, executions[i].pod.value)
      ensures forall p :: p in repository.rows && repository.rows[p].status.Rejected? ==>
        forall i :: 0 <= i < |executions| ==> executions[i].plan.id != p
    {
      var w := Observed();
      assert Reachable(w);
      AtMostOneRestart(w);
      forall i | 0 <= i < |executions|
        ensures executions[i].pod.Some? && Warranted(allowed, executions[i].plan, executions[i].investigation, executions[i].pod.value)
      {
        EveryRestartWarranted(w, i);
      }
      forall p | p in repository.rows && repository.rows[p].status.Rejected?
        ensures forall i :: 0 <= i < |executions| ==> executions[i].plan.id != p
      {
        RejectedNeverRestarted(w, p);
      }
    }
  }
}

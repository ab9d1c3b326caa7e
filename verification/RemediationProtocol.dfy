/** The remediation workflow as a protocol. Any number of propose, reject and approve
    calls run concurrently; between two `await`s a call is uninterrupted, and the only
    synchronisation is the compare-and-set on the status column of one plan row.

    A world is everything the calls share, plus each call's position and locals.
    `Next` performs one action; an action that is not enabled changes nothing. */
module RemediationProtocol {
  import opened Prelude
  import opened Contracts
  import opened RemediationPolicy

  // ---------- the plan table ----------

  datatype Row = Row(status: Status, snapshot: Plan)

  type Table = map<Id, Row>

  function Written(plan: Plan): Row { Row(plan.status, plan) }

  function Create(rows: Table, plan: Plan): Table { rows[plan.id := Written(plan)] }

  /** `UPDATE ... WHERE id = plan.id`: no guard on the old status. */
  function Update(rows: Table, plan: Plan): Table {
    if plan.id in rows then rows[plan.id := Written(plan)] else rows
  }

  predicate CanTransition(rows: Table, plan: Plan, expected: Status) {
    plan.id in rows && rows[plan.id].status == expected
  }

  /** `UPDATE ... WHERE id = plan.id AND status = expected`. */
  function Transition(rows: Table, plan: Plan, expected: Status): Table {
    if CanTransition(rows, plan, expected) then rows[plan.id := Written(plan)] else rows
  }

  datatype Receipt = Receipt(planId: Id, incidentId: Id, actionType: ActionType, namespace: string, target: string, succeeded: bool)

  // ---------- calls ----------

  datatype Request =
    | Propose(incidentId: Id, actionType: ActionType, namespace: string, target: string, service: string, rationale: string)
    | Reject(incidentId: Id, planId: Id, actor: string, reason: string)
    | Approve(incidentId: Id, planId: Id, actor: string, reason: string)

  /** Where a call is, with the locals it still needs: the phase names the atomic
      segment that runs next. */
  datatype Phase =
    | Starting
    | Creating(draft: Plan)
    | Loading
    | Claiming(read: Plan, decision: Plan)
    | ReadingInvestigation(approved: Plan)
    | ListingPods(approved: Plan, investigation: Investigation)
    | GivingUp(failed: Plan)
    | ClaimingExecution(executing: Plan, investigation: Investigation, pod: Option<Pod>)
    | Calling(executing: Plan, investigation: Investigation, pod: Option<Pod>)
    | Awaiting(executing: Plan)
    | SavingReceipt(executing: Plan, ok: bool)
    | Finishing(executing: Plan, ok: bool)
    | Returned(result: Plan)
    | Raised(claimed: bool)

  datatype Call = Call(request: Request, phase: Phase, alive: bool)

  /** One `restart_pod` invocation, with what the caller had read when it made it. */
  datatype Execution = Execution(callId: Id, plan: Plan, investigation: Investigation, pod: Option<Pod>)

  /** `owner` is a history variable: which call won the approval claim on a plan.
      No action reads it. */
  datatype World = World(
    allowed: set<string>, incidents: set<Id>, investigations: map<Id, Investigation>, rows: Table,
    receipts: seq<Receipt>, executions: seq<Execution>, calls: map<Id, Call>, owner: map<Id, Id>)

  // ---------- actions ----------

  /** What the outside answers to one segment: the clock, a fresh uuid, the pod listing
      (`None` when listing fails) and whether the executor returned. */
  datatype Answer = Answer(now: Time, uuid: Id, pods: Option<seq<Pod>>, executed: bool)

  datatype Action =
    | Submit(c: Id, request: Request)
    | Resume(c: Id, answer: Answer)
    | Crash(c: Id)
    | SaveIncident(incident: Id)
    | SaveInvestigation(investigation: Investigation)

  function Goto(w: World, c: Id, phase: Phase): World
    requires c in w.calls
  {
    w.(calls := w.calls[c := w.calls[c].(phase := phase)])
  }

  function Drafted(allowed: set<string>, r: Request, investigation: Investigation, uuid: Id): Plan
    requires r.Propose? && investigation.hypotheses != []
  {
    var risk := RiskFor(r.actionType);
    var plan := Plan(
      uuid, r.incidentId, investigation.id, r.actionType, risk, r.namespace, r.target, r.service, r.rationale,
      investigation.hypotheses[0].evidenceFor,
      if risk.Elevated? || risk.Prohibited? then RecommendationOnly else Proposed, [], None, None, None);
    var checks := EvaluateProposal(allowed, plan, investigation);
    plan.(status := if PolicyAllows(checks) then plan.status else RecommendationOnly, checks := checks)
  }

  function Start(w: World, c: Id, request: Request, answer: Answer): World
    requires c in w.calls
  {
    var i := request.incidentId;
    if i !in w.incidents then Goto(w, c, Raised(false))
    else if !request.Propose? then Goto(w, c, Loading)
    else if i in w.investigations && w.investigations[i].hypotheses != []
    then Goto(w, c, Creating(Drafted(w.allowed, request, w.investigations[i], answer.uuid)))
    else Goto(w, c, Raised(false))
  }

  function Insert(w: World, c: Id, draft: Plan): World
    requires c in w.calls
  {
    if draft.id in w.rows then Goto(w, c, Raised(false))
    else Goto(w.(rows := Create(w.rows, draft)), c, Returned(draft))
  }

  /** The checks a reject or approve call makes on the snapshot before deciding. */
  predicate Decidable(rows: Table, r: Request)
    requires !r.Propose?
  {
    && r.planId in rows
    && rows[r.planId].snapshot.incidentId == r.incidentId
    && rows[r.planId].snapshot.status == Proposed
    && (r.Approve? ==> rows[r.planId].snapshot.riskLevel == Low && rows[r.planId].snapshot.actionType == RestartPod)
  }

  function Decided(plan: Plan, r: Request, now: Time): Plan
    requires !r.Propose?
  {
    plan.(status := if r.Approve? then Approved else Status.Rejected,
          decidedAt := Some(now), decidedBy := Some(r.actor), decisionReason := Some(r.reason))
  }

  function Load(w: World, c: Id, request: Request, answer: Answer): World
    requires c in w.calls
  {
    if request.Propose? || !Decidable(w.rows, request) then Goto(w, c, Raised(false))
    else
      var read := w.rows[request.planId].snapshot;
      Goto(w, c, Claiming(read, Decided(read, request, answer.now)))
  }

  function Claim(w: World, c: Id, request: Request, decision: Plan): World
    requires c in w.calls
  {
    if !CanTransition(w.rows, decision, Proposed) then Goto(w, c, Raised(false))
    else
      var rows := Transition(w.rows, decision, Proposed);
      if request.Approve?
      then Goto(w.(rows := rows, owner := w.owner[decision.id := c]), c, ReadingInvestigation(decision))
      else Goto(w.(rows := rows), c, Returned(decision))
  }

  function ReadInvestigation(w: World, c: Id, request: Request, approved: Plan): World
    requires c in w.calls
  {
    var i := request.incidentId;
    if i in w.investigations && w.investigations[i].id == approved.investigationId
    then Goto(w, c, ListingPods(approved, w.investigations[i]))
    else Goto(w, c, GivingUp(approved.(status := Failed)))
  }

  /** The first listed pod with the given name. */
  function FindPod(pods: seq<Pod>, name: string): Option<Pod> {
    if pods == [] then None
    else if pods[0].name == name then Some(pods[0])
    else FindPod(pods[1..], name)
  }

  function ListPods(w: World, c: Id, approved: Plan, investigation: Investigation, answer: Answer): World
    requires c in w.calls
  {
    if answer.pods.None? then Goto(w, c, GivingUp(approved.(status := Failed)))
    else
      var pod := FindPod(answer.pods.value, approved.target);
      var checks := EvaluateExecution(w.allowed, approved, investigation, pod);
      if PolicyAllows(checks)
      then Goto(w, c, ClaimingExecution(approved.(checks := checks, status := Executing), investigation, pod))
      else Goto(w, c, GivingUp(approved.(checks := checks, status := Failed)))
  }

  function ClaimExecution(w: World, c: Id, executing: Plan, investigation: Investigation, pod: Option<Pod>): World
    requires c in w.calls
  {
    if CanTransition(w.rows, executing, Approved)
    then Goto(w.(rows := Transition(w.rows, executing, Approved)), c, Calling(executing, investigation, pod))
    else Goto(w, c, Raised(true))
  }

  function Finish(w: World, c: Id, final: Plan): World
    requires c in w.calls
  {
    Goto(w.(rows := Update(w.rows, final)), c, Returned(final))
  }

  function ReceiptFor(plan: Plan, incidentId: Id, ok: bool): Receipt {
    Receipt(plan.id, incidentId, plan.actionType, plan.namespace, plan.target, ok)
  }

  /** A crash leaves the phase behind; `Returned` and `Raised` calls do nothing more. */
  function Step(w: World, c: Id, answer: Answer): World
    requires c in w.calls
  {
    var request := w.calls[c].request;
    match w.calls[c].phase
    case Starting => Start(w, c, request, answer)
    case Creating(draft) => Insert(w, c, draft)
    case Loading => Load(w, c, request, answer)
    case Claiming(read, decision) => Claim(w, c, request, decision)
    case ReadingInvestigation(approved) => ReadInvestigation(w, c, request, approved)
    case ListingPods(approved, investigation) => ListPods(w, c, approved, investigation, answer)
    case GivingUp(failed) => Goto(w.(rows := Update(w.rows, failed)), c, Raised(true))
    case ClaimingExecution(executing, investigation, pod) => ClaimExecution(w, c, executing, investigation, pod)
    case Calling(executing, investigation, pod) =>
      Goto(w.(executions := w.executions + [Execution(c, executing, investigation, pod)]), c, Awaiting(executing))
    case Awaiting(executing) => Goto(w, c, SavingReceipt(executing, answer.executed))
    case SavingReceipt(executing, ok) =>
      Goto(w.(receipts := w.receipts + [ReceiptFor(executing, request.incidentId, ok)]), c, Finishing(executing, ok))
    case Finishing(executing, ok) => Finish(w, c, executing.(status := if ok then Succeeded else Failed))
    case Returned(_) => w
    case Raised(_) => w
  }

  function Next(w: World, a: Action): World {
    match a
    case Submit(c, request) =>
      if c in w.calls then w else w.(calls := w.calls[c := Call(request, Starting, true)])
    case Resume(c, answer) =>
      if c in w.calls && w.calls[c].alive then Step(w, c, answer) else w
    case Crash(c) =>
      if c in w.calls then w.(calls := w.calls[c := w.calls[c].(alive := false)]) else w
    case SaveIncident(i) => w.(incidents := w.incidents + {i})
    case SaveInvestigation(i) => w.(investigations := w.investigations[i.incidentId := i])
  }

  // ---------- runs ----------

  /** No plan, call, receipt or executor invocation yet. */
  predicate Initial(w: World) {
    && w.rows == map[] && w.receipts == [] && w.executions == [] && w.calls == map[] && w.owner == map[]
    && forall i :: i in w.investigations ==> w.investigations[i].incidentId == i
  }

  function Run(w: World, actions: seq<Action>): World {
    if actions == [] then w else Next(Run(w, actions[..|actions| - 1]), actions[|actions| - 1])
  }

  // ---------- the status measure and the identity of a plan ----------

  function Height(s: Status): nat {
    match s
    case Proposed => 0
    case Approved => 1
    case Executing => 2
    case Rejected | Succeeded | Failed | RecommendationOnly => 3
  }

  predicate Final(s: Status) { Height(s) == 3 }

  /** Everything but the status, the recorded checks and the decision. */
  predicate SameIdentity(a: Plan, b: Plan) {
    a.(status := b.status, checks := b.checks, decidedAt := b.decidedAt, decidedBy := b.decidedBy,
       decisionReason := b.decisionReason) == b
  }

  // ---------- the invariant ----------

  predicate Owning(phase: Phase) {
    match phase
    case ReadingInvestigation(_) | ListingPods(_, _) | GivingUp(_) | ClaimingExecution(_, _, _)
      | Calling(_, _, _) | Awaiting(_) | SavingReceipt(_, _) | Finishing(_, _) => true
    case Returned(p) => p.status.Succeeded? || p.status.Failed?
    case Raised(claimed) => claimed
    case _ => false
  }

  /** The owner has invoked the executor. */
  predicate Invoked(phase: Phase) {
    phase.Awaiting? || phase.SavingReceipt? || phase.Finishing? || (phase.Returned? && Owning(phase))
  }

  /** The owner has stored its receipt, which says `ok`. */
  predicate Receipted(phase: Phase, ok: bool) {
    || (phase.Finishing? && phase.ok == ok)
    || (phase.Returned? && phase.result.status == if ok then Succeeded else Failed)
  }

  predicate RowInv(w: World, p: Id)
    requires p in w.rows
  {
    var row := w.rows[p];
    && row.status == row.snapshot.status
    && row.snapshot.id == p
    && row.snapshot.riskLevel == RiskFor(row.snapshot.actionType)
    && (p in w.owner <==> row.status.Approved? || row.status.Executing? || row.status.Succeeded? || row.status.Failed?)
    && (row.status.Proposed? ==> row.snapshot.actionType == RestartPod)
  }

  /** The row as the owner's position determines it. */
  predicate OwnedRow(row: Plan, phase: Phase, r: Request)
    requires r.Approve? && Owning(phase)
  {
    && row.decidedBy == Some(r.actor) && row.decidedAt.Some? && row.actionType == RestartPod
    && row.incidentId == r.incidentId
    && match phase
       case ReadingInvestigation(a) => row == a && row.status == Approved
       case ListingPods(a, i) => row == a && row.status == Approved && i.id == a.investigationId
       case GivingUp(f) => row.status == Approved && f == row.(checks := f.checks, status := Failed)
       case ClaimingExecution(e, i, pod) =>
         row.status == Approved && e == row.(checks := e.checks, status := Executing) && i.id == e.investigationId
       case Calling(e, i, pod) => row == e && row.status == Executing && i.id == e.investigationId
       case Awaiting(e) => row == e && row.status == Executing
       case SavingReceipt(e, _) => row == e && row.status == Executing
       case Finishing(e, _) => row == e && row.status == Executing
       case Returned(p) => row == p
       case Raised(_) => row.status == Failed
  }

  ghost predicate ExecutableBy(w: World, plan: Plan, investigation: Investigation, pod: Option<Pod>) {
    pod.Some? && Warranted(w.allowed, plan, investigation, pod.value)
  }

  /** A pending decision was taken on a snapshot that is the stored one for as long as
      the row stays PROPOSED. */
  ghost predicate ClaimInv(w: World, r: Request, read: Plan, decision: Plan)
    requires !r.Propose?
  {
    && read.id == r.planId && read.incidentId == r.incidentId && read.status == Proposed
    && decision.decidedAt.Some? && decision == Decided(read, r, decision.decidedAt.value)
    && r.planId in w.rows && SameIdentity(read, w.rows[r.planId].snapshot)
    && (w.rows[r.planId].status == Proposed ==> w.rows[r.planId].snapshot == read)
  }

  ghost predicate CallInv(w: World, c: Id)
    requires c in w.calls
  {
    var request := w.calls[c].request;
    var phase := w.calls[c].phase;
    && (phase.Creating? ==>
          && (phase.draft.status == Proposed || phase.draft.status == RecommendationOnly)
          && phase.draft.riskLevel == RiskFor(phase.draft.actionType)
          && (phase.draft.status == Proposed ==> phase.draft.actionType == RestartPod))
    && (phase.Claiming? ==> !request.Propose? && ClaimInv(w, request, phase.read, phase.decision))
    && (Owning(phase) ==>
          && request.Approve? && request.planId in w.owner && w.owner[request.planId] == c
          && request.planId in w.rows && OwnedRow(w.rows[request.planId].snapshot, phase, request)
          && ((phase.ClaimingExecution? || phase.Calling?) ==>
                ExecutableBy(w, phase.executing, phase.investigation, phase.pod))
          && (Invoked(phase) ==> exists i :: 0 <= i < |w.executions| && w.executions[i].callId == c)
          && (forall ok :: Receipted(phase, ok) ==>
                exists i :: 0 <= i < |w.receipts| && w.receipts[i].planId == request.planId && w.receipts[i].succeeded == ok))
  }

  predicate OwnerInv(w: World, p: Id)
    requires p in w.owner
  {
    && p in w.rows
    && w.owner[p] in w.calls
    && w.calls[w.owner[p]].request.Approve? && w.calls[w.owner[p]].request.planId == p
    && Owning(w.calls[w.owner[p]].phase)
  }

  ghost predicate ExecutionInv(w: World, e: Execution) {
    && e.plan.id in w.owner && w.owner[e.plan.id] == e.callId && e.callId in w.calls
    && Invoked(w.calls[e.callId].phase)
    && ExecutableBy(w, e.plan, e.investigation, e.pod)
    && e.plan.riskLevel == Low
    && e.investigation.id == e.plan.investigationId
    && w.calls[e.callId].request.Approve? && e.plan.decidedBy == Some(w.calls[e.callId].request.actor)
    && e.plan.id in w.rows && SameIdentity(e.plan, w.rows[e.plan.id].snapshot)
  }

  predicate ReceiptInv(w: World, r: Receipt) {
    && r.planId in w.owner && w.owner[r.planId] in w.calls
    && Receipted(w.calls[w.owner[r.planId]].phase, r.succeeded)
  }

  ghost predicate LogInv(w: World) {
    && (forall e :: e in w.executions ==> ExecutionInv(w, e))
    && (forall i, j :: 0 <= i < j < |w.executions| ==> w.executions[i].plan.id != w.executions[j].plan.id)
    && (forall r :: r in w.receipts ==> ReceiptInv(w, r))
    && (forall i, j :: 0 <= i < j < |w.receipts| ==> w.receipts[i].planId != w.receipts[j].planId)
  }

  ghost predicate Inv(w: World) {
    && (forall p :: p in w.rows ==> RowInv(w, p))
    && (forall p :: p in w.owner ==> OwnerInv(w, p))
    && (forall c :: c in w.calls ==> CallInv(w, c))
    && LogInv(w)
  }

  // ---------- what one call leaves alone ----------

  predicate RowKept(w: World, v: World, c: Id, p: Id)
    requires p in w.rows && p in v.rows
  {
    || v.rows[p] == w.rows[p]
    || (&& SameIdentity(w.rows[p].snapshot, v.rows[p].snapshot)
        && v.rows[p].status != Proposed
        && (p in w.owner ==> w.owner[p] == c))
  }

  /** What a segment of call `c` may do to the shared state: rewrite rows it owns or
      that it takes out of PROPOSED, and append to the logs. */
  ghost predicate Frame(w: World, v: World, c: Id) {
    && v.allowed == w.allowed
    && c in w.calls && v.calls.Keys == w.calls.Keys
    && (forall d :: d in w.calls && d != c ==> v.calls[d] == w.calls[d])
    && v.calls[c].request == w.calls[c].request
    && (forall p :: p in w.rows ==> p in v.rows && RowKept(w, v, c, p))
    && (forall p :: p in w.owner ==> p in v.owner && v.owner[p] == w.owner[p])
    && (forall p :: p in v.owner && p !in w.owner ==> v.owner[p] == c)
    && w.executions <= v.executions && w.receipts <= v.receipts
  }

  lemma OtherCallKept(w: World, v: World, c: Id, d: Id)
    requires Inv(w) && Frame(w, v, c) && d in w.calls && d != c
    ensures CallInv(v, d)
  {
    assert CallInv(w, d) && v.calls[d] == w.calls[d];
    var r := w.calls[d].request;
    var phase := w.calls[d].phase;
    if phase.Claiming? {
      assert RowKept(w, v, c, r.planId);
    }
    if Owning(phase) {
      assert RowKept(w, v, c, r.planId);
      if Invoked(phase) {
        var i :| 0 <= i < |w.executions| && w.executions[i].callId == d;
        assert v.executions[i].callId == d;
      }
      forall ok | Receipted(phase, ok)
        ensures exists i :: 0 <= i < |v.receipts| && v.receipts[i].planId == r.planId && v.receipts[i].succeeded == ok
      {
        var i :| 0 <= i < |w.receipts| && w.receipts[i].planId == r.planId && w.receipts[i].succeeded == ok;
        assert v.receipts[i] == w.receipts[i];
      }
    }
  }

  lemma OldExecutionKept(w: World, v: World, c: Id, e: Execution)
    requires ExecutionInv(w, e) && Frame(w, v, c)
    requires Invoked(w.calls[c].phase) ==> Invoked(v.calls[c].phase)
    ensures ExecutionInv(v, e)
  {
    assert RowKept(w, v, c, e.plan.id);
  }

  /** A call never forgets that it owns its plan, has called the executor or has stored its receipt. */
  predicate Advances(before: Phase, after: Phase) {
    && (Owning(before) ==> Owning(after))
    && (Invoked(before) ==> Invoked(after))
    && (Receipted(before, true) ==> Receipted(after, true))
    && (Receipted(before, false) ==> Receipted(after, false))
  }

  lemma OldReceiptKept(w: World, v: World, c: Id, r: Receipt)
    requires ReceiptInv(w, r) && Frame(w, v, c)
    requires Advances(w.calls[c].phase, v.calls[c].phase)
    ensures ReceiptInv(v, r)
  {
  }

  lemma LogsKept(w: World, v: World, c: Id)
    requires LogInv(w) && Frame(w, v, c)
    requires v.executions == w.executions && v.receipts == w.receipts
    requires Advances(w.calls[c].phase, v.calls[c].phase)
    ensures LogInv(v)
  {
    forall e | e in v.executions ensures ExecutionInv(v, e) { OldExecutionKept(w, v, c, e); }
    forall r | r in v.receipts ensures ReceiptInv(v, r) { OldReceiptKept(w, v, c, r); }
  }

  lemma AppendFrame(w: World, v: World, c: Id, phase: Phase)
    requires c in w.calls && v == Goto(w.(executions := v.executions, receipts := v.receipts), c, phase)
    requires w.executions <= v.executions && w.receipts <= v.receipts
    ensures Frame(w, v, c)
  {
  }

  lemma RowsUntouched(w: World, v: World)
    requires (forall p :: p in w.rows ==> RowInv(w, p)) && v.rows == w.rows && v.owner == w.owner
    ensures forall p :: p in v.rows ==> RowInv(v, p)
  {
    forall p | p in v.rows ensures RowInv(v, p) { assert RowInv(w, p); }
  }

  lemma CallersKept(w: World, v: World, c: Id)
    requires Inv(w) && Frame(w, v, c) && CallInv(v, c)
    ensures forall d :: d in v.calls ==> CallInv(v, d)
  {
    forall d | d in v.calls ensures CallInv(v, d) {
      if d != c { OtherCallKept(w, v, c, d); }
    }
  }

  lemma OwnersKept(w: World, v: World, c: Id)
    requires (forall p :: p in w.owner ==> OwnerInv(w, p)) && Frame(w, v, c)
    requires Owning(w.calls[c].phase) ==> Owning(v.calls[c].phase)
    requires forall p :: p in v.owner && p !in w.owner ==> OwnerInv(v, p)
    ensures forall p :: p in v.owner ==> OwnerInv(v, p)
  {
    forall p | p in v.owner ensures OwnerInv(v, p) {
      if p in w.owner { assert OwnerInv(w, p); }
    }
  }

  lemma ForCallers(w: World, v: World, c: Id)
    requires Inv(w) && Frame(w, v, c) && CallInv(v, c) && LogInv(v)
    requires Owning(w.calls[c].phase) ==> Owning(v.calls[c].phase)
    requires forall p :: p in v.rows ==> RowInv(v, p)
    requires forall p :: p in v.owner && p !in w.owner ==> OwnerInv(v, p)
    ensures Inv(v)
  {
    CallersKept(w, v, c);
    OwnersKept(w, v, c);
  }

  // ---------- the shapes of a segment ----------

  /** Only the caller's position changes. */
  lemma LocalStep(w: World, c: Id, phase: Phase)
    requires Inv(w) && c in w.calls && Advances(w.calls[c].phase, phase)
    requires CallInv(Goto(w, c, phase), c)
    ensures Inv(Goto(w, c, phase))
  {
    var v := Goto(w, c, phase);
    AppendFrame(w, v, c, phase);
    LogsKept(w, v, c);
    RowsUntouched(w, v);
    ForCallers(w, v, c);
  }

  lemma WriteFrame(w: World, v: World, c: Id, plan: Plan, phase: Phase)
    requires c in w.calls && v == Goto(w.(rows := Update(w.rows, plan)), c, phase)
    requires plan.id in w.rows && SameIdentity(w.rows[plan.id].snapshot, plan) && plan.status != Proposed
    requires plan.id in w.owner ==> w.owner[plan.id] == c
    ensures Frame(w, v, c)
  {
  }

  lemma WriteRows(w: World, rows: Table, plan: Plan)
    requires forall p :: p in w.rows ==> RowInv(w, p)
    requires rows == Update(w.rows, plan) && plan.id in w.rows
    requires SameIdentity(w.rows[plan.id].snapshot, plan)
    requires plan.id in w.owner <==> plan.status.Approved? || plan.status.Executing? || plan.status.Succeeded? || plan.status.Failed?
    requires plan.status != Proposed
    ensures forall p :: p in rows ==> RowInv(w.(rows := rows), p)
  {
    forall p | p in rows ensures RowInv(w.(rows := rows), p) { assert RowInv(w, p); }
  }

  /** The owner of a plan rewrites its row. */
  lemma OwnerWrites(w: World, v: World, c: Id, plan: Plan, phase: Phase)
    requires Inv(w) && c in w.calls && Advances(w.calls[c].phase, phase)
    requires plan.id in w.owner && w.owner[plan.id] == c && plan.id in w.rows
    requires SameIdentity(w.rows[plan.id].snapshot, plan)
    requires plan.status == Executing || plan.status == Succeeded || plan.status == Failed
    requires v == Goto(w.(rows := Update(w.rows, plan)), c, phase)
    requires CallInv(v, c)
    ensures Inv(v)
  {
    WriteFrame(w, v, c, plan, phase);
    LogsKept(w, v, c);
    WriteRows(w, v.rows, plan);
    forall p | p in v.rows ensures RowInv(v, p) { assert RowInv(w.(rows := v.rows), p); }
    ForCallers(w, v, c);
  }

  // ---------- each segment keeps the invariant ----------

  /** A fresh proposal is PROPOSED exactly when policy allows it, and then it is a pod restart. */
  lemma DraftedFacts(allowed: set<string>, r: Request, investigation: Investigation, uuid: Id)
    requires r.Propose? && investigation.hypotheses != []
    ensures var plan := Drafted(allowed, r, investigation, uuid);
      && (plan.status == Proposed || plan.status == RecommendationOnly)
      && plan.riskLevel == RiskFor(plan.actionType)
      && (plan.status == Proposed <==> Grounded(allowed, plan, investigation))
      && (plan.status == Proposed ==> plan.actionType == RestartPod)
  {
    var plan := Drafted(allowed, r, investigation, uuid);
    var bare := plan.(checks := [], status := if RiskFor(r.actionType).Low? then Proposed else RecommendationOnly);
    ProposalAllowedIff(allowed, bare, investigation);
    assert Grounded(allowed, bare, investigation) <==> Grounded(allowed, plan, investigation);
    assert RiskFor(r.actionType).Low? <==> r.actionType == RestartPod;
    assert plan.checks == EvaluateProposal(allowed, bare, investigation);
  }

  lemma StartKeeps(w: World, c: Id, answer: Answer)
    requires Inv(w) && c in w.calls && w.calls[c].phase.Starting?
    ensures Inv(Start(w, c, w.calls[c].request, answer))
  {
    var r := w.calls[c].request;
    LocalStep(w, c, Raised(false));
    LocalStep(w, c, Loading);
    if r.Propose? && r.incidentId in w.investigations && w.investigations[r.incidentId].hypotheses != [] {
      DraftedFacts(w.allowed, r, w.investigations[r.incidentId], answer.uuid);
      LocalStep(w, c, Creating(Drafted(w.allowed, r, w.investigations[r.incidentId], answer.uuid)));
    }
  }

  lemma InsertRows(w: World, draft: Plan)
    requires (forall p :: p in w.rows ==> RowInv(w, p)) && (forall p :: p in w.owner ==> OwnerInv(w, p))
    requires draft.id !in w.rows && (draft.status == Proposed || draft.status == RecommendationOnly)
    requires draft.riskLevel == RiskFor(draft.actionType) && (draft.status == Proposed ==> draft.actionType == RestartPod)
    ensures var v := w.(rows := Create(w.rows, draft)); forall p :: p in v.rows ==> RowInv(v, p)
  {
    forall p | p in w.owner ensures p in w.rows { assert OwnerInv(w, p); }
    var v := w.(rows := Create(w.rows, draft));
    forall p | p in v.rows ensures RowInv(v, p) { if p in w.rows { assert RowInv(w, p); } }
  }

  lemma InsertFrame(w: World, v: World, c: Id, draft: Plan)
    requires c in w.calls && draft.id !in w.rows && v == Goto(w.(rows := Create(w.rows, draft)), c, Returned(draft))
    ensures Frame(w, v, c)
  {
  }

  lemma Inserted(w: World, v: World, c: Id, draft: Plan)
    requires Inv(w) && c in w.calls && w.calls[c].phase == Creating(draft) && draft.id !in w.rows
    requires draft.status == Proposed || draft.status == RecommendationOnly
    requires v == Goto(w.(rows := Create(w.rows, draft)), c, Returned(draft))
    requires forall p :: p in v.rows ==> RowInv(w.(rows := Create(w.rows, draft)), p)
    ensures Inv(v)
  {
    InsertFrame(w, v, c, draft);
    LogsKept(w, v, c);
    RowsUntouched(w.(rows := Create(w.rows, draft)), v);
    ForCallers(w, v, c);
  }

  lemma InsertKeeps(w: World, c: Id, draft: Plan)
    requires Inv(w) && c in w.calls && w.calls[c].phase == Creating(draft)
    ensures Inv(Insert(w, c, draft))
  {
    assert CallInv(w, c);
    if draft.id in w.rows {
      LocalStep(w, c, Raised(false));
    } else {
      InsertRows(w, draft);
      Inserted(w, Insert(w, c, draft), c, draft);
    }
  }

  lemma LoadKeeps(w: World, c: Id, answer: Answer)
    requires Inv(w) && c in w.calls && w.calls[c].phase == Loading
    ensures Inv(Load(w, c, w.calls[c].request, answer))
  {
    var r := w.calls[c].request;
    if r.Propose? || !Decidable(w.rows, r) {
      LocalStep(w, c, Raised(false));
    } else {
      assert RowInv(w, r.planId);
      var read := w.rows[r.planId].snapshot;
      LocalStep(w, c, Claiming(read, Decided(read, r, answer.now)));
    }
  }

  /** A won claim turns the PROPOSED row into the decision, and nothing else. */
  lemma ClaimRows(w: World, v: World, c: Id, r: Request, decision: Plan)
    requires c in w.calls && !r.Propose? && w.calls[c].request == r
    requires (forall p :: p in w.rows ==> RowInv(w, p)) && CanTransition(w.rows, decision, Proposed)
    requires decision.id == r.planId && ClaimInv(w, r, w.rows[r.planId].snapshot, decision)
    requires v == Claim(w, c, r, decision)
    ensures Frame(w, v, c)
    ensures forall p :: p in v.rows ==> RowInv(v, p)
  {
    var p := r.planId;
    assert RowInv(w, p);
    assert SameIdentity(w.rows[p].snapshot, decision);
    forall q | q in v.rows ensures RowInv(v, q) { assert RowInv(w, q); }
  }

  lemma ClaimedCall(w: World, v: World, c: Id, read: Plan, decision: Plan)
    requires c in w.calls && w.calls[c].phase == Claiming(read, decision) && CallInv(w, c)
    requires RowInv(w, w.calls[c].request.planId)
    requires CanTransition(w.rows, decision, Proposed) && v == Claim(w, c, w.calls[c].request, decision)
    ensures CallInv(v, c)
    ensures forall p :: p in v.owner && p !in w.owner ==> OwnerInv(v, p)
  {
  }

  lemma ClaimedFrame(w: World, v: World, c: Id, read: Plan, decision: Plan)
    requires forall p :: p in w.rows ==> RowInv(w, p)
    requires c in w.calls && w.calls[c].phase == Claiming(read, decision)
    requires CallInv(w, c) && CanTransition(w.rows, decision, Proposed)
    requires v == Claim(w, c, w.calls[c].request, decision)
    ensures Frame(w, v, c) && CallInv(v, c)
    ensures forall p :: p in v.rows ==> RowInv(v, p)
    ensures forall p :: p in v.owner && p !in w.owner ==> OwnerInv(v, p)
    ensures v.executions == w.executions && v.receipts == w.receipts
    ensures Owning(w.calls[c].phase) ==> Owning(v.calls[c].phase)
  {
    assert RowInv(w, w.calls[c].request.planId);
    ClaimRows(w, v, c, w.calls[c].request, decision);
    ClaimedCall(w, v, c, read, decision);
  }

  lemma Claimed(w: World, v: World, c: Id, read: Plan, decision: Plan)
    requires Inv(w) && c in w.calls && w.calls[c].phase == Claiming(read, decision)
    requires CallInv(w, c) && CanTransition(w.rows, decision, Proposed)
    requires v == Claim(w, c, w.calls[c].request, decision)
    ensures Inv(v)
  {
    ClaimedFrame(w, v, c, read, decision);
    LogsKept(w, v, c);
    ForCallers(w, v, c);
  }

  lemma ClaimKeeps(w: World, c: Id, read: Plan, decision: Plan)
    requires Inv(w) && c in w.calls && w.calls[c].phase == Claiming(read, decision)
    ensures Inv(Claim(w, c, w.calls[c].request, decision))
  {
    assert CallInv(w, c);
    if CanTransition(w.rows, decision, Proposed) {
      Claimed(w, Claim(w, c, w.calls[c].request, decision), c, read, decision);
    } else {
      LocalStep(w, c, Raised(false));
    }
  }

  lemma InvestigationRead(w: World, c: Id, approved: Plan, investigation: Investigation)
    requires Inv(w) && c in w.calls && w.calls[c].phase == ReadingInvestigation(approved)
    requires w.calls[c].request.incidentId in w.investigations && w.investigations[w.calls[c].request.incidentId] == investigation
    requires investigation.id == approved.investigationId
    ensures Inv(Goto(w, c, ListingPods(approved, investigation)))
  {
    assert CallInv(w, c);
    LocalStep(w, c, ListingPods(approved, investigation));
  }

  lemma InvestigationMissing(w: World, c: Id, approved: Plan)
    requires Inv(w) && c in w.calls && w.calls[c].phase == ReadingInvestigation(approved)
    ensures Inv(Goto(w, c, GivingUp(approved.(status := Failed))))
  {
    assert CallInv(w, c);
    LocalStep(w, c, GivingUp(approved.(status := Failed)));
  }

  lemma ReadInvestigationKeeps(w: World, c: Id, approved: Plan)
    requires Inv(w) && c in w.calls && w.calls[c].phase == ReadingInvestigation(approved)
    ensures Inv(ReadInvestigation(w, c, w.calls[c].request, approved))
  {
    var i := w.calls[c].request.incidentId;
    if i in w.investigations && w.investigations[i].id == approved.investigationId {
      InvestigationRead(w, c, approved, w.investigations[i]);
    } else {
      InvestigationMissing(w, c, approved);
    }
  }

  lemma PodsMissingCall(w: World, c: Id, approved: Plan, investigation: Investigation)
    requires Inv(w) && c in w.calls && w.calls[c].phase == ListingPods(approved, investigation)
    ensures CallInv(Goto(w, c, GivingUp(approved.(status := Failed))), c)
  {
    assert CallInv(w, c);
  }

  lemma PodsMissing(w: World, c: Id, approved: Plan, investigation: Investigation)
    requires Inv(w) && c in w.calls && w.calls[c].phase == ListingPods(approved, investigation)
    ensures Inv(Goto(w, c, GivingUp(approved.(status := Failed))))
  {
    PodsMissingCall(w, c, approved, investigation);
    LocalStep(w, c, GivingUp(approved.(status := Failed)));
  }

  lemma WarrantIgnoresStatus(allowed: set<string>, a: Plan, b: Plan, investigation: Investigation, pod: Pod)
    requires Warranted(allowed, a, investigation, pod) && b == a.(status := b.status, checks := b.checks)
    ensures Warranted(allowed, b, investigation, pod)
  {
  }

  lemma AllowedWarrants(w: World, a: Plan, b: Plan, investigation: Investigation, pod: Option<Pod>)
    requires PolicyAllows(EvaluateExecution(w.allowed, a, investigation, pod)) && b == a.(status := b.status, checks := b.checks)
    ensures ExecutableBy(w, b, investigation, pod)
  {
    ExecutionAllowedIff(w.allowed, a, investigation, pod);
    WarrantIgnoresStatus(w.allowed, a, b, investigation, pod.value);
  }

  lemma JudgedCall(w: World, c: Id, approved: Plan, investigation: Investigation, pod: Option<Pod>, checks: seq<Check>)
    requires c in w.calls && w.calls[c].phase == ListingPods(approved, investigation) && CallInv(w, c)
    requires checks == EvaluateExecution(w.allowed, approved, investigation, pod)
    ensures PolicyAllows(checks) ==>
      CallInv(Goto(w, c, ClaimingExecution(approved.(checks := checks, status := Executing), investigation, pod)), c)
    ensures CallInv(Goto(w, c, GivingUp(approved.(checks := checks, status := Failed))), c)
  {
    if PolicyAllows(checks) {
      AllowedWarrants(w, approved, approved.(checks := checks, status := Executing), investigation, pod);
    }
  }

  lemma Judged(w: World, c: Id, approved: Plan, investigation: Investigation, pod: Option<Pod>, checks: seq<Check>)
    requires Inv(w) && c in w.calls && w.calls[c].phase == ListingPods(approved, investigation)
    requires checks == EvaluateExecution(w.allowed, approved, investigation, pod)
    ensures PolicyAllows(checks) ==>
      Inv(Goto(w, c, ClaimingExecution(approved.(checks := checks, status := Executing), investigation, pod)))
    ensures Inv(Goto(w, c, GivingUp(approved.(checks := checks, status := Failed))))
  {
    assert CallInv(w, c);
    JudgedCall(w, c, approved, investigation, pod, checks);
    LocalStep(w, c, GivingUp(approved.(checks := checks, status := Failed)));
    if PolicyAllows(checks) {
      LocalStep(w, c, ClaimingExecution(approved.(checks := checks, status := Executing), investigation, pod));
    }
  }

  lemma ListPodsKeeps(w: World, c: Id, approved: Plan, investigation: Investigation, answer: Answer)
    requires Inv(w) && c in w.calls && w.calls[c].phase == ListingPods(approved, investigation)
    ensures Inv(ListPods(w, c, approved, investigation, answer))
  {
    if answer.pods.None? {
      PodsMissing(w, c, approved, investigation);
    } else {
      var pod := FindPod(answer.pods.value, approved.target);
      Judged(w, c, approved, investigation, pod, EvaluateExecution(w.allowed, approved, investigation, pod));
    }
  }

  lemma GiveUpKeeps(w: World, c: Id, failed: Plan)
    requires Inv(w) && c in w.calls && w.calls[c].phase == GivingUp(failed)
    ensures Inv(Goto(w.(rows := Update(w.rows, failed)), c, Raised(true)))
  {
    assert CallInv(w, c) && RowInv(w, w.calls[c].request.planId);
    OwnerWrites(w, Goto(w.(rows := Update(w.rows, failed)), c, Raised(true)), c, failed, Raised(true));
  }

  /** The second claim always succeeds. */
  lemma SecondClaimSucceeds(w: World, c: Id, executing: Plan, investigation: Investigation, pod: Option<Pod>)
    requires Inv(w) && c in w.calls && w.calls[c].phase == ClaimingExecution(executing, investigation, pod)
    ensures CanTransition(w.rows, executing, Approved)
    ensures Transition(w.rows, executing, Approved) == Update(w.rows, executing)
  {
    assert CallInv(w, c) && RowInv(w, w.calls[c].request.planId);
  }

  lemma SecondClaimCall(w: World, c: Id, executing: Plan, investigation: Investigation, pod: Option<Pod>)
    requires Inv(w) && c in w.calls && w.calls[c].phase == ClaimingExecution(executing, investigation, pod)
    ensures var v := Goto(w.(rows := Update(w.rows, executing)), c, Calling(executing, investigation, pod));
      CallInv(v, c) && executing.status == Executing
    ensures executing.id in w.owner && w.owner[executing.id] == c && executing.id in w.rows
    ensures SameIdentity(w.rows[executing.id].snapshot, executing)
  {
    assert CallInv(w, c) && RowInv(w, w.calls[c].request.planId);
  }

  lemma ClaimExecutionKeeps(w: World, c: Id, executing: Plan, investigation: Investigation, pod: Option<Pod>)
    requires Inv(w) && c in w.calls && w.calls[c].phase == ClaimingExecution(executing, investigation, pod)
    ensures CanTransition(w.rows, executing, Approved)
    ensures Inv(ClaimExecution(w, c, executing, investigation, pod))
  {
    SecondClaimSucceeds(w, c, executing, investigation, pod);
    SecondClaimCall(w, c, executing, investigation, pod);
    var v := Goto(w.(rows := Update(w.rows, executing)), c, Calling(executing, investigation, pod));
    assert ClaimExecution(w, c, executing, investigation, pod) == v;
    OwnerWrites(w, v, c, executing, Calling(executing, investigation, pod));
  }

  lemma FinishedCall(w: World, c: Id, executing: Plan, ok: bool)
    requires Inv(w) && c in w.calls && w.calls[c].phase == Finishing(executing, ok)
    ensures var final := executing.(status := if ok then Succeeded else Failed);
      && CallInv(Finish(w, c, final), c) && Advances(w.calls[c].phase, Returned(final))
      && final.id in w.owner && w.owner[final.id] == c && final.id in w.rows
      && SameIdentity(w.rows[final.id].snapshot, final)
  {
    assert CallInv(w, c) && RowInv(w, w.calls[c].request.planId);
    assert Receipted(w.calls[c].phase, ok);
  }

  lemma FinishKeeps(w: World, c: Id, executing: Plan, ok: bool)
    requires Inv(w) && c in w.calls && w.calls[c].phase == Finishing(executing, ok)
    ensures Inv(Finish(w, c, executing.(status := if ok then Succeeded else Failed)))
  {
    var final := executing.(status := if ok then Succeeded else Failed);
    FinishedCall(w, c, executing, ok);
    OwnerWrites(w, Finish(w, c, final), c, final, Returned(final));
  }

  lemma ExecutionLogged(w: World, v: World, c: Id, e: Execution)
    requires LogInv(w) && Frame(w, v, c) && v.executions == w.executions + [e] && v.receipts == w.receipts
    requires ExecutionInv(v, e) && e.callId == c && w.owner == v.owner
    requires !Invoked(w.calls[c].phase) && Advances(w.calls[c].phase, v.calls[c].phase)
    ensures LogInv(v)
  {
    forall x | x in w.executions ensures ExecutionInv(v, x) && x.plan.id != e.plan.id {
      assert ExecutionInv(w, x);
      OldExecutionKept(w, v, c, x);
    }
    forall i, j | 0 <= i < j < |v.executions| ensures v.executions[i].plan.id != v.executions[j].plan.id {
      assert v.executions[i] in w.executions;
    }
    forall r | r in w.receipts ensures ReceiptInv(v, r) { OldReceiptKept(w, v, c, r); }
  }

  lemma CallLogged(w: World, v: World, c: Id, e: Execution)
    requires Inv(w) && c in w.calls && w.calls[c].phase.Calling? && e.callId == c
    requires v == Goto(w.(executions := w.executions + [e]), c, Awaiting(w.calls[c].phase.executing))
    requires ExecutionInv(v, e) && CallInv(v, c)
    ensures Inv(v)
  {
    AppendFrame(w, v, c, Awaiting(w.calls[c].phase.executing));
    ExecutionLogged(w, v, c, e);
    RowsUntouched(w, v);
    ForCallers(w, v, c);
  }

  lemma CallKeeps(w: World, c: Id, executing: Plan, investigation: Investigation, pod: Option<Pod>)
    requires Inv(w) && c in w.calls && w.calls[c].phase == Calling(executing, investigation, pod)
    ensures Inv(Goto(w.(executions := w.executions + [Execution(c, executing, investigation, pod)]), c, Awaiting(executing)))
  {
    var e := Execution(c, executing, investigation, pod);
    var v := Goto(w.(executions := w.executions + [e]), c, Awaiting(executing));
    assert CallInv(w, c) && RowInv(w, executing.id);
    assert ExecutionInv(v, e);
    assert CallInv(v, c) by { assert v.executions[|w.executions|] == e; }
    CallLogged(w, v, c, e);
  }

  lemma ReceiptLogged(w: World, v: World, c: Id, s: Receipt)
    requires LogInv(w) && Frame(w, v, c) && v.receipts == w.receipts + [s] && v.executions == w.executions
    requires ReceiptInv(v, s) && v.owner == w.owner && w.owner[s.planId] == c
    requires (forall ok :: !Receipted(w.calls[c].phase, ok)) && Advances(w.calls[c].phase, v.calls[c].phase)
    ensures LogInv(v)
  {
    forall x | x in w.receipts ensures ReceiptInv(v, x) && x.planId != s.planId {
      assert ReceiptInv(w, x);
      OldReceiptKept(w, v, c, x);
    }
    forall i, j | 0 <= i < j < |v.receipts| ensures v.receipts[i].planId != v.receipts[j].planId {
      assert v.receipts[i] in w.receipts;
    }
    forall x | x in w.executions ensures ExecutionInv(v, x) { OldExecutionKept(w, v, c, x); }
  }

  lemma NewReceipt(w: World, v: World, c: Id, executing: Plan, ok: bool, s: Receipt)
    requires Inv(w) && c in w.calls && w.calls[c].phase == SavingReceipt(executing, ok)
    requires s == ReceiptFor(executing, w.calls[c].request.incidentId, ok)
    requires v == Goto(w.(receipts := w.receipts + [s]), c, Finishing(executing, ok))
    ensures ReceiptInv(v, s) && s.planId in w.owner && w.owner[s.planId] == c && CallInv(v, c)
  {
    assert CallInv(w, c) && RowInv(w, executing.id);
    assert ReceiptInv(v, s);
    assert v.receipts[|w.receipts|] == s;
  }

  lemma ReceiptSaved(w: World, v: World, c: Id, s: Receipt)
    requires Inv(w) && c in w.calls && w.calls[c].phase.SavingReceipt?
    requires v == Goto(w.(receipts := w.receipts + [s]), c, Finishing(w.calls[c].phase.executing, w.calls[c].phase.ok))
    requires ReceiptInv(v, s) && w.owner[s.planId] == c && CallInv(v, c)
    ensures Inv(v)
  {
    AppendFrame(w, v, c, Finishing(w.calls[c].phase.executing, w.calls[c].phase.ok));
    ReceiptLogged(w, v, c, s);
    RowsUntouched(w, v);
    ForCallers(w, v, c);
  }

  lemma SaveKeeps(w: World, c: Id, executing: Plan, ok: bool)
    requires Inv(w) && c in w.calls && w.calls[c].phase == SavingReceipt(executing, ok)
    ensures Inv(Goto(w.(receipts := w.receipts + [ReceiptFor(executing, w.calls[c].request.incidentId, ok)]), c, Finishing(executing, ok)))
  {
    var s := ReceiptFor(executing, w.calls[c].request.incidentId, ok);
    var v := Goto(w.(receipts := w.receipts + [s]), c, Finishing(executing, ok));
    NewReceipt(w, v, c, executing, ok, s);
    ReceiptSaved(w, v, c, s);
  }

  lemma AwaitKeeps(w: World, c: Id, executing: Plan, ok: bool)
    requires Inv(w) && c in w.calls && w.calls[c].phase == Awaiting(executing)
    ensures Inv(Goto(w, c, SavingReceipt(executing, ok)))
  {
    assert CallInv(w, c);
    LocalStep(w, c, SavingReceipt(executing, ok));
  }

  lemma OwnerStepKeeps(w: World, c: Id, answer: Answer)
    requires Inv(w) && c in w.calls && Owning(w.calls[c].phase)
    ensures Inv(Step(w, c, answer))
  {
    match w.calls[c].phase
    case ReadingInvestigation(a) => ReadInvestigationKeeps(w, c, a);
    case ListingPods(a, i) => ListPodsKeeps(w, c, a, i, answer);
    case GivingUp(failed) => GiveUpKeeps(w, c, failed);
    case ClaimingExecution(e, i, pod) => ClaimExecutionKeeps(w, c, e, i, pod);
    case Calling(e, i, pod) => CallKeeps(w, c, e, i, pod);
    case Awaiting(e) => AwaitKeeps(w, c, e, answer.executed);
    case SavingReceipt(e, ok) => SaveKeeps(w, c, e, ok);
    case Finishing(e, ok) => FinishKeeps(w, c, e, ok);
    case Returned(_) =>
    case Raised(_) =>
  }

  lemma StepKeeps(w: World, c: Id, answer: Answer)
    requires Inv(w) && c in w.calls
    ensures Inv(Step(w, c, answer))
  {
    if Owning(w.calls[c].phase) {
      OwnerStepKeeps(w, c, answer);
    } else {
      match w.calls[c].phase
      case Starting => StartKeeps(w, c, answer);
      case Creating(draft) => InsertKeeps(w, c, draft);
      case Loading => LoadKeeps(w, c, answer);
      case Claiming(read, decision) => ClaimKeeps(w, c, read, decision);
      case Returned(_) =>
      case Raised(_) =>
    }
  }

  /** New calls, crashes, incidents and investigations touch nothing the invariant reads. */
  lemma SameStateKeeps(w: World, v: World)
    requires Inv(w)
    requires v.(calls := w.calls, incidents := w.incidents, investigations := w.investigations) == w
    requires w.calls.Keys <= v.calls.Keys
    requires forall c :: c in w.calls ==> v.calls[c].(alive := w.calls[c].alive) == w.calls[c]
    requires forall c :: c in v.calls && c !in w.calls ==> v.calls[c].phase.Starting?
    ensures Inv(v)
  {
    forall p | p in v.rows ensures RowInv(v, p) { assert RowInv(w, p); }
    forall p | p in v.owner ensures OwnerInv(v, p) { assert OwnerInv(w, p); }
    forall c | c in v.calls ensures CallInv(v, c) { if c in w.calls { assert CallInv(w, c); } }
    forall e | e in v.executions ensures ExecutionInv(v, e) { assert ExecutionInv(w, e); }
    forall r | r in v.receipts ensures ReceiptInv(v, r) { assert ReceiptInv(w, r); }
  }

  lemma OutsideKeeps(w: World, a: Action)
    requires Inv(w) && !a.Resume?
    ensures Inv(Next(w, a))
  {
    var v := Next(w, a);
    assert v.(calls := w.calls, incidents := w.incidents, investigations := w.investigations) == w;
    SameStateKeeps(w, v);
  }

  lemma NextKeeps(w: World, a: Action)
    requires Inv(w)
    ensures Inv(Next(w, a))
  {
    if a.Resume? {
      if a.c in w.calls && w.calls[a.c].alive { StepKeeps(w, a.c, a.answer); }
    } else {
      OutsideKeeps(w, a);
    }
  }

  lemma {:induction false} RunKeeps(w: World, actions: seq<Action>)
    requires Initial(w) || Inv(w)
    ensures Inv(Run(w, actions))
  {
    if actions != [] {
      RunKeeps(w, actions[..|actions| - 1]);
      NextKeeps(Run(w, actions[..|actions| - 1]), actions[|actions| - 1]);
    }
  }
}

/** Where the evidence for a restart comes from: the moments of the run at which the
    restarting call, already the owner of its plan, read it. */
module RemediationHistory {
  import opened Prelude
  import opened Contracts
  import opened RemediationPolicy
  import opened RemediationProtocol
  import opened RemediationCalls
  import opened RemediationSafety
  import Outcome = RemediationOutcome

  /** Call `c` has won the claim on the plan of its request, which is not executing yet. */
  predicate Holds(u: World, c: Id, r: Request) {
    && c in u.calls && u.calls[c].alive && u.calls[c].request == r && r.Approve?
    && r.planId in u.rows && u.rows[r.planId].status.Approved?
    && r.planId in u.owner && u.owner[r.planId] == c
  }

  /** In `u`, action `a` has call `c` read the investigation table, which holds `v`. */
  predicate Reads(u: World, a: Action, c: Id, r: Request, v: Investigation) {
    && a.Resume? && a.c == c && Holds(u, c, r) && u.calls[c].phase.ReadingInvestigation?
    && r.incidentId in u.investigations && u.investigations[r.incidentId] == v
  }

  /** In `u`, action `a` has call `c` list the pods, among which `target` is `pod`. */
  predicate Lists(u: World, a: Action, c: Id, r: Request, v: Investigation, target: string, pod: Option<Pod>) {
    && a.Resume? && a.c == c && Holds(u, c, r) && u.calls[c].phase.ListingPods? && u.calls[c].phase.investigation == v
    && a.answer.pods.Some? && FindPod(a.answer.pods.value, target) == pod
  }

  predicate ReadAt(w0: World, actions: seq<Action>, k: int, c: Id, r: Request, v: Investigation) {
    0 <= k < |actions| && Reads(Run(w0, actions[..k]), actions[k], c, r, v)
  }

  predicate ListedAt(w0: World, actions: seq<Action>, k: int, c: Id, r: Request, v: Investigation, target: string, pod: Option<Pod>) {
    0 <= k < |actions| && Lists(Run(w0, actions[..k]), actions[k], c, r, v, target, pod)
  }

  ghost predicate WasRead(w0: World, actions: seq<Action>, c: Id, r: Request, v: Investigation) {
    exists k :: ReadAt(w0, actions, k, c, r, v)
  }

  /** The investigation was read, and later the pod was listed. */
  ghost predicate WasObserved(w0: World, actions: seq<Action>, c: Id, r: Request, v: Investigation, target: string, pod: Option<Pod>) {
    exists k, l :: k < l && ReadAt(w0, actions, k, c, r, v) && ListedAt(w0, actions, l, c, r, v, target, pod)
  }

  // ---------- one more action keeps the past ----------

  lemma ReadBefore(w0: World, init: seq<Action>, last: Action, c: Id, r: Request, v: Investigation)
    requires WasRead(w0, init, c, r, v)
    ensures WasRead(w0, init + [last], c, r, v)
  {
    var k :| ReadAt(w0, init, k, c, r, v);
    assert (init + [last])[..k] == init[..k];
    assert ReadAt(w0, init + [last], k, c, r, v);
  }

  lemma ObservedBefore(w0: World, init: seq<Action>, last: Action, c: Id, r: Request, v: Investigation, target: string, pod: Option<Pod>)
    requires WasObserved(w0, init, c, r, v, target, pod)
    ensures WasObserved(w0, init + [last], c, r, v, target, pod)
  {
    var k, l :| k < l && ReadAt(w0, init, k, c, r, v) && ListedAt(w0, init, l, c, r, v, target, pod);
    assert (init + [last])[..k] == init[..k] && (init + [last])[..l] == init[..l];
    assert ReadAt(w0, init + [last], k, c, r, v) && ListedAt(w0, init + [last], l, c, r, v, target, pod);
  }

  lemma ReadNow(w0: World, init: seq<Action>, last: Action, c: Id, r: Request, v: Investigation)
    requires Reads(Run(w0, init), last, c, r, v)
    ensures WasRead(w0, init + [last], c, r, v)
  {
    assert (init + [last])[..|init|] == init;
    assert ReadAt(w0, init + [last], |init|, c, r, v);
  }

  lemma ListedNow(w0: World, init: seq<Action>, last: Action, c: Id, r: Request, v: Investigation, target: string, pod: Option<Pod>)
    requires WasRead(w0, init, c, r, v) && Lists(Run(w0, init), last, c, r, v, target, pod)
    ensures WasObserved(w0, init + [last], c, r, v, target, pod)
  {
    var k :| ReadAt(w0, init, k, c, r, v);
    assert (init + [last])[..k] == init[..k] && (init + [last])[..|init|] == init;
    assert ReadAt(w0, init + [last], k, c, r, v) && ListedAt(w0, init + [last], |init|, c, r, v, target, pod);
  }

  // ---------- what a segment adds ----------

  /** What the position `after` a segment says about the segment. */
  predicate Explains(u: World, a: Action, c: Id, r: Request, before: Phase, after: Phase) {
    match after
    case ListingPods(_, v) => Reads(u, a, c, r, v)
    case ClaimingExecution(e, v, pod) => Lists(u, a, c, r, v, e.target, pod)
    case Calling(e, v, pod) => before == ClaimingExecution(e, v, pod)
    case _ => true
  }

  /** The position of call `c` after its segment. */
  function After(u: World, c: Id, answer: Answer): (phase: Phase)
    requires c in u.calls
  {
    StepMovesOnlyCaller(u, c, answer);
    Step(u, c, answer).calls[c].phase
  }

  lemma EarlyExplained(u: World, c: Id, answer: Answer)
    requires c in u.calls && !Owning(u.calls[c].phase)
    ensures Explains(u, Resume(c, answer), c, u.calls[c].request, u.calls[c].phase, After(u, c, answer))
  {
  }

  lemma OwnerHolds(u: World, c: Id)
    requires Inv(u) && c in u.calls && u.calls[c].alive && (u.calls[c].phase.ReadingInvestigation? || u.calls[c].phase.ListingPods?)
    ensures Holds(u, c, u.calls[c].request)
  {
    assert CallInv(u, c) && RowInv(u, u.calls[c].request.planId);
  }

  lemma ReadingExplained(u: World, c: Id, answer: Answer)
    requires c in u.calls && u.calls[c].phase.ReadingInvestigation? && Holds(u, c, u.calls[c].request)
    ensures Explains(u, Resume(c, answer), c, u.calls[c].request, u.calls[c].phase, After(u, c, answer))
  {
  }

  lemma ListingExplained(u: World, c: Id, answer: Answer)
    requires c in u.calls && u.calls[c].phase.ListingPods? && Holds(u, c, u.calls[c].request)
    ensures Explains(u, Resume(c, answer), c, u.calls[c].request, u.calls[c].phase, After(u, c, answer))
  {
    Outcome.ListPodsFollows(u, c, answer, None);
  }

  lemma LateExplained(u: World, c: Id, answer: Answer)
    requires c in u.calls && Owning(u.calls[c].phase) && !u.calls[c].phase.ReadingInvestigation? && !u.calls[c].phase.ListingPods?
    ensures Explains(u, Resume(c, answer), c, u.calls[c].request, u.calls[c].phase, After(u, c, answer))
  {
  }

  lemma SegmentExplained(u: World, c: Id, answer: Answer)
    requires Inv(u) && c in u.calls && u.calls[c].alive
    ensures Explains(u, Resume(c, answer), c, u.calls[c].request, u.calls[c].phase, After(u, c, answer))
  {
    if u.calls[c].phase.ReadingInvestigation? {
      OwnerHolds(u, c);
      ReadingExplained(u, c, answer);
    } else if u.calls[c].phase.ListingPods? {
      OwnerHolds(u, c);
      ListingExplained(u, c, answer);
    } else if Owning(u.calls[c].phase) {
      LateExplained(u, c, answer);
    } else {
      EarlyExplained(u, c, answer);
    }
  }

  // ---------- every position has its history ----------

  ghost predicate Traced(w0: World, actions: seq<Action>, c: Id, r: Request, phase: Phase) {
    match phase
    case ListingPods(_, v) => WasRead(w0, actions, c, r, v)
    case ClaimingExecution(e, v, pod) => WasObserved(w0, actions, c, r, v, e.target, pod)
    case Calling(e, v, pod) => WasObserved(w0, actions, c, r, v, e.target, pod)
    case _ => true
  }

  lemma TracedLater(w0: World, init: seq<Action>, last: Action, c: Id, r: Request, phase: Phase)
    requires Traced(w0, init, c, r, phase)
    ensures Traced(w0, init + [last], c, r, phase)
  {
    match phase
    case ListingPods(_, v) => ReadBefore(w0, init, last, c, r, v);
    case ClaimingExecution(e, v, pod) => ObservedBefore(w0, init, last, c, r, v, e.target, pod);
    case Calling(e, v, pod) => ObservedBefore(w0, init, last, c, r, v, e.target, pod);
    case _ =>
  }

  lemma TracedOn(w0: World, init: seq<Action>, last: Action, c: Id, r: Request, before: Phase, after: Phase)
    requires Traced(w0, init, c, r, before) && Explains(Run(w0, init), last, c, r, before, after)
    requires c in Run(w0, init).calls && Run(w0, init).calls[c].phase == before
    ensures Traced(w0, init + [last], c, r, after)
  {
    match after
    case ListingPods(_, v) => ReadNow(w0, init, last, c, r, v);
    case ClaimingExecution(e, v, pod) => ListedNow(w0, init, last, c, r, v, e.target, pod);
    case Calling(e, v, pod) => ObservedBefore(w0, init, last, c, r, v, e.target, pod);
    case _ =>
  }

  lemma StaysPut(u: World, a: Action, c: Id)
    requires c in u.calls && !(a.Resume? && a.c == c && u.calls[c].alive)
    ensures c in Next(u, a).calls && Next(u, a).calls[c] == u.calls[c].(alive := Next(u, a).calls[c].alive)
  {
    if !Mentions(a, c) { OtherActionKeepsCall(u, a, c); }
  }

  lemma RequestStays(u: World, a: Action, c: Id)
    requires c in u.calls
    ensures c in Next(u, a).calls && Next(u, a).calls[c].request == u.calls[c].request
  {
    if a.Resume? && a.c == c && u.calls[c].alive {
      Outcome.StepSpends(u, c, a.answer);
    } else {
      StaysPut(u, a, c);
    }
  }

  ghost predicate CallTraced(w0: World, actions: seq<Action>, w: World, c: Id)
    requires c in w.calls
  {
    Traced(w0, actions, c, w.calls[c].request, w.calls[c].phase)
  }

  lemma OwnSegmentTraced(w0: World, init: seq<Action>, u: World, answer: Answer, c: Id)
    requires u == Run(w0, init) && Inv(u) && c in u.calls && u.calls[c].alive && CallTraced(w0, init, u, c)
    ensures c in Step(u, c, answer).calls && CallTraced(w0, init + [Resume(c, answer)], Step(u, c, answer), c)
  {
    SegmentExplained(u, c, answer);
    Outcome.StepSpends(u, c, answer);
    TracedOn(w0, init, Resume(c, answer), c, u.calls[c].request, u.calls[c].phase, After(u, c, answer));
  }

  lemma OtherActionTraced(w0: World, init: seq<Action>, u: World, last: Action, c: Id)
    requires c in u.calls && CallTraced(w0, init, u, c) && !(last.Resume? && last.c == c && u.calls[c].alive)
    ensures c in Next(u, last).calls && CallTraced(w0, init + [last], Next(u, last), c)
  {
    StaysPut(u, last, c);
    TracedLater(w0, init, last, c, u.calls[c].request, u.calls[c].phase);
  }

  lemma NewCallStarts(u: World, a: Action, c: Id)
    requires c !in u.calls && c in Next(u, a).calls
    ensures Next(u, a).calls[c].phase.Starting?
  {
    if a.Resume? && a.c in u.calls && u.calls[a.c].alive { StepMovesOnlyCaller(u, a.c, a.answer); }
  }

  lemma {:induction false} EveryCallTraced(w0: World, actions: seq<Action>, c: Id)
    requires Initial(w0) && c in Run(w0, actions).calls
    ensures CallTraced(w0, actions, Run(w0, actions), c)
  {
    if actions != [] {
      var init, last := actions[..|actions| - 1], actions[|actions| - 1];
      assert actions == init + [last];
      var u := Run(w0, init);
      if c !in u.calls {
        NewCallStarts(u, last, c);
      } else {
        EveryCallTraced(w0, init, c);
        if last.Resume? && last.c == c && u.calls[c].alive {
          RunKeeps(w0, init);
          OwnSegmentTraced(w0, init, u, last.answer, c);
        } else {
          OtherActionTraced(w0, init, u, last, c);
        }
      }
    }
  }

  // ---------- every execution has its history ----------

  lemma ListPodsExecutesNothing(u: World, c: Id, approved: Plan, v: Investigation, answer: Answer)
    requires c in u.calls
    ensures ListPods(u, c, approved, v, answer).executions == u.executions
  {
  }

  lemma OnlyCallingExecutes(u: World, c: Id, answer: Answer)
    requires c in u.calls && !u.calls[c].phase.Calling? && !u.calls[c].phase.ListingPods?
    ensures Step(u, c, answer).executions == u.executions
  {
  }

  /** A new execution is the one its call was about to make. */
  lemma NewExecution(u: World, a: Action, e: Execution)
    requires e in Next(u, a).executions && e !in u.executions
    ensures e.callId in u.calls && u.calls[e.callId].phase == Calling(e.plan, e.investigation, e.pod)
  {
    if a.Resume? && a.c in u.calls && u.calls[a.c].alive {
      var phase := u.calls[a.c].phase;
      if phase.ListingPods? {
        ListPodsExecutesNothing(u, a.c, phase.approved, phase.investigation, a.answer);
      } else if !phase.Calling? {
        OnlyCallingExecutes(u, a.c, a.answer);
      }
    }
  }

  lemma {:induction false} ExecutionTraced(w0: World, actions: seq<Action>, e: Execution)
    requires Initial(w0) && e in Run(w0, actions).executions
    ensures e.callId in Run(w0, actions).calls
    ensures WasObserved(w0, actions, e.callId, Run(w0, actions).calls[e.callId].request, e.investigation, e.plan.target, e.pod)
  {
    assert actions != [];
    var init, last := actions[..|actions| - 1], actions[|actions| - 1];
    assert actions == init + [last];
    var u := Run(w0, init);
    if e in u.executions {
      ExecutionTraced(w0, init, e);
    } else {
      NewExecution(u, last, e);
      EveryCallTraced(w0, init, e.callId);
    }
    ObservedBefore(w0, init, last, e.callId, u.calls[e.callId].request, e.investigation, e.plan.target, e.pod);
    RequestStays(u, last, e.callId);
  }

  /** Every restart goes back to two moments of the run after its approval was claimed: one
      when the latest investigation of the plan's incident was the one the restart relied on,
      and a later one when the cluster listed the pod that was restarted. */
  lemma EveryRestartObserved(w0: World, actions: seq<Action>, i: nat) returns (k: nat, l: nat)
    requires Initial(w0) && i < |Run(w0, actions).executions|
    ensures var w := Run(w0, actions);
      var e := w.executions[i];
      && e.callId in w.calls && w.calls[e.callId].request.Approve?
      && var r := w.calls[e.callId].request;
         && r.planId == e.plan.id && r.incidentId == e.plan.incidentId
         && k < l && ReadAt(w0, actions, k, e.callId, r, e.investigation)
         && ListedAt(w0, actions, l, e.callId, r, e.investigation, e.plan.target, e.pod)
  {
    var w := Run(w0, actions);
    var e := w.executions[i];
    RunKeeps(w0, actions);
    ExecutionTraced(w0, actions, e);
    var k', l' :| k' < l' && ReadAt(w0, actions, k', e.callId, w.calls[e.callId].request, e.investigation)
      && ListedAt(w0, actions, l', e.callId, w.calls[e.callId].request, e.investigation, e.plan.target, e.pod);
    k, l := k', l';
    assert ExecutionInv(w, e) && OwnerInv(w, e.plan.id) && CallInv(w, e.callId);
  }
}

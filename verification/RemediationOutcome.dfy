/** What becomes of a call under any interleaving with others: it ends within a fixed number
    of its own segments, and once it has won its claim, what it read and was answered
    decides how. */
module RemediationOutcome {
  import opened Prelude
  import opened Contracts
  import opened RemediationPolicy
  import opened RemediationProtocol
  import opened RemediationCalls
  import opened RemediationSafety

  predicate Ended(phase: Phase) { phase.Returned? || phase.Raised? }

  // ---------- one segment of an owner ----------

  /** What one segment of a call can see besides its own locals: the latest investigation of
      its incident, and the answer of the outside. */
  datatype Input = Input(latest: Option<Investigation>, answer: Answer)

  function LatestOf(w: World, incident: Id): Option<Investigation> {
    if incident in w.investigations then Some(w.investigations[incident]) else None
  }

  /** Where the checks send an approval. */
  function Revalidated(approved: Plan, v: Investigation, pod: Option<Pod>, checks: seq<Check>): (p: Phase)
    ensures p.ClaimingExecution? || p.GivingUp?
  {
    if PolicyAllows(checks) then ClaimingExecution(approved.(checks := checks, status := Executing), v, pod)
    else GivingUp(approved.(checks := checks, status := Failed))
  }

  /** Where the answer of the cluster sends an approval. */
  function Listed(allowed: set<string>, approved: Plan, v: Investigation, answer: Answer): (p: Phase)
    ensures p.ClaimingExecution? || p.GivingUp?
  {
    if answer.pods.None? then GivingUp(approved.(status := Failed))
    else
      var pod := FindPod(answer.pods.value, approved.target);
      Revalidated(approved, v, pod, EvaluateExecution(allowed, approved, v, pod))
  }

  /** Where an approval that has won its claim goes next: a function of where it is and of its
      input, and of nothing the other calls can write. */
  function Moved(allowed: set<string>, phase: Phase, i: Input): Phase {
    match phase
    case ReadingInvestigation(a) =>
      if i.latest.Some? && i.latest.value.id == a.investigationId then ListingPods(a, i.latest.value)
      else GivingUp(a.(status := Failed))
    case ListingPods(a, v) => Listed(allowed, a, v, i.answer)
    case GivingUp(_) => Raised(true)
    case ClaimingExecution(e, v, pod) => Calling(e, v, pod)
    case Calling(e, _, _) => Awaiting(e)
    case Awaiting(e) => SavingReceipt(e, i.answer.executed)
    case SavingReceipt(e, ok) => Finishing(e, ok)
    case Finishing(e, ok) => Returned(e.(status := if ok then Succeeded else Failed))
    case _ => phase
  }

  /** `v` is `w` after a segment that took `c` where its input says. */
  predicate Follows(w: World, v: World, c: Id, i: Input) {
    && c in w.calls && c in v.calls && v.allowed == w.allowed
    && v.calls[c] == w.calls[c].(phase := Moved(w.allowed, w.calls[c].phase, i))
  }

  lemma ListPodsFollows(w: World, c: Id, answer: Answer, latest: Option<Investigation>)
    requires c in w.calls && w.calls[c].phase.ListingPods?
    ensures Follows(w, Step(w, c, answer), c, Input(latest, answer))
  {
  }

  // ---------- calls end ----------

  /** How many segments a call has left at most. */
  function Fuel(phase: Phase): nat {
    match phase
    case Starting => 10
    case Loading => 9
    case Claiming(_, _) => 8
    case ReadingInvestigation(_) => 7
    case ListingPods(_, _) => 6
    case ClaimingExecution(_, _, _) => 5
    case Calling(_, _, _) => 4
    case Awaiting(_) => 3
    case SavingReceipt(_, _) => 2
    case Finishing(_, _) | GivingUp(_) | Creating(_) => 1
    case Returned(_) | Raised(_) => 0
  }

  predicate Crashes(actions: seq<Action>, c: Id) { Crash(c) in actions }

  /** How many segments of call `c` a run contains. */
  function Segments(actions: seq<Action>, c: Id): nat {
    if actions == [] then 0
    else
      var last := actions[|actions| - 1];
      Segments(actions[..|actions| - 1], c) + if last.Resume? && last.c == c then 1 else 0
  }

  /** From `w` to `v` call `c` changed only its position, and has less to do unless it had ended. */
  predicate Spends(w: World, v: World, c: Id) {
    && c in w.calls && c in v.calls && v.calls[c] == w.calls[c].(phase := v.calls[c].phase)
    && if Ended(w.calls[c].phase) then v.calls[c] == w.calls[c] else Fuel(v.calls[c].phase) < Fuel(w.calls[c].phase)
  }

  lemma GotoSpends(w: World, u: World, c: Id, phase: Phase)
    requires c in w.calls && u.calls == w.calls && Fuel(phase) < Fuel(w.calls[c].phase)
    ensures Spends(w, Goto(u, c, phase), c)
  {
  }

  lemma EarlySpends(w: World, c: Id, answer: Answer)
    requires c in w.calls && (w.calls[c].phase.Starting? || w.calls[c].phase.Loading? || w.calls[c].phase.Claiming?)
    ensures Spends(w, Step(w, c, answer), c)
  {
  }

  lemma RevalidationSpends(w: World, c: Id, answer: Answer)
    requires c in w.calls && (w.calls[c].phase.ReadingInvestigation? || w.calls[c].phase.ClaimingExecution?)
    ensures Spends(w, Step(w, c, answer), c)
  {
  }

  lemma ListedSpends(allowed: set<string>, phase: Phase, i: Input)
    requires phase.ListingPods?
    ensures Fuel(Moved(allowed, phase, i)) < Fuel(phase)
  {
  }

  lemma ListPodsSpends(w: World, c: Id, answer: Answer)
    requires c in w.calls && w.calls[c].phase.ListingPods?
    ensures Spends(w, Step(w, c, answer), c)
  {
    ListPodsFollows(w, c, answer, None);
    ListedSpends(w.allowed, w.calls[c].phase, Input(None, answer));
  }

  lemma ExecutionSpends(w: World, c: Id, answer: Answer)
    requires c in w.calls && (w.calls[c].phase.Calling? || w.calls[c].phase.Awaiting? || w.calls[c].phase.SavingReceipt?)
    ensures Spends(w, Step(w, c, answer), c)
  {
    match w.calls[c].phase
    case Calling(e, v, pod) => GotoSpends(w, w.(executions := w.executions + [Execution(c, e, v, pod)]), c, Awaiting(e));
    case Awaiting(e) => GotoSpends(w, w, c, SavingReceipt(e, answer.executed));
    case SavingReceipt(e, ok) =>
      GotoSpends(w, w.(receipts := w.receipts + [ReceiptFor(e, w.calls[c].request.incidentId, ok)]), c, Finishing(e, ok));
  }

  lemma LastSpends(w: World, c: Id, answer: Answer)
    requires c in w.calls && Fuel(w.calls[c].phase) == 1
    ensures Spends(w, Step(w, c, answer), c)
  {
    match w.calls[c].phase
    case Creating(draft) =>
      GotoSpends(w, w, c, Raised(false));
      GotoSpends(w, w.(rows := Create(w.rows, draft)), c, Returned(draft));
    case GivingUp(failed) => GotoSpends(w, w.(rows := Update(w.rows, failed)), c, Raised(true));
    case Finishing(e, ok) =>
      var final := e.(status := if ok then Succeeded else Failed);
      GotoSpends(w, w.(rows := Update(w.rows, final)), c, Returned(final));
  }

  lemma StepSpends(w: World, c: Id, answer: Answer)
    requires c in w.calls
    ensures Spends(w, Step(w, c, answer), c)
  {
    var fuel := Fuel(w.calls[c].phase);
    if fuel >= 8 {
      EarlySpends(w, c, answer);
    } else if fuel == 6 {
      ListPodsSpends(w, c, answer);
    } else if fuel >= 5 {
      RevalidationSpends(w, c, answer);
    } else if fuel >= 2 {
      ExecutionSpends(w, c, answer);
    } else if fuel == 1 {
      LastSpends(w, c, answer);
    }
  }

  /** No action but a segment of its own or its crash touches a call. */
  lemma UnlessCrashed(w: World, a: Action, c: Id)
    requires c in w.calls && a != Crash(c) && !(a.Resume? && a.c == c)
    ensures c in Next(w, a).calls && Next(w, a).calls[c] == w.calls[c]
  {
    if !Mentions(a, c) { OtherActionKeepsCall(w, a, c); }
  }

  lemma {:induction false} SegmentsSpend(w: World, actions: seq<Action>, c: Id)
    requires c in w.calls && w.calls[c].alive && !Crashes(actions, c)
    ensures var v := Run(w, actions);
      && c in v.calls && v.calls[c] == w.calls[c].(phase := v.calls[c].phase)
      && (Ended(v.calls[c].phase) || Fuel(v.calls[c].phase) + Segments(actions, c) <= Fuel(w.calls[c].phase))
  {
    if actions != [] {
      var init, last := actions[..|actions| - 1], actions[|actions| - 1];
      assert actions == init + [last];
      SegmentsSpend(w, init, c);
      var u := Run(w, init);
      if last.Resume? && last.c == c {
        StepSpends(u, c, last.answer);
      } else {
        assert last in actions && last != Crash(c);
        UnlessCrashed(u, last, c);
      }
    }
  }

  /** A call of any kind that does not crash has ended after ten segments of its own at the
      latest, whatever happens in between. */
  lemma EndsWithinTen(w: World, actions: seq<Action>, c: Id)
    requires c in w.calls && w.calls[c].alive && !Crashes(actions, c) && Segments(actions, c) >= 10
    ensures c in Run(w, actions).calls && Ended(Run(w, actions).calls[c].phase)
  {
    SegmentsSpend(w, actions, c);
  }

  // ---------- what decides the outcome of an approval ----------

  /** The inputs of the segments of call `c` in a run. */
  function InputsOf(w: World, actions: seq<Action>, c: Id, incident: Id): (inputs: seq<Input>)
    ensures |inputs| == Segments(actions, c)
  {
    if actions == [] then []
    else
      var init, last := actions[..|actions| - 1], actions[|actions| - 1];
      InputsOf(w, init, c, incident)
      + if last.Resume? && last.c == c then [Input(LatestOf(Run(w, init), incident), last.answer)] else []
  }

  function Fate(allowed: set<string>, phase: Phase, inputs: seq<Input>): Phase {
    if inputs == [] then phase
    else Moved(allowed, Fate(allowed, phase, inputs[..|inputs| - 1]), inputs[|inputs| - 1])
  }

  lemma ClaimFollows(w: World, c: Id, e: Plan, v: Investigation, pod: Option<Pod>, i: Input)
    requires c in w.calls && w.calls[c].phase == ClaimingExecution(e, v, pod) && CanTransition(w.rows, e, Approved)
    ensures Follows(w, ClaimExecution(w, c, e, v, pod), c, i)
  {
  }

  lemma OthersFollow(w: World, c: Id, answer: Answer)
    requires c in w.calls && Owning(w.calls[c].phase) && !w.calls[c].phase.ListingPods? && !w.calls[c].phase.ClaimingExecution?
    ensures Follows(w, Step(w, c, answer), c, Input(LatestOf(w, w.calls[c].request.incidentId), answer))
  {
  }

  lemma OwnerFollows(w: World, c: Id, answer: Answer)
    requires Inv(w) && c in w.calls && Owning(w.calls[c].phase)
    ensures Follows(w, Step(w, c, answer), c, Input(LatestOf(w, w.calls[c].request.incidentId), answer))
  {
    if w.calls[c].phase.ListingPods? {
      ListPodsFollows(w, c, answer, LatestOf(w, w.calls[c].request.incidentId));
    } else if w.calls[c].phase.ClaimingExecution? {
      var phase := w.calls[c].phase;
      SecondClaimSucceeds(w, c, phase.executing, phase.investigation, phase.pod);
      ClaimFollows(w, c, phase.executing, phase.investigation, phase.pod, Input(LatestOf(w, w.calls[c].request.incidentId), answer));
    } else {
      OthersFollow(w, c, answer);
    }
  }

  lemma MovedOwns(allowed: set<string>, phase: Phase, i: Input)
    requires Owning(phase)
    ensures Owning(Moved(allowed, phase, i))
  {
  }

  lemma OneMoreInput(w: World, init: seq<Action>, last: Action, c: Id, incident: Id)
    ensures InputsOf(w, init + [last], c, incident) == InputsOf(w, init, c, incident)
      + if last.Resume? && last.c == c then [Input(LatestOf(Run(w, init), incident), last.answer)] else []
  {
    assert (init + [last])[..|init|] == init;
  }

  lemma FateOfOneMore(allowed: set<string>, phase: Phase, inputs: seq<Input>, i: Input)
    ensures Fate(allowed, phase, inputs + [i]) == Moved(allowed, Fate(allowed, phase, inputs), i)
  {
    assert (inputs + [i])[..|inputs|] == inputs;
  }

  /** Call `c` is where its inputs put it. */
  predicate Sealed(w: World, v: World, c: Id, inputs: seq<Input>) {
    && c in w.calls && c in v.calls && v.allowed == w.allowed
    && v.calls[c] == w.calls[c].(phase := Fate(w.allowed, w.calls[c].phase, inputs))
    && Owning(v.calls[c].phase)
  }

  lemma AllowedStays(w: World, a: Action)
    ensures Next(w, a).allowed == w.allowed
  {
    if a.Resume? && a.c in w.calls { StepMovesOnlyCaller(w, a.c, a.answer); }
  }

  lemma SealedStep(w: World, u: World, last: Action, c: Id, inputs: seq<Input>)
    requires Inv(u) && Sealed(w, u, c, inputs) && u.calls[c].alive && last != Crash(c)
    ensures Sealed(w, Next(u, last), c,
      inputs + if last.Resume? && last.c == c then [Input(LatestOf(u, w.calls[c].request.incidentId), last.answer)] else [])
  {
    if last.Resume? && last.c == c {
      var i := Input(LatestOf(u, w.calls[c].request.incidentId), last.answer);
      OwnerFollows(u, c, last.answer);
      MovedOwns(w.allowed, u.calls[c].phase, i);
      FateOfOneMore(w.allowed, w.calls[c].phase, inputs, i);
    } else {
      UnlessCrashed(u, last, c);
      AllowedStays(u, last);
      assert inputs + [] == inputs;
    }
  }

  /** Under any interleaving, an approval that has won its claim is where its own inputs put
      it: nothing the other calls do can change its course. */
  lemma {:induction false} FateSealed(w: World, actions: seq<Action>, c: Id)
    requires Inv(w) && c in w.calls && w.calls[c].alive && Owning(w.calls[c].phase) && !Crashes(actions, c)
    ensures Sealed(w, Run(w, actions), c, InputsOf(w, actions, c, w.calls[c].request.incidentId))
  {
    if actions != [] {
      var init, last := actions[..|actions| - 1], actions[|actions| - 1];
      assert actions == init + [last];
      assert last in actions;
      FateSealed(w, init, c);
      RunKeeps(w, init);
      SealedStep(w, Run(w, init), last, c, InputsOf(w, init, c, w.calls[c].request.incidentId));
      OneMoreInput(w, init, last, c, w.calls[c].request.incidentId);
    }
  }

  // ---------- the outcome ----------

  lemma {:induction false} FateOn(allowed: set<string>, phase: Phase, a: seq<Input>, b: seq<Input>)
    ensures Fate(allowed, phase, a + b) == Fate(allowed, Fate(allowed, phase, a), b)
  {
    if b == [] {
      assert a + b == a;
    } else {
      FateOn(allowed, phase, a, b[..|b| - 1]);
      assert (a + b)[..|a + b| - 1] == a + b[..|b| - 1];
    }
  }

  lemma FateOfFirst(allowed: set<string>, phase: Phase, inputs: seq<Input>)
    requires inputs != []
    ensures Fate(allowed, phase, inputs) == Fate(allowed, Moved(allowed, phase, inputs[0]), inputs[1..])
  {
    assert inputs == [inputs[0]] + inputs[1..];
    assert [inputs[0]][..0] == [];
    FateOn(allowed, phase, [inputs[0]], inputs[1..]);
  }

  lemma {:induction false} FateOfEnded(allowed: set<string>, phase: Phase, inputs: seq<Input>)
    requires Ended(phase)
    ensures Fate(allowed, phase, inputs) == phase
  {
    if inputs != [] {
      FateOfEnded(allowed, phase, inputs[..|inputs| - 1]);
    }
  }

  /** What an approval needs to find: the approved investigation still the latest one when it
      is read, and a listed pod with everything as promised. */
  ghost predicate Sound(allowed: set<string>, approved: Plan, read: Input, listed: Input) {
    && read.latest.Some? && read.latest.value.id == approved.investigationId
    && listed.answer.pods.Some? && FindPod(listed.answer.pods.value, approved.target).Some?
    && Warranted(allowed, approved, read.latest.value, FindPod(listed.answer.pods.value, approved.target).value)
  }

  lemma FateOfFinishing(allowed: set<string>, e: Plan, ok: bool, inputs: seq<Input>)
    requires inputs != []
    ensures Fate(allowed, Finishing(e, ok), inputs) == Returned(e.(status := if ok then Succeeded else Failed))
  {
    FateOfFirst(allowed, Finishing(e, ok), inputs);
    FateOfEnded(allowed, Returned(e.(status := if ok then Succeeded else Failed)), inputs[1..]);
  }

  lemma FateOfSaving(allowed: set<string>, e: Plan, ok: bool, inputs: seq<Input>)
    requires |inputs| >= 2
    ensures Fate(allowed, SavingReceipt(e, ok), inputs) == Returned(e.(status := if ok then Succeeded else Failed))
  {
    FateOfFirst(allowed, SavingReceipt(e, ok), inputs);
    FateOfFinishing(allowed, e, ok, inputs[1..]);
  }

  lemma FateOfAwaiting(allowed: set<string>, e: Plan, inputs: seq<Input>)
    requires |inputs| >= 3
    ensures Fate(allowed, Awaiting(e), inputs) == Returned(e.(status := if inputs[0].answer.executed then Succeeded else Failed))
  {
    FateOfFirst(allowed, Awaiting(e), inputs);
    FateOfSaving(allowed, e, inputs[0].answer.executed, inputs[1..]);
  }

  lemma FateOfCaller(allowed: set<string>, e: Plan, v: Investigation, pod: Option<Pod>, inputs: seq<Input>)
    requires |inputs| >= 5
    ensures Fate(allowed, ClaimingExecution(e, v, pod), inputs)
      == Returned(e.(status := if inputs[2].answer.executed then Succeeded else Failed))
  {
    FateOfFirst(allowed, ClaimingExecution(e, v, pod), inputs);
    FateOfFirst(allowed, Calling(e, v, pod), inputs[1..]);
    FateOfAwaiting(allowed, e, inputs[2..]);
  }

  lemma FateOfFailed(allowed: set<string>, failed: Plan, inputs: seq<Input>)
    requires inputs != []
    ensures Fate(allowed, GivingUp(failed), inputs) == Raised(true)
  {
    FateOfFirst(allowed, GivingUp(failed), inputs);
    FateOfEnded(allowed, Raised(true), inputs[1..]);
  }

  lemma FateOfApproved(allowed: set<string>, approved: Plan, inputs: seq<Input>)
    requires |inputs| >= 7
    ensures var end := Fate(allowed, ReadingInvestigation(approved), inputs);
      if Sound(allowed, approved, inputs[0], inputs[1])
      then end.Returned? && end.result.status == if inputs[4].answer.executed then Succeeded else Failed
      else end == Raised(true)
  {
    FateOfFirst(allowed, ReadingInvestigation(approved), inputs);
    if inputs[0].latest.Some? && inputs[0].latest.value.id == approved.investigationId {
      var v := inputs[0].latest.value;
      FateOfFirst(allowed, ListingPods(approved, v), inputs[1..]);
      if inputs[1].answer.pods.Some? {
        var pod := FindPod(inputs[1].answer.pods.value, approved.target);
        var checks := EvaluateExecution(allowed, approved, v, pod);
        ExecutionAllowedIff(allowed, approved, v, pod);
        if PolicyAllows(checks) {
          FateOfCaller(allowed, approved.(checks := checks, status := Executing), v, pod, inputs[2..]);
        } else {
          FateOfFailed(allowed, approved.(checks := checks, status := Failed), inputs[2..]);
        }
      } else {
        FateOfFailed(allowed, approved.(status := Failed), inputs[2..]);
      }
    } else {
      FateOfFailed(allowed, approved.(status := Failed), inputs[1..]);
    }
  }

  lemma EndedRow(v: World, c: Id)
    requires Inv(v) && c in v.calls && Owning(v.calls[c].phase) && Ended(v.calls[c].phase)
    ensures var r := v.calls[c].request;
      && r.Approve? && r.planId in v.rows
      && v.rows[r.planId].status == if v.calls[c].phase.Returned? then v.calls[c].phase.result.status else Failed
  {
    assert CallInv(v, c);
    assert RowInv(v, v.calls[c].request.planId);
  }

  /** Under any interleaving with others, an approval that has won its claim and does not crash
      has ended after seven more segments: SUCCEEDED or FAILED as the executor answered if what
      it read was sound, and with an error and a FAILED plan otherwise. */
  lemma ApprovalDecided(w: World, actions: seq<Action>, c: Id, approved: Plan)
    requires Reachable(w) && c in w.calls && w.calls[c].alive && w.calls[c].phase == ReadingInvestigation(approved)
    requires !Crashes(actions, c) && Segments(actions, c) >= 7
    ensures var v, inputs := Run(w, actions), InputsOf(w, actions, c, w.calls[c].request.incidentId);
      && c in v.calls && w.calls[c].request.Approve? && w.calls[c].request.planId in v.rows
      && var end, status := v.calls[c].phase, v.rows[w.calls[c].request.planId].status;
         if Sound(w.allowed, approved, inputs[0], inputs[1])
         then end.Returned? && end.result.status == status == if inputs[4].answer.executed then Succeeded else Failed
         else end == Raised(true) && status == Failed
  {
    ReachableInv(w);
    FateSealed(w, actions, c);
    RunKeeps(w, actions);
    FateOfApproved(w.allowed, approved, InputsOf(w, actions, c, w.calls[c].request.incidentId));
    EndedRow(Run(w, actions), c);
  }
}

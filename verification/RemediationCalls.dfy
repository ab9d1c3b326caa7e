/** What a segment of one call leaves alone: every other call, and the configuration. */
module RemediationCalls {
  import opened Prelude
  import opened Contracts
  import opened RemediationPolicy
  import opened RemediationProtocol

  predicate OnlyMoves(w: World, v: World, c: Id) {
    v.allowed == w.allowed && c in w.calls && c in v.calls && v.calls == w.calls[c := v.calls[c]]
  }

  lemma ListPodsMoves(w: World, c: Id, approved: Plan, investigation: Investigation, answer: Answer)
    requires c in w.calls
    ensures OnlyMoves(w, ListPods(w, c, approved, investigation, answer), c)
  {
  }

  lemma OwnerMovesOnlyItself(w: World, c: Id, answer: Answer)
    requires c in w.calls && Owning(w.calls[c].phase) && !w.calls[c].phase.ListingPods?
    ensures OnlyMoves(w, Step(w, c, answer), c)
  {
  }

  /** Of all the calls a segment moves only its own, and the configuration stays. */
  lemma StepMovesOnlyCaller(w: World, c: Id, answer: Answer)
    requires c in w.calls
    ensures OnlyMoves(w, Step(w, c, answer), c)
  {
    var phase := w.calls[c].phase;
    if phase.ListingPods? {
      ListPodsMoves(w, c, phase.approved, phase.investigation, answer);
    } else if Owning(phase) {
      OwnerMovesOnlyItself(w, c, answer);
    }
  }

  predicate Mentions(a: Action, c: Id) {
    (a.Submit? || a.Resume? || a.Crash?) && a.c == c
  }

  /** The actions of everybody else while call `c` is suspended. */
  predicate Elsewhere(gap: seq<Action>, c: Id) {
    forall a :: a in gap ==> !Mentions(a, c)
  }

  lemma OtherActionKeepsCall(w: World, a: Action, c: Id)
    requires c in w.calls && !Mentions(a, c)
    ensures c in Next(w, a).calls && Next(w, a).calls[c] == w.calls[c]
  {
    if a.Resume? && a.c in w.calls && w.calls[a.c].alive {
      StepMovesOnlyCaller(w, a.c, a.answer);
    }
  }

  lemma {:induction false} ElsewhereKeepsCall(w: World, gap: seq<Action>, c: Id)
    requires c in w.calls && Elsewhere(gap, c)
    ensures c in Run(w, gap).calls && Run(w, gap).calls[c] == w.calls[c]
  {
    if gap != [] {
      ElsewhereKeepsCall(w, gap[..|gap| - 1], c);
      OtherActionKeepsCall(Run(w, gap[..|gap| - 1]), gap[|gap| - 1], c);
    }
  }
}

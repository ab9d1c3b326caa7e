/** Laws of the experiment lifecycle, for every point of failure, and what the independent
    check of the journal can conclude from an interleaving of many runs. */
module ExperimentLaws {
  import opened Prelude
  import opened Ordering
  import opened Contracts
  import opened Experiment

  // ---------- cleanup ----------

  predicate IsDelete(a: Act) { a.Did? && a.call.Delete? }

  function Deletes(acts: seq<Act>): nat { |Filter(acts, IsDelete)| }

  lemma DeletesAppend(a: seq<Act>, b: seq<Act>)
    ensures Deletes(a + b) == Deletes(a) + Deletes(b)
  {
    FilterAppend(a, b, IsDelete);
  }

  lemma NoDeletes(acts: seq<Act>)
    requires forall a :: a in acts ==> !IsDelete(a)
    ensures Deletes(acts) == 0
  {
    FilterNone(acts, IsDelete);
  }

  lemma CleanupDeletes(x: Id, s: Script)
    ensures Deletes(CleanupTrace(x, s)) == if WasApplied(s) then 1 else 0
  {
    if WasApplied(s) {
      var rest := if s.delete.Returns? then [] else [Recorded(Event(Failed, x, CleanupError(s.delete.error)), s.cleanup)];
      DeletesAppend([Did(Delete, s.delete)], rest);
      NoDeletes(rest);
      assert CleanupTrace(x, s) == [Did(Delete, s.delete)] + rest;
      assert Filter([Did(Delete, s.delete)][1..], IsDelete) == [];
    }
  }

  lemma AppliedInTrace(x: Id, s: Script)
    ensures Did(Apply, Returns) in Trace(x, s) <==> ErrorOf(s.planned).None? && WasApplied(s)
  {
    if ErrorOf(s.planned).None? && WasApplied(s) {
      assert BodyTrace(x, s)[1] == Did(Apply, Returns);
      assert Did(Apply, Returns) in BodyTrace(x, s);
    }
  }

  /** Wherever a run fails or is cancelled, the fault is deleted exactly once if its
      manifest was applied, and never otherwise. */
  lemma DeletedOnceIffApplied(x: Id, s: Script)
    ensures Deletes(Trace(x, s)) == if Did(Apply, Returns) in Trace(x, s) then 1 else 0
  {
    AppliedInTrace(x, s);
    var planned := [Recorded(Event(Planned, x, Nothing), s.planned)];
    NoDeletes(planned);
    if ErrorOf(s.planned).None? {
      var b, f, c, r := BodyTrace(x, s), FailureTrace(x, s), CleanupTrace(x, s), RecoveryTrace(x, s);
      NoDeletes(b);
      NoDeletes(f);
      NoDeletes(r);
      CleanupDeletes(x, s);
      DeletesAppend(planned + b + f + c, r);
      DeletesAppend(planned + b + f, c);
      DeletesAppend(planned + b, f);
      DeletesAppend(planned, b);
    }
  }

  // ---------- recovery ----------

  /** The one way a run gets as far as recording the recovery, which may end as `last` says. */
  function CleanRun(x: Id, last: Write): seq<Act> {
    [Recorded(Event(Planned, x, Nothing), Appended), Did(Require, Returns), Did(Apply, Returns), Did(Wait, Returns),
     Recorded(Event(Applied, x, Nothing), Appended), Did(Sleep, Returns), Did(Delete, Returns),
     Recorded(Event(Recovered, x, Nothing), last)]
  }

  /** Nothing went wrong before the recovery was to be recorded. */
  predicate Clean(s: Script) { ErrorOf(s.planned).None? && AfterCleanup(s).None? }

  lemma CleanMeans(s: Script)
    ensures Clean(s) <==>
      && s.planned.Appended? && s.require.Returns? && s.apply.Returns? && s.wait.Returns? && s.applied.Appended?
      && s.sleep.Returns? && s.delete.Returns?
  {
  }

  lemma CleanTrace(x: Id, s: Script)
    requires Clean(s)
    ensures Trace(x, s) == CleanRun(x, s.recovered)
  {
    CleanMeans(s);
    assert FailureTrace(x, s) == [] && CleanupTrace(x, s) == [Did(Delete, Returns)];
    assert RecoveryTrace(x, s) == [Recorded(Event(Recovered, x, Nothing), s.recovered)];
  }

  /** A recovery that is in the journal. */
  predicate IsRecovery(a: Act) { a.Recorded? && a.event.kind.Recovered? && !a.write.RaisedBefore? }

  lemma NoEarlyRecovery(x: Id, s: Script)
    ensures forall a :: a in BodyTrace(x, s) ==> !IsRecovery(a)
    ensures forall a :: a in FailureTrace(x, s) ==> !IsRecovery(a)
    ensures forall a :: a in CleanupTrace(x, s) ==> !IsRecovery(a)
  {
  }

  lemma RecoveryNeedsClean(x: Id, s: Script, a: Act)
    requires a in Trace(x, s) && IsRecovery(a)
    ensures Clean(s) && !s.recovered.RaisedBefore?
  {
    NoEarlyRecovery(x, s);
    assert ErrorOf(s.planned).None?;
    assert a in RecoveryTrace(x, s);
  }

  /** RECOVERED is journalled if and only if apply, injection, sleep and delete succeeded, in
      that order, and a receipt is given if and only if recording it did not fail either. */
  lemma RecoveredOnlyAfterCleanup(x: Id, s: Script)
    ensures (exists a :: a in Trace(x, s) && IsRecovery(a)) <==>
      Trace(x, s) == CleanRun(x, s.recovered) && !s.recovered.RaisedBefore?
    ensures Ending(x, s).Receipt? <==> Trace(x, s) == CleanRun(x, Appended)
  {
    if a :| a in Trace(x, s) && IsRecovery(a) {
      RecoveryNeedsClean(x, s, a);
      CleanTrace(x, s);
    }
    if Trace(x, s) == CleanRun(x, s.recovered) && !s.recovered.RaisedBefore? {
      assert IsRecovery(CleanRun(x, s.recovered)[7]) && CleanRun(x, s.recovered)[7] in CleanRun(x, s.recovered);
    }
    if Ending(x, s).Receipt? {
      CleanTrace(x, s);
    }
    if Trace(x, s) == CleanRun(x, Appended) {
      var a := CleanRun(x, Appended)[7];
      assert a in Trace(x, s) && IsRecovery(a);
      RecoveryNeedsClean(x, s, a);
      CleanTrace(x, s);
      assert CleanRun(x, s.recovered)[7] == a;
    }
  }

  // ---------- the error that is raised ----------

  /** The first call in a trace that raised. */
  function FirstRaise(acts: seq<Act>): Option<Error> {
    if acts == [] then None
    else First(if acts[0].Did? then Raised(acts[0].step) else None, FirstRaise(acts[1..]))
  }

  /** The last append in a trace that raised. */
  function LastJournalError(acts: seq<Act>): Option<Error> {
    if acts == [] then None
    else First(LastJournalError(acts[1..]), if acts[0].Recorded? then ErrorOf(acts[0].write) else None)
  }

  lemma {:induction false} RaisesAppend(a: seq<Act>, b: seq<Act>)
    ensures FirstRaise(a + b) == First(FirstRaise(a), FirstRaise(b))
    ensures LastJournalError(a + b) == First(LastJournalError(b), LastJournalError(a))
  {
    if a == [] {
      assert a + b == b;
    } else {
      RaisesAppend(a[1..], b);
      assert (a + b)[1..] == a[1..] + b;
    }
  }

  lemma RaisesOfOne(a: Act)
    ensures FirstRaise([a]) == if a.Did? then Raised(a.step) else None
    ensures LastJournalError([a]) == if a.Recorded? then ErrorOf(a.write) else None
  {
    assert [a][1..] == [];
  }

  lemma RaisesOfTwo(a: Act, b: Act)
    requires a.Did?
    ensures FirstRaise([a, b]) == First(Raised(a.step), if b.Did? then Raised(b.step) else None)
    ensures LastJournalError([a, b]) == if b.Recorded? then ErrorOf(b.write) else None
  {
    RaisesAppend([a], [b]);
    RaisesOfOne(a);
    RaisesOfOne(b);
    assert [a] + [b] == [a, b];
  }

  lemma InjectionRaises(x: Id, s: Script)
    ensures FirstRaise(InjectionTrace(x, s))
      == First(Raised(s.wait), if ErrorOf(s.applied).Some? then None else Raised(s.sleep))
    ensures LastJournalError(InjectionTrace(x, s)) == if s.wait.Returns? then ErrorOf(s.applied) else None
  {
    var waited, recorded := Did(Wait, s.wait), Recorded(Event(Applied, x, Nothing), s.applied);
    RaisesOfOne(waited);
    RaisesOfTwo(waited, recorded);
    RaisesAppend([waited, recorded], [Did(Sleep, s.sleep)]);
    RaisesOfOne(Did(Sleep, s.sleep));
    assert [waited] + [recorded] == [waited, recorded];
  }

  lemma BodyRaises(x: Id, s: Script)
    ensures BodyError(s) == First(LastJournalError(BodyTrace(x, s)), FirstRaise(BodyTrace(x, s)))
    ensures LastJournalError(BodyTrace(x, s)).Some? ==> FirstRaise(BodyTrace(x, s)).None?
  {
    var required, applied := Did(Require, s.require), Did(Apply, s.apply);
    RaisesOfOne(required);
    RaisesOfTwo(required, applied);
    InjectionRaises(x, s);
    RaisesAppend([required, applied], InjectionTrace(x, s));
  }

  lemma FailureRaises(x: Id, s: Script)
    ensures FirstRaise(FailureTrace(x, s)) == None
    ensures LastJournalError(FailureTrace(x, s)) == if BodyError(s).Some? then ErrorOf(s.failed) else None
  {
    if BodyError(s).Some? {
      RaisesOfOne(Recorded(Event(Failed, x, RunError(BodyError(s).value)), s.failed));
    }
  }

  lemma CleanupRaises(x: Id, s: Script)
    ensures FirstRaise(CleanupTrace(x, s)) == if WasApplied(s) then Raised(s.delete) else None
    ensures LastJournalError(CleanupTrace(x, s)) == if WasApplied(s) && s.delete.Raises? then ErrorOf(s.cleanup) else None
  {
    if WasApplied(s) {
      RaisesOfOne(Did(Delete, s.delete));
      if s.delete.Raises? {
        RaisesOfTwo(Did(Delete, s.delete), Recorded(Event(Failed, x, CleanupError(s.delete.error)), s.cleanup));
      }
    }
  }

  lemma RecoveryRaises(x: Id, s: Script)
    ensures FirstRaise(RecoveryTrace(x, s)) == None
    ensures LastJournalError(RecoveryTrace(x, s)) == if AfterCleanup(s).None? then ErrorOf(s.recovered) else None
  {
    if AfterCleanup(s).None? {
      RaisesOfOne(Recorded(Event(Recovered, x, Nothing), s.recovered));
    }
  }

  lemma TraceRaises(x: Id, s: Script)
    requires ErrorOf(s.planned).None?
    ensures var b, f, c, r := BodyTrace(x, s), FailureTrace(x, s), CleanupTrace(x, s), RecoveryTrace(x, s);
      && FirstRaise(Trace(x, s)) == First(FirstRaise(b), First(FirstRaise(f), First(FirstRaise(c), FirstRaise(r))))
      && LastJournalError(Trace(x, s))
        == First(LastJournalError(r), First(LastJournalError(c), First(LastJournalError(f), LastJournalError(b))))
  {
    var p := [Recorded(Event(Planned, x, Nothing), s.planned)];
    var b, f, c, r := BodyTrace(x, s), FailureTrace(x, s), CleanupTrace(x, s), RecoveryTrace(x, s);
    RaisesOfOne(p[0]);
    RaisesAppend(p + b + f + c, r);
    RaisesAppend(p + b + f, c);
    RaisesAppend(p + b, f);
    RaisesAppend(p, b);
  }

  /** For every script: the error that escapes is that of the last append that was made and
      raised; if no append raised, that of the first call that raised; and a run in which
      nothing raised gives the receipt. */
  lemma WhatEscapes(x: Id, s: Script)
    ensures var error := First(LastJournalError(Trace(x, s)), FirstRaise(Trace(x, s)));
      Ending(x, s) == if error.Some? then Escaped(error.value) else Receipt(x)
  {
    if ErrorOf(s.planned).Some? {
      RaisesOfOne(Recorded(Event(Planned, x, Nothing), s.planned));
    } else {
      TraceRaises(x, s);
      BodyRaises(x, s);
      FailureRaises(x, s);
      CleanupRaises(x, s);
      RecoveryRaises(x, s);
    }
  }

  /** So the first error of a run is the one raised if and only if no append raised, or the
      last one that did raised the same error. */
  lemma FirstErrorEscapesIff(x: Id, s: Script)
    requires FirstRaise(Trace(x, s)).Some?
    ensures var e, journal := FirstRaise(Trace(x, s)).value, LastJournalError(Trace(x, s));
      Ending(x, s) == Escaped(e) <==> journal.None? || journal.value == e
  {
    WhatEscapes(x, s);
  }

  /** A journal that fails can hide the first error. */
  lemma JournalCanHideErrors()
    ensures exists s, e, f :: e != f && FirstRaise(Trace(0, s)) == Some(e) && Ending(0, s) == Escaped(f)
  {
    var s := Script(Returns, Raises(1), Returns, Returns, Returns, Appended, Appended, RaisedBefore(2, Untouched), Appended, Appended);
    TraceRaises(0, s);
    BodyRaises(0, s);
    WhatEscapes(0, s);
    assert FirstRaise(Trace(0, s)) == Some(1) && Ending(0, s) == Escaped(2);
  }

  // ---------- reading the journal back ----------

  /** Read, write and search for the owner of the directory, read and write for the owner of the
      file, and nothing for anybody else: 0700 and 0600. */
  lemma OwnerOnly()
    ensures OWNER_ONLY_DIRECTORY == (4 + 2 + 1) * 8 * 8 && OWNER_ONLY_FILE == (4 + 2) * 8 * 8
  {
  }

  datatype RunRecord = RunRecord(experiment: Id, script: Script)

  function EventsOf(r: RunRecord): seq<Event> { Written(Trace(r.experiment, r.script)) }

  function KindsOf(r: RunRecord): seq<Kind> { Map(EventsOf(r), (e: Event) => e.kind) }

  predicate GaveReceipt(r: RunRecord) { Ending(r.experiment, r.script).Receipt? }

  /** The only run that looks complete without a receipt: recording the recovery wrote it
      and then failed. */
  predicate LostReceipt(r: RunRecord) { Clean(r.script) && r.script.recovered.RaisedAfter? }

  lemma {:induction false} WrittenIsRecorded(acts: seq<Act>, e: Event)
    requires e in Written(acts)
    ensures exists a :: a in acts && a.Recorded? && a.event == e && !a.write.RaisedBefore?
  {
    var init, last := acts[..|acts| - 1], acts[|acts| - 1];
    assert acts == init + [last];
    if e in Written(init) {
      WrittenIsRecorded(init, e);
    }
  }

  lemma {:induction false} WrittenAppend(a: seq<Act>, b: seq<Act>)
    ensures Written(a + b) == Written(a) + Written(b)
  {
    if b == [] {
      assert a + b == a;
    } else {
      WrittenAppend(a, b[..|b| - 1]);
      assert (a + b)[..|a + b| - 1] == a + b[..|b| - 1];
    }
  }

  lemma {:induction false} CallsWriteNothing(calls: seq<Act>)
    requires forall a :: a in calls ==> a.Did?
    ensures Written(calls) == []
  {
    if calls != [] {
      assert calls[|calls| - 1] in calls;
      CallsWriteNothing(calls[..|calls| - 1]);
    }
  }

  lemma WrittenOne(a: Act)
    ensures Written([a]) == WrittenBy(a)
  {
    assert [a][..0] == [];
  }

  lemma CleanEvents(x: Id, last: Write)
    requires !last.RaisedBefore?
    ensures Map(Written(CleanRun(x, last)), (e: Event) => e.kind) == EXPECTED
  {
    var p, a, r := Event(Planned, x, Nothing), Event(Applied, x, Nothing), Event(Recovered, x, Nothing);
    var first, middle, final := [Recorded(p, Appended)], [Recorded(a, Appended)], [Recorded(r, last)];
    var inject, finish := [Did(Require, Returns), Did(Apply, Returns), Did(Wait, Returns)], [Did(Sleep, Returns), Did(Delete, Returns)];
    assert CleanRun(x, last) == first + inject + middle + finish + final;
    CallsWriteNothing(inject);
    CallsWriteNothing(finish);
    WrittenAppend(first + inject + middle + finish, final);
    WrittenAppend(first + inject + middle, finish);
    WrittenAppend(first + inject, middle);
    WrittenAppend(first, inject);
    WrittenOne(first[0]);
    WrittenOne(middle[0]);
    WrittenOne(final[0]);
  }

  /** No append fails. */
  predicate Reliable(s: Script) {
    s.planned.Appended? && s.applied.Appended? && s.failed.Appended? && s.cleanup.Appended? && s.recovered.Appended?
  }

  /** The first of the calls before the cleanup that raises. */
  function Broken(s: Script): Option<Error> {
    if s.require.Raises? then Some(s.require.error)
    else if s.apply.Raises? then Some(s.apply.error)
    else if s.wait.Raises? then Some(s.wait.error)
    else if s.sleep.Raises? then Some(s.sleep.error)
    else None
  }

  lemma BodyEvents(x: Id, s: Script)
    requires Reliable(s)
    ensures BodyError(s) == Broken(s)
    ensures Written(BodyTrace(x, s))
      == if s.require.Returns? && s.apply.Returns? && s.wait.Returns? then [Event(Applied, x, Nothing)] else []
  {
    var applied := Recorded(Event(Applied, x, Nothing), s.applied);
    if s.require.Returns? && s.apply.Returns? && s.wait.Returns? {
      var before, after := [Did(Require, s.require), Did(Apply, s.apply), Did(Wait, s.wait)], [Did(Sleep, s.sleep)];
      assert BodyTrace(x, s) == before + [applied] + after;
      WrittenAppend(before + [applied], after);
      WrittenAppend(before, [applied]);
      CallsWriteNothing(before);
      CallsWriteNothing(after);
      WrittenOne(applied);
    } else {
      CallsWriteNothing(BodyTrace(x, s));
    }
  }

  lemma CleanupEvents(x: Id, s: Script)
    requires Reliable(s)
    ensures Written(CleanupTrace(x, s))
      == if WasApplied(s) && s.delete.Raises? then [Event(Failed, x, CleanupError(s.delete.error))] else []
  {
    var deleted := [Did(Delete, s.delete)];
    if WasApplied(s) && s.delete.Raises? {
      var recorded := Recorded(Event(Failed, x, CleanupError(s.delete.error)), s.cleanup);
      assert CleanupTrace(x, s) == deleted + [recorded];
      WrittenAppend(deleted, [recorded]);
      CallsWriteNothing(deleted);
      WrittenOne(recorded);
    } else {
      CallsWriteNothing(CleanupTrace(x, s));
    }
  }

  lemma OtherEvents(x: Id, s: Script)
    requires Reliable(s)
    ensures Written(FailureTrace(x, s)) == if Broken(s).Some? then [Event(Failed, x, RunError(Broken(s).value))] else []
    ensures Written(RecoveryTrace(x, s))
      == if Broken(s).None? && s.delete.Returns? then [Event(Recovered, x, Nothing)] else []
  {
    BodyEvents(x, s);
    if Broken(s).Some? {
      WrittenOne(Recorded(Event(Failed, x, RunError(Broken(s).value)), s.failed));
    } else if s.delete.Returns? {
      WrittenOne(Recorded(Event(Recovered, x, Nothing), s.recovered));
    }
  }

  /** What a run leaves in a journal that does not fail: that it was planned; that it was applied,
      if it came that far; the first error, if there is one; an error of the cleanup, if the manifest
      had been applied; and that it recovered, if there was no error at all. */
  lemma JournalOf(x: Id, s: Script)
    requires Reliable(s)
    ensures Written(Trace(x, s))
      == [Event(Planned, x, Nothing)]
      + (if s.require.Returns? && s.apply.Returns? && s.wait.Returns? then [Event(Applied, x, Nothing)] else [])
      + (if Broken(s).Some? then [Event(Failed, x, RunError(Broken(s).value))] else [])
      + (if s.require.Returns? && s.apply.Returns? && s.delete.Raises? then [Event(Failed, x, CleanupError(s.delete.error))] else [])
      + (if Broken(s).None? && s.delete.Returns? then [Event(Recovered, x, Nothing)] else [])
  {
    var p := [Recorded(Event(Planned, x, Nothing), s.planned)];
    var b, f, c, r := BodyTrace(x, s), FailureTrace(x, s), CleanupTrace(x, s), RecoveryTrace(x, s);
    WrittenOne(p[0]);
    BodyEvents(x, s);
    CleanupEvents(x, s);
    OtherEvents(x, s);
    WrittenAppend(p + b + f + c, r);
    WrittenAppend(p + b + f, c);
    WrittenAppend(p + b, f);
    WrittenAppend(p, b);
  }

  /** The journal of one run shows the complete lifecycle exactly when the run gave a
      receipt, or lost it in the very last append. */
  lemma CompleteIff(r: RunRecord)
    ensures KindsOf(r) == EXPECTED <==> GaveReceipt(r) || LostReceipt(r)
  {
    var x, s := r.experiment, r.script;
    if KindsOf(r) == EXPECTED {
      var e := EventsOf(r)[2];
      assert KindsOf(r)[2] == Recovered && e in EventsOf(r);
      WrittenIsRecorded(Trace(x, s), e);
      var a :| a in Trace(x, s) && a.Recorded? && a.event == e && !a.write.RaisedBefore?;
      RecoveryNeedsClean(x, s, a);
    }
    if GaveReceipt(r) || LostReceipt(r) {
      CleanTrace(x, s);
      CleanEvents(x, s.recovered);
    }
  }

  function FromRun(x: Id): Event -> bool { (e: Event) => e.experiment == x }

  /** `events` is an interleaving of what the runs wrote: one run's events keep their order
      and every event belongs to a run. */
  ghost predicate Interleaves(events: seq<Event>, runs: seq<RunRecord>) {
    && (forall i, j :: 0 <= i < j < |runs| ==> runs[i].experiment != runs[j].experiment)
    && (forall e :: e in events ==> exists r :: r in runs && r.experiment == e.experiment)
    && (forall r :: r in runs ==> Filter(events, FromRun(r.experiment)) == EventsOf(r))
  }

  function LeftTraces(): RunRecord -> bool { (r: RunRecord) => EventsOf(r) != [] }

  function RunIds(runs: seq<RunRecord>): seq<Id> { Map(runs, (r: RunRecord) => r.experiment) }

  lemma IdsAre(events: seq<Event>, x: Id)
    ensures Distinct(ExperimentIds(events))
    ensures x in ExperimentIds(events) <==> Filter(events, FromRun(x)) != []
  {
    var ids := Map(events, IdOf());
    DedupIsDistinct(ids);
    FilterMembers(events, FromRun(x));
    if x in ids {
      var k :| 0 <= k < |events| && ids[k] == x;
      assert events[k] in Filter(events, FromRun(x));
    }
    if Filter(events, FromRun(x)) != [] {
      var e := Filter(events, FromRun(x))[0];
      assert e in Filter(events, FromRun(x));
      var k :| 0 <= k < |events| && events[k] == e;
      assert ids[k] == x;
    }
  }

  lemma DistinctIds(runs: seq<RunRecord>, some: seq<RunRecord>)
    requires forall i, j :: 0 <= i < j < |runs| ==> runs[i].experiment != runs[j].experiment
    requires Distinct(some) && forall r :: r in some ==> r in runs
    ensures Distinct(RunIds(some))
  {
    forall i, j | 0 <= i < j < |some| ensures RunIds(some)[i] != RunIds(some)[j] {
      assert some[i] in runs && some[j] in runs && some[i] != some[j];
    }
  }

  lemma IdOfRun(events: seq<Event>, runs: seq<RunRecord>, recorded: seq<RunRecord>, x: Id)
    requires Interleaves(events, runs) && forall r :: r in recorded <==> r in runs && LeftTraces()(r)
    ensures x in RunIds(recorded) <==> Filter(events, FromRun(x)) != []
  {
    if x in RunIds(recorded) {
      var k :| 0 <= k < |recorded| && RunIds(recorded)[k] == x;
      assert recorded[k] in runs;
    }
    if Filter(events, FromRun(x)) != [] {
      var e := Filter(events, FromRun(x))[0];
      FilterMembers(events, FromRun(x));
      assert e in Filter(events, FromRun(x));
      var r :| r in runs && r.experiment == e.experiment;
      assert r in recorded;
      var k :| 0 <= k < |recorded| && recorded[k] == r;
      assert RunIds(recorded)[k] == x;
    }
  }

  lemma IdsOfRuns(events: seq<Event>, runs: seq<RunRecord>)
    requires Interleaves(events, runs)
    ensures |ExperimentIds(events)| == |Filter(runs, LeftTraces())|
  {
    var recorded := Filter(runs, LeftTraces());
    var ids := RunIds(recorded);
    FilterDistinct(runs, LeftTraces());
    FilterMembers(runs, LeftTraces());
    DistinctIds(runs, recorded);
    forall x ensures x in ExperimentIds(events) <==> x in ids {
      IdsAre(events, x);
      IdOfRun(events, runs, recorded, x);
    }
    IdsAre(events, 0);
    DistinctSameMembers(ExperimentIds(events), ids);
    SamePermutation(ExperimentIds(events), ids);
  }

  lemma LifecycleOf(events: seq<Event>, runs: seq<RunRecord>, r: RunRecord)
    requires Interleaves(events, runs) && r in runs
    ensures Lifecycle(events, r.experiment) == KindsOf(r)
    ensures r.experiment in ExperimentIds(events) <==> EventsOf(r) != []
  {
    FilterSame(events, FromRun(r.experiment), (e: Event) => e.experiment == r.experiment);
    IdsAre(events, r.experiment);
  }

  /** What the check concludes from any interleaving of any number of runs: it accepts if
      and only if the expected number of runs recorded something and each of these
      completed, with a receipt or having lost it in the last append. */
  lemma AcceptsIff(events: seq<Event>, runs: seq<RunRecord>, expected: nat)
    requires Interleaves(events, runs)
    ensures Accepts(events, expected) <==>
      && |Filter(runs, LeftTraces())| == expected
      && forall r :: r in runs && EventsOf(r) != [] ==> GaveReceipt(r) || LostReceipt(r)
  {
    IdsOfRuns(events, runs);
    forall r | r in runs
      ensures Lifecycle(events, r.experiment) == EXPECTED <==> GaveReceipt(r) || LostReceipt(r)
      ensures r.experiment in ExperimentIds(events) <==> EventsOf(r) != []
    {
      LifecycleOf(events, runs, r);
      CompleteIff(r);
    }
    forall x | x in ExperimentIds(events) ensures exists r :: r in runs && r.experiment == x && EventsOf(r) != [] {
      IdsAre(events, x);
      var e := Filter(events, FromRun(x))[0];
      FilterMembers(events, FromRun(x));
      assert e in Filter(events, FromRun(x));
      var r :| r in runs && r.experiment == e.experiment;
    }
  }

  lemma {:induction false} FilterFull<T>(s: seq<T>, p: T -> bool)
    requires |Filter(s, p)| == |s|
    ensures forall x :: x in s ==> p(x)
  {
    if s != [] {
      FilterMembers(s[1..], p);
      FilterFull(s[1..], p);
    }
  }

  lemma CompleteRecords(r: RunRecord)
    requires GaveReceipt(r) || LostReceipt(r)
    ensures LeftTraces()(r)
  {
    CompleteIff(r);
    assert |KindsOf(r)| == |EventsOf(r)|;
  }

  /** When as many runs are expected as were started, the check passes exactly when every
      run completed; and when a failed append never leaves its line behind, exactly when
      every run gave a receipt. */
  lemma AllAcceptedIff(events: seq<Event>, runs: seq<RunRecord>)
    requires Interleaves(events, runs)
    ensures Accepts(events, |runs|) <==> forall r :: r in runs ==> GaveReceipt(r) || LostReceipt(r)
    ensures (forall r :: r in runs ==> !r.script.recovered.RaisedAfter?)
      ==> (Accepts(events, |runs|) <==> forall r :: r in runs ==> GaveReceipt(r))
  {
    AcceptsIff(events, runs, |runs|);
    if Accepts(events, |runs|) {
      FilterFull(runs, LeftTraces());
    }
    if forall r :: r in runs ==> GaveReceipt(r) || LostReceipt(r) {
      forall r | r in runs ensures LeftTraces()(r) { CompleteRecords(r); }
      FilterAll(runs, LeftTraces());
    }
  }

  lemma OwnTrace(x: Id, s: Script)
    ensures forall a :: a in BodyTrace(x, s) && a.Recorded? ==> a.event.experiment == x
    ensures forall a :: a in FailureTrace(x, s) && a.Recorded? ==> a.event.experiment == x
    ensures forall a :: a in CleanupTrace(x, s) && a.Recorded? ==> a.event.experiment == x
    ensures forall a :: a in RecoveryTrace(x, s) && a.Recorded? ==> a.event.experiment == x
  {
  }

  /** A run writes only about itself. */
  lemma OwnEvents(x: Id, s: Script, e: Event)
    requires e in Written(Trace(x, s))
    ensures e.experiment == x
  {
    OwnTrace(x, s);
    WrittenIsRecorded(Trace(x, s), e);
  }

  /** The journal of a run that nobody interleaves with. */
  lemma AloneInJournal(r: RunRecord)
    ensures Interleaves(EventsOf(r), [r])
  {
    var events := EventsOf(r);
    forall e | e in events ensures e.experiment == r.experiment { OwnEvents(r.experiment, r.script, e); }
    FilterAll(events, FromRun(r.experiment));
    assert r in [r];
  }

  function LosingScript(): Script {
    Script(Returns, Returns, Returns, Returns, Returns, Appended, Appended, Appended, Appended, RaisedAfter(1))
  }

  /** A run can lose its receipt and still look complete: the last append wrote its line and
      then failed. */
  lemma LostReceiptIsAccepted()
    ensures var r := RunRecord(0, LosingScript());
      && Interleaves(EventsOf(r), [r]) && Accepts(EventsOf(r), 1)
      && LostReceipt(r) && !GaveReceipt(r)
  {
    var r := RunRecord(0, LosingScript());
    AloneInJournal(r);
    AllAcceptedIff(EventsOf(r), [r]);
  }

  /** A journal that is not accepted draws the first complaint that applies: about the directory,
      the file, the number of experiments, or a lifecycle. */
  lemma ComplaintIff(directoryMode: nat, fileMode: nat, found: nat, expected: nat, n: nat)
    ensures var c, directory, file := FirstComplaint(directoryMode, fileMode, found, expected), directoryMode == 448, fileMode == 384;
      && (c == DirectoryMode <==> !directory) && (c == FileMode <==> directory && !file)
      && (c == WrongCount(n) <==> directory && file && found != expected && n == found)
      && (c == Incomplete <==> directory && file && found == expected)
  {
  }
}

/** Fault-injection experiments: a lifecycle that cleans up at every point of failure, an
    append-only journal, and an independent check of what the journal says. */
module Experiment {
  import opened Prelude
  import opened Ordering
  import opened Contracts

  type Error = nat

  datatype Kind = Planned | Applied | Failed | Recovered

  /** Why a run failed: an error of the run, or of the cleanup. */
  datatype Detail = Nothing | RunError(error: Error) | CleanupError(error: Error)

  datatype Event = Event(kind: Kind, experiment: Id, detail: Detail)

  // ---------- the journal ----------

  /** How far an append that writes nothing got: the modes are set before the line is written. */
  datatype Reached = Untouched | DirectorySet | FileSet

  /** How an append ends: written; refused before it is written; or written, with an error
      after that. */
  datatype Write = Appended | RaisedBefore(error: Error, reached: Reached) | RaisedAfter(error: Error)

  /** Whether the mode of the directory, and that of the file, was set on the way. */
  predicate SetsDirectory(w: Write) { w.RaisedBefore? ==> !w.reached.Untouched? }

  predicate SetsFile(w: Write) { w.RaisedBefore? ==> w.reached.FileSet? }

  function ErrorOf(w: Write): Option<Error> { if w.Appended? then None else Some(w.error) }

  const OWNER_ONLY_DIRECTORY: nat := 448 // 0o700
  const OWNER_ONLY_FILE: nat := 384 // 0o600

  class Journal {
    var events: seq<Event>
    var directoryMode: nat
    var fileMode: nat

    constructor ()
      ensures events == []
    {
      events, directoryMode, fileMode := [], 0, 0;
    }

    /** `GroundTruthJournal.append` ending as `w` says. */
    method Append(e: Event, w: Write) returns (error: Option<Error>)
      modifies this
      ensures error == ErrorOf(w)
      ensures events == if w.RaisedBefore? then old(events) else old(events) + [e]
      ensures directoryMode == if SetsDirectory(w) then OWNER_ONLY_DIRECTORY else old(directoryMode)
      ensures fileMode == if SetsFile(w) then OWNER_ONLY_FILE else old(fileMode)
    {
      if w.RaisedBefore? && w.reached.Untouched? {
        return Some(w.error);
      }
      directoryMode := OWNER_ONLY_DIRECTORY;
      if w.RaisedBefore? && w.reached.DirectorySet? {
        return Some(w.error);
      }
      fileMode := OWNER_ONLY_FILE;
      if w.RaisedBefore? {
        return Some(w.error);
      }
      events := events + [e];
      error := ErrorOf(w);
    }
  }

  // ---------- one run ----------

  datatype Call = Require | Apply | Wait | Sleep | Delete

  /** How an awaited call ends; a cancellation is an error like any other. */
  datatype Step = Returns | Raises(error: Error)

  function Raised(r: Step): Option<Error> { if r.Returns? then None else Some(r.error) }

  /** Everything the environment decides about one run: how each call ends if it is made,
      and how each append ends if it is made. */
  datatype Script = Script(
    require: Step, apply: Step, wait: Step, sleep: Step, delete: Step,
    planned: Write, applied: Write, failed: Write, cleanup: Write, recovered: Write)

  /** A call, or an append to the journal, that was made, with how it ended. */
  datatype Act = Did(call: Call, step: Step) | Recorded(event: Event, write: Write)

  datatype Outcome = Receipt(experiment: Id) | Escaped(error: Error)

  function First(a: Option<Error>, b: Option<Error>): Option<Error> { if a.Some? then a else b }

  /** Whether the manifest is applied when the body of the `try` ends. */
  predicate WasApplied(s: Script) { s.require.Returns? && s.apply.Returns? }

  /** The error that ends what follows a successful apply. */
  function InjectionError(s: Script): Option<Error> {
    First(Raised(s.wait), First(ErrorOf(s.applied), Raised(s.sleep)))
  }

  /** The error that ends the body of the `try`. */
  function BodyError(s: Script): Option<Error> {
    First(Raised(s.require), First(Raised(s.apply), InjectionError(s)))
  }

  /** The error on its way out when `finally` begins. */
  function Pending(s: Script): Option<Error> {
    if BodyError(s).None? then None else First(ErrorOf(s.failed), BodyError(s))
  }

  /** The error on its way out when `finally` ends. */
  function AfterCleanup(s: Script): Option<Error> {
    if !WasApplied(s) || s.delete.Returns? then Pending(s)
    else First(ErrorOf(s.cleanup), First(Pending(s), Raised(s.delete)))
  }

  function Ending(experiment: Id, s: Script): Outcome {
    var error := First(ErrorOf(s.planned), First(AfterCleanup(s), ErrorOf(s.recovered)));
    if error.Some? then Escaped(error.value) else Receipt(experiment)
  }

  /** What follows a successful apply. */
  function InjectionTrace(x: Id, s: Script): seq<Act> {
    var waited := [Did(Wait, s.wait)];
    if s.wait.Raises? then waited
    else
      var recorded := waited + [Recorded(Event(Applied, x, Nothing), s.applied)];
      if ErrorOf(s.applied).Some? then recorded else recorded + [Did(Sleep, s.sleep)]
  }

  function BodyTrace(x: Id, s: Script): seq<Act> {
    if s.require.Raises? then [Did(Require, s.require)]
    else if s.apply.Raises? then [Did(Require, s.require), Did(Apply, s.apply)]
    else [Did(Require, s.require), Did(Apply, s.apply)] + InjectionTrace(x, s)
  }

  function FailureTrace(x: Id, s: Script): seq<Act> {
    if BodyError(s).None? then [] else [Recorded(Event(Failed, x, RunError(BodyError(s).value)), s.failed)]
  }

  function CleanupTrace(x: Id, s: Script): seq<Act> {
    if !WasApplied(s) then []
    else
      [Did(Delete, s.delete)]
      + if s.delete.Returns? then [] else [Recorded(Event(Failed, x, CleanupError(s.delete.error)), s.cleanup)]
  }

  function RecoveryTrace(x: Id, s: Script): seq<Act> {
    if AfterCleanup(s).Some? then [] else [Recorded(Event(Recovered, x, Nothing), s.recovered)]
  }

  /** Everything one run does, in order. */
  function Trace(x: Id, s: Script): seq<Act> {
    var planned := [Recorded(Event(Planned, x, Nothing), s.planned)];
    if ErrorOf(s.planned).Some? then planned
    else planned + BodyTrace(x, s) + FailureTrace(x, s) + CleanupTrace(x, s) + RecoveryTrace(x, s)
  }

  function WrittenBy(a: Act): seq<Event> { if a.Recorded? && !a.write.RaisedBefore? then [a.event] else [] }

  /** What it leaves in the journal. */
  function Written(acts: seq<Act>): seq<Event> {
    if acts == [] then []
    else
      Written(acts[..|acts| - 1]) + WrittenBy(acts[|acts| - 1])
  }

  // ---------- the controller as it is written ----------

  class Controller {
    const journal: Journal
    /** What the current run has done so far. */
    var acts: seq<Act>

    constructor (journal: Journal)
      ensures this.journal == journal && acts == []
    {
      this.journal, acts := journal, [];
    }

    /** The journal holds what was there before the run and what the run wrote, and is
        readable by its owner only once the run wrote something. */
    ghost predicate Synced(before: seq<Event>)
      reads this, journal
    {
      && journal.events == before + Written(acts)
      && (Written(acts) != [] ==> journal.directoryMode == OWNER_ONLY_DIRECTORY && journal.fileMode == OWNER_ONLY_FILE)
    }

    method Do(ghost before: seq<Event>, call: Call, step: Step) returns (error: Option<Error>)
      requires Synced(before)
      modifies `acts
      ensures Synced(before)
      ensures error == Raised(step) && acts == old(acts) + [Did(call, step)]
    {
      acts := acts + [Did(call, step)];
      error := Raised(step);
    }

    method Record(ghost before: seq<Event>, e: Event, w: Write) returns (error: Option<Error>)
      requires Synced(before)
      modifies `acts, journal
      ensures Synced(before)
      ensures error == ErrorOf(w) && acts == old(acts) + [Recorded(e, w)]
    {
      error := journal.Append(e, w);
      acts := acts + [Recorded(e, w)];
    }

    method AwaitInjection(ghost before: seq<Event>, x: Id, s: Script) returns (error: Option<Error>)
      requires Synced(before)
      modifies `acts, journal
      ensures Synced(before)
      ensures error == InjectionError(s) && acts == old(acts) + InjectionTrace(x, s)
    {
      error := Do(before, Wait, s.wait);
      if error.Some? {
        return;
      }
      error := Record(before, Event(Applied, x, Nothing), s.applied);
      if error.Some? {
        return;
      }
      error := Do(before, Sleep, s.sleep);
    }

    /** The body of the `try`. */
    method Inject(ghost before: seq<Event>, x: Id, s: Script) returns (applied: bool, error: Option<Error>)
      requires Synced(before)
      modifies `acts, journal
      ensures Synced(before)
      ensures applied == WasApplied(s) && error == BodyError(s) && acts == old(acts) + BodyTrace(x, s)
    {
      applied := false;
      error := Do(before, Require, s.require);
      if error.Some? {
        return;
      }
      error := Do(before, Apply, s.apply);
      if error.Some? {
        return;
      }
      applied := true;
      ghost var begun := [Did(Require, s.require), Did(Apply, s.apply)];
      assert acts == old(acts) + begun;
      error := AwaitInjection(before, x, s);
      assert acts == old(acts) + (begun + InjectionTrace(x, s));
    }

    /** The `except` clause: the pending error is the run's, unless recording it fails. */
    method Fail(ghost before: seq<Event>, x: Id, s: Script, runError: Option<Error>) returns (pending: Option<Error>)
      requires Synced(before) && runError == BodyError(s)
      modifies `acts, journal
      ensures Synced(before)
      ensures pending == Pending(s) && acts == old(acts) + FailureTrace(x, s)
    {
      if runError.None? {
        return None;
      }
      var failure := Record(before, Event(Failed, x, RunError(runError.value)), s.failed);
      pending := First(failure, runError);
    }

    /** The `finally` clause. */
    method CleanUp(ghost before: seq<Event>, x: Id, s: Script, applied: bool, runError: Option<Error>, raised: Option<Error>)
      returns (pending: Option<Error>)
      requires Synced(before) && applied == WasApplied(s) && runError == BodyError(s) && raised == Pending(s)
      modifies `acts, journal
      ensures Synced(before)
      ensures pending == AfterCleanup(s) && acts == old(acts) + CleanupTrace(x, s)
    {
      pending := raised;
      if applied {
        var cleanupError := Do(before, Delete, s.delete);
        if cleanupError.Some? {
          var failure := Record(before, Event(Failed, x, CleanupError(cleanupError.value)), s.cleanup);
          if failure.Some? {
            pending := failure;
          } else if runError.None? {
            pending := cleanupError;
          }
        }
      }
    }

    method Run(x: Id, s: Script) returns (outcome: Outcome)
      modifies `acts, journal
      ensures outcome == Ending(x, s)
      ensures acts == Trace(x, s)
      ensures journal.events == old(journal.events) + Written(Trace(x, s))
      ensures Written(Trace(x, s)) != [] ==>
                journal.directoryMode == OWNER_ONLY_DIRECTORY && journal.fileMode == OWNER_ONLY_FILE
    {
      acts := [];
      ghost var before := journal.events;
      var error := Record(before, Event(Planned, x, Nothing), s.planned);
      if error.Some? {
        return Escaped(error.value);
      }
      var applied, runError := Inject(before, x, s);
      var pending := Fail(before, x, s, runError);
      pending := CleanUp(before, x, s, applied, runError, pending);
      if pending.Some? {
        return Escaped(pending.value);
      }
      error := Record(before, Event(Recovered, x, Nothing), s.recovered);
      outcome := if error.Some? then Escaped(error.value) else Receipt(x);
    }
  }

  // ---------- the independent check ----------

  datatype Complaint = DirectoryMode | FileMode | WrongCount(found: nat) | Incomplete

  function IdOf(): Event -> Id { (e: Event) => e.experiment }

  function ExperimentIds(events: seq<Event>): seq<Id> { Dedup(Map(events, IdOf())) }

  function Lifecycle(events: seq<Event>, x: Id): seq<Kind> {
    Map(Filter(events, (e: Event) => e.experiment == x), (e: Event) => e.kind)
  }

  const EXPECTED: seq<Kind> := [Planned, Applied, Recovered]

  /** The complaint about a journal that is not accepted. */
  function FirstComplaint(directoryMode: nat, fileMode: nat, found: nat, expected: nat): Complaint {
    if directoryMode != OWNER_ONLY_DIRECTORY then DirectoryMode
    else if fileMode != OWNER_ONLY_FILE then FileMode
    else if found != expected then WrongCount(found)
    else Incomplete
  }

  /** What the check demands of the journal's contents. */
  ghost predicate Accepts(events: seq<Event>, expected: nat) {
    |ExperimentIds(events)| == expected && forall x :: x in ExperimentIds(events) ==> Lifecycle(events, x) == EXPECTED
  }

  /** `verify`. */
  method Verify(directoryMode: nat, fileMode: nat, events: seq<Event>, expected: nat) returns (r: Result<nat, Complaint>)
    ensures r.Ok? <==>
      && directoryMode == OWNER_ONLY_DIRECTORY && fileMode == OWNER_ONLY_FILE
      && Accepts(events, expected)
    ensures r.Ok? ==> r.value == expected
    ensures r.Err? ==> r.error == FirstComplaint(directoryMode, fileMode, |ExperimentIds(events)|, expected)
  {
    if directoryMode != OWNER_ONLY_DIRECTORY {
      return Err(DirectoryMode);
    }
    if fileMode != OWNER_ONLY_FILE {
      return Err(FileMode);
    }
    var experimentIds := ExperimentIds(events);
    if |experimentIds| != expected {
      return Err(WrongCount(|experimentIds|));
    }
    for k := 0 to |experimentIds|
      invariant forall j :: 0 <= j < k ==> Lifecycle(events, experimentIds[j]) == EXPECTED
    {
      var lifecycle := Lifecycle(events, experimentIds[k]);
      if lifecycle != EXPECTED {
        assert experimentIds[k] in experimentIds;
        return Err(Incomplete);
      }
    }
    r := Ok(|experimentIds|);
  }
}

/** The step reporter of one execution context: the object whose methods the
    application calls, updating its three fields in place and calling the
    launch. Each public method keeps `Valid()` and moves the reporter and
    the launch exactly as the matching function of StepSpec says. */
module Steps {
  import opened Reporting
  import opened StepRequests
  import S = StepSpec

  class StepReporter {
    /** The launch the steps are reported to. */
    const launch: Launch
    /** The current nesting target. */
    var parent: ItemId
    /** Closed steps whose finish call has not been sent, head first. */
    var steps: seq<S.StepEntry>
    /** Parents with a FAILED child not yet asked about. */
    var parentFailures: set<ItemId>
    /** The length of the launch's trace when this reporter was created. */
    ghost const origin: nat

    function State(): S.Engine
      reads this
    {
      S.Engine(parent, steps, parentFailures)
    }

    function World(): S.World
      reads this, launch
    {
      S.World(State(), launch.calls)
    }

    ghost predicate Valid()
      reads this, launch
    {
      S.Valid(World(), origin)
    }

    constructor (currentLaunch: Launch)
      ensures launch == currentLaunch && launch.calls == old(currentLaunch.calls)
      ensures State() == S.Initial && origin == |launch.calls|
      ensures Valid()
    {
      launch := currentLaunch;
      parent := NoItem;
      steps := [];
      parentFailures := {};
      origin := |currentLaunch.calls|;
      new;
      S.InitialValid(launch.calls);
    }

    /** `setParent`; `None` stands for a null argument. */
    method SetParent(p: Option<ItemId>)
      requires Valid()
      modifies this
      ensures Valid()
      ensures State() == S.SetParent(old(State()), p)
    {
      if p.Some? {
        parent := p.value;
      }
    }

    method RemoveParent() returns (previous: ItemId)
      requires Valid()
      modifies this
      ensures Valid()
      ensures (previous, State()) == S.RemoveParent(old(State()))
    {
      previous := parent;
      parent := NoItem;
    }

    method IsParentFailed(parentId: ItemId) returns (failed: bool)
      requires Valid()
      modifies this
      ensures Valid()
      ensures (failed, State()) == S.IsParentFailed(old(State()), parentId)
    {
      if parentId in parentFailures {
        parentFailures := parentFailures - {parentId};
        return true;
      }
      return false;
    }

    /** `finishPreviousStep`: sends the held-back finish call, if any. */
    method FinishPreviousStep() returns (flushed: Option<S.StepEntry>)
      requires Valid()
      modifies this, launch
      ensures Valid()
      ensures (flushed, World()) == S.FinishPrevious(old(World()))
    {
      S.FinishPreviousValid(World(), origin);
      if steps == [] {
        return None;
      }
      var entry := steps[0];
      steps := steps[1..];
      launch.FinishTestItem(entry.itemId, entry.finishRQ);
      return Some(entry);
    }

    /** `startStepRequest`; the request's start time is updated in place in
        the source, so the request as issued is returned. */
    method StartStepRequest(rq: StartRQ) returns (stepId: ItemId, issued: StartRQ)
      requires Valid()
      modifies this, launch
      ensures (stepId, issued, World()) == S.StartStep(old(World()), rq)
    {
      var previous := FinishPreviousStep();
      issued := rq;
      if previous.Some? {
        var previousDate := previous.value.timestamp;
        if !(previousDate < rq.startTime) {
          issued := rq.(startTime := previousDate + 1);
        }
      }
      stepId := launch.StartTestItem(parent, issued);
    }

    /** `finishStepRequest`; `endClock` is the clock reading it takes. */
    method FinishStepRequest(stepId: ItemId, status: ItemStatus, timestamp: int, endClock: int)
      modifies this
      ensures State() == S.FinishStep(old(State()), stepId, status, timestamp, endClock)
    {
      var finishRQ := BuildFinishTestItemRequest(status, endClock);
      steps := steps + [S.StepEntry(stepId, timestamp, finishRQ)];
      if status == FAILED {
        parentFailures := parentFailures + {parent};
      }
    }

    /** Runs the action block of a step: one `emitLog` per builder. */
    method RunActions(actions: S.Actions)
      modifies launch
      ensures launch.calls == old(launch.calls) + S.EmitAll(S.ActionLogs(actions))
    {
      match actions
      case NoActions =>
      case LogThrowable(throwable) =>
        launch.EmitLog(ErrorLog(throwable, None));
      case LogFiles(files) =>
        for i := 0 to |files|
          invariant launch.calls == old(launch.calls) + S.EmitAll(S.FileLogs(files[..i]))
        {
          assert files[..i + 1] == files[..i] + [files[i]];
          launch.EmitLog(FileLog(files[i]));
        }
        assert files[..|files|] == files;
      case LogThrowableWithFiles(throwable, files) =>
        for i := 0 to |files|
          invariant launch.calls == old(launch.calls) + S.EmitAll(S.ErrorFileLogs(throwable, files[..i]))
        {
          assert files[..i + 1] == files[..i] + [files[i]];
          launch.EmitLog(ErrorLog(throwable, files[i]));
        }
        assert files[..|files|] == files;
    }

    /** The private `sendStep(status, name, actions)`. `startClock` and
        `endClock` are the two clock readings it takes. */
    method SendStepWithActions(status: ItemStatus, name: string, actions: S.Actions,
                               startClock: int, endClock: int)
      requires Valid()
      modifies this, launch
      ensures Valid()
      ensures World() == S.SendStep(old(World()), status, name, actions, startClock, endClock)
    {
      ghost var before := World();
      var rq := BuildStartStepRequest(name, startClock);
      var stepId, issued := StartStepRequest(rq);
      RunActions(actions);
      FinishStepRequest(stepId, status, issued.startTime, endClock);
      S.SendStepValid(before, origin, status, name, actions, startClock, endClock);
    }

    /** `sendStep(name)`: a PASSED step. */
    method SendStep(name: string, startClock: int, endClock: int)
      requires Valid()
      modifies this, launch
      ensures Valid()
      ensures World() == S.SendStep(old(World()), PASSED, name, S.NoActions, startClock, endClock)
    {
      SendStepWithActions(PASSED, name, S.NoActions, startClock, endClock);
    }

    /** `sendStep(status, name)`. */
    method SendStepWithStatus(status: ItemStatus, name: string, startClock: int, endClock: int)
      requires Valid()
      modifies this, launch
      ensures Valid()
      ensures World() == S.SendStep(old(World()), status, name, S.NoActions, startClock, endClock)
    {
      SendStepWithActions(status, name, S.NoActions, startClock, endClock);
    }

    /** `sendStep(status, name, throwable)`: one error log. */
    method SendStepWithThrowable(status: ItemStatus, name: string, throwable: Option<string>,
                                 startClock: int, endClock: int)
      requires Valid()
      modifies this, launch
      ensures Valid()
      ensures World() == S.SendStep(old(World()), status, name, S.LogThrowable(throwable), startClock, endClock)
    {
      SendStepWithActions(status, name, S.LogThrowable(throwable), startClock, endClock);
    }

    /** `sendStep(name, files...)`: a PASSED step with one info log per file. */
    method SendStepWithFiles(name: string, files: seq<File>, startClock: int, endClock: int)
      requires Valid()
      modifies this, launch
      ensures Valid()
      ensures World() == S.SendStep(old(World()), PASSED, name, S.LogFiles(files), startClock, endClock)
    {
      SendStepWithStatusAndFiles(PASSED, name, files, startClock, endClock);
    }

    /** `sendStep(status, name, files...)`. */
    method SendStepWithStatusAndFiles(status: ItemStatus, name: string, files: seq<File>,
                                      startClock: int, endClock: int)
      requires Valid()
      modifies this, launch
      ensures Valid()
      ensures World() == S.SendStep(old(World()), status, name, S.LogFiles(files), startClock, endClock)
    {
      SendStepWithActions(status, name, S.LogFiles(files), startClock, endClock);
    }

    /** `sendStep(status, name, throwable, files...)`: one error log per file;
        a `None` element is a null file, logged without an attachment. */
    method SendStepWithThrowableAndFiles(status: ItemStatus, name: string, throwable: Option<string>,
                                         files: seq<Option<File>>, startClock: int, endClock: int)
      requires Valid()
      modifies this, launch
      ensures Valid()
      ensures World() == S.SendStep(old(World()), status, name, S.LogThrowableWithFiles(throwable, files),
                                    startClock, endClock)
    {
      SendStepWithActions(status, name, S.LogThrowableWithFiles(throwable, files), startClock, endClock);
    }
  }

  /** A PASSED step "A", then a FAILED step "B", on a fresh reporter with no
      parent, the clock going backwards: `isParentFailed` on the empty parent
      answers true, then false, and B starts one millisecond after A. */
  method PassedThenFailed() returns (first: bool, second: bool, startA: int, startB: int)
    ensures first && !second
    ensures startA == 1000 && startB == 1001
  {
    var launch := new Launch();
    var reporter := new StepReporter(launch);
    reporter.SendStepWithStatus(PASSED, "A", 1000, 1005);
    assert launch.calls == [StartItem(NoItem, StartRQ("A", "STEP", false, 1000))];
    assert reporter.parent == NoItem && reporter.steps[0].timestamp == 1000 && |reporter.steps| == 1;
    reporter.SendStepWithStatus(FAILED, "B", 900, 905);
    assert launch.calls[0].rq.startTime == 1000 && launch.calls[2].rq.startTime == 1001;
    assert NoItem in reporter.parentFailures;
    first := reporter.IsParentFailed(NoItem);
    second := reporter.IsParentFailed(NoItem);
    startA := launch.calls[0].rq.startTime;
    startB := launch.calls[2].rq.startTime;
  }
}

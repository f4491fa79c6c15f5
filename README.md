# Nested step reporting, modelled in Dafny

This project models the nested-step engine of the ReportPortal Java client,
`StepReporter`. The engine lets application code declare manual steps inside
a running test item. For one execution context it keeps three pieces of
state:

- `parent`: the current nesting target.
- `steps`: a queue of closed steps whose finish call has not been sent yet.
- `parentFailures`: the parents that have a FAILED child nobody has asked about yet.

It turns `sendStep`, `finishPreviousStep`, `setParent`, `removeParent` and
`isParentFailed` into an ordered series of start-item, finish-item and log
calls on the launch.

Files:

- `reporting.dfy` (module `Reporting`): item handles, statuses, log levels,
  the start and finish request records, the log builders, and the `Launch`.
  The `Launch` records every call it receives in an append-only trace.
- `step_requests.dfy` (module `StepRequests`): the request builders. It also
  holds the choice of log message and the attachment handling of
  `buildSaveLogRequest`.
- `step_spec.dfy` (module `StepSpec`): the engine as pure functions over a
  `World`, which is the engine state plus the launch trace. It also holds
  the invariant `Valid` and the lemmas about the engine.
- `step_reporter.dfy` (module `Steps`): the `StepReporter` class. Its fields
  are updated in place, as in the source. Every method is proved to move
  the reporter and the launch exactly as the matching `StepSpec` function
  says, and every public method is proved to keep `Valid`. The private
  steps of `sendStep` (`StartStepRequest`, `RunActions`,
  `FinishStepRequest`) do not keep it on their own: between the start call
  and the queueing of the new step, the started item is neither finished
  nor held back.

Modelling choices:

- Handles (`Maybe<String>` in the source) are values that are only compared
  for equality. `NoItem` is `Maybe.empty()`. A null argument to `setParent`
  is `None`. The launch returns `Item(k)` for the start call at position `k`
  of its trace, so no two start calls ever return the same handle.
- `sendStep` reads the clock twice: for the start time (line 205) and for
  the end time (line 210). Both readings are parameters, `startClock` and
  `endClock`. Times are milliseconds.
- An `actions` block is one of four values (`StepSpec.Actions`), one for
  each lambda the overloads pass in. A block runs as one `emitLog` call per
  log. Each log is recorded in the same trace as a builder value, which
  stands for the lambda `itemId -> SaveLogRQ`. `StepRequests.BuildLog`
  applies a builder to the item id the logging context passes in. The log
  time is the clock reading that `buildSaveLogRequest` itself takes while
  the builder is applied (line 229); like the result of reading the file
  and the random attachment name, it is a parameter.
- A null throwable is `None`, and so is a null element of the file array
  in `sendStep(status, name, throwable, files...)`, which the code accepts
  and logs without an attachment (line 235).

What is proved:

- `setParent` with a null argument keeps the parent. Otherwise it sets the
  parent, and nothing else changes. `removeParent` returns the old parent
  and clears it.
- `isParentFailed` is check-and-clear. Once a FAILED step is recorded under
  a parent, the next query for that parent answers true and the following
  one answers false.
- `sendStep` adds its calls in this order:
  1. the held-back finish call, if there is one;
  2. the start call, under the current parent, with type `STEP`, no
     statistics and the adjusted start time;
  3. the logs of the step.

  The new step then becomes the held-back one.
- Whatever sequence of calls the application makes, with a non-null status,
  name and file array (see "Left out"), the engine keeps these invariants:
  - at most one step is held back;
  - every finish call comes after the start call of the item it closes;
  - no item is finished twice;
  - every started step is either finished or is the held-back one;
  - the held-back step records the start time it was issued with.
- Consecutive `sendStep` calls issue strictly increasing start times
  whatever the clock readings are, also when `setParent`, `removeParent` or
  `isParentFailed` calls come between them. This includes a clock that
  stands still or goes backwards.

Behaviour of the code that is worth knowing:

- The bump compares the new step only with the step that `sendStep` itself
  flushes. After an explicit `finishPreviousStep`, nothing is held back, so
  the next step starts at the raw clock reading.
- The end time of a held-back finish is the raw second clock reading. It is
  never adjusted, so it can be earlier than the bumped start time.
- `sendStep(status, name, throwable, files...)` emits one error log per
  file. With no files it emits nothing, so the throwable is not reported
  (`StepSpec.ActionLogs`).
- A child thread does not start with an empty step queue. `steps` is an
  `InheritableThreadLocal`, so a child thread shares the parent thread's
  deque. Only `parentFailures` starts empty in a child. Threads are outside
  this model (see below).

## Model

| member | source | states |
|---|---|---|
| `Reporting.Launch.StartTestItem` | src/main/java/com/epam/reportportal/service/step/StepReporter.java:197 | the start call is appended to the trace under the given parent, and the returned handle names that call, so it differs from every earlier handle |
| `Reporting.Launch.FinishTestItem` | src/main/java/com/epam/reportportal/service/step/StepReporter.java:184 | the finish call, with the item and its finish request, is appended to the trace |
| `Reporting.Launch.EmitLog` | src/main/java/com/epam/reportportal/service/step/StepReporter.java:153 | the log emission is appended to the trace in order with the start and finish calls |
| `StepRequests.BuildLog` | src/main/java/com/epam/reportportal/service/step/StepReporter.java:224-252 | an error log has level ERROR and the stack trace as its message, or "Test has failed without exception" when the throwable is null; a file log has level INFO and the file's name as its message; the request is always produced, and it carries an attachment exactly when there is a file and reading it succeeded, so a read failure only drops the attachment |
| `StepRequests.BuildStartStepRequest` | src/main/java/com/epam/reportportal/service/step/StepReporter.java:200-207 | the request carries the given name, type "STEP", hasStats false and the clock reading as its start time |
| `StepRequests.BuildFinishTestItemRequest` | src/main/java/com/epam/reportportal/service/step/StepReporter.java:217-222 | the request carries the status's name and the given end time |
| `StepRequests.ErrorMessage` | src/main/java/com/epam/reportportal/service/step/StepReporter.java:246 | the stack trace of a non-null throwable, else "Test has failed without exception" |
| `StepRequests.BuildSaveLogRequest` | src/main/java/com/epam/reportportal/service/step/StepReporter.java:224-243 | item id, message, level name and the log time read from the clock are set; a null file gives no attachment; a file whose read fails gives no attachment and the request is still produced; a file that reads gives the attachment with its content, media type and name |
| `StepSpec.ActionLogs` | src/main/java/com/epam/reportportal/service/step/StepReporter.java:149-180 | the throwable overload emits exactly one error log without a file; the file overloads emit one INFO log per file, in order; the throwable-with-files overload emits one error log per file, each carrying the throwable and that file (no file for a null element), and nothing when there are no files |
| `StepSpec.SetParent` | src/main/java/com/epam/reportportal/service/step/StepReporter.java:110-114 | a null argument leaves the parent as it was; any other argument becomes the parent; the queue and the failure memo are untouched |
| `StepSpec.RemoveParent` | src/main/java/com/epam/reportportal/service/step/StepReporter.java:116-120 | returns the previous parent and leaves the parent empty; the queue and the failure memo are untouched |
| `StepSpec.IsParentFailed` | src/main/java/com/epam/reportportal/service/step/StepReporter.java:122-128 | answers true exactly when the handle is in the failure memo; afterwards the handle is no longer in it and nothing was added; the parent and the queue are untouched |
| `StepSpec.FinishPrevious` | src/main/java/com/epam/reportportal/service/step/StepReporter.java:182-187 | with an empty queue, returns nothing and changes nothing; otherwise returns the head, removes it from the queue, appends exactly its finish call (its handle and finish request) to the trace, and leaves the parent and the failure memo unchanged |
| `StepSpec.StartStep` | src/main/java/com/epam/reportportal/service/step/StepReporter.java:189-198 | after the flush, the request is issued with its start time adjusted against the flushed entry, a start call under the current parent is appended, and the returned handle names that call |
| `StepSpec.FinishStep` | src/main/java/com/epam/reportportal/service/step/StepReporter.java:209-215 | the entry with the handle, the issued start time and a finish request of the status name and end reading is appended to the queue; FAILED adds the current parent to the memo, any other status leaves the memo; the parent is unchanged |
| `StepSpec.AdjustedStart` | src/main/java/com/epam/reportportal/service/step/StepReporter.java:190-196 | the issued start time is strictly after the flushed step's timestamp; it is the clock reading when that reading is already later, else the timestamp plus one; with nothing flushed it is the clock reading |
| `StepSpec.SendStep` | src/main/java/com/epam/reportportal/service/step/StepReporter.java:130-137 | the trace grows by: the finish of the held-back step (if any), then the start of the new step under the current parent with the given name, type STEP, hasStats false and the adjusted start time, then the action logs; the new step is queued with that adjusted start time and a finish request holding the status name and the end reading; FAILED adds the parent to the failure memo, any other status leaves it unchanged |
| `StepSpec.InitialValid` | src/main/java/com/epam/reportportal/service/step/StepReporter.java:68-84 | a fresh context (no parent, empty queue, empty memo) satisfies the engine invariant from the current end of the trace |
| `StepSpec.FinishPreviousValid` | src/main/java/com/epam/reportportal/service/step/StepReporter.java:182-187 | flushing keeps the invariant and leaves nothing held back: the finish follows its start, the item was not finished before, and the step is no longer pending |
| `StepSpec.StartAfterFlushValid` | src/main/java/com/epam/reportportal/service/step/StepReporter.java:197-211 | after a flush, starting an item, emitting logs and queueing the new step keeps the invariant; the new step is not yet finished and records its issued start time |
| `StepSpec.SendStepValid` | src/main/java/com/epam/reportportal/service/step/StepReporter.java:130-137 | a `sendStep` keeps the invariant |
| `StepSpec.ApplyValid` | src/main/java/com/epam/reportportal/service/step/StepReporter.java:110-187 | every public operation keeps the invariant |
| `StepSpec.RunValid` | src/main/java/com/epam/reportportal/service/step/StepReporter.java:110-215 | after any sequence of public calls: at most one step is held back, every finish follows the start of its item, no item is finished twice, and every started step is finished or is the held-back one |
| `StepSpec.PendingAtMostOne` | src/main/java/com/epam/reportportal/service/step/StepReporter.java:183-211 | starting from at most one queued step, any sequence of public calls leaves at most one queued step |
| `StepSpec.RunExtendsTrace` | src/main/java/com/epam/reportportal/service/step/StepReporter.java:184-197 | the launch trace is append-only: every earlier call stays in place |
| `StepSpec.SendStepStartTimes` | src/main/java/com/epam/reportportal/service/step/StepReporter.java:189-198 | a `sendStep` adds exactly one start call, and that call carries the adjusted start time |
| `StepSpec.SendOpStep` | src/main/java/com/epam/reportportal/service/step/StepReporter.java:209-211 | after a `sendStep`, exactly one step is held back, and its timestamp is the start time just issued, strictly after the previously held-back timestamp |
| `StepSpec.SendsStrictlyIncrease` | src/main/java/com/epam/reportportal/service/step/StepReporter.java:190-196 | `sendStep` calls with any clock readings, mixed with any `setParent`, `removeParent` and `isParentFailed` calls, issue one start call each, with strictly increasing start times, the first after the previously held-back step's timestamp |
| `StepSpec.FailedStepReportedOnce` | src/main/java/com/epam/reportportal/service/step/StepReporter.java:212-214 | after a FAILED step, `isParentFailed` on its parent answers true once and then false |
| `StepSpec.NonFailedStepLeavesMemo` | src/main/java/com/epam/reportportal/service/step/StepReporter.java:212 | a step with any status other than FAILED does not change what `isParentFailed` answers |
| `StepSpec.PassedThenFailedScenario` | src/main/java/com/epam/reportportal/service/step/StepReporter.java:144-147 | from a fresh context, a PASSED step then a FAILED step with no parent make `isParentFailed` on the empty parent answer true, then false |
| `Steps.StepReporter.constructor` | src/main/java/com/epam/reportportal/service/step/StepReporter.java:68-84 | a new reporter has no parent, an empty queue and an empty failure memo, and it satisfies the invariant |
| `Steps.StepReporter.SetParent` | src/main/java/com/epam/reportportal/service/step/StepReporter.java:110-114 | updates the fields as `StepSpec.SetParent` says and keeps the invariant |
| `Steps.StepReporter.RemoveParent` | src/main/java/com/epam/reportportal/service/step/StepReporter.java:116-120 | returns and updates as `StepSpec.RemoveParent` says |
| `Steps.StepReporter.IsParentFailed` | src/main/java/com/epam/reportportal/service/step/StepReporter.java:122-128 | answers and updates as `StepSpec.IsParentFailed` says |
| `Steps.StepReporter.FinishPreviousStep` | src/main/java/com/epam/reportportal/service/step/StepReporter.java:182-187 | with an empty queue, returns nothing and makes no call; otherwise removes the head, sends exactly one finish call with that entry's handle and request, and returns the entry; the invariant is kept |
| `Steps.StepReporter.StartStepRequest` | src/main/java/com/epam/reportportal/service/step/StepReporter.java:189-198 | flushes, bumps the request's start time as `StepSpec.AdjustedStart` says, starts the item under the current parent, and returns the new handle and the request as issued |
| `Steps.StepReporter.FinishStepRequest` | src/main/java/com/epam/reportportal/service/step/StepReporter.java:209-215 | appends the entry with its finish request to the queue, and adds the current parent to the memo when the status is FAILED |
| `Steps.StepReporter.RunActions` | src/main/java/com/epam/reportportal/service/step/StepReporter.java:161-179 | the loop over the files emits exactly the logs `StepSpec.ActionLogs` lists, in order |
| `Steps.StepReporter.SendStepWithActions` | src/main/java/com/epam/reportportal/service/step/StepReporter.java:130-137 | the reporter and the launch end as `StepSpec.SendStep` says, and the invariant is kept |
| `Steps.StepReporter.SendStep` | src/main/java/com/epam/reportportal/service/step/StepReporter.java:139-142 | a step with no actions and status PASSED |
| `Steps.StepReporter.SendStepWithStatus` | src/main/java/com/epam/reportportal/service/step/StepReporter.java:144-147 | a step with no actions and the given status |
| `Steps.StepReporter.SendStepWithThrowable` | src/main/java/com/epam/reportportal/service/step/StepReporter.java:149-155 | a step whose action block emits one error log for the throwable |
| `Steps.StepReporter.SendStepWithFiles` | src/main/java/com/epam/reportportal/service/step/StepReporter.java:157-159 | a PASSED step with one file log per file |
| `Steps.StepReporter.SendStepWithStatusAndFiles` | src/main/java/com/epam/reportportal/service/step/StepReporter.java:161-172 | a step with the given status and one file log per file |
| `Steps.StepReporter.SendStepWithThrowableAndFiles` | src/main/java/com/epam/reportportal/service/step/StepReporter.java:174-180 | a step with one error log per file, each carrying the throwable, and no attachment for a null element |
| `Steps.PassedThenFailed` | src/main/java/com/epam/reportportal/service/step/StepReporter.java:122-147 | on a fresh reporter, step A (PASSED, clock 1000) then step B (FAILED, clock 900): `isParentFailed` on the empty parent answers true, then false, and B starts at 1001, one millisecond after A |

## Left out

- Threads: `parent` and `steps` are `InheritableThreadLocal` and `parentFailures` is a `ThreadLocal`. The model is one context's state. It does not model which state a child thread inherits.
- Asynchronous completion: the launch calls return `Maybe` values and complete in the background. Here they are recorded in the trace in program order, and handles are plain values.
- Other callers of the launch: the framework also starts and finishes items on the same launch. The invariant speaks only of the calls this reporter makes, from the trace position where it was created, and it assumes no other caller appends calls in between.
- `ReportPortal.emitLog`: this is a static call into the logging context. It is recorded as an event carrying the builder. Which item id the context passes to the builder, and when it applies it (and so which clock reading becomes the log time), is outside the model.
- Files: `Location.locateFile`, reading the bytes, the media type and the random UUID name are input, output and randomness. They are parameters of `StepRequests.BuildLog`. The error printed through the logger on a read failure is left out.
- `getStackTraceAsString`: a throwable is modelled as its stack-trace text, with `None` for null.
- The clock: `Calendar.getInstance().getTime()` is an integer parameter. Times are unbounded integers, so the overflow of `previous + 1` at the largest `long` value is not modelled.
- The null check on `actions` (line 133): every overload passes a non-null block, so the null branch is not modelled.
- The static `instance` field (line 58) and the logger: they are unused state and diagnostics.
- The source files of the `ItemStatus` and `LogLevel` enums are not among the modelled files. The model writes their constants out (`Reporting.ItemStatus`, `Reporting.LogLevel`), with `name()` as each constant's own name; of `LogLevel` it keeps only ERROR and INFO, the two levels this engine uses.
- StepSpec.SendStep: null arguments and the exceptions they raise are not modelled. The types rule out a null status, a null name, a null file array and a null element of the file array in the overloads that take only files. In the code, a null status passes the start call (line 197) and then throws at `status.name()` (line 219). A null file array throws inside `actions.run()` (line 134, the loop at line 163 or 176). A null element of the info-log overload throws at `file.getName()` when the builder is applied. An exception in the action block or the finish builder leaves the started item neither queued nor finished, after the previous step was already flushed. The invariant `StepSpec.Valid` and `StepSpec.RunValid` do not cover those runs. A null element in the throwable-with-files overload is modelled.
- src/test/java/com/epam/reportportal/service/ReportPortalClientJoinTest.java: this mock-based test covers primary and secondary launch joining. The code it tests is not part of this model, and the test itself has no production logic.

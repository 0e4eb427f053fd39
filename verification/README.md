# Verified core of OneStep

A Dafny model of the parts of OneStep, an asynchronous job runtime, whose behaviour is
hardest to see from the code, with proofs about every input, every run and every
interleaving. `dafny verify dfyconfig.toml` checks the whole project.

| area | files | source |
|---|---|---|
| cron fields, calendar search | Text, Gregorian, Cron, CronSearch, CronMeaning | connectors/schedule.py |
| schedule sources | Schedule (state functions), ScheduleSource (the class), ScheduleRuns, ScheduleRetries, ScheduleImmediate, ScheduleBacklog, ScheduleRaises, Timetables | connectors/schedule.py |
| runner stop protocol | StopProtocol (steps), TaskRunner (the class), StopSafety, StopClaims, StopBatches, LoopCourse, StopProgress, Quiescence, Wakeups | runtime/runner.py, app.py |
| delivery executor, retry policies, manual run | Retry, Execution (run functions), DeliveryExecutor (the class), Settlement, Ordering, DeadLetters, UserCalls, ExecutionTrace, SinkTries, DryRun, ManualRun, ManualResults, ManualRunner | runtime/executor.py, retry.py, app.py |
| capture codec | Values, Codec, CodecLaws, CodecErrors, CodecDrift, CodecSound, SetOrder | capture/codec.py |
| redaction, JSON Pointer (RFC 6901) | Pointer, Redaction, CaptureWriter | capture/writer.py |
| resource build | Resources | config.py |

How it is put together. Code that changes state step by step is a class or a method with
loops (`ScheduleSource.Source`, `TaskRunner.Runner`, `DeliveryExecutor.Executor`,
`ManualRunner`, `CaptureWriter`, `Resources.Builder`, `Pointer.DecodePointer`,
`CronSearch.ComputeNextAfter`); each method is proved equal to a function of the old
state, and the theorems are about those functions. Concurrency is a step relation: what a
coroutine does between two awaits is one step, and requests, fetch results, handler ends,
cancellations and restarts may fall between any two steps. Every call the executor makes
(hooks, handler, predicates, transforms, sinks, settlement, events, checkpoints) is
answered by a `World`, an arbitrary function of all that happened before, so a theorem
over all worlds covers every behaviour of the outside. Time is an integer number of
microseconds on one wall clock, with the unbounded proleptic Gregorian calendar.

Where a promise fails, the exact condition is proved:

- A cron search covers 732 days, and raises from some instant exactly for schedules on the
  day of month alone without a date of ordinary years (`CronSearch.SearchTotalIff`), such as
  `0 0 29 2 *` (`CronMeaning.LeapDayAccepted`). A due run is only kept once its successor is
  known, so a fire is delivered in no run if and only if only leap days match and it is the
  last of its day (`Timetables.CronRunLostIff`, `Timetables.LeapDayRunLost`). A fetch raises
  if and only if it reaches such a run (`ScheduleRaises.FetchRaisesIff`); it then drops the
  runs found before, which have successors (`ScheduleRaises.RaiseLosesRuns`), and nothing
  more is collected until a resume (`ScheduleRaises.NothingCollectedWhileStalled`).
- A call that raises after `ack` leads to a second settlement (`Settlement.ExecuteSettles`,
  `Settlement.SettledTwice`).
- A refused dead letter asks for a retry whatever the policy says, so a manual run is sure
  to stop exactly for tasks without dead-letter sinks (`ManualRun.StopsIff`).
- An enum object without a name lookup, such as a combined flag, is encoded but cannot be
  decoded (`CodecLaws.RoundTripIff`; a value is in `CodecLaws.CombinedFlagIsLost`).
- The two redaction mechanisms differ exactly when an unmasked secret lies below a mapping
  key that is not a string (`Redaction.PointersAgreeIff`; a value is in
  `Redaction.MechanismsDiffer`).
- The record of redacted pointers is the same for every order of the configured pointers if
  and only if each of them that lies strictly inside another one leads nowhere once the
  secret keys are masked, or is recorded for its secret key anyway
  (`CaptureWriter.EnvelopeRecordOrderIff`; an envelope is in `CaptureWriter.UserNameExample`).
- A runner loses claimed deliveries if and only if one of these steps occurs in its run:
  reporting the fetched batch raises, as it does where the metadata cannot be copied; a fetch
  of a cancel-safe source returns a batch although it was cancelled, or at the very moment of
  the stop; a cancellation falls between the fetch and the start of the handlers, or a second
  one cuts the handler of the first short (`StopClaims.ClaimsConserved`,
  `StopClaims.UnreportedIsLost`, `StopClaims.LateBatchIsLost`). A runner cancelled while it
  releases a batch releases it again from the start (`StopClaims.ReleasedAgain`).
- A drain or a pause never completes without a restart exactly when a loop it waits for has
  left, or is bound to leave with what its fetch gave (`StopProgress.DrainCompletesIff`,
  `StopProgress.PauseCompletesIff`).
- Dropping a runner in a restart leaves a waiter blocked on a status that holds exactly when
  nothing but that runner kept the status false (`Wakeups.UnregisterInformsIff`,
  `Wakeups.RestartDelaysWaiter`, `Wakeups.RestartDelaysResume`), and until the next signal
  after it, whichever that is (`Wakeups.NoLostWakeupIff`, `Wakeups.SignalEndsWindow`).

## Model

| member | source | states |
|---|---|---|
| Gregorian.DateOfOrdinal | src/onestep/connectors/schedule.py:459-463 | day numbers and calendar dates, as `datetime` has them, correspond one to one |
| Cron.ParsedFieldValid | src/onestep/connectors/schedule.py:371-422 | an accepted field admits at least one value, only values of its range, and all of them if it is `*` |
| Cron.FieldMeaning | src/onestep/connectors/schedule.py:371-422 | a field written as a comma list of chunks (`*`, `*/s`, `v`, `v/s`, `a-b`, `a-b/s`, with numbers, leading zeros allowed, month or weekday names in any case, and 7 for Sunday) is accepted if and only if every chunk has a positive step, its values in range and no start above its end; it then admits exactly the union of what the chunks denote, and counts as `*` only if written so |
| CronSearch.ParseSchedule | src/onestep/connectors/schedule.py:433-451 | an accepted five-field expression, aliases included, has five valid fields |
| CronMeaning.ScheduleMeaning | src/onestep/connectors/schedule.py:433-451 | an expression of five written fields is accepted if and only if each field is, and minute, hour, day, month and weekday mean what the fields at these places say |
| CronMeaning.AliasMeaning | src/onestep/connectors/schedule.py:42-48 | an alias, in any case, is accepted and fires just at each full hour, each midnight, midnight of Sundays, of the first of each month, or of 1 January |
| CronSearch.FiresByRule | src/onestep/connectors/schedule.py:462-472 | an accepted schedule fires at a date and clock time if and only if minute, hour and month are in their sets and the day rule holds: any day if both day fields are `*`, the one that is not if one is, and otherwise the day of the month or the weekday |
| CronSearch.ThirteenthOrFriday | src/onestep/connectors/schedule.py:466-472 | midnight on the 13th or Fridays fires on each 13th and on each Friday |
| CronSearch.ComputeNextAfter | src/onestep/connectors/schedule.py:481-487 | the minute-by-minute loop computes the first instant after the start at which the rule of the parsed sets holds, or raises if none comes in 732 days |
| CronSearch.NextAfterByRule | src/onestep/connectors/schedule.py:462-487 | `next_after(t)` is the first instant after `t` whose date and clock time meet the rule of the parsed sets; where it raises, none does within 732 days |
| CronSearch.FirstFireAtByRule | src/onestep/connectors/schedule.py:462-487 | `first_fire_at(t)` is the first such instant from `t` on |
| CronSearch.FiresByRuleEnumerate | src/onestep/connectors/schedule.py:462-487 | iterating `next_after` from `first_fire_at(t)` lists every such instant from `t` on, without gap or repeat, until the search raises |
| CronSearch.NextAfterIsLeast | src/onestep/connectors/schedule.py:481-487 | `next_after(t)` is the least fire instant strictly after `t`; where it raises, the window holds none |
| CronSearch.FirstFireAtIsLeast | src/onestep/connectors/schedule.py:474-479 | `first_fire_at(t)` is the least fire instant at or after `t` |
| CronSearch.FiresEnumerate | src/onestep/connectors/schedule.py:474-487 | iterating `next_after` from `first_fire_at(t)` lists every fire instant from `t` on, without gap or repeat, until the search raises |
| CronSearch.SearchTotalIff | src/onestep/connectors/schedule.py:462-487 | the search succeeds from every start if and only if the day is not left to the day of month alone, or some (month, day) of the parsed sets is a date of ordinary years |
| CronSearch.SearchNeverIff | src/onestep/connectors/schedule.py:462-487 | it raises from every start if and only if, besides, 29 February is not among the dates |
| CronMeaning.LeapDayAccepted | src/onestep/connectors/schedule.py:433-451 | `0 0 29 2 *` is accepted, only leap days satisfy it, and its search succeeds from some instants and raises from others |
| Timetables.EveryIsValid | src/onestep/connectors/schedule.py:343-347 | interval sources always have a later next fire |
| Timetables.EveryTimes | src/onestep/connectors/schedule.py:343-347 | in every run that begins with the opening and has no resume, the times an interval source collects are one interval after the opening, then one interval after another |
| Timetables.OnCronIsValid | src/onestep/connectors/schedule.py:474-487 | cron sources, where the search succeeds, have a later next fire |
| Timetables.NoSuccessorIff | src/onestep/connectors/schedule.py:481-487 | the search raises at a fire instant if and only if only leap days match and no later fire falls on its day |
| Timetables.CronRunLostIff | src/onestep/connectors/schedule.py:218-220 | a cron source delivers a fire instant as a scheduled run in no run at all, under the same condition exactly |
| Timetables.LeapDayRunLost | src/onestep/connectors/schedule.py:218-220 | a source on `0 0 29 2 *` delivers midnight of no 29 February as a scheduled run |
| ScheduleSource.Source.Open | src/onestep/connectors/schedule.py:110-114 | sets the cursor once; unchanged where the first search raises |
| ScheduleSource.Source.ResumeAfterPause | src/onestep/connectors/schedule.py:119-125 | clears the backlog and the immediate run and restarts the cursor; retries and in-flight count stay |
| ScheduleSource.Source.Fetch | src/onestep/connectors/schedule.py:127-153 | the new state and the deliveries are those of the fetch function, None where the search raises |
| ScheduleSource.Source.DrainRetry | src/onestep/connectors/schedule.py:203-212 | pops just the ready prefix of the retry queue, up to the limit |
| ScheduleSource.Source.CollectDueRuns | src/onestep/connectors/schedule.py:214-221 | moves the cursor along the chain of successors, up to 1000 due runs |
| ScheduleSource.Source.HandleDueRuns | src/onestep/connectors/schedule.py:223-245 | starts and queues due runs as the overlap policy says |
| ScheduleSource.Source.QueueRuns | src/onestep/connectors/schedule.py:247-251 | the backlog becomes the newest `max_queued_runs` of old and new runs |
| ScheduleSource.Source.FinishSuccess | src/onestep/connectors/schedule.py:155-157 | one delivery less in flight, never below zero |
| ScheduleSource.Source.FinishFailure | src/onestep/connectors/schedule.py:159-161 | the same after a failure |
| ScheduleSource.Source.FinishRetry | src/onestep/connectors/schedule.py:163-173 | queues the envelope with one more attempt under a new sequence number, at the wall clock plus a non-negative delay |
| ScheduleRuns.AlwaysConserved | src/onestep/connectors/schedule.py:127-173 | in every run each issued fresh run is in exactly one place (acked, failed, in flight or waiting for a retry) and the in-flight counter is the number of outstanding deliveries, so the clamp never acts |
| ScheduleRuns.AlwaysOrdered | src/onestep/connectors/schedule.py:163-173 | in every run retry entries have distinct sequence numbers and stand in (ready time, sequence) order, so comparison never reaches the envelope |
| ScheduleRuns.ReadyRetriesFirst | src/onestep/connectors/schedule.py:136-138 | a fetch serves retries exactly if one is ready, the least ones, none before its time, and is full or leaves only unready ones |
| ScheduleRetries.RetryComesWhenDue | src/onestep/connectors/schedule.py:163-173 | in every run a delivery retried at some time is handed out by no fetch before that time plus its delay, and comes back as it left, with one more attempt |
| ScheduleRetries.RetryServedIff | src/onestep/connectors/schedule.py:163-212 | a fetch hands it out if and only if its clock has reached that time and fewer than its limit wait in front of it |
| ScheduleImmediate.ImmediateIff | src/onestep/connectors/schedule.py:140-145 | in every run a fetch hands out an immediate run if and only if the source starts with one and no fetch got past the opening before, nor any resume; it is one run, for the time of the fetch |
| ScheduleRuns.FetchIssues | src/onestep/connectors/schedule.py:127-153 | a fetch hands out either a prefix of the retry queue or runs under fresh consecutive numbers, and counts them in flight |
| ScheduleBacklog.AlwaysFollows | src/onestep/connectors/schedule.py:127-153 | between resumes the collected times are one gapless chain of successors; the backlog is its newest part, bounded and above all delivered runs; fresh runs leave in strictly increasing time; without overflow delivered plus queued is all that was collected |
| ScheduleBacklog.CollectFinds | src/onestep/connectors/schedule.py:214-221 | one collection is the next stretch of the chain, and stops for the limit, the future or a raising search only |
| ScheduleBacklog.AtMostThousand | src/onestep/connectors/schedule.py:214-221 | one fetch collects at most 1000 runs, all due, and fewer only if none is left that is due |
| ScheduleBacklog.FreshOnlyWhenIdle | src/onestep/connectors/schedule.py:147-148 | outside `allow` a fresh run starts alone and with nothing outstanding |
| ScheduleBacklog.DropsHaveAReason | src/onestep/connectors/schedule.py:223-251 | due runs are passed over only if `allow` filled its limit, `skip` is busy or took the newest, or `queue` is full |
| ScheduleBacklog.RunWithoutSuccessorLost | src/onestep/connectors/schedule.py:218-220 | a due run without a successor is delivered in no run |
| ScheduleRaises.FetchRaisesIff | src/onestep/connectors/schedule.py:127-153 | a fetch raises if and only if the cursor cannot be set, or it comes to collect due runs and the chain of them reaches, within 1000 and not after now, a run without a successor |
| ScheduleRaises.RaiseStalls | src/onestep/connectors/schedule.py:214-221 | a raising fetch leaves the cursor on the run without a successor and records none of the runs it found |
| ScheduleRaises.NothingCollectedWhileStalled | src/onestep/connectors/schedule.py:214-221 | once the cursor stands on a run without a successor nothing is collected, and the cursor stays, until a resume |
| ScheduleRaises.RaiseLosesRuns | src/onestep/connectors/schedule.py:214-221 | the runs a raising fetch had found, those with a successor included, are delivered neither by it nor by anything that follows until a resume |
| ScheduleRaises.LostIff | src/onestep/connectors/schedule.py:218-220 | a time the source can start from is delivered in no run if and only if it has no successor |
| TaskRunner.Runner.RunFromTop | src/onestep/runtime/runner.py:55-91 | one turn of the loop head, parking, resuming or fetching, as the step relation has it |
| TaskRunner.Runner.ResolveFetch | src/onestep/runtime/runner.py:132-165 | a resolved fetch is released on a stop and handed on otherwise; fatal errors leave the loop |
| TaskRunner.Runner.StartHandlers | src/onestep/runtime/runner.py:101-103 | every delivery of the batch becomes in flight, in order |
| TaskRunner.Runner.EmitRaises | src/onestep/runtime/runner.py:99-104 | a raising report of a fetched batch leaves the loop, and the batch is neither started nor released |
| TaskRunner.Runner.Interrupt | src/onestep/runtime/runner.py:149-175 | a cancellation at any await: a cancel-safe fetch is cancelled, any other let finish, and what it gave is released from the start; a second one cuts that short |
| TaskRunner.Runner.ResumeRelease | src/onestep/runtime/runner.py:176-181 | one delivery after the other is released; then the fetch is left, with nothing or with the cancellation |
| TaskRunner.Runner.HandlerDone | src/onestep/runtime/runner.py:188-190 | the ended handler leaves the in-flight ones, and a change is signalled |
| TaskRunner.Runner.Resume | src/onestep/runtime/runner.py:51-181 | from any await, the stretch to the next await is the step of the protocol |
| StopSafety.AlwaysOk | src/onestep/runtime/runner.py:51-181 | in every interleaving each runner's flags match its position, a set parked flag means no handler in flight, and in-flight and claimed deliveries together never exceed the concurrency |
| StopSafety.ParkedIsQuiet | src/onestep/runtime/runner.py:56-76 | in every run a parked runner has nothing in flight, no fetch and nothing claimed, and is parked for one reason only |
| StopSafety.HandsBounded | src/onestep/runtime/runner.py:84-110 | in every run a runner never has more deliveries in hand than its concurrency, and none once it has left its loop |
| StopClaims.ClaimsConserved | src/onestep/runtime/runner.py:92-181 | in every interleaving, cancellations included, each claimed delivery is, exactly as often as claimed, started, released, still held or lost; a runner has lost some if and only if its run had a losing step, and released some again, never more than it released before, if and only if it had a step that does so |
| StopClaims.UncancelledConserves | src/onestep/runtime/runner.py:92-181 | an uncancelled runner releases nothing twice, and, unless its source is cancel-safe, loses deliveries if and only if reporting a fetched batch raised |
| StopClaims.UnreportedIsLost | src/onestep/runtime/runner.py:99-104 | a run in which reporting a batch raises and the batch is lost |
| StopClaims.LateBatchIsLost | src/onestep/runtime/runner.py:132-135 | a run in which a cancel-safe fetch returns together with the stop and its batch is lost |
| StopClaims.ReleasedAgain | src/onestep/runtime/runner.py:149-181 | a run in which a cancelled runner releases a delivery twice |
| StopBatches.LateBatchReleased | src/onestep/runtime/runner.py:132-175 | in every run a batch that a loop takes up after a shutdown, a drain or a pause of its task was requested, its stop watcher let the fetch finish, or the loop was cancelled, is released whole and in order before anything else, and none of it is started, unless a cancellation follows |
| StopBatches.TimelyBatchStarted | src/onestep/runtime/runner.py:92-104 | in every run a batch taken up in time is started whole and in order unless its report raises or the loop is cancelled, whatever is requested from then on |
| StopBatches.CancelledStartsNothing | src/onestep/runtime/runner.py:149-181 | from its cancellation on a loop starts nothing, unless the cancellation was passed on to a fetch that swallows it |
| LoopCourse.FetchBegins | src/onestep/runtime/runner.py:78-92 | in every run a fetch begins only where neither shutdown, drain nor a pause of the task is asked for, and asks for exactly the room that is left |
| LoopCourse.FetchOutlives | src/onestep/runtime/runner.py:120-175 | a loop leaves its fetch only once the source has ended it: no request and no number of cancellations comes before that |
| LoopCourse.HookBeforeFetch | src/onestep/runtime/runner.py:66-80 | in every run a loop that parked for a pause fetches again only after its source's resume hook |
| LoopCourse.ShutdownEnds | src/onestep/runtime/runner.py:51-181 | in every run, once a shutdown is requested an uncancelled loop takes at most concurrency + 7 steps until it has ended, whatever else happens, and until then it or its fetch always has a step to take |
| LoopCourse.OutAtOnce | src/onestep/runtime/runner.py:55-109 | such a loop is out at its next step from outside a fetch, or from one without a batch, with all flags down |
| Quiescence.DrainedIsQuiescent | src/onestep/app.py:512-533 | once drained is reported nothing is handed to a handler again, whatever follows |
| Quiescence.PausedIsQuiescent | src/onestep/app.py:535-554 | once paused is reported nothing of that task is handed out before its resume or restart |
| StopProgress.DrainCompletesIff | src/onestep/app.py:512-533 | from every reachable state in which a drain is asked for and no shutdown, the status can come true without a restart if and only if no registered loop has left or is bound to; runners, handlers and sources alone then bring it about |
| StopProgress.PauseCompletesIff | src/onestep/app.py:535-554 | the same of a pause, with no drain asked for: if and only if no loop of the task has left, is bound to, or still stands parked for a drain |
| Wakeups.UnregisterInformsIff | src/onestep/app.py:439-466 | dropping a runner keeps every waiter informed if and only if it is not the last one missing for a blocked drain waiter, nor the last obstacle for a blocked waiter for a resume of its task |
| Wakeups.SignalInforms | src/onestep/app.py:501-510 | after any step that signals, from any state, nobody is blocked |
| Wakeups.NoLostWakeupIff | src/onestep/app.py:381-510 | in every run, restarts included, all blocked waiters' statuses are false if and only if no dropped runner has stranded a waiter since the last signal, although all waiters clear one shared event (a waiter for a resume counts only before shutdown) |
| Wakeups.NoLostWakeup | src/onestep/app.py:381-406 | in particular without restarts no waiter ever sleeps on a status that holds |
| Wakeups.SignalEndsWindow | src/onestep/app.py:439-510 | whatever came before, from the first signal after the last dropped runner on no waiter sleeps on a status that holds |
| Wakeups.WaitingReached | src/onestep/app.py:381-388 | the state from which the next row's run starts is reached from startup |
| Wakeups.RestartDelaysWaiter | src/onestep/app.py:439-466 | a run in which a restart leaves a drain waiter blocked while the status is true |
| Wakeups.PausedReached | src/onestep/app.py:399-406 | the state from which the next row's run starts is reached from startup |
| Wakeups.RestartDelaysResume | src/onestep/app.py:439-466 | a run in which a restart leaves a waiter for a resume blocked while the task accepts work |
| Retry.DecisionIff | src/onestep/retry.py:66-161 | for every nesting of policies, failure kind and draw, the answer is RETRY if and only if the leaf in charge (own entry, else `default`) exists and allows another attempt; its delay is then that leaf's, with a backoff of minimum times multiplier to the attempts, capped, and then drawn as the jitter says |
| Retry.RetryBelowBound | src/onestep/retry.py:66-161 | for every nesting of policies, RETRY implies attempts + 1 below the largest leaf bound, for every failure kind and draw |
| Retry.MaxLeaf | src/onestep/retry.py:66-161 | every policy tree has such a bound, attained by one of its leaves |
| Retry.RetryDelayNamed | src/onestep/retry.py:125-142 | a fixed delay is the one written; every backoff delay lies between zero and the cap for every jitter, and without jitter, or half of it with `equal`, not below the minimum when delays grow |
| DeliveryExecutor.Executor.Execute | src/onestep/runtime/executor.py:100-199 | the imperative executor leaves the log, stage, outcome and exception of the run function, in every world |
| DeliveryExecutor.Executor.SendToSink | src/onestep/runtime/executor.py:599-652 | two tries, the second only after a retryable error and not when the app shuts down while waiting |
| SinkTries.SendTries | src/onestep/runtime/executor.py:599-652 | a send makes a second try exactly after a connector error that is neither misconfigured, permanent nor uncertain, after waiting as the error or the sink says, unless the wait ends with the shutdown; what it raises is what its last try raised |
| DeliveryExecutor.Executor.SelectEmitBindings | src/onestep/runtime/executor.py:234-256 | the bindings of all targets in order, a conditional route by its predicate |
| DeliveryExecutor.Executor.PublishDeadLetter | src/onestep/runtime/executor.py:414-470 | all dead-letter sinks in order; the first refusal turns into a retry |
| DeliveryExecutor.Executor.HandleFailure | src/onestep/runtime/executor.py:333-412 | hooks suppressed, policy consulted, then retry, dead letter or fail |
| Settlement.ExecuteSettles | src/onestep/runtime/executor.py:100-199 | in every world at most one settlement completes unless a call after the ack raised; of a returned outcome the last is the one it names |
| Settlement.SettledOnce | src/onestep/runtime/executor.py:158-175 | if the two calls after the ack never raise, at most one settlement completes, exactly one for a returned outcome |
| Settlement.SettledTwice | src/onestep/runtime/executor.py:161-199 | in every calm world in which success could not be reported the delivery is settled twice |
| Settlement.SettledTwiceExample | src/onestep/runtime/executor.py:161-199 | a concrete delivery that is acked and then settled again |
| Ordering.SendAllAccepted | src/onestep/runtime/executor.py:154-156 | the accepted envelopes are a prefix of the prepared ones, all of them exactly if nothing raised |
| Ordering.AckAfterSinks | src/onestep/runtime/executor.py:129-162 | when `ack` is called, the accepted sends are exactly one per binding chosen by the predicates' answers, in order, each with its transform's answer or the handler's result |
| DeadLetters.RejectAfterDeadLetters | src/onestep/runtime/executor.py:364-403 | `fail` is called only if the body raised, the policy said FAIL and every dead-letter sink accepted, in order |
| DeadLetters.RefusedDeadLetterRetries | src/onestep/runtime/executor.py:439-461 | a returned outcome reports a failed publication exactly if a dead-letter sink refused; then it is a plain retry, not terminal, whatever the policy |
| DeadLetters.CancelledRetries | src/onestep/runtime/executor.py:176-179 | a cancelled execution asks for a retry, after a completed ack too |
| UserCalls.UserCallsOnce | src/onestep/runtime/executor.py:100-199 | in every world one execution calls hooks before, handler, hooks after, predicates, transforms and failure hooks in this order, each group by rising index, and no user call twice |
| ExecutionTrace.OutcomeNames | src/onestep/runtime/executor.py:100-199 | in every world an outcome is a success without failure, or names the kind of the exception the body raised and the stage of the call that raised it |
| ExecutionTrace.ReturnedTrace | src/onestep/runtime/executor.py:100-199 | the full course of an execution that returns, calls for targets and to sinks apart: of a success all stages in order, each between its two checkpoints, with hooks, handler, acknowledgement and events; of a failure a beginning of that, all failure hooks, then retry, or dead letters and rejection, as the policy decides, and a capture if one is due |
| ExecutionTrace.CancelledTrace | src/onestep/runtime/executor.py:274-331 | and of a cancelled one, where events and settlement are not refused: a beginning of it, the cancelled event, the request for a retry and its event, a capture if all failures are captured, and the cancellation again |
| DryRun.DryRunPredicts | src/onestep/runtime/executor.py:100-199 | if user code behaves the same and sends and settlements succeed, the dry run has the same completion, action, delay, failure, stage, terminal flag, selected sinks and exception as production |
| DryRun.DryRunHandsOff | src/onestep/runtime/executor.py:160-163 | in no world does a dry run call a sink or settle |
| ManualResults.StopsWithIff | src/onestep/app.py:314-344 | a manual run ends complete, exhausted or with an exception after n executions if and only if the first n - 1 only asked for a retry, and the last acknowledged and raised nothing, or rejected with neither acknowledgement nor retry, or raised that exception |
| ManualResults.FailingRunExact | src/onestep/app.py:314-344 | a task that always fails, without dead-letter sinks, is executed exactly as often as the leaf in charge of its failure allows, and then reported exhausted |
| ManualRun.GoingCountsRetries | src/onestep/app.py:314-326 | while a manual run goes on it has seen one retry per execution and nothing else; it never ends without a decision |
| ManualRun.StopsWithinBound | src/onestep/app.py:318-326 | unless a dead letter is refused it ends within the policy's largest leaf bound |
| ManualRun.StopsIff | src/onestep/app.py:293-344 | it is sure to end, in all worlds, if and only if there are no dead-letter sinks |
| ManualRunner.RunTaskOnce | src/onestep/app.py:293-344 | wherever the run stops at all the loop ends with the result that the logs of its executions report, and within every bound of the policy if no dead letter is refused |
| CodecLaws.EncodeAcceptsIff | src/onestep/capture/codec.py:62-158 | encoding accepts exactly the values made of supported types, replayable classes, finite floats and string keys |
| CodecLaws.RoundTripIff | src/onestep/capture/codec.py:62-317 | decoding an encoded value gives it back if every enum object in it is a member its class finds by name, and fails otherwise |
| CodecLaws.CombinedFlagIsLost | src/onestep/capture/codec.py:62-317 | a combined flag is encoded and its encoding cannot be decoded |
| CodecErrors.RefusalLocates | src/onestep/capture/codec.py:17-55 | every encoding error names, as a JSON Pointer from the root, a part of the value whose own type, class, float or key is refused, and the type to blame |
| CodecDrift.TaggedIsStrict | src/onestep/capture/codec.py:161-317 | a tag is decoded only if its type is known and its fields are just those of the type |
| CodecDrift.TagStandsAlone | src/onestep/capture/codec.py:208-219 | an object with the tag among its keys is decoded only if it is nothing but the tag |
| CodecDrift.ChangedTupleRefused | src/onestep/capture/codec.py:194-317 | a named tuple whose class has other fields by now is refused |
| CodecDrift.ChangedEnumRefused | src/onestep/capture/codec.py:194-317 | an enum object is decoded only if its class is a loaded enum and has, under the recorded name, a member of the recorded value |
| CodecDrift.UnloadedRefused | src/onestep/capture/codec.py:173-191 | nothing of a class that is not found under its name is decoded |
| CodecSound.DecodedIsSound | src/onestep/capture/codec.py:194-317 | whatever is decoded is a proper value: enum members of their recorded value, named tuples with as many items as fields, hashable set members, distinct string keys, folds of 0 or 1, and classes that are replayable |
| CodecSound.DecodedComesBack | src/onestep/capture/codec.py:62-317 | what is decoded, from whatever text, is accepted by the encoder again, and its encoding decodes to the very same value |
| SetOrder.EncodingDetermines | src/onestep/capture/codec.py:113-130 | two hashable values whose encodings agree up to entry order are equal, whatever order their sets were iterated in |
| SetOrder.EncodingIsCanonical | src/onestep/capture/codec.py:113-130 | an accepted value has the same encoding under every iteration order of its sets |
| Pointer.DecodePointer | src/onestep/capture/writer.py:111-128 | the index loop decodes every token, None where it raises |
| Pointer.DecodeToken | src/onestep/capture/writer.py:116-126 | one left-to-right pass over a token is its unescaping |
| Pointer.DecodePrint | src/onestep/capture/writer.py:49-50 | decoding a printed token list gives it back |
| Pointer.PrintDecode | src/onestep/capture/writer.py:111-128 | printing an accepted pointer's tokens gives the pointer back |
| Pointer.PrintInjective | src/onestep/capture/codec.py:53-55 | different token lists print differently |
| Pointer.OnePassIsTwoPass | src/onestep/capture/writer.py:116-126 | on well-formed text the one pass equals substituting `~1` and then `~0`, as section 4 of RFC 6901 says |
| Redaction.UnchangedKeeps | src/onestep/capture/writer.py:131-163 | a replacement reports no change, and changes nothing, exactly if the path does not resolve |
| Redaction.PutIsLocal | src/onestep/capture/writer.py:131-163 | after a replacement the addressed position holds the mark, positions below it are gone, others and incomparable ones are as before |
| Redaction.PutAllBySet | src/onestep/capture/writer.py:176-183 | replacing along the same set of paths gives the same value in every order |
| Redaction.PointersConfluent | src/onestep/capture/writer.py:176-183 | so does replacing along the same set of pointer texts |
| Redaction.PathsRedact | src/onestep/capture/writer.py:53-108 | replacing along any secret-key paths that include the recorded ones redacts as the walk by key does |
| Redaction.PointersAgreeIff | src/onestep/capture/writer.py:53-163 | replacing along exactly the recorded pointers, in any order, equals the walk if and only if no unmasked secret lies below a key that is not a string |
| Redaction.MechanismsDiffer | src/onestep/capture/writer.py:53-163 | for a password below the number 1 used as a key they differ, unless it was masked before |
| Redaction.MaskedIff | src/onestep/capture/writer.py:53-108 | the walk leaves a value as it is if and only if every secret key in it stands over the mask |
| Redaction.SecretIff | src/onestep/capture/writer.py:53-66 | a key is secret if and only if it is a string that, case folded, spells a secret word, with `-` for `_` allowed |
| Redaction.SecretWords | src/onestep/capture/writer.py:22-34 | the simple words are secret, in capitals too |
| Redaction.SecretCompounds | src/onestep/capture/writer.py:22-34 | and so are the compound ones, in either spelling |
| Redaction.StringKeyedReachable | src/onestep/capture/writer.py:53-163 | for string-keyed values they always agree |
| CaptureWriter.RedactSecretKeys | src/onestep/capture/writer.py:53-108 | the walk masks every value under a secret key and adds exactly their printed paths to the record |
| CaptureWriter.ReplacePointers | src/onestep/capture/writer.py:176-183 | the fold over the pointers, recording those that changed something |
| CaptureWriter.RedactEnvelope | src/onestep/capture/writer.py:166-191 | the redacted envelope and record, failing exactly for a malformed pointer |
| CaptureWriter.EnvelopeConfluent | src/onestep/capture/writer.py:166-191 | the redacted envelope is the same for every order of the same pointers |
| CaptureWriter.RecordOrderIff | src/onestep/capture/writer.py:176-183 | from any record on, every order of the pointers leads to the same record if and only if no pointer that resolves and is not recorded lies strictly inside another one of the list |
| CaptureWriter.EnvelopeRecordOrderIff | src/onestep/capture/writer.py:166-191 | the record of an envelope, with what the walk recorded, is the same for every order of the pointers under that condition exactly |
| CaptureWriter.OrderDecidesRecord | src/onestep/capture/writer.py:176-183 | for an envelope with a user of one field that is no secret key, the two orders of the pointers to the user and to the field give different records |
| CaptureWriter.UserNameExample | src/onestep/capture/writer.py:176-183 | in particular for the field `name` |
| Resources.Builder.Resolve | src/onestep/config.py:516-532 | memoised, grows the build order, restores the stack, and fails only with a justified reason; ends because the defined names off the stack shrink |
| Resources.Builder.Build | src/onestep/config.py:559-576 | a built resource holds the very resources its spec refers to |
| Resources.Builder.CycleFound | src/onestep/config.py:523-525 | a reported path is a chain of references that ends in a real cycle |
| Resources.BuildResources | src/onestep/config.py:511-536 | succeeds if and only if every reference is defined, there is no cycle and every handler accepts; then each resource is built once, after those it refers to |
| Resources.OrderedIsAcyclic | src/onestep/config.py:511-536 | a build order of all names excludes cycles and undefined names |
| Resources.CollectResourceSpecs | src/onestep/config.py:539-556 | succeeds if and only if all sections and entries are mappings and equal names have equal specs; the names stand in the order of their first places in the sections |

## Left out

- Text: `int`, `lower`, `strip` and `split` are modelled on ASCII text; other digits, cases and spaces of Unicode, and spaces around integers, are not.
- Cron.FieldMeaning: the written forms leave out signs and underscores in numbers; the parser itself has them.
- Time: time zones, daylight saving and the year limits of `datetime`; wall-clock arithmetic on one zone is what the code does.
- Schedule payloads: payload callables that raise, and deep copies; the envelope is its time, number and attempts.
- Retry heap: a queue kept sorted by (ready time, sequence) stands for `heapq`.
- Event loops: a change of event loop, which resets sources and events, and hand-off between threads.
- StopClaims.ClaimsConserved: follows the deliveries a fetch returns; what a source loses inside a fetch that is cancelled is not in the model. A release counts when its await ends.
- TaskRunner: the class covers the stretches between awaits; how they interleave, and the app's side, is the step relation on values. The loop head counts as an await, which only adds interleavings.
- Wakeups.NoLostWakeupIff: leaves out resume waiters after shutdown, which nothing wakes.
- Shutdown timeout: the loop's last wait may end at any time, with handlers running or cancelled; which of the two the timeout decides is not modelled.
- Restart resources: closing and reopening a task's private resources on a restart.
- Managed executions: leased deliveries and their completion calls; only the plain delivery path is modelled.
- Executor details: deep copies of metadata, bodies and snapshots that raise, event contents, log records and notification metadata; a raising copy inside an event counts as the event call raising.
- ManualRunner.RunTaskOnce: requires that the run stops, because the loop need not end where dead letters are refused; `ManualRun.StopsIff` says when it is sure to.
- Retry policies: user-defined policies and the signature inspection that calls them; delays are real numbers and draws are arguments.
- Codec leaves: base64, ISO datetimes, UUID and Decimal texts are an assumed inverse pair, floats are identities, and equality of values is structural where Python equates `1`, `1.0` and `True`.
- SetOrder.EncodingIsCanonical: assumes that the JSON text with sorted keys determines the JSON value up to entry order, which fails for strings holding unpaired surrogates.
- CodecSound.DecodedComesBack: for JSON without repeated keys, classes found under their own names, and named tuples of named-tuple classes; an alias of a class, or a class without fields called with none, is decoded without being capturable as such.
- Codec errors: a decoding failure is one None; its message and path are not modelled, and neither is the reason text of an encoding error.
- Class lookup: `sys.modules` and attribute access are a fixed table; constructors of named tuples are not run.
- Redaction: case folding is an arbitrary function that leaves decimal numbers alone.
- Capture files: JSON files, permissions, links and fsync.
- Resource handlers: a handler resolves its references in order and then accepts or refuses; handlers that catch a failed resolve are not modelled.
- Configuration: environment expansion and normalisation of specs.
- Further parts: control plane, worker agent, command line, metrics, webhook and HTTP connectors, diagnostics and packaging.

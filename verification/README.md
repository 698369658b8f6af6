# AgentPane verification

A Dafny model of the stateful cores of AgentPane, with proofs of what they promise over whole runs.

- **Durable event pipeline** (`SessionEvents`, `Outbox`, `Pipeline`, `NoLoss`, `History`, `Retries`, `Fairness`, `Progress`, `Offsets`, `Storage`, `DurableStreams`, `SessionStream`, `Relay`, `Cleanup`, `Timestamps`). Producers append an event at the next offset of its stream and enqueue an outbox row in one transaction; the session stream service also persists events without a delivery and publishes events without persisting them; a relay delivers the rows with retries, backoff, dead-lettering and trimming; retention deletes old events, and deleting a session or codespace deletes whole streams. `Pipeline` is a step system whose steps are the smallest actions that can be interleaved: a commit, an insert without delivery, a direct publication, a fetch, a publish call, each of the two bookkeeping writes, working, throwing, or taking effect and still throwing, trimming, retention, deletion of streams, crash, stop, restart. Its theorems quantify over all step sequences. The services are classes over a shared database; each method proves which steps it takes, so the theorems hold of the classes' tables.
- **Publish lag** (`LagWindow`): the sliding window and its percentiles.
- **Scheduler** (`NextRun`, `Windows`, `Lock`, `Scheduler`, `ExecutionRecords`, `Overlap`, `SchedulerService`, `Interleaving`): next-run arithmetic, calendar windows, the compare-and-swap lock as racing steps, budgets and the error breaker over sequential runs, budgets under overlapping executions, the service's own methods against that model, and the concurrent calls of a tick statement by statement.
- **Agent runner** (`TokenBatching`, `Topology`, `Runner`, `RunnerOutput`, `RunnerTopology`, `RunnerHost`, `ExecutionPhase`): token batching as a refinement of direct emission, tool start/result pairing, terminal events, subagent topology, and what the host sees at the end of the pipe.
- **Database copy** (`Migration`, `CopiedCells`, `MigrationScript`): the SQLite to PostgreSQL copy with deferred circular foreign keys equals the direct copy.
- **Webhook pipeline** (`EventProcessing`): de-duplication, tasks and match counts over deliveries and log retention.
- **Schema comparison** (`SchemaDrift`): the drift check as an exact decision.

Code that the repository writes as state changing step by step is a class or a loop here, proved against a specification function; the laws are proved about that function.

Results that say where the code falls short of what one would expect, each with the exact condition:

- An interval schedule computed at the very millisecond its stored next run names can be swapped for itself, and two ticks then both execute it (`Lock.SwapRaisesIff`, `Lock.OtherwiseTwoTicksExecute`).
- The weekly budget counts from the later of Monday and the first of the month (`Scheduler.WeekCountExactIff`, `Scheduler.WeeklyLimitCanBeExceeded`).
- A stream can hand out an offset twice: exactly in the runs in which an append follows a deletion of the stream's newest row, by retention or with its session or codespace (`Offsets.OffsetsRepeatIff`, `Offsets.OffsetsCanRepeat`, `Offsets.DeletedStreamStartsOver`).
- On SQLite retention deletes up to a day early: where the column's default wrote `created_at`, it and the cutoff are texts of different shape, and exactly such rows of the cutoff's own UTC day go although they are no older than it; rows of the session stream service are compared exactly (`Cleanup.DeletedEarlyIff`, `Timestamps.TextOrderIsDayOrder`, `Timestamps.IsoOrderIsInstantOrder`, `Cleanup.SameDayTexts`, `Cleanup.SameDayIsoTexts`, `Cleanup.YoungRowDeleted`).
- A published outbox row can become pending again, and its event be delivered again: exactly if its mark took effect and still threw (`NoLoss.SettledStep`, `NoLoss.SettledForever`, `NoLoss.LostMarkReopens`).
- Overlapping executions can exceed a budget by one less than are in flight at once (`Overlap.OvershootIsBounded`, `Overlap.OvershootIsReached`).
- File, plan and topology events overtake buffered tokens (`TokenBatching.BatchingRefinesDirectEmission`, `TokenBatching.FileChangeOvertakes`).
- The turn limit and the stop file leave exactly those tools open that were open before (`Runner.ExitsCloseTools`, `Runner.TurnLimitLeavesToolOpen`, `Runner.StopFileLeavesToolOpen`). A signal closes what is open, but the process drains its output before it exits, and until then tools can still be opened for good and the run can still complete (`Runner.SignalIff`, `Runner.DrainLeavesToolOpen`, `Runner.DrainCanComplete`).
- One early subagent start shifts all later labels (`Topology.LabelsAlignIff`, `Topology.OneEarlyStartShiftsAll`, `Topology.SecondStartGetsFirstType`).
- A webhook whose subscriptions could not be read is never turned into tasks on redelivery (`EventProcessing.ExactlyTheTasksOwed`, `EventProcessing.UnreadableThenRedelivered`), one whose log row retention removed is processed again (`EventProcessing.TwiceOnlyIfForgotten`), a log row can go on saying "received" although tasks were made (`EventProcessing.LogTellsTheTruthIff`, `EventProcessing.LogCanMissTasks`), and an insert refused for another constraint is reported as a duplicate (`EventProcessing.DuplicateIsLoggedIff`, `EventProcessing.UnloggedDuplicate`).

Where comments and code disagree, the code is modelled: the outbox schema's comment (src/db/schema/sqlite/event-outbox.ts:4-12) says "exactly-once" and dead after more than ten attempts, while the relay delivers at least once and gives up at ten; the scheduler's branch for a missing `nextRunAt` (src/services/scheduler.service.ts:229-234) is modelled although the tick's own query never selects such a row.

Assumptions: outbox column defaults are as in src/db/schema/sqlite/event-outbox.ts:45-57; generated ids are fresh where a statement names freshness; time, network outcomes, database faults and SDK messages are parameters of the steps and methods; closing an SDK session does not throw, and no hook of a session fires after it was closed; an insert that throws took no effect; the two updates that count a failure of a scheduled source, counter and status, work or fail together. A clock that never goes back is assumed only by statements about time, and there explicitly.

## Model

| member | source | states |
|---|---|---|
| NoLoss.NoCommittedEventIsLost | src/services/durable-streams.service.ts:775-822 | In every interleaving of commits, relay actions, direct publications, failures, crashes, restarts and trims, an event once committed is pending or dead in the outbox with its content, or in the server's log; and what the log holds as relayed are committed events only. |
| NoLoss.DirectlyPublishedInOrder | src/services/session/session-stream.service.ts:541-559 | The rest of the log is, in every run, exactly the events published directly and not refused, in order. |
| NoLoss.RunKeeps | src/services/event-outbox-relay.service.ts:98-193 | The pipeline invariant (nothing lost, nothing invented, fetched copies current, ledger exact) survives every run. |
| NoLoss.RetryLedger | src/services/event-outbox-relay.service.ts:141-179 | In every reachable state a row's attempts are its recorded failures; pending means at most nine, dead means exactly ten and only dead does; published rows were delivered. |
| NoLoss.SettledForever | src/services/event-outbox-relay.service.ts:104-112 | Published and dead are absorbing: over any run such a row is never rewritten, and a dead row is never removed, unless a mark of this row took effect and still threw. |
| NoLoss.SettledStep | src/services/event-outbox-relay.service.ts:141-179 | In every state the invariant allows, a step changes a settled row if and only if it records a failure for a row whose mark took effect and threw. |
| NoLoss.LostMarkReopens | src/services/event-outbox-relay.service.ts:141-179 | Wherever the relay takes a row in hand, a mark that takes effect and throws makes it go from published and delivered back to pending, or to dead. |
| NoLoss.DeadForever | src/services/event-outbox-relay.service.ts:150-170 | A dead row stays exactly as it is over any run, whatever the writes do. |
| NoLoss.LeavesByTrimIff | src/services/event-outbox-relay.service.ts:181-193 | In every state and for every step, a row leaves the outbox if and only if the step trims and the row was published more than 1 800 000 ms before. |
| NoLoss.PublishedStaysHalfAnHour | src/services/event-outbox-relay.service.ts:181-193 | Over any run up to half an hour after its mark, a published row stays as it is, unless a mark of it took effect and threw. |
| NoLoss.TrimBoundary | src/services/event-outbox-relay.service.ts:181-193 | A row published at 0 is still there after a trim at 1 800 000 ms and gone after one at 1 800 001. |
| NoLoss.AtMostTenDeliveries | src/services/event-outbox-relay.service.ts:141-179 | Duplicates are bounded: an event is delivered at most ten times plus once for each time a crash or an escaped write cut the relay off while this very row was in hand and its outcome not written. |
| History.DeliveriesAreBounded | src/services/event-outbox-relay.service.ts:141-179 | The same bound with the interruptions counted over the steps of the run: crashes, and records that throw without effect, that meet the row in hand with its publish call made and its outcome not written. |
| History.DeliveriesArePublishCalls | src/services/event-outbox-relay.service.ts:141-149 | In every run the log holds one delivery of a row for each publish call made for it and not refused. |
| History.NothingBeforeStart | src/services/event-outbox-relay.service.ts:54-75 | In every run without a start the relay stays idle and delivers nothing. |
| History.HistoryCounts | src/services/event-outbox-relay.service.ts:98-179 | Over every run, completed ticks, written outcomes, recorded failures and interruptions are the numbers of the steps that are such, read off the steps. |
| Outbox.BackoffBounds | src/services/event-outbox-relay.service.ts:155-157 | Delays lie between 200 ms and 30 s and never shrink from one failure to a later one. |
| Outbox.BackoffDelays | src/services/event-outbox-relay.service.ts:155-157 | The delays are 200, 400, 800, 1 600, 3 200, 6 400, 12 800 and 25 600 ms, and 30 000 ms from the ninth failure on. |
| Retries.NoEarlyDeath | src/services/event-outbox-relay.service.ts:150-179 | Under a clock that never goes back, a row dies no sooner than 81 000 ms after its first failure. |
| Retries.RetriesAreBounded | src/services/event-outbox-relay.service.ts:141-179 | From any reachable state, recorded outcomes are at most ten per row open at the start or committed since; when that many are recorded no row is open, and so none pending. |
| Fairness.NoStarvation | src/services/event-outbox-relay.service.ts:105-116 | A due pending row, from any moment on, is handled once 100 times the completed ticks reach the number of pending rows at or before it, plus a batch if a tick without it is under way, plus the commits in the millisecond it is due; however producers, failures, trims and crashes interleave. |
| Fairness.RunWaits | src/services/event-outbox-relay.service.ts:98-126 | The ranking argument: each completed tick that passes a waiting row over uses up a full batch of the rows ahead of it. |
| Progress.EveryEventArrivesOrDies | src/services/event-outbox-relay.service.ts:98-179 | From any reachable state, if as often as a row has attempts left there comes a moment at which the row, when still pending, is due and enough ticks complete to reach it, its event ends in the log or its row dead; whatever crashes, failures and lost writes lie in between. |
| Progress.EveryRowSettles | src/services/event-outbox-relay.service.ts:98-179 | Under the same conditions, and if no mark of the row takes effect and throws, the row ends published or dead. |
| Offsets.OffsetsAreUnique | src/services/durable-streams.service.ts:669-720 | Surviving rows of a stream have strictly increasing offsets in table order, in every reachable state. |
| Offsets.OffsetsCountEvents | src/services/durable-streams.service.ts:669-720 | As long as no rows are deleted, by retention or with their stream, each offset, and the next one, is the number of earlier events of its stream. |
| Offsets.OffsetsRepeatIff | src/services/durable-streams.service.ts:688-707 | In every run of both producers, retention and the deletion of whole streams, an offset of a stream is issued twice if an append to it follows a deletion of its newest surviving row; in all other runs the offsets issued on it strictly increase. |
| Offsets.FreshOffsetIff | src/services/durable-streams.service.ts:688-707 | In every reachable state the next offset exceeds all ever issued on the stream if and only if the stream is new or the row with the highest offset issued survives. |
| Offsets.OffsetsCanRepeat | src/services/event-cleanup.service.ts:346-376 | A run of two days with a retention of one in which an offset is issued twice. |
| Offsets.DeletedStreamStartsOver | src/services/session/session-crud.service.ts:297-299 | After the rows of a session or codespace are deleted, the next insertion on such a stream, by either producer, is issued offset 0. |
| Offsets.ReplayableIsDeliverable | src/services/durable-streams.service.ts:775-822 | Every replayable event row was inserted last by a commit or without live delivery; one inserted by a commit has that commit's delivery, shared with no other row, and it is held or done. |
| Offsets.PersistOnlyIsNotRelayed | src/services/session/session-stream.service.ts:533-539 | Without commits nothing is ever relayed, however many events are persisted: the log is what was published directly, and the outbox is empty. |
| SessionEvents.PersistInserts | src/services/durable-streams.service.ts:686-719 | The retry loop inserts exactly if some attempt within three can, and at the first such attempt. |
| SessionEvents.PersistTries | src/services/durable-streams.service.ts:686-719 | Try by try: the event id, then with "-r1" and "-r2", each only after a unique violation of the one before; a row goes one behind the highest offset of its stream, or to 0. |
| DurableStreams.DurableStreamsService.PersistToDb | src/services/durable-streams.service.ts:669-720 | Succeeds exactly when some permitted attempt inserts, returns the stream's next offset, and leaves the table unchanged on failure. |
| DurableStreams.DurableStreamsService.PersistToDbAndOutbox | src/services/durable-streams.service.ts:775-822 | Both tables gain their row, the outbox row pending, without attempts and due at once, or neither changes; the result is the event's offset; exactly one commit step is taken. |
| DurableStreams.CommitRun | src/services/durable-streams.service.ts:775-822 | What the commit step does to both tables, by the attempt that inserts. |
| SessionStream.SessionStreamService.PersistEventInternal | src/services/session/session-stream.service.ts:213-328 | The transaction with one attempt: event row and, on request, outbox row take effect together or not at all, the row at the stream's next offset with an ISO creation time; exactly one step of the pipeline is taken. |
| SessionStream.StepEffect | src/services/session/session-stream.service.ts:213-328 | What that step does to both tables, for every fault and for either kind of call. |
| SessionStream.SessionStreamService.PublishRealtimeOnly | src/services/session/session-stream.service.ts:541-559 | A direct publication appends to the log unless refused, and changes neither table. |
| Storage.Database.InsertSessionEvent | src/services/durable-streams.service.ts:688-707 | One insert succeeds exactly without a fault and with an id no row has; the row gets the offset one above the highest of its stream, or 0; a failed insert changes nothing. |
| Storage.Database.DeleteStreams | src/services/codespace.service.ts:441-448 | Deleting by stream removes exactly the rows of those streams, keeps all others in order, and is one step of the pipeline. |
| Storage.Database.SelectDue | src/services/event-outbox-relay.service.ts:105-112 | The poll's query returns at most 100 rows, each once, all pending with a due time not after now, earliest first, and leaves out such rows only if 100 are returned, none of them later. |
| Relay.EventOutboxRelayService.ProcessRow | src/services/event-outbox-relay.service.ts:141-179 | One row becomes published, or counts one more failure with its backoff or death, or is left as far as its writes took effect; no other row changes; the step sequence taken is exactly that of the outcome. |
| Relay.HandledMeans | src/services/event-outbox-relay.service.ts:141-179 | What the row becomes, in full: published now; or as far as its writes took effect; or one more attempt, dead from the tenth on, and due again after the delay of that attempt, given in milliseconds. |
| Relay.EventOutboxRelayService.Tick | src/services/event-outbox-relay.service.ts:98-126 | A stopped or overlapping tick does nothing; otherwise a due batch is handled in order, each reached row once, all others untouched, stopping behind the first row a write of which escapes; completed ticks are counted. |
| Relay.EventOutboxRelayService.StartRelay | src/services/event-outbox-relay.service.ts:54-75 | Starting twice is starting once. |
| Relay.EventOutboxRelayService.TrimPublished | src/services/event-outbox-relay.service.ts:181-193 | A row is gone after the call if and only if it was published and its mark is more than 1 800 000 ms old; every other row stays as it is. |
| Relay.EventOutboxRelayService.ServicesLoseNothing | src/services/event-outbox-relay.service.ts:98-193 | In every state the services bring about, a committed event is in the real outbox table, not published, or in the real server log. |
| Relay.RowRun | src/services/event-outbox-relay.service.ts:141-179 | The steps one row takes are possible from any working state and lead to the handled row, the delivered log and the rest of the batch. |
| Relay.AfterIsPointwise | src/services/event-outbox-relay.service.ts:114-116 | Handling the rows of a due batch in turn changes each of them once, as if alone, and no other row. |
| Cleanup.EventCleanupService.DeleteSome | src/services/event-cleanup.service.ts:368-376 | One delete statement removes up to 1000 of the rows that the dialect, by the text format each was written with, finds older than the cutoff, whichever the database picks, and reports how many. |
| Cleanup.EventCleanupService.BatchDelete | src/services/event-cleanup.service.ts:116-154 | The total is exact and the outbox untouched; unless a statement fails, a row survives the pass if and only if it is at or after the cutoff, or, on SQLite and written by the column's default, its UTC day is later than the cutoff's. |
| Cleanup.EventCleanupService.RunCleanup | src/services/event-cleanup.service.ts:346-376 | One cycle with a cutoff a positive number of days before now does that, and never deletes a row a day or more younger than the cutoff. |
| Cleanup.DeletedEarlyIff | src/services/event-cleanup.service.ts:360-376 | A row no older than the cutoff is deleted exactly on SQLite, if its time was written by the column's default, and on the cutoff's own UTC day; every older row is deleted. |
| Cleanup.YoungRowDeleted | src/db/schema/sqlite/session-events.ts:28 | A concrete run in which a retention of one day deletes a row with a default creation time one and a half hours after it was written. |
| Timestamps.TextOrderIsDayOrder | src/db/schema/sqlite/session-events.ts:28 | For all times with a four-digit year, the text the column's default stores is less than the ISO text of a cutoff if and only if its UTC day is not later than the cutoff's. |
| Timestamps.IsoOrderIsInstantOrder | src/services/session/session-stream.service.ts:246-268 | For all times with a four-digit year, ISO texts are ordered as the instants they stand for. |
| Timestamps.TextsOfInstant | src/db/schema/sqlite/session-events.ts:28 | One instant written out in both formats. |
| Cleanup.RunKeepsUniqueIds | src/services/durable-streams.service.ts:688-717 | Row ids stay unique in every run. |
| Cleanup.FilterThenKeep | src/services/event-cleanup.service.ts:125-151 | On either dialect and for either text format, deleting expired rows in rounds leaves the same rows as deleting them at once. |
| LagWindow.PublishLag.RecordLagSample | src/services/durable-streams.service.ts:579-583 | Under a clock that never goes back, the window is always the longest suffix of all samples within 30 s and 500 samples. |
| LagWindow.PublishLag.Prune | src/services/durable-streams.service.ts:568-577 | The two shifting loops leave exactly that suffix. |
| LagWindow.PublishLag.GetPublishLagMetrics | src/services/durable-streams.service.ts:543-566 | The metrics are the summary of the pruned window, all zero and no pause if it is empty. |
| LagWindow.Summarize | src/services/durable-streams.service.ts:555-565 | p50, p95 and max are the order statistics at their floored ranks, in order; the pause signal holds exactly if at least n minus floor(19n/20) samples exceed 500 ms. |
| LagWindow.SortAbove | src/services/durable-streams.service.ts:555 | Sorting keeps, for every threshold, the number of values above it. |
| LagWindow.SortedAbove | src/services/durable-streams.service.ts:555-564 | In a sorted sequence a rank exceeds a threshold exactly if enough values do. |
| NextRun.NextIntervalIsLeast | src/services/scheduler.service.ts:576-611 | The interval branch yields the least base plus k intervals, k at least 1, at or after now. |
| NextRun.NextRunIsLeastAdmissible | src/services/scheduler.service.ts:576-611 | Both branches yield the least admissible instant: at or after now for intervals, strictly after base and now for cron. |
| NextRun.FindNextCron | src/services/scheduler.service.ts:588-611 | The search loop over an unbounded iterator ends, at the least occurrence after both base and now. |
| NextRun.PeriodicSchedules | src/services/scheduler.service.ts:576-611 | Every positive interval and every periodic cron expression is a proper schedule, so the laws about proper schedules apply to them. |
| NextRun.NoNextRunIff | src/services/scheduler.service.ts:576-586 | No next run can be computed exactly for an interval of zero whose base is not in the future. |
| NextRun.NegativeIntervalIsDue | src/services/scheduler.service.ts:576-586 | A negative interval yields an instant at or before now, less than one interval back, or one step before a base that far ahead. |
| Windows.WindowContainsNow | src/services/scheduler.service.ts:496-555 | Each window starts at or before now and ends after it. |
| Windows.WindowStartMonotone | src/services/scheduler.service.ts:496-555 | A later instant never has an earlier window start. |
| Windows.WeekStartsOnMonday | src/services/scheduler.service.ts:496-555 | The week starts at local midnight of the Monday zero to six days back. |
| Windows.WindowsNest | src/services/scheduler.service.ts:496-555 | The hour starts no earlier than the day, the day no earlier than the week and the month. |
| Windows.StartsInDays | src/services/scheduler.service.ts:496-555 | The four starts in closed form: the date parts taken apart and put together cancel out. |
| Windows.HourTile | src/services/scheduler.service.ts:496-555 | Hours tile the time line: the last millisecond of one has its start, and the next one starts right behind. |
| Windows.DayTile | src/services/scheduler.service.ts:496-555 | So do days. |
| Windows.WeekTile | src/services/scheduler.service.ts:496-555 | So do weeks, of seven days. |
| Windows.MonthTile | src/services/scheduler.service.ts:496-555 | So do months, of as many days as the month has. |
| Windows.YearStarts | src/services/scheduler.service.ts:496-555 | The days to each first of January are 365 a year plus the leap days by the rules of 4, 100 and 400, for every year. |
| Windows.MonthStarts | src/services/scheduler.service.ts:496-555 | Within each year the months start after 31, 59, 90, … days, one later from March on in a leap year. |
| Windows.CenturyRule | src/services/scheduler.service.ts:496-555 | The first of March is day 11 017 in 2000 and day 47 541 in 2100. |
| Lock.SwapRaisesIff | src/services/scheduler.service.ts:395-420 | For a due source the computed value is above the stored one except for an interval schedule computed at the stored value itself on its own grid. |
| Lock.EachValueAcquiredOnce | src/services/scheduler.service.ts:227-240 | However ticks of any number of processes interleave, acquired values strictly increase, so of the racers that read one value at most one executes, unless that exception occurs. |
| Lock.CronLockIsExclusive | src/services/scheduler.service.ts:395-420 | For cron schedules no value is acquired twice in any run. |
| Lock.OtherwiseTwoTicksExecute | src/services/scheduler.service.ts:227-240 | Whenever the exception occurs, two ticks in that millisecond both acquire the same value. |
| Scheduler.BudgetIsNeverExceeded | src/services/scheduler.service.ts:261-285 | In every sequential run, at every later moment, executed records since the window start (for the week, since the later of Monday and the first of the month) stay within the limit, across rollovers. |
| ExecutionRecords.ThrottlesIff | src/services/scheduler.service.ts:430-494 | The check refuses if and only if the executed records since the start of the current hour, day or month, or since the later of Monday and the first of the month, have reached the limit set for it. |
| ExecutionRecords.CountIsSize | src/services/scheduler.service.ts:441-453 | The number compared with a limit is the number of executed records at or after that start. |
| ExecutionRecords.RecordsOfCall | src/services/scheduler.service.ts:261-386 | Every way a call can end, with exactly the records it adds: a success one executed record at its time, a skipped call one that says so, a parse or pipeline failure one failed record, an exception one from the catch branch; each only if it is stored. |
| ExecutionRecords.RowOfCall | src/services/scheduler.service.ts:213-259 | A call that computes a next run stores it, one that takes the lock sets the last run, and neither touches anything else but counter and status. |
| ExecutionRecords.EverySuccessCounts | src/services/scheduler.service.ts:261-329 | Over every run, the executions on record since any time are those there were and the recorded successes of the run since then, no fewer and no more. |
| ExecutionRecords.SuccessesStayWithinBudget | src/services/scheduler.service.ts:261-329 | In every sequential run, at every later moment, the run's recorded successes since the window start stay within the limit; the record list is not looked at. |
| ExecutionRecords.SkippedAtTheLimit | src/services/scheduler.service.ts:261-285 | In every run whose recorded successes in a current window have reached its limit, the next call does no work and leaves a record of having been skipped. |
| ExecutionRecords.SecondTickIsSkipped | src/services/scheduler.service.ts:261-285 | At most one an hour and two ticks a minute apart: the first is recorded as executed, the second as skipped. |
| ExecutionRecords.SwitchesWrite | src/services/scheduler.service.ts:825-914 | What pausing, resuming and switching on or off write. |
| Scheduler.WeekCountExactIff | src/services/scheduler.service.ts:430-462 | The week's count is right if and only if nothing was executed this week before the first of the month. |
| Scheduler.WeeklyLimitCanBeExceeded | src/services/scheduler.service.ts:448-453 | A concrete week in which a limit of one lets a second execution pass. |
| Overlap.OvershootIsBounded | src/services/scheduler.service.ts:261-313 | When executions of a source overlap, at every later moment the executions counted in a window are at most its limit plus the most in flight between check and record at once, less one. |
| Overlap.OvershootIsReached | src/services/scheduler.service.ts:261-313 | That bound is exact: with a limit on any one window alone, for every positive number in flight some run reaches it. |
| Scheduler.BreakerCounts | src/services/scheduler.service.ts:728-775 | In every sequential run the stored counter equals the failures counted over the run's steps since the last success or effective resume, and an active source is below five of them exactly if no switch-on at five or more happened since. |
| Scheduler.ContentionIsInvisible | src/services/scheduler.service.ts:230-240 | Every run with any number of ticks in between whose copy of the row another tick has overtaken ends as the run without them. |
| Scheduler.FifthFailureTrips | src/services/scheduler.service.ts:728-761 | Without switch-ons the counter never passes five, and five is exactly the error status. |
| Scheduler.RaisesIff | src/services/scheduler.service.ts:327-386 | In every state a step raises the failure counter if and only if it is a counted failure of the pipeline or a counted exception before the record, and trips the breaker if and only if that is the fifth; an execution whose work succeeds does neither. |
| Scheduler.OnlyFailuresCount | src/services/scheduler.service.ts:327-386 | Over every run in which no pipeline fails and nothing throws before a record, the counter never rises and the source is not moved to the error status. |
| Scheduler.TrippedStaysDown | src/services/scheduler.service.ts:146-158 | A source in error is not executed and does not change until it is resumed or switched on. |
| Scheduler.PauseThenResume | src/services/scheduler.service.ts:825-914 | Pausing and resuming leaves an active source active, cleared of failures and due no earlier than now. |
| SchedulerService.SchedulerService.CheckBudget | src/services/scheduler.service.ts:464-494 | Passes exactly if every window limited by the given configuration has something remaining; otherwise names the first exhausted window, in the order hour, day, week, month, and its count. |
| SchedulerService.SchedulerService.AcquireLock | src/services/scheduler.service.ts:395-420 | Swaps exactly if the stored value is the expected one, and touches nothing else. |
| SchedulerService.SchedulerService.IncrementConsecutiveErrors | src/services/scheduler.service.ts:728-761 | Writes one more than the caller's copy and the error status from five on. |
| SchedulerService.SchedulerService.ProcessSource | src/services/scheduler.service.ts:213-389 | One execution with a copy of the row, current or stale: no other source changes; it answers "executed" if and only if a next run could be computed, the lock was taken, nothing threw, the budget allowed it and the work succeeded, and then adds one executed record, if stored; "skipped" for the budget adds that record; "skipped" for the lock adds none; "error" adds failures only; row and records are in every case those of the model. |
| SchedulerService.SchedulerService.SelectDue | src/services/scheduler.service.ts:146-158 | Returns exactly the active, enabled sources with a next run not after now, each once. |
| SchedulerService.SchedulerService.RunTick | src/services/scheduler.service.ts:137-207 | Whatever the concurrency limit, exactly the active, enabled sources whose next run was not after now at the start of the tick are processed, each once, from its state at that time, and no other source changes. |
| SchedulerService.TickOrderIsIrrelevant | src/services/scheduler.service.ts:179-185 | In whatever order and slices a tick works through the due sources, the tables end the same. |
| Interleaving.AnyInterleaving | src/services/scheduler.service.ts:179-185 | However the database statements of a tick's concurrent calls interleave, when all calls have finished each due source has been processed once, as if alone, and no other source has changed. |
| Interleaving.CallCompletes | src/services/scheduler.service.ts:213-389 | Taken apart into its statements, catch branch included, an undisturbed call does exactly what the model's one step does. |
| SchedulerService.SchedulerService.PauseSource | src/services/scheduler.service.ts:825-859 | Succeeds exactly for an active source, which is then disabled with the time of the pause. |
| SchedulerService.SchedulerService.ResumeSource | src/services/scheduler.service.ts:861-914 | Succeeds for every inactive source with a proper schedule, which is then active, enabled, without failures, and due no earlier than now. |
| SchedulerService.SchedulerService.RecoverSchedules | src/services/scheduler.service.ts:617-671 | Start-up recovery gives every active, enabled source whose next run is missing or not after now the one computed from its schedule and last run, at or after now for a proper schedule; future times and all other fields are untouched, and one failure does not stop the others. |
| TokenBatching.BatchingRefinesDirectEmission | agent-runner/src/event-emitter.ts:236-331 | For every sequence of calls and timer flushes, decoding the output and appending the buffer gives the call sequence if and only if no non-flushing call overtook buffered tokens. |
| TokenBatching.FileChangeOvertakes | agent-runner/src/event-emitter.ts:337-368 | A concrete run in which a file change sent after a token is seen before it. |
| TokenBatching.EachKindKeepsItsOrder | agent-runner/src/event-emitter.ts:236-368 | In any case tokens among themselves, and all other events among themselves, are never lost, doubled or reordered. |
| TokenBatching.FeedAllWellFormed | agent-runner/src/event-emitter.ts:236-268 | Batches hold 1 to 10 deltas, fewer than 10 stay buffered, and the timer is set exactly if the buffer is not empty. |
| TokenBatching.WritesOf | agent-runner/src/event-emitter.ts:236-368 | After any inputs, what each kind of call writes: turns, tool events, messages and terminal events put the buffered tokens in one batch before them; start, file change, plan and topology events go out alone past the buffer; the tenth token sends the batch. |
| TokenBatching.TimerWrites | agent-runner/src/event-emitter.ts:246-268 | The timer sends what is buffered. |
| TokenBatching.EventEmitter.EmitToken | agent-runner/src/event-emitter.ts:236-252 | Buffers one delta and stays what its inputs lead to. |
| TokenBatching.EventEmitter.FlushTokens | agent-runner/src/event-emitter.ts:258-268 | Empties the buffer into one batch, or does nothing but clear the timer. |
| TokenBatching.EventEmitter.Emit | agent-runner/src/event-emitter.ts:273-368 | Every other call, flushing first or not, stays what its inputs lead to. |
| Topology.LabelsAreServed | agent-runner/src/index.ts:315-414 | The label of every local start that is sent, by the inputs alone: the first reported type no earlier start took, or its task type if there is none. |
| Topology.LabelsAlignIff | agent-runner/src/index.ts:315-414 | The i-th local start is labelled with the i-th reported type if, for every j up to i, more than j types were reported before the j-th start; and only then if the types can be told apart. |
| Topology.OneEarlyStartShiftsAll | agent-runner/src/index.ts:355-385 | After one early start every later label is a type of an earlier position, or none. |
| Topology.SecondStartGetsFirstType | agent-runner/src/index.ts:355-385 | A concrete run in which the second start is labelled with the first type. |
| Topology.ReportsReachTheirNode | agent-runner/src/index.ts:332-414 | After any inputs, progress and completion of a task are sent exactly if it was started and not reported finished since, for the node of its last start; a start is sent as a child of the root, which goes first if it was not sent yet. |
| RunnerTopology.TopologyCalls | agent-runner/src/index.ts:1751-1762 | In every execution phase the topology events sent are the root's and then exactly those of the tracker alone on the hooks and task messages taken. |
| RunnerTopology.TopologyIsSound | agent-runner/src/index.ts:332-414 | In every execution phase each node is spawned once after its parent and reports only between its spawn and its single completion. |
| Runner.ToolsPair | agent-runner/src/index.ts:1434-1529 | At every step starts and results alternate per tool id, each result bears its start's name, and exactly the active tools lack a result. |
| Runner.OpenIff | agent-runner/src/index.ts:1434-1529 | While a run goes on, the tools without a result are exactly those some input opened and none closed since. |
| Runner.ExitIff | agent-runner/src/index.ts:1660-1916 | A run goes on exactly as long as none of its inputs is the end or failure of the stream, a result, the last allowed turn, a message found with the stop file, or the process exit after a signal. |
| Runner.EndedByFirst | agent-runner/src/index.ts:1660-1916 | The first such input decides the way the run ends, and nothing after it counts. |
| Runner.ExitsCloseTools | agent-runner/src/index.ts:1660-1916 | Result, end of stream and error leave no tool open; turn limit, stop file and process exit leave exactly those that the inputs before opened and did not close. |
| Runner.OneTerminalEventLast | agent-runner/src/index.ts:1660-1916 | No terminal event before the end and exactly one, last, at it, unless the process exited on a signal. |
| Runner.DrainedRun | agent-runner/src/index.ts:495-515 | If nothing ends the phase between a signal and the process exit, no terminal event is sent, and open are exactly the tools opened in between and not closed. |
| Runner.SignalIff | agent-runner/src/index.ts:580-596 | A signalled run sends a terminal event if and only if an ending input falls between the signal and the process exit. |
| Runner.DrainLeavesToolOpen | agent-runner/src/index.ts:495-515 | A concrete run in which a tool opened after a signal is never closed. |
| Runner.DrainCanComplete | agent-runner/src/index.ts:495-515 | A concrete run that completes after a signal. |
| Runner.StopFileLeavesToolOpen | agent-runner/src/index.ts:1664-1670 | A concrete run in which the stop file leaves a tool open. |
| Runner.TurnLimitLeavesToolOpen | agent-runner/src/index.ts:1690-1702 | A concrete run in which the turn limit leaves a tool open. |
| RunnerOutput.LastCall | agent-runner/src/index.ts:1660-1916 | Which terminal event a run ends with, by the first input that ends it and the turns begun: a result completes with the status error or completed it carries, the last allowed turn with turn_limit, the end of the stream with completed; a failure of the stream is an error event, the stop file a cancellation. |
| RunnerOutput.SaysWhatInputsSay | agent-runner/src/index.ts:1489-1916 | Everything a run sends besides tool results and topology events, in order and in full, from its inputs alone: non-empty deltas and texts, turn numbers, starts and file changes of tools not open before, and the terminal event. |
| RunnerOutput.ResultsOfInput | agent-runner/src/index.ts:1434-1481 | The tool results an input causes are for tools the inputs before left open and this one closes, in the order of the summary or else of their starts, with the error flag of the summary, set for a signal, and clear otherwise. |
| RunnerOutput.FailedResult | agent-runner/src/index.ts:1831-1867 | A failed result as the first message completes with the status error. |
| RunnerHost.HostSeesTheRun | src/lib/agents/container-bridge.ts:426-445 | After batching, timers and decoding the host has every event of a finished phase, tools paired, and as the very last event the terminal one; and exactly the run if nothing overtook. |
| RunnerHost.HostMissesAtMostNineTokens | agent-runner/src/event-emitter.ts:236-268 | For every sequence of calls and timer flushes the host has all other events, and all tokens but those still buffered, which are the last ones and at most nine. |
| RunnerHost.HostSeesAnyRun | agent-runner/src/index.ts:495-515 | At any moment of any run, signalled or not, tools are paired for the host and it misses at most nine tokens. |
| ExecutionPhase.ExecutionPhase.EmitToolResult | agent-runner/src/index.ts:1434-1457 | Closes one active tool with its name and removes it from the map, or does nothing. |
| ExecutionPhase.ExecutionPhase.EmitAllToolResults | agent-runner/src/index.ts:1460-1464 | Closes all active tools in insertion order. |
| ExecutionPhase.ExecutionPhase.FlushHook | agent-runner/src/index.ts:1469-1481 | Sending a result for every entry and clearing the map is the same as closing all tools one by one. |
| ExecutionPhase.ExecutionPhase.TrackToolInvocation | agent-runner/src/index.ts:1489-1529 | Opens an untracked tool once and reports its file change. |
| ExecutionPhase.ExecutionPhase.RunExecutionPhase | agent-runner/src/index.ts:1390-1916 | The loop over the map of active tools, its insertion order, the tracker and the emitter produces exactly the run of the model, signals and drain included; what it sends besides results and topology events is what its inputs call for. |
| Migration.TwoPhasesAreDirectInAnyOrder | scripts/migrate-sqlite-to-pg.ts:443-609 | The copy succeeds exactly if the keys are complete, new and pairwise different; then inserting with circular keys nulled and applying the deferred updates in any order equals the direct column-wise copy. |
| Migration.InsertAllIff | scripts/migrate-sqlite-to-pg.ts:503-514 | Inserting succeeds exactly if the keys are complete, new and pairwise different. |
| Migration.InsertConcat | scripts/migrate-sqlite-to-pg.ts:503-514 | Cutting the rows into batches changes neither outcome nor result. |
| Migration.KeyIsKept | scripts/migrate-sqlite-to-pg.ts:462-489 | A row is inserted under the key its deferred updates look for. |
| Migration.AnyOrder | scripts/migrate-sqlite-to-pg.ts:520-556 | Updates of different cells may be applied in any order. |
| Migration.EveryRowArrives | scripts/migrate-sqlite-to-pg.ts:562-609 | Every source row is found under its key, converted column by column. |
| Migration.ElsewhereUntouched | scripts/migrate-sqlite-to-pg.ts:562-609 | Rows under other keys keep their values. |
| CopiedCells.RowIsCopied | scripts/migrate-sqlite-to-pg.ts:343-367 | A copied row has exactly the common columns; a boolean column holds true if and only if the source cell was 1 or true, false if and only if it was 0 or false, and NULL otherwise; a JSON column the parsed value of a text that parses, any other value as it is; every other column the source's value. |
| CopiedCells.UpdatesAreOwed | scripts/migrate-sqlite-to-pg.ts:462-489 | The updates held back for a row bring the copies of its circular foreign keys to its own key, one for each that does not copy to NULL. |
| CopiedCells.KeysDecide | scripts/migrate-sqlite-to-pg.ts:503-514 | The copy succeeds if and only if every source row has its whole key, in columns both sides have and without NULL, new to the target and unlike any other row's. |
| MigrationScript.TableDefsArePlain | scripts/migrate-sqlite-to-pg.ts:70-253 | No primary-key column of any of the 25 tables is converted or held back, and the cleaning statement names every table. |
| MigrationScript.ConvertRow | scripts/migrate-sqlite-to-pg.ts:443-497 | The column loop yields the row to insert, its circular foreign keys NULL and every other cell the copy of the source's, and exactly the updates held back. |
| MigrationScript.PgDatabase.BatchInsert | scripts/migrate-sqlite-to-pg.ts:503-514 | For every batch size, all rows go in as if by one statement, or the run is refused exactly if that statement would be. |
| MigrationScript.PgDatabase.ApplyDeferredUpdates | scripts/migrate-sqlite-to-pg.ts:520-556 | All updates are applied in order, and the counts are the updates per table and column. |
| MigrationScript.PgDatabase.MigrateTable | scripts/migrate-sqlite-to-pg.ts:562-609 | One table's rows are converted, inserted and counted, its updates collected. |
| MigrationScript.PgDatabase.Migrate | scripts/migrate-sqlite-to-pg.ts:659-719 | The script succeeds exactly if the source's keys allow it; then the target holds every row of every listed table under its key, in exactly the common columns, each cell the copy of the source's cell by the kind of its column, circular foreign keys included, and all other rows are as they were, or gone if cleaned; on failure or in a dry run it is unchanged; the row total is exact. |
| MigrationScript.CopyIsTheSource | scripts/migrate-sqlite-to-pg.ts:443-609 | The direct copy read back in terms of source tables, columns and cells: when it is made, what it holds of every source row, and what it leaves alone. |
| MigrationScript.ValidKeyStaysValid | scripts/migrate-sqlite-to-pg.ts:343-347 | In every copy an API key stored as valid with 1 is valid, with true. |
| MigrationScript.CleaningMakesRoom | scripts/migrate-sqlite-to-pg.ts:615-626 | After cleaning, only the source's own keys can make the run fail. |
| MigrationScript.CleanCopyIsTheSource | scripts/migrate-sqlite-to-pg.ts:659-710 | A clean copy holds the source's rows and no others in the migrated tables. |
| EventProcessing.OnlyFirstsMatter | src/services/event-processing.service.ts:165-204 | Any sequence of deliveries and log retentions leaves the same log, tasks and counters as its first occurrences alone. |
| EventProcessing.LoggedIffRemembered | src/services/event-processing.service.ts:170-204 | A key is in the log exactly if some delivery of it got past the database and its row was not forgotten since. |
| EventProcessing.TwiceOnlyIfForgotten | src/services/event-cleanup.service.ts:377-382 | A delivery counts as first twice only if its log row was deleted in between. |
| EventProcessing.ExactlyTheTasksOwed | src/services/event-processing.service.ts:209-281 | After any run a key has exactly the tasks of its first occurrences; one that could not read the subscriptions stays without for good. |
| EventProcessing.TaskIff | src/services/event-subscription.service.ts:230-252 | A new, stored and readable delivery makes one task, in the order of the list, for exactly those subscriptions that are of its source, enabled, for all types or its own, with every filter met, whose creation returned a task, and before which no such subscription threw; any other delivery makes none. |
| EventProcessing.StatusIff | src/services/event-processing.service.ts:283-284 | The final status is task_created if and only if a task was due, matched if and only if only records were, and ignored if neither. |
| EventProcessing.ListedTypeOnly | src/services/event-subscription.service.ts:243-248 | With one subscription that lists "push", a push makes a task and an issues event is ignored. |
| EventProcessing.CountersOf | src/services/event-processing.service.ts:257-308 | An increment is missed exactly for the tasks whose count was not written; the source's count rises exactly if the delivery ran to its end and that write worked. |
| EventProcessing.CountsAccountForTasks | src/services/event-subscription.service.ts:257-272 | In every run a subscription's match count plus its increments that failed or threw is the number of its tasks. |
| EventProcessing.LogTellsTheTruthIff | src/services/event-processing.service.ts:283-300 | Until it is forgotten, the one log row of a first occurrence shows its true status and matches if and only if the subscriptions could be read, nothing threw and the closing update worked; otherwise it says received. |
| EventProcessing.LogCanMissTasks | src/services/event-processing.service.ts:286-300 | A concrete delivery with a task whose log row says received. |
| EventProcessing.UnreadableThenRedelivered | src/services/event-processing.service.ts:209-216 | A concrete redelivery that makes no task because the first attempt could not read the subscriptions. |
| EventProcessing.UnloggedDuplicate | src/services/event-processing.service.ts:186-203 | A concrete first delivery that is called a duplicate and leaves no trace. |
| EventProcessing.DuplicateIsLoggedIff | src/services/event-processing.service.ts:186-203 | A reported duplicate is in the log, except exactly if the insert was refused with a constraint text for a key not logged. |
| EventProcessing.ReplyIsTrue | src/services/event-processing.service.ts:318-325 | A processed delivery's reply lists the tasks really added, no more than the matches. |
| EventProcessing.ReplyIff | src/services/event-processing.service.ts:186-325 | Exactly when a delivery is answered as a duplicate, with a failure, or as processed, and the whole of that answer. |
| EventProcessing.EventProcessingService.ProcessEventPipeline | src/services/event-processing.service.ts:165-326 | The service changes log, tasks and counters, and answers, exactly as the pipeline model does, exceptions of task creation and of the counters included; the tasks it adds are those due to the listed subscriptions. |
| SchemaDrift.FindMatchingClose | scripts/lib/schema-drift.ts:49-63 | Returns just past the first position where nesting closes, or the end; a start past the end is returned as it is. |
| SchemaDrift.BodyIsExact | scripts/lib/schema-drift.ts:233-238 | Cutting at that position gives back exactly the properly nested body that was written. |
| SchemaDrift.CompatibleIffSameClass | scripts/lib/schema-drift.ts:120-142 | Two type tokens are compatible exactly if they have the same class, so the one-sided table is an equivalence. |
| SchemaDrift.CompareSchemas | scripts/lib/schema-drift.ts:262-371 | The answer is "drift" exactly if warnings are added, exactly if the dialect-free forms differ; and the warnings added are exactly the differences there are. |
| SchemaDrift.ColumnWarningsMean | scripts/lib/schema-drift.ts:262-330 | What each warning about tables and columns says, in terms of the two schemas alone. |
| SchemaDrift.IndexWarningsMean | scripts/lib/schema-drift.ts:331-371 | What each warning about indexes says: of several of one name on a table the last counts. |
| SchemaDrift.DriftFreeIff | scripts/lib/schema-drift.ts:262-371 | No difference exists exactly if both schemas have the same dialect-free form. |
| SchemaDrift.DriftFreeIsEquivalence | scripts/lib/schema-drift.ts:262-371 | Being free of drift is reflexive, symmetric and transitive. |

## Left out

- Fairness.NoStarvation: ticks that an escaped write or a crash cuts short are not counted as completed, here and in `Progress`.
- Lock.EachValueAcquiredOnce: tick-only runs; a manual trigger writes `nextRunAt` without comparing, so it is outside the lock.
- Scheduler.BudgetIsNeverExceeded: sequential executions (`Overlap` has the bound for overlapping ones); executions whose record was not stored are not counted.
- Windows.WindowContainsNow: a constant offset per time zone; daylight-saving changes within a window are not modelled.
- Cleanup.EventCleanupService.RunCleanup: a day has 24 hours and a PostgreSQL session runs in UTC; the log table of the same cycle, whose `received_at` the code writes in the cutoff's own format (src/services/event-processing.service.ts:184), and the backup are left out.
- SchedulerService.SchedulerService.RunTick: the method runs the sources of a slice one after another; their interleaving is the subject of `Interleaving`.
- Runner.OneTerminalEventLast: the exits by uncaughtException and unhandledRejection (agent-runner/src/index.ts:523-570), which close no tools, and a session that cannot be created are not modelled.
- LagWindow.Summarize: the 95th rank is floor(19n/20), which is what floor(n * 0.95) gives for the at most 500 samples kept.
- RunnerTopology.TopologyIsSound: the random node ids made up for started tasks are taken to be fresh.
- MigrationScript.PgDatabase.Migrate: the target refuses rows for their primary keys only; other unique indexes, NOT NULL columns and type errors, all of which abort the transaction in the same way, are not modelled, nor are the preflight checks, which stop the script before it writes.
- EventProcessing.EventProcessingService.ProcessEventPipeline: source lookup, signature check, parsing, templates and the move of a new task to its column are left out; filter matching and task creation are parameters.
- SchemaDrift.CompareSchemas: works on parsed schemas; extracting columns and indexes from source text by regular expressions is not modelled, and warnings are values, not texts.
- Class methods run one at a time; interleavings of producers, relay actions and retention are covered by the step system, not by the classes.
- Ephemeral terraform streams, the mode without a database, payload validation and stream-type checks of `publish`, and the transport to the stream server.
- The planning phase and the AgentCore handler, which repeat the tool tracking with weaker guarantees.
- The session summary and the session lookup around an insert of the session stream service; a failure of the former counts as a later statement that fails.
- Backup files and their newest-N retention, service status fields, log texts and metrics counters.
- Parsing of cron expressions, time-zone names and JSON; they are function parameters.
- HTTP routes, UI, CLI, permissions, credentials and sandbox providers.

# Verification of the command runtime, its probes and its benchmarks

This project models the parts of the application whose correctness depends on order, interleaving or exact counting, and
proves what they are relied on for. `dafny verify dfyconfig.toml` checks all of it.

**The command runtime** (`src/applicationCommands/runtime.ts`). Commands are queued behind each other on one promise chain,
wait for a policy and perhaps for a confirmation, can be cancelled until they commit, are deduplicated by an idempotency key,
carry an optimistic project revision, and end in an archive of 32 entries. The code between two `await`s is one atomic step.
`CommandProtocol` is the step system: `Step` lists the steps, `Enabled` says when each can happen, `Apply` what it does, and
whoever calls, and every `Promise.race`, may pick any step that is enabled. `CommandInvariant`, `CommandQueue`,
`CommandArchive`, `CommandKeys`, `CommandRevision` and `CommandLog` hold the invariants of one request, the queue, the archive,
the keyed tables, the revision and the history; `CommandRuns` puts them together for every run. `CommandTheorems`,
`CommandChanges`, `CommandCommit`, `CommandProgress`, `CommandSafety` and `CommandPolicy` state what holds in every reachable
state and over every run. `CommandHistory` gives a run all the states it goes through, and on it `CommandOrigin`,
`CommandSignals`, `CommandReports`, `CommandResults`, `CommandFence` and `CommandShown` say exactly where a request comes from,
which steps abort it, let it in and let it commit, how and why it is reported, what its callers get, and what is shown of it.
They speak of steps, inputs and fields, not of the functions the model computes with. `CommandRuntime` is the runtime itself, with the fields the source has, updated in place: each
method is proved to take the modelled state exactly one step further, so that all the theorems hold of these objects.

**The native UI probe** (`Intervals`, `UiProbe`, `UiMeasure`): one active sample at a time, spans that outlive the lock they
were opened under, the union of their intervals, and the measurement in the user interface that drives it.

**Session leases** (`TabulateLease`, `PostCreate`, `Warnings`): the two commands that prepare, poll and release a tabulate
session, and the four effects that follow a created table.

**Algorithms with a specification of their own**: cursor pagination (`Pagination`), the time-series fixture and its auditor
(`TimeSeriesFixture`), the benchmark grid (`GridSeeding`), the plan scan of profiler and loader (`PlanScan`) and nearest-rank
percentiles (`Percentile`). `Common`, `Arithmetic` and `Sorting` serve several of them.

Where the code does not do what one would expect, the model follows the code:

- The plan in `docs/superpowers/plans/2026-09-15-issue-188-mcp-application-command-layer.md` wants a command never to be
  misreported once it has committed. A handler that commits and then throws the code "cancelled", as `assertCurrent` does when
  the project has changed, is reported as cancelled. `CommittedReportedCancelled` is such a run; `CommittedIsCancelledExactly`
  says that over every run it happens if and only if the handler throws that code.
- A request that is cancelled while it waits for its confirmation can end with the status "running" on its object, although
  it is archived as cancelled; only the check before the handler stops it (`CancelAfterConfirm` is such a run). This happens
  if and only if it had been confirmed and the race answers with the confirmation; otherwise its status stays "cancelled"
  (`CancelledWhileWaiting`).
- `confirm` answers true as often as it is asked while the request waits, and only its first answer counts; the later calls
  change nothing (`ConfirmDecidesOnce`).
- The idempotency key is a string joined with colons. It is injective while session ids and command names have none
  (`KeysAreInjective`). Two sessions and commands share keys if and only if one of their prefixes begins with the other
  (`KeysCollideExactly`), and then a command can be answered with another session's other command (`JoinsAnotherSession`).
  The application as shipped does not get there: its only caller with keys, `src/services/applicationCommandBridge.ts:10,124`,
  always passes the same session id, which has no colon, and no command registered in
  `src/applicationCommands/applicationRuntime.ts:153-435` has one in its name. A collision needs another caller of `execute`.
- An empty cursor counts as no cursor, and a repeated id leads back to its first row. `ReadableExactly` says for which lists
  following `nextCursor` still reads everything; `EmptyIdIsNotPassed` is a list of two rows that is never read to its end.
- A measurement whose view was painted while a span of its sample was still open leaves the sample slot occupied: its verified
  `finish` is refused, and it does not try again (`Measure`; `SlotStaysOccupied` is such a measurement).
- A source table that changes during a run is a warning for `tabulate.run` and an error for `tabulate.exportTable`; a session
  in state "cancelled" is reported as cancelled by the first and as a failure by the second (`RunFailsExactly`,
  `ExportFailsExactly`).
- In a saved project the owner fence compares the persistence only: a mutation goes on after the project itself was exchanged
  under it (`SavedProjectPasses`). In an unsaved one it is refused (`OtherProjectRefused`).

## Model

| member | source | states |
|---|---|---|
| CommandTheorems.OneActiveRequest | src/applicationCommands/runtime.ts:273-279 | in every reachable state at most one live request is past the queue, and handler executions never overlap |
| CommandTheorems.HandlersEnterInOrder | src/applicationCommands/runtime.ts:561-562 | handlers are entered in strictly increasing request order, each at most once |
| CommandTheorems.SettlesOnce | src/applicationCommands/runtime.ts:419-430 | over any run, a settled request keeps its outcome, and a request whose run has ended is settled |
| CommandTheorems.NeverStuck | src/applicationCommands/runtime.ts:450-496 | the first request that has not ended can continue, or waits for its policy, for `confirm` or for its handler; until the handler `cancel` is accepted, and during it exactly until it commits |
| CommandTheorems.ContinuationsAdvance | src/applicationCommands/runtime.ts:438-603 | every continuation moves its run forward, so a run has at most four of them |
| CommandProgress.EverythingCanEnd | src/applicationCommands/runtime.ts:273-279 | from every reachable state the run can be continued, without new submissions, until every request has ended and is settled |
| CommandTheorems.CancelIsFinal | src/applicationCommands/runtime.ts:302-319 | once `cancel` answered true the request never commits, succeeds or moves the revision in any continuation of the run, and a handler not yet entered never is, even after `confirm(true)` |
| CommandSafety.CancelledWhileWaiting | src/applicationCommands/runtime.ts:485-559 | a request cancelled while it waits for confirmation ends without entering its handler, with the status "running" if and only if it was confirmed and the race answers with that, and "cancelled" otherwise |
| CommandSafety.CancelAfterConfirm | src/applicationCommands/runtime.ts:498-559 | a run in which `confirm(true)` and then `cancel` are both accepted: the object ends with status "running", its handler is never entered, and the archive says cancelled |
| CommandTheorems.CommitIsFinal | src/applicationCommands/runtime.ts:532-539 | once `beginCommit` succeeded `cancel` answers false for ever, also after progress has set the status back to running |
| CommandCommit.CommittedIsCancelledExactly | src/applicationCommands/runtime.ts:583-602 | over every run, a request that has committed is reported as cancelled if and only if its handler threw the code "cancelled" |
| CommandTheorems.CommittedSettlesAs | src/applicationCommands/runtime.ts:581-602 | how the status of a committed request follows from what its handler does |
| CommandCommit.CommittedReportedCancelled | src/applicationCommands/applicationRuntime.ts:93-101 | a run in which the handler commits, the project changes, and the command is reported as cancelled by the guard |
| CommandReports.OutcomeExactly | src/applicationCommands/runtime.ts:464-602 | over every run, a request has an outcome if and only if exactly one step settled it so, and for each outcome, each error code included, the step and the condition it comes from |
| CommandResults.SuccessIsWhatReturned | src/applicationCommands/runtime.ts:572-582 | a successful command's handler returned in exactly one step; its result is what was returned there, for this request and command, with the project revision right after that step |
| CommandResults.CachedIsWhatReturned | src/applicationCommands/runtime.ts:222-232 | a duplicate answered from the cache gets what the handler of an earlier request with its key returned |
| CommandResults.GaveUpExactly | src/applicationCommands/runtime.ts:583-602 | a request cancelled in its handler before it commits ends as cancelled, unless the handler throws another code or is an export refused for want of confirmation, and is then reported with that code |
| CommandResults.ThrownIsReported | src/applicationCommands/runtime.ts:586-590 | a code thrown by a handler is what its request is reported with |
| CommandResults.RefusalIsReported | src/applicationCommands/ioCommands.ts:63-79 | an export refused after its own inspection is reported as wanting a confirmation |
| CommandSignals.MarkedExactly | src/applicationCommands/runtime.ts:302-319 | over every run, the steps that abort a request, let it into its handler and let it commit: each mark is there if and only if one of these was taken |
| CommandSignals.CancelAnswersExactly | src/applicationCommands/runtime.ts:302-319 | `cancel` answers true if and only if the request is neither settled nor committed |
| CommandSignals.ConfirmAnswersExactly | src/applicationCommands/runtime.ts:321-328 | `confirm` answers true if and only if the request waits for it, unsettled |
| CommandOrigin.MadeBySubmission | src/applicationCommands/runtime.ts:241-265 | every request was made by one `execute`: its command, actor, mode, owner and key are those of that call, and a signal raised by then has cancelled it for good |
| CommandOrigin.RegisteredLast | src/applicationCommands/runtime.ts:183-195 | the mode of a command is the one it was last registered with |
| CommandHistory.RunsHaveTraces | src/applicationCommands/runtime.ts:136-630 | every run of steps from a new runtime goes through such states |
| CommandTheorems.OneRequestPerKey | src/applicationCommands/runtime.ts:220-239 | of the requests with one idempotency key at most one succeeds and at most one is unsettled at any time |
| CommandTheorems.DuplicateGetsTheFirst | src/applicationCommands/runtime.ts:221-238 | in every interleaving of the continuations a duplicate gets the same promise or the cached result, and changes nothing |
| CommandResults.TicketExactly | src/applicationCommands/runtime.ts:206-297 | which answer `execute` gives, for every command and key: the stored result, the promise still in flight, or a new request |
| CommandTheorems.FreshExactly | src/applicationCommands/runtime.ts:288-297 | a keyed command is admitted as new exactly when every earlier request with its key failed and has been cleaned up |
| CommandChanges.RevisionIsAccountedFor | src/applicationCommands/runtime.ts:568-570 | over every run of every configuration the revision is the initial one, plus what was written outside, plus one for each request that advanced it, each a successful mutation with `changed` |
| CommandChanges.RevisionCountsChanges | src/applicationCommands/runtime.ts:568-570 | with or without an adapter, over every run in which nobody outside writes the revision or makes the adapter authoritative, it is the initial one plus the number of successful mutations with `changed` |
| CommandChanges.WithoutAdapterQuiet | src/applicationCommands/runtime.ts:171-181 | without an adapter every run is one of those |
| CommandChanges.OnlyChangesMoveTheRevision | src/applicationCommands/runtime.ts:564-570 | no step of the runtime but a successful change moves the revision, and that one by one; reads never do |
| CommandChanges.ExpectedRevisionIsUsedOnce | src/applicationCommands/runtime.ts:507-516 | with no outside writer, two mutations that expect the same revision cannot both succeed with a change |
| CommandChanges.ResultRevisionsAscend | src/applicationCommands/runtime.ts:572-579 | with no outside writer, the revisions in results never fall with the request number and rise with every change |
| CommandKeys.KeysAreInjective | src/applicationCommands/runtime.ts:342-350 | without colons in session ids and command names the key determines session, command and idempotency key |
| CommandKeys.KeysCollideExactly | src/applicationCommands/runtime.ts:342-350 | two sessions and commands share a key string if and only if one of "session:command:" begins with the other |
| CommandKeys.ColonsCollide | src/applicationCommands/runtime.ts:349 | a session id that ends in a colon and a command shares its keys with that command of the session before the colon |
| CommandTheorems.JoinsAnotherSession | src/applicationCommands/runtime.ts:220-238 | a run with two registered commands in which one session's command joins the promise of another session's other command |
| CommandKeys.CleanupKeepsKeys | src/applicationCommands/runtime.ts:292-296 | the cleanup continuation finds its own promise in flight, and removing it leaves no request with that key behind |
| CommandInvariant.MoveKeepsRequestInv | src/applicationCommands/runtime.ts:438-603 | no step of a request breaks what holds of its status, signals and outcome, or undoes what it has reached |
| CommandArchive.ArchivedKeeps | src/applicationCommands/runtime.ts:609-629 | archiving one more settlement moves the window of the last 32 by one, in the map and in the order |
| CommandRuns.StepKeepsInv | src/applicationCommands/runtime.ts:136-630 | every step keeps the queue, the archive, the keyed tables, the revision and the history consistent |
| CommandRuns.ReachableByRuns | src/applicationCommands/runtime.ts:136-630 | the states that the theorems call reachable are exactly those in which a run of steps from a new runtime ends |
| CommandRuns.RunKeepsRequests | src/applicationCommands/runtime.ts:416-430 | no run undoes a settlement, a commit, an abort or the first answer to a confirmation |
| CommandSafety.ArchiveIsTheRecentPast | src/applicationCommands/runtime.ts:609-629 | the archive is exactly the last min(32, n) settlements in order, disjoint from the live map, each with its final status |
| CommandShown.ArchiveTells | src/applicationCommands/runtime.ts:609-629 | a retained entry shows the status of the request's outcome, and stage, message and percentage as the steps up to its settlement had last put them up |
| CommandShown.SettlementIsLast | src/applicationCommands/runtime.ts:613-615 | each settlement is archived after all earlier ones |
| CommandShown.SnapshotTells | src/applicationCommands/runtime.ts:330-340 | `snapshot()` lists the archive in the order of settlement and then the live requests in the order of submission, each with what its steps have last put up |
| CommandSafety.ArchivedEntriesAreFrozen | src/applicationCommands/runtime.ts:521-545 | no late progress or commit call alters a retained entry |
| CommandSafety.SnapshotListsEachOnce | src/applicationCommands/runtime.ts:330-340 | `snapshot()` lists every live or retained request exactly once, and no other |
| CommandFence.OwnerFence | src/applicationCommands/applicationRuntime.ts:93-101 | a guarded mutation enters its handler and begins a commit only under the persistence owner of its submission, and, if there was none, only in the project of its submission |
| CommandFence.FenceLetsPass | src/applicationCommands/applicationRuntime.ts:93-101 | the fence alone refuses an entry or a commit if and only if one of these differs |
| CommandFence.UnguardedPasses | src/applicationCommands/runtime.ts:409 | reads, and mutations without a guard, are never refused for their owner |
| CommandFence.OtherProjectRefused | src/applicationCommands/applicationRuntime.ts:97 | a run in which a mutation of one unsaved project is refused because another one is open |
| CommandFence.SavedProjectPasses | src/applicationCommands/applicationRuntime.ts:97 | a run in which a mutation of a saved project enters and commits although the project was exchanged under the same persistence |
| CommandSafety.CommitsAreLogged | src/applicationCommands/runtime.ts:532-537 | every commit and every submission is in the history that the fence speaks about |
| CommandSafety.ConfirmDecidesOnce | src/applicationCommands/runtime.ts:321-328 | the first accepted `confirm` decides for the rest of every run; a later call leaves the whole state as it is |
| CommandSafety.OverwriteWasConfirmed | src/applicationCommands/ioCommands.ts:59-88 | in every run an export over an existing target follows an accepted `confirm(id, true)`, and `overwriteConfirmed` is true exactly then |
| CommandSafety.SuccessfulExportsAreLogged | src/applicationCommands/ioCommands.ts:81-87 | every successful export command is in the history that the theorem above speaks about |
| CommandPolicy.OnlyExportsWait | src/applicationCommands/policy.ts:42-83 | under the default policy only a CSV export that names its target, and whose target was found to exist, can wait for confirmation, and no command is denied; it runs confirmed exactly then, and with an inspector it runs unconfirmed exactly when the target was found to be new |
| CommandRuntime.Runtime.Register | src/applicationCommands/runtime.ts:183-195 | registers a command: one step of the model |
| CommandRuntime.Runtime.Execute | src/applicationCommands/runtime.ts:197-300 | the ticket the model gives (unknown, cached, joined or fresh) and one submission step |
| CommandRuntime.Runtime.Admit | src/applicationCommands/runtime.ts:373-436 | a new request object in the live map, at the end of the queue and in flight under its key |
| CommandRuntime.Runtime.Cancel | src/applicationCommands/runtime.ts:302-319 | answers as the model does and takes its step; an unknown or settled id changes nothing |
| CommandRuntime.Runtime.Confirm | src/applicationCommands/runtime.ts:321-328 | answers as the model does and takes its step |
| CommandRuntime.Runtime.BeginRun | src/applicationCommands/runtime.ts:450-452 | the start of a run, which ends at once for a request cancelled in the queue |
| CommandRuntime.Runtime.PolicySettled | src/applicationCommands/runtime.ts:352-366 | the policy's promise settles |
| CommandRuntime.Runtime.ContinueAfterPolicy | src/applicationCommands/runtime.ts:464-516 | the continuation of the first race, up to the confirmation or into the handler |
| CommandRuntime.Runtime.ContinueAfterConfirmation | src/applicationCommands/runtime.ts:489-562 | the continuation of the second race, up to the handler |
| CommandRuntime.Runtime.ReportProgress | src/applicationCommands/runtime.ts:521-530 | a progress call, also a late one: one step of the model |
| CommandRuntime.Runtime.BeginCommit | src/applicationCommands/runtime.ts:532-545 | a commit call: one step of the model, and it throws exactly when the commit is refused |
| CommandRuntime.Runtime.ExportTargetInspected | src/applicationCommands/ioCommands.ts:63-84 | the export goes on exactly when there is no target or the confirmation was granted |
| CommandRuntime.Runtime.HandlerThrew | src/applicationCommands/runtime.ts:583-602 | the catch block: one step of the model |
| CommandRuntime.RuntimeRequest.Returned | src/applicationCommands/runtime.ts:566-582 | unless it heeds an abort, the promise resolves with what the handler returned, for this request, with the new revision |
| CommandRuntime.Runtime.HandlerReturned | src/applicationCommands/runtime.ts:564-582 | the block after the handler, with the revision written back: one step of the model |
| CommandRuntime.Runtime.StoreResult | src/applicationCommands/runtime.ts:290-291 | the result enters the cache |
| CommandRuntime.Runtime.CleanUp | src/applicationCommands/runtime.ts:292-296 | the entry leaves the in-flight table |
| CommandRuntime.Runtime.ArchiveSettledRequest | src/applicationCommands/runtime.ts:609-629 | the loop that evicts does what the model's archive does |
| CommandRuntime.Runtime.StoreChanged | src/applicationCommands/runtime.ts:171-181 | another project, owner or revision appears from outside |
| CommandRuntime.Runtime.Snapshot | src/applicationCommands/runtime.ts:330-340 | lists what the model lists |
| CommandRuntime.RuntimeRequest.EnterHandler | src/applicationCommands/runtime.ts:498-562 | from the granted decision to the handler: revision check, abort check and owner check in this order |
| CommandRuntime.RuntimeRequest.Catch | src/applicationCommands/runtime.ts:583-602 | the status and the outcome that a thrown value leads to are the model's |
| CommandReports.CaughtReports | src/applicationCommands/runtime.ts:583-602 | which these are: a thrown code as it is; a foreign error as cancelled if the request was aborted before it committed, and as a failed execution otherwise |
| Intervals.IntervalUnionNs | src-tauri/src/perf_project_v5_ui.rs:104-113 | the number of integer points covered, for any order, nesting or duplication; nothing exactly for an empty list or a reversed interval; no checked addition fails |
| Intervals.SweepCounts | src-tauri/src/perf_project_v5_ui.rs:108-111 | at every turn the sweep has counted exactly the covered points below its open range |
| Intervals.UnionBounds | src-tauri/src/perf_project_v5_ui.rs:104-113 | the union is at most the sum of lengths, and at most latest end minus earliest start |
| UiProbe.UiProbeState.Begin | src-tauri/src/perf_project_v5_ui.rs:53-61 | refuses a second sample; ids strictly increase, and no open span belongs to a new sample |
| UiProbe.UiProbeState.BackendSpan | src-tauri/src/perf_project_v5_ui.rs:62-71 | a span is bound to the active sample exactly when it matches, and then counted in flight |
| UiProbe.UiProbeState.Drop | src-tauri/src/perf_project_v5_ui.rs:117-131 | a span changes its own sample if that is still active, and never a later one |
| UiProbe.UiProbeState.Finish | src-tauri/src/perf_project_v5_ui.rs:72-101 | when it is refused and why; otherwise the slot is free, the reported intervals are those of the closed spans counted from the origin, and the report counts their covered time, overlap and bytes exactly |
| UiProbe.PayloadMeaning | src-tauri/src/perf_project_v5_ui.rs:128 | the byte count is the sum of all payloads exactly when none was missing and the sum fits |
| UiProbe.DropKeepsSample | src-tauri/src/perf_project_v5_ui.rs:121-128 | a drop keeps one interval for each call, from its start to its end, and the aggregate equal to the sum of their lengths |
| UiMeasure.Measure | src/benchmarks/projectV5UiMetrics.ts:27-70 | `finish` is called exactly once after a successful `begin`; afterwards the slot is occupied exactly when the view was painted and the native work up to the second frame left a span of the sample open; it passes exactly when all calls are counted and no longer than the time to the last check |
| UiMeasure.WaitForPaint | src/benchmarks/projectV5UiMetrics.ts:34-57 | a measurement is verified if and only if the view was ready in time and again two frames later, with its owner current at each check; the spans then open are those the native work has left |
| UiMeasure.SlotStaysOccupied | src/benchmarks/projectV5UiMetrics.ts:52-58 | a measurement with native work pending from the first frame on: its verified `finish` is refused and the slot stays occupied |
| UiMeasure.FailsAt | src/benchmarks/projectV5UiMetrics.ts:46-55 | a wait that fails at one check is painted at none |
| PostCreate.RunPostCreate | src/applicationCommands/postCreateCoordinator.ts:65-81 | the stages run in fixed order up to the first currency check that throws, and the caller's list gains their failures only |
| PostCreate.EachFailureWarnsOnce | src/applicationCommands/postCreateCoordinator.ts:52-63 | a stage that ran and failed leaves its warning exactly once, any other stage none |
| PostCreate.OnlyFailuresWarn | src/applicationCommands/postCreateCoordinator.ts:58-62 | every warning is that of a stage that ran and failed |
| PostCreate.TableWarningsName | src/applicationCommands/postCreateCoordinator.ts:14-31 | after a created table each code is there exactly when the stage it names ran and failed, and once |
| PostCreate.SqlWarningsName | src/applicationCommands/postCreateCoordinator.ts:33-50 | the same for a table created from SQL |
| PostCreate.CodesAreDistinct | src/applicationCommands/postCreateCoordinator.ts:14-50 | the codes of both tables tell the stages apart |
| TabulateLease.Run | src/applicationCommands/tabulateCommands.ts:78-141 | every prepared session is released once and last on all paths, polled at most 4800 times; a returned run has the prepared identity, and `leaseReleased` says whether there is no release warning |
| TabulateLease.RunHolding | src/applicationCommands/tabulateCommands.ts:96-141 | the calls made while the session is held, in the order they are made: the polls, the second reading of the source, and one release at the end of every path |
| TabulateLease.RunReturnsExactly | src/applicationCommands/tabulateCommands.ts:101-120 | a run returns if and only if its session gets ready in time without being exchanged, the source can be read again, and nobody cancelled by the last check |
| TabulateLease.RunFailsExactly | src/applicationCommands/tabulateCommands.ts:101-120 | for each way to fail, exactly when a run fails so: cancelled by a signal it looked at or by its session, exchanged, timed out or failed, or a rejected call |
| TabulateLease.RunRefusedExactly | src/applicationCommands/tabulateCommands.ts:83-91 | for each error, exactly when a run that never holds a session throws it |
| TabulateLease.RunPollsAreFew | src/applicationCommands/tabulateCommands.ts:100-114 | a run polls at most 4800 times |
| TabulateLease.AllPollsAreMade | src/applicationCommands/tabulateCommands.ts:100-112 | the bound is reached by a session that never gets ready |
| TabulateLease.ExportTable | src/applicationCommands/tabulateCommands.ts:227-310 | every prepared session is released once and last on all paths; the calls, the outcome and the warnings |
| TabulateLease.ExportHolding | src/applicationCommands/tabulateCommands.ts:256-309 | the calls made while the session is held, in the order they are made, with one release at the end of every path |
| TabulateLease.ExportReturnsExactly | src/applicationCommands/tabulateCommands.ts:263-301 | a table is materialized if and only if the session got ready in time, is the prepared one, the source is unchanged, nobody cancelled and the commit began; then the export fails only if that call does |
| TabulateLease.ExportFailsExactly | src/applicationCommands/tabulateCommands.ts:258-290 | for each way to fail, exactly when an export fails so |
| TabulateLease.ExportRefusedExactly | src/applicationCommands/tabulateCommands.ts:231-255 | for each error, exactly when an export that never holds a session throws it |
| TabulateLease.RerunExactly | src/applicationCommands/tabulateCommands.ts:295-296 | an export says that it did not run again if and only if it polled nothing and used the very session the caller had |
| TabulateLease.MaterializesOnce | src/applicationCommands/tabulateCommands.ts:277-290 | in the calls of an export a table is materialized at most once, for the prepared session, right after the commit began |
| TabulateLease.ExportPollsAreFew | src/applicationCommands/tabulateCommands.ts:262-271 | an export polls at most 4800 times |
| TabulateLease.CompleteMaterializedTable | src/applicationCommands/tableCommands.ts:146-178 | it never throws, runs every stage, and returns exactly their failures and a failed inspection as warnings |
| Pagination.NormalizePageLimit | src/applicationCommands/projectCommands.ts:184-190 | the limit is 50 by default, and refused exactly when it is not a whole number from 1 to 200 |
| Pagination.UnknownCursorExactly | src/applicationCommands/projectCommands.ts:210-216 | a cursor is refused exactly when it is not empty and no row bears it |
| Pagination.FollowsThroughChanges | src/applicationCommands/projectCommands.ts:206-223 | over a list that changes between pages, without losing a cursor's row, every row present throughout is read exactly once, in order |
| Pagination.ReadableExactly | src/applicationCommands/projectCommands.ts:210-222 | an unchanging list without repeated rows is read completely if and only if each row that ends a page has a non-empty id that no earlier row bears |
| Pagination.TakesAllPages | src/applicationCommands/projectCommands.ts:218-222 | it then takes one page for each started limit of rows, at least one, and all but the last are full |
| Pagination.PageCountIsCeiling | src/applicationCommands/projectCommands.ts:221 | the number of pages is n / limit rounded up |
| Pagination.DistinctIdsAreReadable | src/applicationCommands/projectCommands.ts:212 | distinct non-empty ids suffice, for every limit |
| Pagination.EmptyIdIsNotPassed | src/applicationCommands/projectCommands.ts:211 | a list of two rows that is never read to its end |
| TimeSeriesFixture.ValidityBitmap | src/benchmarks/TimeSeriesBenchmark.tsx:64-71 | the bitmap decodes bit by bit to the rows' validity, with nothing set beyond the last row |
| TimeSeriesFixture.BuildFrame | src/benchmarks/TimeSeriesBenchmark.tsx:73-107 | a fixture chunk for each series, and an error exactly when the points do not divide evenly |
| TimeSeriesFixture.RowIdsNumberThePoints | src/benchmarks/TimeSeriesBenchmark.tsx:89 | the row ids are a bijection onto 1 to the number of points |
| TimeSeriesFixture.MaskIsShift | src/benchmarks/TimeSeriesBenchmark.tsx:68 | bit k of a byte is its k-th from the low end |
| TimeSeriesFixture.AuditRow | src/benchmarks/TimeSeriesBenchmark.tsx:366-388 | one row is accepted exactly when it is the fixture's, and otherwise refused for its first fault in the auditor's order |
| TimeSeriesFixture.InspectEvidence | src/benchmarks/TimeSeriesBenchmark.tsx:329-432 | accepts exactly what matches, with floor(n / 100) missing values and floor(n / 2) duplicate pairs for each series; refuses anything else for the first fault of the first series that has one |
| TimeSeriesFixture.AcceptedIsTheChunk | src/benchmarks/TimeSeriesBenchmark.tsx:344-405 | whatever is accepted shows the chunk's y where it is valid and nothing elsewhere, all points, in the scenario's style |
| TimeSeriesFixture.FixtureIsAccepted | src/benchmarks/TimeSeriesBenchmark.tsx:607-644 | the built frame, rendered row by row, is accepted |
| TimeSeriesFixture.AcceptedIsTheFixture | src/benchmarks/TimeSeriesBenchmark.tsx:366-388 | whatever is accepted equals the fixture in every x, validity bit of y, row id and source code |
| TimeSeriesFixture.AuditorIgnores | src/benchmarks/TimeSeriesBenchmark.tsx:366-388 | what is accepted stays accepted whatever the validity bitmaps of x and of the source are, and whatever the values of y are, if the rendering shows them |
| GridSeeding.BalancedFactor | src-tauri/src/perf_harness.rs:2792-2798 | the largest divisor that is not above the integer square root |
| GridSeeding.MostSquare | src-tauri/src/perf_harness.rs:2608-2609 | no factorisation is more square |
| GridSeeding.CellsInOrder | src-tauri/src/perf_harness.rs:2630-2637 | source row i falls into cell number i modulo the number of cells, read row by row |
| GridSeeding.HitsPerRound | src-tauri/src/perf_harness.rs:2630-2637 | how many source rows fall into each cell |
| GridSeeding.CoversEvenly | src-tauri/src/perf_harness.rs:2602-2637 | with at least as many source rows as cells every cell is hit, and the counts differ by at most one |
| GridSeeding.SeedGrid | src-tauri/src/perf_harness.rs:2602-2609 | the grid is refused exactly when the source rows are too few, and otherwise the most square one, with every cell hit evenly |
| PlanScan.SourceScanRows | src-tauri/src/perf_project_v5.rs:287-298 | true exactly when every source scan anywhere inside the plan has a row count, and it then collects exactly those counts, in order |
| PlanScan.OneReadingPerPlace | src-tauri/src/perf_project_v5.rs:287-298 | the scan reads every place in the tree, through items and fields, exactly once, in the order of a walk from the root |
| PlanScan.CollectedByPlace | src-tauri/src/perf_project_v5.rs:290-291 | the counts it collects are those of the source scans at all places, in that order |
| PlanScan.SourceScanExactly | src-tauri/src/perf_project_v5.rs:290 | what a source scan is, and what its row count is, by the fields of the node |
| PlanScan.ScansPartExactly | src-tauri/src/perf_project_v5.rs:317-323 | a query passes exactly when its plan scans the source, every such scan is counted, and together they read less than all rows |
| PlanScan.CheckedSum | src-tauri/src/perf_project_v5.rs:321 | the sum, and nothing exactly when it overflows 64 bits |
| PlanScan.MakeProfile | src-tauri/src/perf_project_v5.rs:317-323 | verified exactly when there are three queries and each scans some but not all of the source |
| PlanScan.LoadProfile | src-tauri/src/perf_project_v5_ui.rs:265-274 | accepts exactly a verified profile of the same size whose plans pass the scan again |
| PlanScan.ProfileAndLoad | src-tauri/src/perf_project_v5_ui.rs:266-274 | the loader accepts a profile if and only if the profiler verified it, with the same observations |
| Percentile.PercentileIsTheRank | src/benchmarks/graphNewTransportMetrics.ts:73-81 | the percentile is a sample, and the only number with at least ceil(p n / 100) samples at or below it and n - ceil(p n / 100) + 1 at or above it |
| Percentile.PercentileSplits | src/benchmarks/graphNewTransportMetrics.ts:73-81 | it is the only number with at least p percent of the samples at or below it and more than the other percentage at or above it |
| Percentile.PercentilePermuted | src/benchmarks/graphNewTransportMetrics.ts:75 | it does not depend on the order of the samples |
| Percentile.PercentileGrows | src/benchmarks/graphNewTransportMetrics.ts:76-80 | it grows with the rank |
| Percentile.SummarizeStage | src/benchmarks/graphNewTransportMetrics.ts:83-91 | the median, the 95th percentile and the greatest sample, in this order, each as just described; zeros without samples |

## Left out

- Error messages, details, `retryable` and reasons: errors are their codes.
- The observers `onProgress` and `onStatusChange`, and handlers other than that of `table.exportCsv`: a handler may do anything
  its context allows, at any time, also after it has returned.
- A policy whose `canExecute` throws synchronously: a policy answers with a promise.
- Request ids are numbers: request n of the model is "cmd-(n+1)".
- CommandRuntime.Runtime.Execute: an abort signal that is already raised cancels the new request after it has been entered in
  the queue and the in-flight table instead of before; these entries do not touch what `cancel` touches.
- CommandRuntime.Runtime.StoreChanged: outside writers of the revision exist only with a revision adapter; reading and writing
  through it are one field.
- CommandChanges.RevisionCountsChanges: the application's adapter (`src/applicationCommands/applicationRuntime.ts:452-460`) is
  authoritative while a project file is open, and the store writes the revision itself then, and when another project is
  opened or created. Such runs have an outside writer; `RevisionIsAccountedFor` and `OnlyChangesMoveTheRevision` hold of them
  too.
- UiProbe.UiProbeState.Finish: memory, disk, checkpoint and focus fields of the report; milliseconds stay nanoseconds, so
  floating-point rounding is not modelled.
- UiProbe.UiProbeState.Drop: a poisoned lock, saturating counters and a clock that runs backwards.
- UiMeasure.Measure: needs a check at which the waiting ends, as a clock that passes the timeout brings about; native work only
  opens and closes spans.
- TabulateLease.Run: needs sleeps that take at least 25 ms and a clock that does not run backwards; the session's sizes and the
  time of completion are not modelled.
- TabulateLease.ExportTable: the abort signal stays aborted in the two exactness lemmas; labels of missing values and statistics
  and the described table are not modelled.
- Pagination.FollowsThroughChanges: the collation order is a strict order on places; two rows that collate as equal are outside
  it. Removal of paths from the listed rows is not modelled.
- Pagination.NormalizePageLimit: not-a-number and infinite limits.
- TimeSeriesFixture.BuildFrame: the sine curve is any function; numbers are exact; the frame's extents, dictionaries and
  dispositions are not modelled.
- TimeSeriesFixture.FixtureIsAccepted: the chart library and the graph builder, which are assumed to render row by row.
- GridSeeding.BalancedFactor: the square root is exact.
- PlanScan.ProfileAndLoad: the plans are the same values on both sides; the provenance checks of the loader are not modelled.
- Percentile.PercentileIsTheRank: arithmetic is exact, where the code multiplies and divides floating-point numbers.
- Session preparation, SQL, files, processes, the transport, React components, chart drawing, report and graph handlers, and
  qualification thresholds: calls into foreign code, or single checks.

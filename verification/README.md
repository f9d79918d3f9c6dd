# Verification of the document checker

A Dafny model of the parts of the document checker whose correctness depends on many steps or many functions together, with proofs about every input, every run or every reachable state.

* **The task protocol.** `CheckActivity`, `TaskRows` and `Lifecycle` give one atomic step per transaction, guarded update, file replacement or operating system event; users, workers, the clock and the supervisor interleave freely and may die anywhere. `ProcessSafety`, `TaskSafety` and `Capacity` prove what every run keeps, `Recovery` and `RecoverySweep` which way the task of a lost worker goes, and `StartUp` shows a run in which a worker does start. `Retries` says what a retry queues again. `ClaimQuery` compares the claim query with the greedy scan it stands for. `CheckScheduler`, `SchedulerSafety` and `RetryHistory` do the same for the loop that runs one task's checks, `LoopStart` ties its beginning and its users to the protocol, and `ActivityRuns` follows one check's record over any changes. `ActivityChanges`, `TaskTable`, `Supervision` and `CheckRun` are the code in its imperative form, each method proved to do what the protocol says; `Supervision` and `CheckRun` let anything happen between two statements and show that whatever the loops do is a run of the protocol.
* **PDF tables.** `PdfTable` checks and compacts a normalized table, `TableDecoding` reads the compact text back, `TableSpans` builds the independent cell index, `TableEvidence` compares both, and `FindingFilter` is the filter that acts on the index; `CellNames` and `JsonText` are the two notations they rest on, and `RespelledTables` holds two accepted tables the readings differ on.
* **Body text.** `BodyProjection` maps a document onto its body and back; `TermSelection` selects and groups matches.
* **The identity cache.** `IdentityCache` holds its lock sections, `IdentitySafety` what no interleaving of them may serve, `IdentityGrace` what every one must.
* **Model requests.** `RequestLoop` (retries and fallbacks), `StreamReader` (the bounded reader), `StreamVerdict` (how every stream ends), `OutputLog` (the append-only log and its cursor reader).
* **Reports.** `RoundMerge` and `RoundSources` (findings of several rounds and where they came from), `StatsScan` (the resumable scan).
* `Options`, `Collections`, `PythonText` and `StableSort` are shared.

Tokens, flights and process creation times are numbers that are never issued twice; hashes and uuids appear only in that role. Times are integers in the protocol and reals in the cache. `_mark_failed`, `_mark_canceled`, the live result updates and the result predicates are modelled from app/tasks/runtime/state.py and app/tasks/runtime/common.py.

Four promises turned out narrower than they read. The model keeps the code as it is, proves the exact condition and shows a case outside it: the claim query agrees with a greedy scan exactly when ids and creation times agree per owner (`ClaimQuery.FastIsGreedyIff`); references written with digits other than ASCII ones are accepted but do not write back, so compaction can change a text and the cell index can miss an anchor (`CellNames.ReferencesWriteBack`, `TableDecoding.CompactIsLossless`, `TableEvidence.AnchorsAgree`, `RespelledTables`); a partial reply is lost when a later attempt runs over the output limit or is cancelled (`RequestLoop.PartialIsKept`, `RequestLoop.PartialIsLost`); and a call can be given a profile past its time by joining a flight that has answered and is not closed yet (`IdentitySafety.JoinIsPastExactly`, `IdentitySafety.ALateJoinIsPast`).

To verify: `dafny verify dfyconfig.toml`.

## Model

| member | source | states |
|---|---|---|
| ProcessSafety.OneWorkerPerTask | app/tasks/supervisor.py:128-174 | In every run, with crashes and restarts of the supervisor anywhere, no two live processes hold start permission for one task, and every permitted live process is in the state file with its creation time |
| ProcessSafety.ProcessInvHolds | app/tasks/processes.py:85-99 | What every run keeps and makes that possible: a permitted live process is managed under its identity and on file, a supervisor that restores tasks does so only after no permitted process is left |
| ProcessSafety.StepKeeps | app/bootstrap/task.py:14-32 | Every single step keeps that, also the gap between the creation of a process and its permission, and a death or crash in it |
| StartUp.AWorkerStarts | app/tasks/supervisor.py:128-174 | A run from nothing to a running task with a permitted worker: the protocol is not safe by never starting anything |
| TaskSafety.StepActsByEvent | app/tasks/supervisor.py:667-708 | Every step of the whole system changes a task only as one of the listed guarded updates does |
| TaskSafety.TokensMarkExecution | app/tasks/supervisor.py:343-370 | In every reachable state a token and a lease exist exactly on running and canceling tasks, and queued and running tasks carry no cancel request |
| TaskSafety.LostTokenStaysLost | app/tasks/supervisor.py:340-362 | A claim token a task has lost never comes back to it |
| TaskSafety.StaleWorkerIsFenced | app/tasks/activity.py:57-79 | After a task lost token k, a worker holding k changes neither its row nor its visible activity record in any later state |
| TaskSafety.CancelIsNeverLost | app/web/task_actions.py:131-167 | A running task its user cancels stays canceling under the same claim until it is canceled or deleted: it never completes, fails or is queued again from that claim, whatever interleaves |
| TaskSafety.ChecksMoveForward | app/tasks/activity.py:82-183 | Within one claim no check's execution goes down, and within one execution a cancel request stays and shows as canceling or canceled, and a finished phase is never left for an unfinished one |
| TaskSafety.QueuedRequestsReachTheWorker | app/tasks/supervisor.py:256-371 | From any reachable state in which a task waits, through users, sweeps, other workers and the claim itself, no check goes back to an earlier execution, and within one execution no cancel recorded in the queue is dropped |
| Recovery.ReapRecovers | app/tasks/supervisor.py:496-508 | In every reachable state and whatever users do between the read and the write of a recovery, the task of an exited process is canceled if a cancel came before the read, left canceling if it came after, failed with its latest results after a startup error, and queued again otherwise, unless it was deleted |
| Recovery.RestartRecovers | app/tasks/supervisor.py:548-554 | The same of every process on file when a new supervisor restores tasks |
| Recovery.RowSettles | app/tasks/supervisor.py:667-708 | What one recovery leaves of the row it finds: no token, lease, live results or record, and the status, results and retry scope that go with a cancel, a startup error or neither |
| Recovery.ClaimMeans | app/tasks/supervisor.py:216-371 | A claim transaction ends exactly the claims whose lease is over and that no managed process holds, canceled or queued again, leaves every other task as its readers see it, and gives each chosen task a fresh token and a lease of 90 seconds |
| LoopStart.EveryLoopStartsOk | app/tasks/runner.py:116-191 | In every run, whatever users ask for between the claim, the read of the row and the start of the loop, the loop begins with every item recorded and waiting, canceled, or failed with its retry pending or withdrawn |
| LoopStart.ReachableRecordsOk | app/tasks/activity.py:57-79 | In every reachable state the record of a waiting or executing task shows a cancel request as canceling or canceled and nothing else as canceling, and no check of a waiting task was started or asks for a retry |
| LoopStart.UsersActOnTheLoop | app/tasks/retries.py:147-194 | A single-check cancel or retry of the running row is the very user step of the scheduling loop, with the same record after it |
| LoopStart.RetryBeforeTheLoop | app/tasks/retries.py:184-194 | A check outside the retry scope whose retry comes before the worker's read is among the items, recorded as failed |
| TaskRows.UserKeepsRowOk | app/tasks/retries.py:63-124 | No user action gives a task a token, takes it out of or into execution, or leaves a cancel request on a queued or running row |
| TaskRows.WorkerKeepsRowOk | app/tasks/runtime/state.py:239-323 | A worker's updates end only its own claim and keep token, lease, cancel request and live result consistent with the status |
| Capacity.GlobalLimitHolds | app/tasks/supervisor.py:264-284 | With fixed limits, no reachable state has more tasks executing or managed than the global limit, also when a finished task is retried before it is reaped |
| Capacity.UserLimitHolds | app/tasks/supervisor.py:300-342 | With fixed limits and no owner migration, no owner ever has more of them than the user limit |
| Capacity.MigrationAddsShares | app/tasks/supervisor.py:300-342 | Migrating an owner keeps the new owner's limit exactly when both shares together are within it |
| Capacity.LaunchNeverMeetsManagedTask | app/tasks/supervisor.py:128-136 | Managed processes and claims together never exceed the pool, and the launch loop's already-managed branch is never taken |
| ClaimQuery.FastIsGreedyIff | app/tasks/supervisor.py:286-342 | The claim query selects what a greedy scan of the whole queue selects, for all limits, exactly when created_at is non-decreasing in id for each owner |
| ClaimQuery.FastIsGreedy | app/tasks/supervisor.py:286-342 | Under that condition query and greedy scan agree for every queue, limits and running counts |
| ClaimQuery.LeftoverSlotMeansFull | app/tasks/supervisor.py:311-342 | When the query leaves a slot unused, every task it leaves out belongs to an owner at the user limit |
| ClaimQuery.FastWithinUser | app/tasks/supervisor.py:317-334 | The query never brings an owner over the user limit |
| ClaimQuery.QueryIsValidClaim | app/tasks/supervisor.py:264-342 | What the query returns is a claim the protocol allows: queued, unmanaged, distinct, within every limit |
| ClaimQuery.ClaimReturned | app/tasks/supervisor.py:343-371 | The loop over the query's rows claims every one of them: its own re-check never skips any |
| SchedulerSafety.InvHolds | app/tasks/runner.py:837-896 | Every reachable state of the scheduling loop keeps one execution per code, stored outcomes that agree with the record, and no pending retry while finalizing |
| RetryHistory.ExecutionsNeverOverlap | app/tasks/runner.py:847-891 | Two futures of the loop never run the same check code |
| RetryHistory.ExitIsComplete | app/tasks/runner.py:864-896 | On normal exit the stored results are those of exactly the items, appended ones included, each from its latest execution |
| RetryHistory.RetriesAreConserved | app/tasks/activity.py:186-212 | Every accepted retry is taken, withdrawn or still pending; once finalizing none is pending; on exit every taken retry was submitted exactly once with execution + 1 |
| RetryHistory.ChecksNeverGoBack | app/tasks/activity.py:98-212 | Over any run of the loop no check returns to an earlier execution, drops a cancel request within one, or leaves a finished phase; only an earlier cancellation whose start is refused is recorded as failed |
| ActivityChanges.ActivityState.Initialize | app/tasks/activity.py:82-95 | The loop of setdefault keeps recorded checks and adds the listed ones, the first entry of a code counting |
| ActivityChanges.ActivityState.UpdateChecks | app/tasks/activity.py:98-110 | The loop changes exactly the listed checks that are neither finished nor asked to cancel |
| ActivityChanges.ActivityState.FinishCheck | app/tasks/activity.py:113-131 | An execution ends canceled if that was asked for, otherwise failed or completed as reported, and nothing else changes |
| ActivityChanges.ActivityState.RequestCancellation | app/tasks/activity.py:153-183 | A waiting check is canceled at once, a working one shows as canceling, a pending retry is withdrawn, and a refusal changes nothing |
| ActivityRuns.CancelDecides | app/tasks/activity.py:113-183 | A cancel that was answered decides its execution: over any further changes it shows as canceling or canceled, cannot start, and ends canceled whether it failed or not |
| ActivityRuns.EndIsFinal | app/tasks/activity.py:98-183 | An execution that has ended stays ended over any further changes: it cannot start, no phase report moves it, and a cancel of it is refused unless it withdraws a retry |
| ActivityRuns.CancelUndoesRetry | app/tasks/activity.py:161-162 | Cancelling a check whose retry was just asked for gives back the very record from before the retry |
| ActivityChanges.ActivityState.TakeRetries | app/tasks/activity.py:196-212 | Takes exactly the requested retries whose code is not busy, and closes the task only when nothing is busy and nothing was taken |
| TaskTable.RetryCheckCodes | app/tasks/retries.py:21-60 | The loop returns exactly the codes that need another run, and refuses exactly when the task is not finished or none does |
| TaskTable.RetryScopeMeans | app/tasks/retries.py:43-57 | A code is retried iff it is in the snapshot and its last result was canceled, failed or incomplete, or it has none and the ended task still owed it |
| TaskTable.ResultsByCode | app/tasks/retries.py:39-42 | The dictionary holds the last result of every code |
| TaskTable.Table.RetireQueuedTask | app/web/task_actions.py:207-232 | Succeeds exactly on a task that is still queued, which is then canceled with its retry scope kept, and leaves any other unchanged |
| TaskTable.Table.RetryTask | app/tasks/retries.py:63-124 | Queues the task again with its retry scope and fresh executions, or refuses and changes nothing |
| TaskTable.Table.RetryCheck | app/tasks/retries.py:127-232 | Accepts a single retry iff task, execution and phase allow it, answers a repeated request without a change, and refuses all others without one |
| Retries.TaskRetryMeans | app/tasks/retries.py:21-124 | A task retry succeeds exactly on an ended task with a check still owed; then the selected and the recorded checks are exactly the owed ones of the snapshot, each waiting for the execution after its last |
| Retries.SingleRetryAccepted | app/tasks/retries.py:127-194 | A single retry is accepted exactly when the task may take one and the check, in the record or else in the stored results, failed or was canceled in the execution the user saw |
| Retries.SingleRetryMeans | app/tasks/retries.py:184-232 | It leaves a running worker a request for that execution, gives a waiting task the next one, and queues an ended task again for this check alone |
| TaskTable.Table.CancelCheck | app/tasks/activity.py:153-183 | Changes the record only of a queued or running task that still has the caller's token |
| TaskTable.Table.TakeCheckRetries | app/tasks/activity.py:186-212 | Reads only while checks are busy and nothing is ready, takes all ready retries otherwise, and reports a lost claim without a change |
| TaskTable.Table.CompleteTask | app/tasks/runner.py:332-360 | Completes exactly a running, uncancelled task that still has the worker's token, with the status and the results passed in, and changes nothing otherwise |
| TaskTable.Table.WriteDecision | app/tasks/supervisor.py:684-708 | The write that follows acts only if the row still matches, and reports a requeue exactly then |
| Supervision.TaskSupervisor.ReapFinishedProcesses | app/tasks/supervisor.py:470-509 | Every process dead when the loop starts is no longer managed when it ends and nothing becomes managed; the task of each, unless users acted on it meanwhile, is canceled if a cancel was asked for, failed with its latest results after a startup error, and otherwise queued again without token or lease |
| Supervision.TaskSupervisor.RenewLeases | app/tasks/supervisor.py:382-440 | Every task executing under the claim of its live process gets a full lease |
| Supervision.TaskSupervisor.LaunchOne | app/tasks/supervisor.py:134-168 | One turn of the launch loop uses up one claim and adds at most that task to the managed ones; a process that starts is managed under its claim and runs with its permission, and a task whose process does not start fails |
| Supervision.TaskSupervisor.LaunchAvailableTasks | app/tasks/supervisor.py:128-174 | All claims are used up, only claimed tasks become managed, and the pool is never exceeded |
| Supervision.TaskSupervisor.RecoverPreviousProcesses | app/tasks/supervisor.py:511-554 | Either every process on file is gone before the supervisor serves, or it stops; when it serves, the task of each record that nobody else acted on is canceled, failed with its latest results or queued again in the same way |
| Supervision.TaskSupervisor.IsSafe | app/tasks/supervisor.py:58-98 | Wherever the loops stand, one worker per task and every worker on file |
| CheckRun.CheckLoop.HarvestCanceled | app/tasks/runner.py:849-856 | No queued execution it visits that the record shows canceled is left in the queue |
| CheckRun.CheckLoop.SubmitRetries | app/tasks/runner.py:870-891 | Every taken retry is submitted again |
| CheckRun.RunChecks | app/tasks/runner.py:837-896 | For any number of turns and anything between them, from every start LoopStart allows: on normal exit the results are complete, and until then every accepted retry is accounted for |
| JsonText.RoundTrip | app/models/document_input.py:132-133 | A text printed as a JSON string reads back as itself |
| JsonText.EscapedIsOneLine | app/models/document_input.py:132-133 | No control character survives printing, and it grows at most sixfold |
| CellNames.ReadPosition | app/models/document_input.py:218-225 | The loop computes the position of a reference, and refuses exactly what does not match the pattern |
| CellNames.WriteName | app/checks/guardrails.py:323-329 | The divmod loop computes the name of a position, counting from 1 |
| CellNames.NamesReadBack | app/checks/guardrails.py:323-329 | Reading a written cell name gives the position back, for every row and column |
| CellNames.ReferencesWriteBack | app/models/document_input.py:218-225 | Writing the position of an accepted reference gives the reference back exactly when its digits are ASCII ones |
| CellNames.ForeignDigitsAreRead | app/models/document_input.py:40-40 | An accepted reference whose digits are not ASCII, where writing back gives another text |
| CellNames.ThreeLetters | app/checks/guardrails.py:81-81 | Exactly the columns up to 18278 have names of at most three letters |
| PdfTable.NormalizedCells | app/models/document_input.py:143-181 | Accepts exactly the tables of the announced size whose cells stand where they say with at most one fitting state, and whose unresolved cells are the listed ones; gathers them in row-major order |
| PdfTable.ListedExactly | app/models/document_input.py:171-181 | The trailing comment of an accepted table lists a reference exactly if an unresolved cell has it |
| PdfTable.GridIsOrdered | app/models/document_input.py:155-170 | Cells are gathered row by row and from left to right |
| PdfTable.CoverRange | app/models/document_input.py:118-127 | The double loop passes exactly when every position of the range is new and, but for the anchor, inherited from it |
| PdfTable.CompactEntries | app/models/document_input.py:97-135 | Succeeds exactly when the anchors' ranges tile the grid, and then gives one entry per anchor |
| TableDecoding.CompactPdfTable | app/models/document_input.py:88-140 | Returns the compact form when the table is accepted, tiled and shorter that way, and the original in every other case |
| TableDecoding.CompactReadsBack | app/models/document_input.py:88-140 | A reader of the printed lines gets back the very entries |
| TableDecoding.CompactIsLossless | app/models/document_input.py:88-202 | Entries cover each position of the grid exactly once and nothing else, and give back every position's anchor, range and state, and its text exactly where the anchor's coordinate is not spelled differently in its range |
| TableDecoding.AsciiIsNeverRespelled | app/models/document_input.py:184-202 | With ASCII digits in coordinate and range the text is given back as well |
| TableDecoding.LookalikeStaysText | app/models/document_input.py:128-134 | A text that looks like a state marker never prints as the marker |
| TableSpans.BuildIndex | app/checks/guardrails.py:163-212 | With each cell put on the first free place of its row, the map the loops build holds every place a rowspan or colspan covers, under its name, with what the last cell over it says there, and nothing else |
| TableSpans.PlacesShowTheLastCell | app/checks/guardrails.py:167-211 | For any spans, overlapping ones too, the layout shows at each covered place the last cell over it, and no cell starts on a place an earlier one covers |
| TableSpans.SingleCellsAreIndexed | app/checks/guardrails.py:163-212 | Without spans, as in every table that compaction accepts, the map has one entry per cell under the name of its own place, and no others |
| TableEvidence.EmptyCellsAgree | app/checks/guardrails.py:181-191 | The index entry of a cell of a compacted table is empty exactly when the compact form prints the unquoted empty marker for it |
| TableEvidence.AnchorsAgree | app/checks/guardrails.py:181-186 | Both readings give an inherited position the same anchor exactly when the anchor is in one of the first 18278 columns and its digits are ASCII |
| RespelledTables.CompactionChangesAText | app/models/document_input.py:88-202 | An accepted, compactable table whose last position reads back with another text, because its anchor is spelled with a digit outside ASCII in its range |
| RespelledTables.TheIndexHasAnotherAnchor | app/checks/guardrails.py:181-186 | An accepted, compactable table in which the index does not give an inherited position the anchor the compact form gives it |
| TableEvidence.KeptIsShownEmpty | app/checks/guardrails.py:216-264 | A missing-data finding that is kept names only cells the compact form shows empty, in a high-confidence table |
| TableEvidence.ShownEmptyIsKept | app/checks/guardrails.py:216-264 | A missing-data finding that names only such cells is kept when every anchor has a name the index reads |
| FindingFilter.FilterItems | app/checks/guardrails.py:108-126 | The loop keeps the other items as they are and in their order, and removes exactly the claims of missing visuals and of missing table data that no index entry backs, none of them with a placeholder |
| FindingFilter.VerdictMeans | app/checks/guardrails.py:216-264 | Once there is an index, a finding is unsupported exactly if it claims missing table data without a placeholder and does not name one high-confidence table and only cells that it shows empty or merged into a named empty one |
| FindingFilter.TheRestIsKept | app/checks/guardrails.py:108-126 | What is kept of a list stands at increasing places, and these are all but the places of the items that go |
| FindingFilter.OrdinaryItemsStay | app/checks/guardrails.py:227-230 | An item that says nothing of missing data or visuals stays whatever the index holds, and so does one with a placeholder |
| FindingFilter.VagueClaimsGo | app/checks/guardrails.py:236-243 | A claim of missing data that names several tables, or none while it speaks of tables, goes |
| FindingFilter.IsUnsupported | app/checks/guardrails.py:216-264 | The loop over the named cells gives that verdict |
| BodyProjection.ProjectBody | app/checks/text_content.py:119-148 | The body is the source with exactly the applied edits made, and non-empty segments over ordered disjoint source stretches partition it, each a copy or one edit |
| BodyProjection.SkippedOverlaps | app/checks/text_content.py:135-138 | An edit is skipped only when it starts inside an applied one that comes before it |
| BodyProjection.SpanIsTotal | app/checks/text_content.py:73-81 | Every non-empty body span has a source span inside the source, start before end |
| BodyProjection.SpansMonotone | app/checks/text_content.py:73-81 | Spans further right in the body lie further right in the source |
| BodyProjection.CopiedSpanIsExact | app/checks/text_content.py:73-81 | Within a copied segment the source span holds the identical text |
| BodyProjection.BlankMatches | app/checks/text_content.py:108-116 | Blanking keeps the length and the line breaks, turns matched characters into spaces and touches nothing else |
| BodyProjection.UntouchedSpanIsExact | app/checks/text_content.py:107-112 | A copied stretch that blanking left alone still reads the same in the source |
| TermSelection.SelectMatches | app/checks/common_terms.py:472-489 | Chosen matches are disjoint and increasing in source coordinates, and every other candidate starts inside a chosen one that precedes it in the order |
| TermSelection.LongestWins | app/checks/common_terms.py:472-489 | At a chosen position no candidate is longer than the chosen one |
| TermSelection.TieGoesTo | app/checks/common_terms.py:475-484 | Of equally long ones a discouraged term goes before a case rule, and within a kind the first standard term in order |
| TermSelection.GroupMatches | app/checks/common_terms.py:491-516 | One group per key; counts add up to the number chosen, each group reports its first position and its first five locations |
| TermSelection.IssuesAreOrdered | app/checks/common_terms.py:517-519 | Groups are reported by first position, none lost or added |
| StableSort.SortSorts | app/checks/common_terms.py:475-484 | Sorting by key gives a sorted rearrangement |
| IdentityCache.Cache.BeginResolve | app/identity/cookie_session.py:51-71 | The first lock section prunes, moves a usable entry to the end, and answers, joins or starts a fetch as specified |
| IdentityCache.Cache.StoreResult | app/identity/cookie_session.py:81-120 | Answers with the fetched profile, with no one after an expired session, with the cached profile and a transient error while its grace lasts, and with no one otherwise; the entry is stored, and the oldest dropped beyond 4096, only while the fetch is current |
| IdentityCache.Cache.PruneCache | app/identity/cookie_session.py:123-129 | At most once a minute, exactly the entries past their time are dropped, in place |
| IdentityCache.Cache.ClearKey | app/identity/cookie_session.py:132-136 | Forgets the entry and the fetch in flight of one key only |
| IdentitySafety.NoProfileOutlivesItsDeadline | app/identity/cookie_session.py:47-120 | In every interleaving a profile fetched at t is chosen for return only before t + ttl + grace, whatever refreshes failed; for a call that joined a flight the choice is the flight's answer. The one exception is an answer that just fetched the profile |
| IdentitySafety.JoinIsPastExactly | app/identity/cookie_session.py:66-74 | A call that joins a flight is given a profile whose time was up when the call began exactly if the flight had then already answered with it and was not closed |
| IdentitySafety.ALateJoinIsPast | app/identity/cookie_session.py:82-96 | A run in which that happens: a call that begins at 200 is given a profile good until 102 |
| IdentitySafety.NoRevivalAfterExpiry | app/identity/cookie_session.py:99-106 | After an expired answer was stored no call that begins later is given a profile fetched before it |
| IdentitySafety.OneFetchPerKey | app/identity/cookie_session.py:66-71 | Two fetches for one key run together only if the key was cleared while one of them ran |
| IdentitySafety.OnlyClearsRetireFetches | app/identity/cookie_session.py:92-96 | A running fetch stops being the current one of its key only by a clear |
| IdentitySafety.ClearedFetchNeverStores | app/identity/cookie_session.py:84-85 | A fetch begun before a clear of its key never changes the cache afterwards |
| IdentitySafety.CacheIsBounded | app/identity/cookie_session.py:87-88 | The cache never holds more than 4096 entries, and every waiting call waits for a fetch that runs or has an outcome |
| IdentityGrace.GraceServes | app/identity/cookie_session.py:99-120 | Over runs: once a current fetch succeeded at t, as long as its key is neither cleared nor evicted and refreshes only fail transiently, every call that begins later and is answered before t + ttl + grace gets that very profile, without an error before t + ttl and with a transient one after that, unless it joined the fetch itself |
| IdentityGrace.FailuresAreThrottled | app/identity/cookie_session.py:60-63 | Over runs: once a current fetch failed, every call for the next five seconds, or until the profile it left is past its time, is answered at once as it was, without another fetch, unless the key is cleared or evicted |
| IdentityGrace.PutDropsOldest | app/identity/cookie_session.py:85-88 | Storing keeps the new entry and every other but the one touched longest ago, which goes only when the cache is full |
| RequestLoop.RunWithRetries | app/models/client.py:772-957 | At most five requests; options dropped are never sent again; a call that returns shows exactly what it returns, one that raises a model error leaves nothing shown (a cancelled one may), it stops only where it was cancelled, and it gives up only when the last error rejects no option its request still carried and is permanent or the third plain failure; a request whose error rejects an option it carried is always sent again, the same but for that option, and every other resend changes at most thinking, exactly after a reasoning-only reply that allows it |
| RequestLoop.ShowDeltas | app/models/client.py:803-819 | Shown snapshots only grow, and the last one is a prefix of what has arrived |
| RequestLoop.PartialIsKept | app/models/client.py:861-919 | When the loop raises, the last partial text of its attempts reaches the caller exactly unless there was one and the last error is final: an output limit or a cancellation |
| RequestLoop.PartialIsLost | app/models/client.py:865-866 | A first reply cut off after some text and a second over the output limit always end in an error that carries no text |
| StreamReader.ReadLines | app/models/client.py:1513-1715 | Counting characters and keeping a 768-character tail decides every stream exactly as judging the whole content would |
| StreamReader.TailDecides | app/models/client.py:1718-1730 | The tail of 768 characters repeats exactly when the whole content does |
| StreamReader.ReturnedTextIsComplete | app/models/client.py:1672-1715 | A returned text is the stripped join of the delivered pieces, non-empty and under the cap; no frame ended abnormally, and the stream said it ended or held a full message |
| StreamVerdict.EveryStreamEnds | app/models/client.py:1513-1715 | How every stream ends, said of the whole of it: the first line at fault decides, by too much reasoning, the cap, a repetition, a service error, a parse error or a cancel; without one the reply is complete, incomplete, only reasoning or empty by its text, the ends of its frames and its own end |
| StreamVerdict.SucceedsExactly | app/models/client.py:1672-1715 | A stream succeeds exactly if no line is at fault, there is text, no frame ended abnormally and the stream did end |
| StreamReader.DeliveredIsBounded | app/models/client.py:1640-1670 | Whatever the outcome, the delivered pieces never join to more than the cap nor to a repeating text |
| StreamReader.IncompleteHasText | app/models/client.py:1672-1714 | An incomplete reply always brings the stripped join of the delivered pieces, and it is not empty |
| StreamReader.ThreeEqualWindowsAreCaught | app/models/client.py:1718-1737 | Text that ends in three equal windows of a checked size is caught, whatever came before |
| OutputLog.ModelOutputRecorder.Record | app/tasks/model_output.py:38-74 | While writes succeed the log and the buffer grow by exactly the event's parts; starts, ends and a full buffer are written at once; a failed write disables the recorder |
| OutputLog.ModelOutputRecorder.Flush | app/tasks/model_output.py:81-98 | Everything pending is appended, or dropped with the recorder disabled, and no timer is left |
| OutputLog.AddEventText | app/tasks/model_output.py:51-65 | Merging and splitting keep the text of every stream and kind and every record at most 4096 characters |
| OutputLog.LogKeepsText | app/tasks/model_output.py:34-98 | However events and writes interleave, the log holds each stream's text of each kind unchanged |
| OutputLog.PollDelivers | app/tasks/model_output.py:101-126 | One poll hands out exactly the lines between the two cursors and stops at the start of a line |
| OutputLog.FollowingDelivers | app/tasks/model_output.py:101-126 | Polling from the start against any appends, also of parts of records, hands out each complete line once and in order |
| OutputLog.PollAdvances | app/tasks/model_output.py:108-126 | A poll moves on exactly when a line ends within the next 65536 bytes |
| OutputLog.NothingLeft | app/tasks/model_output.py:108-126 | When the rest of the file fits and the cursor does not move, every complete line has been handed out |
| OutputLog.NoMoreMeansAll | app/tasks/model_output.py:108-126 | When a poll says there is no more, every complete line has been handed out, unless the next one alone exceeds a read |
| OutputLog.DrainDelivers | app/tasks/model_output.py:101-126 | Polling for as long as there is more hands out exactly the complete lines after the cursor, when each line fits one read |
| OutputLog.ResetStartsOver | app/tasks/model_output.py:101-126 | A cursor past the end, and no other, starts over and says so |
| OutputLog.RecordFits | app/tasks/model_output.py:13-15 | A record of the recorder fits one read whenever its other fields take up to 40957 bytes |
| RoundMerge.NothingIsLost | app/reporting/rounds.py:57-145 | Every item of a completed round that is not a non-issue goes into exactly one finding, findings hold nothing else, each is what its own items make of it, and no item joins one it is not the same as, in whatever order the rounds come |
| RoundMerge.AbsorbMeans | app/reporting/rounds.py:69-106 | An item goes to the first finding that is the same, which alone changes, and starts a new one exactly when none is |
| RoundMerge.MergeFindings | app/reporting/rounds.py:57-66 | The loops over rounds and items compute those findings |
| RoundMerge.BuildRoundResult | app/reporting/rounds.py:148-169 | Rounds are taken in order, conflicts settled and earlier ids kept |
| RoundMerge.FoldedSources | app/reporting/rounds.py:138-140 | A finding's source_items are exactly the items it came from |
| RoundSources.SourcesAreConserved | app/reporting/rounds.py:57-145 | All source_items of the report together are the origins of the counted items, each as often as it occurs |
| RoundSources.EveryItemHasOneFinding | app/reporting/rounds.py:57-145 | With rounds and items numbered apart, the origin of a counted item is listed once, by exactly one finding, and no other origin by any |
| RoundMerge.FoldedRounds | app/reporting/rounds.py:136-137 | Its source_rounds are the rounds of those items, each once |
| RoundMerge.MergedSeverity | app/reporting/rounds.py:125-128 | A finding with a critical member is critical, one without but with a high one is high, then medium, then low; a severity outside the four changes it only when no member has one of them and then it is the first member's |
| RoundMerge.FoldedSeverity | app/reporting/constants.py:100-113 | Its severity is that of one of its items, and none of them ranks before it |
| RoundMerge.ConflictMeans | app/reporting/rounds.py:105-124 | A finding is a conflict exactly when one of its items has another type, or other numbers in its suggestion, than those before it made |
| RoundMerge.UnequalTypesSettle | app/reporting/rounds.py:105-145 | Items of unequal types leave a low-confidence suggestion; without a conflict the finding has the type of every item |
| RoundMerge.AssignIds | app/reporting/rounds.py:155-169 | The loops give each finding the id chosen for it, or leave its own |
| RoundMerge.ChosenMeans | app/reporting/rounds.py:155-169 | A finding takes the id of the first earlier one it shares an origin with and that no other took, and keeps its own only when every such id is taken |
| RoundMerge.EarlierIdsAreTakenOnce | app/reporting/rounds.py:155-169 | Two findings never take the same earlier id |
| StatsScan.RefreshBatch | app/reporting/statistics.py:82-112 | A batch moves the cursor strictly forward, or back to the start when no id is left, and never past a stale row |
| StatsScan.RunPass | app/reporting/statistics.py:82-112 | Over an unchanging table the cursor comes back to the start, and a pass from the start leaves nothing stale |
| StatsScan.RefreshAll | app/reporting/statistics.py:82-112 | From any cursor two passes leave no row stale, in at most 2n + 2 batches |

## Left out

- Flask routes, templates, uploads, downloads, prompts, settings pages and logging: plumbing without deep state.
- SQLite, psutil, subprocess and file locks: atomic steps, a process table whose PIDs may be reused, and one supervisor at a time.
- Regular expressions, HTMLParser and JSON parsing: edits, matches, cells and frames are inputs. Only the string escapes of JSON are modelled.
- HTTP, proxies, hyperlink probing and the classification of provider errors: outcomes of a request are inputs, and so are the polls for cancellation.
- Claims without a token: `TaskRunner.run` and its helpers also accept none; the supervisor always passes one.
- Columns that only inform (progress, summary, error, api_key, timestamps other than created_at), provider checks of a retry, and the review edits of stored results.
- Descendant processes of a worker, stop and kill signals and their grace periods: a worker may die at any time, and is reaped once it is dead.
- The startup timeout, the readiness of a process and the shutdown loops of the supervisor: the first two only set the startup error that reaping is given, the last repeat the reaping loop.
- Initialization of the record during a run of the scheduling loop: the loop begins with every item recorded, and the task protocol covers initialization at any time.
- The order of dictionary entries: loops over dictionaries are given their order or take any.
- Progress percentages: nothing is claimed of them.
- Tasks without an owner: the claim query passes over rows whose owner_subject is NULL, which the schema fills in at start-up; every row of the model has an owner.
- Exceptions of an attempt that are no model error: they leave the request loop as they are, and the loop of the model has no such attempt.
- Capacity.UserLimitHolds: assumes fixed limits and no owner migration, because both can leave more running than a later limit allows; `Capacity.MigrationAddsShares` says exactly when a migration does not.
- RoundMerge.NothingIsLost: the sameness of two findings, the joining of their texts and the numbers in a suggestion are parameters, because they rest on text similarity; ids are not claimed to be unique.
- TableEvidence.KeptIsShownEmpty: case-insensitive matching of the two letters outside ASCII that fold to k and s is not modelled.
- OutputLog.FollowingDelivers: lines are bytes up to a line break; a carriage return inside a line, which JSON never writes, would split it in the original.
- RequestLoop.RunWithRetries: is stated for a caller that passes on_content; without it nothing is shown.
- PDF geometry, image and video extraction, language estimation, hyperlink checks, prompt migration, pagination and file names: foreign libraries or easy members only.

# RustMailer: a verified model of its stateful protocols

This Dafny 4.11 project models the parts of RustMailer whose correctness does not show
in any one function: deletion under concurrent writers, the task scheduler and its
shutdown, permits and backoff shared by concurrent callers, event batching, pagination,
MIME section paths, and the sync decision. `dafny verify dfyconfig.toml` checks all of it.

Code that works by changing state is a class with the source's fields, each method proved
against a function of the old state. Where several threads or tasks interleave, the same
operations are steps of a state machine and the theorems are about every run. Clocks,
storage faults, handler outcomes, the choices of the async runtime and what other writers
commit are parameters, so a theorem holds for all of them.

- `SafeDelete`, `SafeDeleteTheorems`: one read transaction takes a snapshot, short write
  transactions compare-and-remove it chunk by chunk, and an arbitrary function stands for
  what other writers do to the table between any two transactions. What is removed, what
  survives, how many transactions and which count are settled exactly; the three delete
  strategies agree when nothing interferes; the re-scanning loop they replaced livelocks.
- `DeleteWorker`: the background queue. A run is a chain of jobs, each on the table the
  one before it left and other writers changed since, whatever failed or panicked.
- `Tasks`: retry policy, attempt counter, 32-bit delay arithmetic, and the task store.
- `Pipeline`, `PipelineInvariant`, `PipelineTheorems`: flow, N processors and the status
  updater as nineteen kinds of step over bounded queues; the invariant every step keeps;
  exactly-once delivery, permit bounds, deadlock freedom, and termination of shutdown and of
  every fetched batch.
- `PipelineCounts`, `PipelineRuntime`: the same processor and updater as objects, each
  method equal to its pipeline step, and the end-to-end result: a stored task is the fold of
  its results, one for each time it was sent.
- `TaskSetup`: the context's builder calls, submitting tasks, starting the flow.
- `Scheduler`, `SchedulerPlaces`, `SchedulerInvariant`, `SchedulerTaskInvariant`,
  `SchedulerTheorems`: task store and pipeline in one run, with tasks added, claimed,
  executed, recorded, stopped, removed, retried by hand and cleaned up in any order, and the
  process restarted at any point. Shutdown leaves nothing behind in any history; exactly when
  a task is handed out twice; and each task that no manual retry hits in flight is in flight
  at most once and has a right attempt counter.
- `PipelineWeights`, `SchedulerFlight`, `SchedulerBudget`: the claims in flight as a weight no
  step makes or loses, and on it two accounts that balance in every history: what became of
  each claim, and how many results a retry bound allows.
- `SchedulerCounts`: what the attempt counter says in every history, and when it is right.
- `SchedulerWitnesses`: runs that reach the shortfalls of the scheduler.
- `SyncPermits`: global permit, then account permit, over a registry filled on demand.
- `RunWithLimit`: the bounded parallel map under an arbitrary scheduler.
- `Backoff`: connecting callers that wait for the window, build, and note the outcome, as
  relaxed loads and stores on two atomics, every interleaving and stale loads included; and
  the paced sequential connector.
- `EventChannel`: the batching loop and the fan-out to hooks.
- `Paging`: sequence windows, two pagers, and the next-token walk.
- `Sections`: extraction from a body structure, printed part specifiers (section 6.4.5 of
  RFC 3501) and the numeric path sent to the server.
- `SyncState`: the running state of an account over whole runs of polls and updates.
- `Sequences`, `Arithmetic`, `Wrappers`: sums, chunks, powers and result types used by the
  others.

## Where the code falls short of its intent

Each of these is stated for all inputs, together with exactly when the code does meet it.

- The retry delay is `wait * 1000` in 32 bits. It is the intended delay if and only if the
  wait is at most 4,294,967 s, which for base 2 means up to the 22nd failure; after the
  29th to 31st failure the delay is zero (`DelayExactIff`, `BaseTwoDelayExactIff`,
  `BaseTwoDelayCollapses`). A debug build stops with an overflow panic instead. Policies
  with base 2 and at most 10 retries are exact (`DefaultDelaysExact`). The delay of a
  submitted task is the same product with the same bound (`DelayedExactIff`).
- The comment at src/modules/scheduler/nativedb/meta.rs:262-266 says that a manual retry can
  never race with the scheduler. It can: a task that is stopped while its execution is under
  way is retryable, and is then handed out a second time (`RetryCanRace`). A fetch leaves
  every task in flight once if and only if it hands out none that is in flight, no other
  action can break this (`FetchOnceIff`, `OthersKeepOnce`), and so a whole run never has a
  given task in flight twice if and only if no fetch of it does that (`NeverTwiceIff`).
  Retrying only Failed tasks is always safe (`FailedRetriesAreCareful`).
- After such a retry the results of the old execution are saved over the new count: two
  failures are then counted as one, and a task with one attempt gets two results
  (`StaleResultMiscounts`). The count is right throughout a run if and only if each failed
  result saved for the task came from an execution that started from the count its row still
  had (`CountRightIff`). The retry budget is exceeded at most by the attempts that were left
  to claims in flight at the retry (`BudgetKept`), so not at all when there were none
  (`CarefulBudgetKept`).
- A policy without `max_retries` is meant to retry for ever (src/modules/scheduler/retry.rs:29),
  but a restart reads the missing bound as 0: it removes a Running task if and only if that
  has no bound and has failed before, and reschedules every other (`RestartDropsIff`,
  `RestartCanDrop`).
- A clean-up selects tasks by their status in one transaction and deletes them by id in
  later ones (src/modules/scheduler/nativedb/meta.rs:183-221). A failed task that is retried
  in between is deleted while it is due (`CleanUpCanDropRetried`); one that is neither
  retried nor given a late result is over when it is deleted (`CleanUpSparesPending`).
- A claimed task whose queue is not registered, or whose result could not be saved, stays
  Running (`UnroutedStaysRunning`, `UnsavedStaysRunning`); these are the only tasks a
  shutdown leaves so (`LeftRunningIsLost`), and it does leave them so unless they were
  stopped or removed since (`WhoIsLeftRunning`).
- The in-memory pager and the scan pagers differ exactly on page 0 without a size, and on a
  size without a page that is 0 or smaller than the total (`PagersAgreeIff`).
- The last page is recognised by equality, so a walk that starts from a token past the end
  of a non-empty mailbox never stops (`WalkStopsIff`).
- The two backoff atomics can disagree, both ways: no backoff but a next attempt in the
  future (`AttemptOutlivesBackoff`), and a backoff that the next connect does not wait for
  (`BackoffOutlivesAttempt`). They agree if and only if the last writes of the two come from
  notes of the same kind (`AtomicsAgreeIff`); for one failure and one success that is when
  both are written in the same order (`OneFailureOneSuccess`); and always between notes if
  no success note overlaps a failure note (`ApartNotesAgree`). The documented bounds hold in
  any case (`BackoffStaysOnLadder`).
- `section_path` truncates segments to 32 bits, so it names the printed part if and only if
  every segment fits (`SectionPathAgreesIff`); for any structure with fewer than 2^32
  parts per level it does (`ExtractedPathsAgree`).
- `register` sets a queue's limit to 4 even after `set_concurrency`: the limit last asked
  for is the one the queue gets if and only if it is 4 or no task type of that queue is
  registered afterwards (`ConcurrencyKeptIff`).

## Model

| member | source | states |
|---|---|---|
| SafeDelete.Database.CollectSecondaryRange | src/modules/database/safe_delete.rs:25-50 | the scan collects distinct current rows whose secondary key starts with the prefix and whose filter accepts them; all of them unless the limit is reached |
| SafeDelete.CompareAndRemove | src/modules/database/safe_delete.rs:90-102 | removing a row whose key is missing or whose value changed leaves table and count alone; otherwise exactly that key goes and the count grows by one |
| SafeDelete.Database.DeleteSnapshotChunk | src/modules/database/safe_delete.rs:205-233 | one transaction: on a fault the table is untouched; otherwise exactly the keys still holding a row of the chunk are gone and their number is returned |
| SafeDelete.Database.DeleteSecondary | src/modules/database/safe_delete.rs:137-154 | the merged delete removes, in one transaction, the snapshot rows that other writers left unchanged; a failed scan or transaction removes nothing |
| SafeDelete.Database.BatchDeleteSecondary | src/modules/database/safe_delete.rs:163-191 | snapshot once, then the chunk loop's outcome over the chunks of that snapshot; a failed scan changes nothing |
| SafeDelete.Database.DeleteChunks | src/modules/database/safe_delete.rs:238-259 | success commits every chunk; an error at chunk k leaves the effect of the chunks before k and of the other writers, and nothing of chunk k or later |
| SafeDelete.Database.RescanDelete | src/modules/database/safe_delete.rs:410-457 | without other writers the old loop ends with the table minus the matching rows and counts them |
| SafeDelete.RescanRound | src/modules/database/safe_delete.rs:421-450 | a round of the old loop removes just the matching rows it collected, and makes progress unless there are none |
| SafeDeleteTheorems.ChunkMembers | src/modules/database/safe_delete.rs:182-189 | chunk i holds exactly the snapshot rows whose turn is i: each matching key has one turn |
| SafeDeleteTheorems.DeleteIsExact | src/modules/database/safe_delete.rs:163-233 | under arbitrary writers a key is removed if and only if its row was in the snapshot and still had that value when its chunk ran |
| SafeDeleteTheorems.OtherRowsSurvive | src/modules/database/safe_delete.rs:77-108 | a changed row, or one that was not in the snapshot, passes every transaction with its value |
| SafeDeleteTheorems.UntouchedUpTo | src/modules/database/safe_delete.rs:182-190 | after n chunks a key nobody touched is gone if its turn has come and is as it was otherwise |
| SafeDeleteTheorems.UntouchedRowsDecided | src/modules/database/safe_delete.rs:163-191 | every key no other writer touches ends exactly as the query says |
| SafeDeleteTheorems.HitsAreFresh | src/modules/database/safe_delete.rs:197-233 | no transaction removes a key an earlier one removed, even if a writer put the row back |
| SafeDeleteTheorems.DeleteIsBounded | src/modules/database/safe_delete.rs:156-191 | n matching rows always take ceil(n / b) transactions, whatever is written meanwhile |
| SafeDeleteTheorems.DeleteIsAccounted | src/modules/database/safe_delete.rs:181-190 | the returned count is the number of distinct keys removed, at most n, all of them snapshot keys |
| SafeDeleteTheorems.QuietDelete | src/modules/database/safe_delete.rs:501-524 | without interference every chunk size leaves exactly the rows that miss the prefix or the filter, as they were, and reports how many went |
| SafeDeleteTheorems.MergedDelete | src/modules/database/safe_delete.rs:137-154 | without interference the single transaction removes exactly the matching rows |
| SafeDeleteTheorems.StrategiesAgree | src/modules/database/safe_delete.rs:501-524 | merged, chunked and re-scanning deletes end with the same table, the rows that miss the prefix or the filter, and the same count |
| SafeDeleteTheorems.RoundEmptyIff | src/modules/database/safe_delete.rs:449-456 | a round of the old loop, and with it the loop, comes up empty if and only if the table it finds has no matching row |
| SafeDeleteTheorems.RescanLivelocks | src/modules/database/safe_delete.rs:156-162 | against any writers that keep saving matching rows the old loop has a run of every length, with no empty round |
| SafeDeleteTheorems.RestoringKeepsMatching | src/modules/database/safe_delete.rs:623-690 | a writer that puts removed rows back is such a writer |
| DeleteWorker.Worker.Enqueue | src/modules/database/safe_delete.rs:305-330 | the job joins the end of the queue; nothing runs yet |
| DeleteWorker.Worker.RunNext | src/modules/database/safe_delete.rs:280-292 | the front job runs once, its error or panic is recorded, the table carries its committed chunks, and a failed scan leaves it alone |
| DeleteWorker.Worker.Run | src/modules/database/safe_delete.rs:274-298 | every enqueued job, also late arrivals, runs exactly once in queue order on the table its predecessor and the writers in between left; with no faults and no writers the rows left are those that miss the prefix or the filter of every job |
| DeleteWorker.FailedScan | src/modules/database/safe_delete.rs:171-180 | a job whose scan fails ends with that error and leaves the table alone |
| DeleteWorker.FaultlessJob | src/modules/database/safe_delete.rs:238-259 | a job without faults and interference leaves the table without the rows its query matches, and counts them |
| Tasks.DelayExactIff | src/modules/scheduler/handlers.rs:103-105 | the stored delay is the wait in milliseconds if and only if the wait is at most 4,294,967 s |
| Tasks.BaseTwoDelayExactIff | src/modules/scheduler/retry.rs:49-54 | with base 2 the delay after failure n is 2^n seconds if and only if n <= 22 |
| Tasks.BaseTwoDelayCollapses | src/modules/scheduler/handlers.rs:103-105 | with base 2 the delay after failures 29 to 31 is zero |
| Tasks.PolicyRoundTrip | src/modules/scheduler/model.rs:108-161 | the policy read back from stored metadata is the one given at creation, and key, queue and the other fields are what the task was created with |
| Tasks.TaskHandlers.Register | src/modules/scheduler/handlers.rs:42-50 | the task key becomes known, the others stay |
| Tasks.TaskHandlers.Execute | src/modules/scheduler/handlers.rs:59-109 | success, handler error, panic and unknown key; the attempt count, giving up, and the next run: the linear interval or the power of the base, saturated and then wrapped at 32 bits in milliseconds |
| Tasks.TaskStore.StoreTask | src/modules/scheduler/nativedb/meta.rs:452-458 | the task is inserted unless its id is taken |
| Tasks.TaskStore.StoreTasks | src/modules/scheduler/nativedb/meta.rs:460-466 | a batch is inserted as a whole, or not at all when an id is taken or repeated |
| Tasks.TaskStore.DueTasks | src/modules/scheduler/nativedb/meta.rs:57-88 | at most 500 distinct due tasks, and all of them when there are fewer |
| Tasks.TaskStore.FetchPending | src/modules/scheduler/nativedb/meta.rs:51-107 | at most 500 scheduled tasks whose time has come, all of them when there are fewer; exactly these are marked Running, and handed out as they were before |
| Tasks.TaskStore.SetStatus | src/modules/scheduler/nativedb/meta.rs:227-258 | a stored task becomes Stopped or Removed whatever its status; an unknown id is an error |
| Tasks.TaskStore.Restore | src/modules/scheduler/nativedb/meta.rs:392-433 | no task is left Running: each that was is rescheduled, or removed when its attempts reach its bound; the others are as they were |
| Tasks.Rewind | src/modules/scheduler/nativedb/meta.rs:271-283 | a retried task is due at once with no attempts counted, its identity, queue and policy kept |
| Tasks.TaskStore.ResetForRetry | src/modules/scheduler/nativedb/meta.rs:289-321 | exactly failed and stopped tasks are rewound; unknown ids and other states are told apart and change nothing |
| Tasks.TaskStore.UpdateExecutionStatus | src/modules/scheduler/nativedb/meta.rs:109-160 | the result is applied to the task of that id and to no other; an unknown id and a storage error change nothing |
| Tasks.ApplyResult | src/modules/scheduler/nativedb/meta.rs:137-155 | a task is rescheduled if and only if it failed with a next run and is neither stopped nor removed; it succeeds if and only if there was no error; identity, queue and policy stay |
| Tasks.ApplyResultFields | src/modules/scheduler/nativedb/meta.rs:129-156 | count, error and next run become those of the result where the branch says so, a stopped or removed task keeps its status on failure, and no other field changes |
| Tasks.FailStep | src/modules/scheduler/handlers.rs:92-106 | a failed execution keeps the policy, adds one attempt, and either reschedules the task or makes it terminal |
| Tasks.AlwaysFailing | src/modules/scheduler/handlers.rs:59-109 | under max_retries m a failing task can be fetched again before executions 1 to max(1, m) and is Failed after the last; the wait after failure n is the interval, or base^n saturated, in 32-bit milliseconds |
| Tasks.DefaultDelaysExact | src/modules/scheduler/retry.rs:49-54 | base 2 with at most 10 retries: the next run is 2^n seconds after failure n |
| Pipeline.Retain | src/modules/scheduler/processor.rs:72 | exactly the unfinished handles are kept |
| PipelineInvariant.RetainInOrder | src/modules/scheduler/processor.rs:72 | the kept handles stay in the order their executions were started |
| PipelineInvariant.InitInv | src/modules/scheduler/context.rs:71-85 | the freshly built pipeline satisfies the invariant |
| PipelineInvariant.ReceiveStep | src/modules/scheduler/processor.rs:51-71 | receiving a task or the pill keeps the whole invariant |
| PipelineInvariant.StartStep | src/modules/scheduler/processor.rs:69-84 | taking a permit, dropping finished handles and spawning keeps the whole invariant |
| PipelineInvariant.ReportStep | src/modules/scheduler/processor.rs:122-129 | queueing a result keeps results and executions in one-to-one correspondence, before the last pill |
| PipelineInvariant.ExitStep | src/modules/scheduler/processor.rs:53-68 | the pill is passed on only when every handle has been awaited |
| PipelineInvariant.ConsumeStep | src/modules/scheduler/updater.rs:29-63 | consuming a request keeps the pill count and stops the updater at the right one |
| PipelineInvariant.ChannelNeverCloses | src/modules/scheduler/processor.rs:51 | no processor ever finds its channel closed before it has received its pill |
| PipelineInvariant.StepKeepsInv | src/modules/scheduler/processor.rs:36-130 | every step of flow, processors, executions and updater keeps the invariant |
| PipelineInvariant.RunKeepsInv | src/modules/scheduler/flow.rs:53-95 | every state of every run satisfies the invariant |
| PipelineTheorems.ServedInOrder | src/modules/scheduler/processor.rs:42-102 | what was sent to a queue is what was started, then what is in hand, then what waits, in that order; the channel never exceeds 200 |
| PipelineTheorems.PermitsBound | src/modules/scheduler/processor.rs:43-84 | permits free plus permits held are the limit the queue was started with; one who gave its permit back has its result queued |
| PipelineTheorems.DroppedHandlesReported | src/modules/scheduler/processor.rs:69-93 | an execution whose handle is no longer kept has already queued its result |
| PipelineTheorems.HeartbeatsFirst | src/modules/scheduler/processor.rs:132-200 | every heartbeat of an execution precedes its result, and there is at most one result |
| PipelineTheorems.QueuedInTurn | src/modules/scheduler/processor.rs:104-130 | in every run a heartbeat, and the result the handler gave, is queued behind everything queued before |
| PipelineTheorems.RoomIff | src/modules/scheduler/processor.rs:42-102 | a channel takes a package while fewer than 200 wait, the updater a request while fewer than 100 do |
| PipelineTheorems.NoSendFails | src/modules/scheduler/updater.rs:68-72 | no package goes to a processor that has left and no request to an updater that has stopped |
| PipelineTheorems.StopsOnLastPill | src/modules/scheduler/updater.rs:55-60 | the updater stops if and only if it has consumed N pills, the last request consumed being the N-th, with nothing left queued |
| PipelineTheorems.ExactlyOnce | src/modules/scheduler/flow.rs:58-118 | when the updater has stopped, each task sent to a registered queue has had exactly one result applied |
| PipelineTheorems.NothingInvented | src/modules/scheduler/processor.rs:104-130 | every result belongs to a task that was sent to that queue |
| PipelineTheorems.NeverStuck | src/modules/scheduler/updater.rs:26-66 | no deadlock with queues of 200 and 100: until the updater stops some unit of work is enabled, unless all is idle before the next fetch |
| PipelineTheorems.StepUsesWork | src/modules/scheduler/flow.rs:58-90 | every step but a fetch, the shutdown signal and a heartbeat tick uses up work |
| PipelineTheorems.RunUsesWork | src/modules/scheduler/flow.rs:58-118 | so a run with k ticks and nothing newly fetched or ordered has at most the initial work plus 3k steps |
| PipelineTheorems.ShutdownCompletes | src/modules/scheduler/flow.rs:86-118 | every shutdown is bounded and can only end with the updater stopped |
| PipelineTheorems.BatchCompletes | src/modules/scheduler/flow.rs:58-84 | in normal operation too: without a further fetch every run is bounded, and it can only end stopped or idle, with every task sent to a registered queue applied exactly once |
| PipelineRuntime.TaskProcessor.constructor | src/modules/scheduler/processor.rs:42-48 | a new processor is empty, with all permits free |
| PipelineRuntime.TaskProcessor.Accept | src/modules/scheduler/processor.rs:98-102 | a package joins the end of the channel; after the loop has exited it is lost |
| PipelineRuntime.TaskProcessor.Receive | src/modules/scheduler/processor.rs:51-69 | the method performs the pipeline's receive step |
| PipelineRuntime.TaskProcessor.TryAcquire | src/modules/scheduler/processor.rs:69-90 | it spawns exactly when a permit is free and then performs the start step; otherwise nothing changes |
| PipelineRuntime.TaskProcessor.RetainUnfinished | src/modules/scheduler/processor.rs:72 | the loop keeps the unfinished handles in order |
| PipelineRuntime.TaskProcessor.JoinNext | src/modules/scheduler/processor.rs:59-63 | once the next execution has finished, the method performs the pipeline's join step |
| PipelineRuntime.TaskProcessor.Exit | src/modules/scheduler/processor.rs:64-67 | with all handles awaited the pill is queued for the updater and the loop is left |
| PipelineRuntime.TaskStatusUpdater.Queue | src/modules/scheduler/updater.rs:68-72 | requests are queued in order for a running updater and lost for a stopped one |
| PipelineRuntime.TaskStatusUpdater.ConsumeOne | src/modules/scheduler/updater.rs:29-63 | one request: a result is applied to the store unless the storage fails, a pill is counted, and the loop is left exactly on the last pill |
| PipelineRuntime.TaskStatusUpdater.Run | src/modules/scheduler/updater.rs:26-66 | each request is consumed once and in order, the store is the replay of what was consumed, and the loop is left exactly on pill N |
| PipelineRuntime.ReplayIsFold | src/modules/scheduler/updater.rs:74-107 | each task sees exactly its own saved results, in the order they were consumed, retries included |
| PipelineCounts.ReportCounted | src/modules/scheduler/processor.rs:122-129 | reporting adds one result of that task's id for one more reported execution of it |
| PipelineCounts.ResultsMatchSends | src/modules/scheduler/updater.rs:29-63 | when the updater has stopped, an id has had exactly as many results as it was sent |
| PipelineRuntime.SentTaskApplied | src/modules/scheduler/updater.rs:74-107 | end to end, when only results change the table: after shutdown a stored task is the fold of its results, one for each time it was sent if the storage worked |
| PipelineRuntime.ResultsAreSends | src/modules/scheduler/processor.rs:104-130 | results of an id and positions it was sent at correspond one to one |
| PipelineRuntime.SentOnceApplied | src/modules/scheduler/updater.rs:74-107 | a task sent once is stored as its one result leaves it |
| PipelineRuntime.UnsentTaskUntouched | src/modules/scheduler/updater.rs:40-53 | at any point of a run a task that was not sent is as it was |
| TaskSetup.TaskContext.Register | src/modules/scheduler/context.rs:49-56 | the handler becomes known and the queue's limit 4, whatever it was |
| TaskSetup.TaskContext.SetConcurrency | src/modules/scheduler/context.rs:59-62 | the queue's limit becomes the given one |
| TaskSetup.TaskContext.AddTask | src/modules/scheduler/context.rs:101-113 | the task is stored, due after the given or its own delay in 32-bit milliseconds, unless its id is taken |
| TaskSetup.DelayedExactIff | src/modules/scheduler/context.rs:106-107 | that is the delay itself if and only if it is at most 4,294,967 s |
| TaskSetup.TaskContext.AddTasks | src/modules/scheduler/context.rs:115-134 | all tasks are stored, each with its own delay and clock reading, or none; no stored task changes |
| TaskSetup.TaskContext.StartFlow | src/modules/scheduler/context.rs:71-85 | one processor per registered queue with that queue's limit, and an updater that waits for as many pills |
| TaskSetup.LastCallDecides | src/modules/scheduler/context.rs:49-62 | the last builder call that names a queue decides its limit: 4 for a registration, else the given one |
| TaskSetup.ConfiguredIffNamed | src/modules/scheduler/context.rs:49-62 | a queue has a processor if and only if some builder call names it |
| TaskSetup.ConcurrencyKeptIff | src/modules/scheduler/context.rs:49-62 | the limit last set is kept if and only if it is 4 or no later registration names the queue |
| TaskSetup.ConfigureAndStart | src/modules/scheduler/context.rs:49-85 | after any chain of builder calls each queue's processor starts with that limit |
| TaskSetup.StartIsInit | src/modules/scheduler/flow.rs:28-51 | what is started is an initial state of the pipeline when every limit is at least 1 |
| TaskSetup.OfQueueExact | src/modules/scheduler/flow.rs:64-71 | a fetched task is in the group of its own queue as often as it was fetched, and in no other |
| TaskSetup.OfQueueInOrder | src/modules/scheduler/flow.rs:64-71 | the group is the tasks at the positions that name the queue, each position once and in order |
| TaskSetup.GroupByQueue | src/modules/scheduler/flow.rs:64-71 | every fetched task is in the group of its queue and only there, as often as it was fetched and in fetch order |
| PipelineWeights.StepKeepsWeight | src/modules/scheduler/processor.rs:36-130 | no step of processors, executions or shutdown makes or loses a claim, whatever it is weighed by |
| PipelineWeights.SendWeight | src/modules/scheduler/flow.rs:97-112 | a send moves a claim into its processor's channel, or drops just that claim when nobody serves its queue |
| SchedulerFlight.InFlightIff | src/modules/scheduler/processor.rs:42-130 | a task occupies some place between claim and recorded result if and only if it is counted in a batch, a channel, a hand, an execution or the updater's queue |
| SchedulerBudget.ActUsesChances | src/modules/scheduler/handlers.rs:94-102 | no action but a manual retry raises the results a task has had plus those it may still get |
| SchedulerCounts.ActKeepsCounts | src/modules/scheduler/nativedb/meta.rs:109-160 | every action, whatever is retried, keeps a count above zero exactly when a failure is counted, and below its bound while the task is to be executed |
| SchedulerPlaces.ActKeepsOnce | src/modules/scheduler/nativedb/meta.rs:109-160 | no action but a fetch puts a task in flight at a second place |
| SchedulerInvariant.ActKeepsBase | src/modules/scheduler/nativedb/meta.rs:51-160 | every action keeps places and rows consistent: a Running row is in flight or its claim got lost |
| SchedulerTaskInvariant.ActKeepsTask | src/modules/scheduler/nativedb/meta.rs:51-160 | every action but a manual retry of that very task in flight keeps its place, snapshot and counter |
| SchedulerTheorems.FetchOnceIff | src/modules/scheduler/nativedb/meta.rs:51-107 | a fetch leaves every task in flight once if and only if it hands out none that is in flight |
| SchedulerTheorems.OthersKeepOnce | src/modules/scheduler/nativedb/meta.rs:227-321 | stopping, removing, retrying, recording, restarting and every pipeline step leave each task in flight once |
| SchedulerTheorems.NeverTwiceIff | src/modules/scheduler/nativedb/meta.rs:51-107 | in a whole run a task is never in flight twice if and only if no fetch hands it out while it is in flight |
| SchedulerTheorems.InFlightAtMostOnce | src/modules/scheduler/nativedb/meta.rs:51-107 | in every run that does not retry this task while it is in flight, it is in flight at most once, as the stored row but for its status, which is Running or what it was halted to |
| SchedulerTheorems.AttemptsAreFailures | src/modules/scheduler/handlers.rs:61-92 | in every run that does not retry this task while it is in flight, its stored attempt count is the number of failed results recorded since the last success, retry or creation |
| SchedulerTheorems.BudgetKept | src/modules/scheduler/handlers.rs:94-102 | in every run a task has at most max(1, m) results from its creation or last manual retry on, plus the attempts left to claims of it in flight at that retry |
| SchedulerTheorems.CarefulBudgetKept | src/modules/scheduler/handlers.rs:94-102 | so with no manual retry in flight it has at most max(1, m), restarts included |
| SchedulerTheorems.ClaimsAccounted | src/modules/scheduler/updater.rs:26-66 | in every run each claim of a task ended with one result, saved or not, was dropped, was cut off by a restart, or is in flight; after shutdown none is in flight |
| SchedulerTheorems.SentToOwnQueue | src/modules/scheduler/flow.rs:97-112 | in every run a task is sent to the processor its queue is registered with, and to no other |
| SchedulerTheorems.LimitsKept | src/modules/scheduler/processor.rs:43-84 | in every run, restarts included, permits free and held are the limit the queue was started with |
| SchedulerTheorems.OnlyCleanUpDeletes | src/modules/scheduler/nativedb/meta.rs:162-225 | a stored task disappears only when a clean-up that selected it deletes it |
| SchedulerTheorems.CleanUpSparesPending | src/modules/scheduler/nativedb/meta.rs:162-225 | in every run a task a clean-up selected is neither scheduled nor running when it is deleted, unless it was retried or got a late result since |
| SchedulerTheorems.FailedRetriesAreCareful | src/modules/scheduler/nativedb/meta.rs:262-269 | a run that retries this task only when it is Failed never retries it in flight |
| SchedulerTheorems.CountRightIff | src/modules/scheduler/handlers.rs:61-92 | in every run the stored count is the number of failures counted, in every state, if and only if each failed result saved for the row came from an execution that started from the count the row still had |
| SchedulerTheorems.LeftRunningIsLost | src/modules/scheduler/updater.rs:40-53 | in every run, a task still Running after shutdown lost its claim: a failed update, or a queue nobody serves |
| SchedulerTheorems.NoneLeftRunning | src/modules/scheduler/flow.rs:86-118 | in every run whose updates were all saved, shutdown leaves no task of a registered queue Running |
| SchedulerTheorems.WhoIsLeftRunning | src/modules/scheduler/updater.rs:40-53 | after shutdown a task not retried in flight is Running if and only if its last claim got lost and it was not stopped or removed since |
| SchedulerTheorems.RestartDropsIff | src/modules/scheduler/nativedb/meta.rs:392-433 | in every run a restart removes a Running task if and only if it has no retry bound and a failure is counted; every other Running task is rescheduled |
| SchedulerWitnesses.RetryCanRace | src/modules/scheduler/nativedb/meta.rs:227-283 | a run exists in which a task stopped while running is retried and handed out twice |
| SchedulerWitnesses.StaleResultMiscounts | src/modules/scheduler/nativedb/meta.rs:109-160 | a run exists after which two failures since the retry are counted as one, and a task with one attempt has two results |
| SchedulerWitnesses.RestartCanDrop | src/modules/scheduler/nativedb/meta.rs:392-433 | a run exists in which a task without a retry bound is Running and a restart removes it |
| SchedulerWitnesses.CleanUpCanDropRetried | src/modules/scheduler/nativedb/meta.rs:183-221 | a run exists in which a failed task that is retried after a clean-up selected it is deleted while it is due |
| SchedulerWitnesses.UnsavedStaysRunning | src/modules/scheduler/updater.rs:40-53 | a run exists after whose shutdown a task of a registered queue is Running, its update having failed |
| SchedulerWitnesses.UnroutedStaysRunning | src/modules/scheduler/flow.rs:97-106 | a run exists after whose shutdown a task of a queue nobody serves is Running |
| SyncPermits.SemaphoreRegistry.AccountSemaphore | src/modules/cache/mod.rs:43-52 | the account's semaphore is found, or created with 8 permits; no other entry or semaphore changes |
| SyncPermits.StepKeepsInv | src/modules/cache/mod.rs:22-57 | every arrival, take, lookup and release keeps permits and holders balanced |
| SyncPermits.PermitsBounded | src/modules/cache/mod.rs:36-42 | in every run at most the initial global limit hold a global permit and at most 8 tasks of any one account work |
| SyncPermits.SemaphoreForEver | src/modules/cache/mod.rs:31-34 | an account keeps the semaphore it first got |
| SyncPermits.OneSemaphorePerAccount | src/modules/cache/mod.rs:46-52 | two tasks that wait for or hold an account permit use one semaphore if and only if they share the account |
| SyncPermits.NeverStuck | src/modules/cache/mod.rs:41-57 | while a task is unfinished some step is possible |
| SyncPermits.RunsAreShort | src/modules/cache/mod.rs:41-57 | a run with k arrivals has at most 6k steps: with `NeverStuck`, every task finishes |
| RunWithLimit.MapOrFirstErrorMeaning | src/modules/common/parallel.rs:39-51 | a success is f of every item in input order; an error is that of the first item that fails |
| RunWithLimit.ErrorIsFinal | src/modules/common/parallel.rs:40-48 | once a prefix fails, the rest does not matter |
| RunWithLimit.Pool.OneEnds | src/modules/common/parallel.rs:32-36 | a task that ends records f of its item and frees its permit |
| RunWithLimit.Pool.Spawn | src/modules/common/parallel.rs:23-37 | a task starts only with a permit, so at most `concurrency` run |
| RunWithLimit.RunWithLimit | src/modules/common/parallel.rs:8-52 | in whatever order tasks end, the result is that map or first error, and never more than `concurrency` tasks are in flight |
| Backoff.LadderStep | src/modules/imap/manager.rs:59-66 | doubling with a cap moves from rung n to rung n + 1 of min(30000 * 2^(n-1), 600000) |
| Backoff.LadderRungs | src/modules/imap/manager.rs:22-28 | the rungs are 0, 30, 60, 120, 240, 480 and 600 seconds, and no others |
| Backoff.StepKeepsInv | src/modules/imap/manager.rs:59-80 | every atomic access of every caller keeps the ladder and the ten-minute bound |
| Backoff.BackoffStaysOnLadder | src/modules/imap/manager.rs:59-80 | under every interleaving and stale load, each value the backoff ever holds is a rung, and no next attempt is over ten minutes ahead |
| Backoff.AttemptsWaitForWindow | src/modules/imap/manager.rs:84-93 | however the window moves, no attempt begins before a clock reading at or past the value its caller loaded last |
| Backoff.SleepsToWindowEnd | src/modules/imap/manager.rs:84-93 | a caller that sleeps wakes at or past the end of the window it loaded, after what was left of it |
| Backoff.AtomicsAgreeIff | src/modules/imap/manager.rs:59-80 | in every run the atomics agree if and only if the notes that wrote them last are of the same kind |
| Backoff.OneFailureOneSuccess | src/modules/imap/manager.rs:59-80 | one failure and one success leave them in agreement if and only if both were written in the same order |
| Backoff.ApartNotesAgree | src/modules/imap/manager.rs:59-80 | if no success note overlaps a failure note they agree whenever no note is under way |
| Backoff.AttemptOutlivesBackoff | src/modules/imap/manager.rs:67-80 | a run that ends with no backoff and a next attempt 30 s ahead |
| Backoff.BackoffOutlivesAttempt | src/modules/imap/manager.rs:67-80 | a run that ends with a backoff of 30 s and no next attempt |
| Backoff.ImapConnectionManager.NoteConnectionFailure | src/modules/imap/manager.rs:59-74 | the backoff takes its next value and the next attempt is that far from now |
| Backoff.ImapConnectionManager.NoteConnectionSuccess | src/modules/imap/manager.rs:77-80 | both are cleared |
| Backoff.ImapConnectionManager.WaitForBackoff | src/modules/imap/manager.rs:84-93 | it returns at the first wake-up that finds the window over, wherever others moved it meanwhile |
| Backoff.ImapConnectionManager.Connect | src/modules/imap/pool.rs:33-52 | an attempt begins after the window and its outcome is noted when it ends |
| Backoff.ImapConnectionManager.FailingConnects | src/modules/imap/pool.rs:33-52 | after n failures the backoff is rung n, and attempt k + 1 begins no earlier than the first plus the rungs between |
| EventChannel.EventLoop.Flush | src/modules/hook/channel.rs:70-80 | the whole buffer is handed over as one batch and cleared, whether handling succeeds or not |
| EventChannel.EventLoop.Turn | src/modules/hook/channel.rs:56-81 | one turn adds the received event to what was seen, flushes exactly on 50 events or three seconds since the last flush, and loses nothing |
| EventChannel.EventLoop.Run | src/modules/hook/channel.rs:48-92 | the batches concatenate to all events received, each of 1 to 50, and nothing is left when the channel closes |
| EventChannel.EventsInOrder | src/modules/hook/channel.rs:48-92 | the events received are those of the inputs, each once and in order |
| EventChannel.Handle | src/modules/hook/channel.rs:94-119 | a failed lookup submits nothing; otherwise chunks of 1 to 50 go out in order up to the first refusal; on success the submitted tasks are one for each event and hook that matches it, in order |
| EventChannel.TasksOfExact | src/modules/hook/channel.rs:97-111 | a hook gets an event if and only if the event is in the batch and the hook matches it |
| EventChannel.TasksInOrder | src/modules/hook/channel.rs:97-111 | task j of event i is its j-th matching hook, behind one task for each hook of the events before; there are no others |
| Paging.PagesCoverIff | src/modules/common/paginated.rs:24-32 | the first m pages are the whole sequence if and only if m >= ceil(n / size) |
| Paging.BothPagersPage | src/modules/database/mod.rs:345-405 | for page and size at least 1 both pagers return that page and count, and the descending scan pages the reversed rows |
| Paging.PaginateVecExact | src/modules/common/paginated.rs:15-57 | on all inputs: a 0 is an error, otherwise the rows from the page's offset on, at most a page of them, or all without a page and size |
| Paging.PaginateScanExact | src/modules/database/mod.rs:345-405 | on all inputs: a 0 is an error only when both are given, a lone size limits the rows, and only `Some(true)` counts them from the end |
| Paging.PagersAgreeIff | src/modules/common/paginated.rs:22-50 | on all inputs, exactly when the in-memory and the scan pager agree |
| Paging.WindowOrdered | src/modules/imap/executor.rs:338-363 | a window is a non-empty range within 1 to the total and never wider than the page size |
| Paging.ShownIsPage | src/modules/imap/executor.rs:272-293 | the window, reversed when descending, is that page of the list, item i being sequence number offset + i + 1, or total - offset - i |
| Paging.DescendingMirrors | src/modules/imap/executor.rs:278-293 | descending page k is the mirror image of ascending page k |
| Paging.FetchRemoteMessages | src/modules/message/list.rs:93-141 | which of the size, token and page-0 errors it is; the page's items, total and page count; a next token unless this is the last page |
| Paging.PageExistsIff | src/modules/message/list.rs:126 | a page has something on it if and only if it is one of the ceil(n / size) pages |
| Paging.WalkList | src/modules/message/list.rs:101-141 | following tokens from the first page stops after ceil(T / s) pages that show messages 1 to T, or T to 1, each once and in that order |
| Paging.NeverStopsPastEnd | src/modules/message/list.rs:126-133 | past the end no number of requests reaches a last page |
| Paging.WalkStopsIff | src/modules/message/list.rs:126-133 | from an arbitrary token the walk ends if and only if the mailbox is empty or that page exists |
| Sections.RecursiveParse | src/modules/imap/section.rs:457-516 | the traversal returns the extracted leaves, None if and only if there are none |
| Sections.ExtractionIsExact | src/modules/imap/section.rs:457-516 | a part is extracted with a path if and only if that path leads to it and the leaf test accepts it |
| Sections.NavigateExact | src/modules/imap/section.rs:462-516 | a path counts children from 1 at each level of multiparts and enters nothing else |
| Sections.GetAttachments | src/modules/imap/section.rs:332-334 | exactly the leaves whose disposition is attachment or inline in any case, None if there are none |
| Sections.GetBodyParts | src/modules/imap/section.rs:336-338 | exactly the leaves of type text/plain or text/html in any case, None if there are none |
| Sections.EqIgnoreCaseIff | src/modules/imap/section.rs:381-421 | names are equal when they have the same length and differ only in the case of ASCII letters |
| Sections.ExtractionInOrder | src/modules/imap/section.rs:457-516 | parts come in document order, without repetition |
| Sections.PrintRoundTrip | src/modules/imap/section.rs:301-317 | a printed specifier reads back as the part numbers, "1" for a single part |
| Sections.PrintExact | src/modules/imap/section.rs:301-317 | decimal numbers, most significant digit first, with a dot between two of them |
| Sections.SpecifiersDistinct | src/modules/imap/section.rs:301-317 | two parts of one message never print alike |
| Sections.SectionPathAgreesIff | src/modules/imap/section.rs:290-298 | each segment is sent modulo 2^32, so the fetched path names the printed part if and only if all segments fit in 32 bits |
| Sections.ExtractedPathsAgree | src/modules/imap/section.rs:284-317 | which holds for every part extracted from a structure with fewer than 2^32 parts per level |
| SyncState.RunningStateRow.Update | src/modules/account/status.rs:83-233 | each setter writes the given value or clock reading to its own fields, and fails without effect when there is no row |
| SyncState.RunningStateRow.AppendErrorLog | src/modules/account/status.rs:235-245 | push, and drop the oldest beyond 20 |
| SyncState.RunningStateRow.DetermineSyncType | src/modules/cache/sync_type.rs:26-69 | a full sync if and only if there is no row, or the account is IMAP and more than its minutes (30 if unset) passed since the last; an incremental one if and only if not that and more than its seconds passed; the start is recorded, a new row is empty |
| SyncState.StartsRemembered | src/modules/account/status.rs:180-214 | a recorded sync start is never lost or set back |
| SyncState.FullSyncsSpaced | src/modules/cache/sync_type.rs:72-74 | over any run, two full syncs are more than the full interval apart, and only IMAP accounts have a second one |
| SyncState.IncrementalSyncsSpaced | src/modules/cache/sync_type.rs:77-83 | over any run, two incremental syncs are more than their interval apart |
| SyncState.LastCompletedSyncAt | src/modules/account/status.rs:72-81 | the latest of the three completion times, None only if there is none |
| SyncState.NextKeepsBaseline | src/modules/account/status.rs:180-222 | no poll or setter clears the last completed sync or moves it back |
| SyncState.BaselineNeverMovesBack | src/modules/account/status.rs:69-81 | over any run from creation on, the last completed sync never disappears or decreases |
| SyncState.ErrorLogIsRecent | src/modules/account/status.rs:235-245 | the log is always the last min(n, 20) of the n errors appended |

## Left out

- Tables are maps and transactions atomic: native_db and redb internals, scan order, and rows that fail to decode (the snapshot scan skips them) are not modelled.
- The filter is a total function: a filter that panics fails the scan, which is `scanFault`.
- The async runtime: tasks, channels and semaphores are steps of a state machine. Executions and the flow have no objects of their own; they are the steps `Tick` to `Finish` and `Fetch` to `Halt`.
- Cancellation of a task that waits for a permit or a channel slot is not modelled.
- SentTaskApplied: replays results on a fixed table; for a table that claims, stops, retries, clean-up and restarts change meanwhile, `ClaimsAccounted` and `CountRightIff` say what becomes of each claim and of the count.
- InFlightAtMostOnce: assumes that no manual retry hits this task in flight, as do AttemptsAreFailures and WhoIsLeftRunning; for every run `NeverTwiceIff`, `CountRightIff` and `LeftRunningIsLost` say what holds then.
- Restarts: a history begins with an empty store, a restart keeps the registered queues and their limits, and clean-up may select any terminal task whatever its age. A batch retry is a series of single ones.
- FetchPending: reads the clock once, where the code reads it for each row. Metrics are left out.
- Heartbeats carry no timestamp in the store; last durations, update and creation times and stop reasons are left out.
- Zero limits: a queue limit, a concurrency or a batch size of 0 blocks or panics in the code and is excluded.
- Memory order: a store takes effect at one step for every caller. Relaxed stores to the two backoff atomics may also become visible in an order that no interleaving shows; `AtomicsAgreeIff` and `ApartNotesAgree` do not speak of that.
- Page arithmetic: `(page - 1) * size` does not overflow, page counts are exact divisions, and the server answers a window completely, in ascending order and without items that fail to parse.
- Page tokens are an inverse pair: base64 and decimal parsing are one constructor, and everything else is `Garbage`.
- Extracted parts carry type, subtype, disposition and size; file names, encodings and content ids are copied by the code and left out.
- FullSyncsSpaced: needs a clock that does not step back, as do the other properties of runs. Interval products do not overflow 64 bits, and an account whose row is deleted starts a new run.
- Gmail and Graph listing, REST and gRPC servers, OAuth, SMTP, bounce parsing, caches, migrations and settings are not part of this model.

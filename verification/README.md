# Flotilla control plane: a verified model

Flotilla runs long-lived agent workers on GPU hosts from one API process and one
SQLite file. This project models the parts of it where several pieces of code have to
agree, and proves what they keep between them.

- **Dispatch protocol** (`Lifecycle`, `Tables`, `Queueing`, `StoreModel`, `GpuModel`,
  `Protocol`, `Invariant`, `Preservation`, `Theorems`, `Runs`, `Gates`, `Compensation`,
  `Leases`, `Workers`, `Callers`, `Fairness`, `Witnesses`). `Tables` gives each store transaction as a function on the database;
  `StoreModel.Store` performs the transactions in place and each is proved equal to its
  function; what a transaction does to each row is stated beside that, field by field.
  `Protocol` is a state machine with one step per transaction or step on an
  in-memory table: scheduler ticks, retirements, the stale sweep, steering, telemetry,
  process death and reattachment. Every list of actions is a run, so a statement about
  all lists is a statement about all interleavings. Two switches widen the runs:
  `faults` lets a store access fail and raise, `restarts` lets the process die.
- **Programs over the protocol** (`TickSteps`, `RetireSteps`, `ControlPlaneModel`,
  `RecoverySteps`, `RecoveryModel`). `tick` and `retire` as loops and calls, with any number of foreign
  steps between any two of their own, and what adapters, runtime, evaluator and host answer as arguments; restart recovery as a loop over the tasks.
- **Event log** (`EventLog`): pruned status history against the log nothing was removed
  from.
- **Patrol scheduler** (`PatrolPlan`, `PatrolModel`): the akctl patrol loop with its
  working registry, dry runs and failing starts.
- **Live board** (`LiveView`, `LiveTheorems`, `WebSinkModel`, `TaskMerge`): index,
  bounded queues, joining subscribers, and the dashboard's merge of live updates.
- **Text and process helpers** (`Text`, `ProcessTree`): reading the tail of a file
  backwards, and descendants in a process table.

`dafny verify dfyconfig.toml` checks everything.

## What the code does that one might not expect

- LOST can be left. A retirement that read its task while it was DISPATCHING may commit
  FAILED or CANCELLED after the stale sweep made the task LOST.
  `Runs.TerminalChangesExactlyWhen` says exactly when; `Witnesses.LostCanBeLeft` is a run.
- `retire(..., "STUCK")` lists PAUSED among the states it expects
  (`flotilla/actuator.py:82-86`), but the transition table has no PAUSED to STUCK edge, so the
  call raises exactly on a paused task (`Theorems.MarkStuckRaisesExactlyWhenPaused`). It
  also ignores whether the write was declined: it answers STUCK for a task that ended
  between its read and its write (`ControlPlaneModel.ControlPlane.Retire` states what each
  answer means).
- `retire` may be called without a terminal state. On a live task it would then end the
  worker row and leave the task live without a worker
  (`Theorems.MissingTargetStrandsTask`). No caller does.
- When an activation rolls back after the handle was registered, a retirement that took
  that handle's worker id can later finish the task while a second dispatch's worker row
  stays open (`Witnesses.FaultLeavesRowOpen`). A row is stranded on a task that is not live
  if and only if a commit lands on the live task and names a worker other than its active
  one (`Runs.StrandedExactlyWhen`); what the retirement had read does not matter
  (`Runs.CommitOnLiveTask`). `Runs.RetirementHoldsActiveWorker` excludes it when no store
  access fails.
- A queued task can be overtaken, however the clock runs. A submission draws its stamps
  when it is validated and inserts its rows later, in batches, so a task can enter the
  queue before others that wait already (`Fairness.LateInsertOvertakes`). A waiting task is
  set back exactly by such an entry (`Fairness.RankStep`), and the number of non-empty
  claims it sees is bounded by those ahead of it plus those entries
  (`Fairness.WaitingIsBounded`). A requeued task draws its stamp inside its transaction.
- A full subscriber queue evicts its oldest update. The subscriber is then wrong about that
  task, until it is updated again, exactly when no later update of the task is on its way
  and what the subscriber has, or is about to replay, differs from the evicted update. Those
  are the tasks `stale` holds: a drained board differs from the truth on these tasks and on
  no others (`LiveTheorems.DrainedShowsIndex`, `LiveTheorems.OverflowCanLose`).

## Model

| member | source | states |
|---|---|---|
| Lifecycle.SettledForever | flotilla/state.py:21-63 | Along any path of the transition table DONE, FAILED and CANCELLED are final |
| StoreModel.Store.SetTaskState | flotilla/store.py:208-239 | The guarded state write in place: refused for an unknown task or unexpected state, raising on an illegal edge, else stamped and committed |
| StoreModel.Store.ClaimQueuedTasks | flotilla/store.py:241-277 | The claim loop reserves the head of the queue in (updated_at, id) order, stamps each row once and returns the rows in that order; no other row changes |
| StoreModel.Store.MarkStaleDispatchingLost | flotilla/store.py:282-311 | A task is returned, made LOST and given one event if and only if it was DISPATCHING with a stamp before the cutoff; every other row and event stays; ids ascend |
| StoreModel.Store.ActivateWorker | flotilla/store.py:313-334 | Activation needs the claim to be held still; the task starts running and the worker row appears together, or nothing changes |
| StoreModel.Store.FinishWorker | flotilla/store.py:336-366 | Terminal state, end of the worker row and evaluation event enter together, or nothing changes |
| StoreModel.Store.AppendEvent | flotilla/store.py:442-458 | Append and pruning are one write, rolled back for an unknown task |
| StoreModel.Store.ActiveWorkerId | flotilla/store.py:402-409 | The task's un-ended worker that started last, None exactly when it has none |
| Queueing.ClaimLoad | flotilla/store.py:241-277 | A claim raises un-ended workers plus reserved tasks by exactly what it returns, and never past the limit |
| Queueing.ActivateLoad | flotilla/store.py:313-334 | Activation conserves un-ended workers plus reserved tasks |
| Queueing.ClaimedIffInReach | flotilla/store.py:245-262 | A queued task is taken if and only if the tasks ahead of it in (updated_at, id) order, the un-ended workers and the reserved tasks together are fewer than `max_active` |
| Queueing.ClaimedCount | flotilla/store.py:245-262 | A claim takes the lesser of the queue length and the limit minus un-ended workers minus reserved tasks, and nothing where that is negative |
| Queueing.ClaimConservesWork | flotilla/store.py:245-277 | After a claim nothing is queued any more, or the limit is reached |
| Queueing.ClaimedInOrder | flotilla/store.py:253-258 | The claimed rows stand in (updated_at, id) order |
| Queueing.ClaimAdvances | flotilla/store.py:253-277 | A task that is passed over moves forward by exactly the number taken |
| GpuModel.GpuResource.Acquire | flotilla/resource/gpu.py:22-40 | A lease is granted exactly for a well-formed UUID neither held here nor locked elsewhere; exactly that UUID is recorded, and releasing it restores the table |
| GpuModel.GpuResource.Release | flotilla/resource/gpu.py:45-55 | Releasing takes away the UUID's entry, whoever holds it, and no other; on a UUID that is not held it changes nothing |
| GpuModel.AcquireIsPrepare | flotilla/scheduler.py:105-111 | Every answer of the adapter is one step of the protocol with the same effect on the lease table, and the protocol takes a lease only where the adapter can grant it |
| GpuModel.RefusalSettles | flotilla/scheduler.py:136-148 | A claimed task with a malformed UUID ends FAILED by its settling write, one whose UUID is in use goes back to QUEUED, and neither touches the lease table |
| Preservation.StepKeepsInv | flotilla/store.py:208-377 | Every step of every party keeps the protocol invariant |
| Theorems.ReachedInv | flotilla/scheduler.py:114-219 | The invariant holds in every state of every run |
| Theorems.OneActiveWorker | flotilla/store.py:313-366 | In every reachable state a RUNNING, PAUSED or STUCK task has exactly one un-ended worker, no task has two, and without store faults every other task has none |
| Theorems.ActivatedAtMostOnce | flotilla/scheduler.py:179-187 | No two dispatch attempts of one task are ever both activated |
| Theorems.ActivationIsFinal | flotilla/scheduler.py:179-187 | An activated attempt is activated for the rest of the run, so the count above covers whole runs |
| Theorems.CapacityNeverExceeded | flotilla/store.py:241-277 | Un-ended workers plus DISPATCHING tasks never exceed the limit, under any number of interleaved ticks |
| Runs.LoadRisesOnlyByClaim | flotilla/store.py:241-366 | Only a claim can raise that sum, and only within the limit; activation keeps it; all other steps lower or keep it |
| Theorems.GpuHeldByItsWorker | flotilla/resource/gpu.py:22-55 | Within one process lifetime no two un-ended workers carry the same GPU UUID, and the UUID is held for the one that does |
| Runs.LeaseGivenBackInTurn | flotilla/actuator.py:138-160 | A UUID leaves the table only by its own attempt that never got a row, or by the retirement of its own worker after that worker ended |
| Theorems.QueuedHasNoWorker | flotilla/scheduler.py:188-217 | A task is back in QUEUED only when no external worker started for it is alive, even if activation rolled back |
| Theorems.FailedStopNeverRequeues | flotilla/scheduler.py:201-208 | After a failed stop the task is never QUEUED again in the rest of the run |
| Compensation.SettlingDecides | flotilla/scheduler.py:188-217 | A settling write that lands on a task still DISPATCHING makes it LOST iff the stop failed, QUEUED iff it did not and the failure may be retried, FAILED iff it may not; it writes nothing else, and nothing at all on any other task |
| Compensation.GivenUpNeverRequeued | flotilla/scheduler.py:144-148 | After a preparation, start or worker row that fails without a retry, the task is never QUEUED again in the rest of the run |
| Theorems.HistoryIsPath | flotilla/state.py:21-63 | The whole history of a task is a path of the transition table, although claim and sweep bypass `transition` |
| Runs.StateChangesAreMoves | flotilla/store.py:208-366 | Which step may change a task's state, from which states and to which |
| Runs.TerminalChangesExactlyWhen | flotilla/actuator.py:96-136 | A terminal state changes if and only if it is LOST and a retirement holding a FAILED or CANCELLED verdict from an older read commits |
| Runs.OverStaysOver | flotilla/store.py:368-377 | A task that is terminal or deleted never becomes schedulable again |
| Runs.CommitOnLiveTask | flotilla/actuator.py:96-136 | Whatever it read, a retirement that comes to commit on a live task lands, and closes the task's one open row iff it is the one it names |
| Runs.LiveRetirementLands | flotilla/actuator.py:96-136 | A retirement that read its task live finds it live or deleted at commit, whatever ran between; so its commit lands |
| Runs.StrandedExactlyWhen | flotilla/actuator.py:123-136 | An open worker row comes to be on a task that is not live if and only if a commit lands on the live task naming another worker than the active one |
| Runs.RetirementHoldsActiveWorker | flotilla/actuator.py:89-136 | Without store faults a retirement of a live task holds the id of its one active worker |
| Runs.RepairEndsRow | flotilla/actuator.py:101-136 | A retirement that read its task terminal with the worker row still open ends exactly that row, and changes no task and no event |
| Runs.SteeringDoes | flotilla/actuator.py:168-221 | Pause, resume, nudge and the STUCK mark each move the task from the one state they apply to, and leave it alone in every other |
| Theorems.MarkStuckRaisesExactlyWhenPaused | flotilla/actuator.py:78-87 | The STUCK write raises exactly on a paused task |
| Theorems.MissingTargetStrandsTask | flotilla/actuator.py:122-136 | Ending a worker row alone, as a call without a target does, leaves a task live without a worker exactly if it is live and has no other open row |
| Theorems.DoneMeansPassed | flotilla/actuator.py:35-62 | In every reachable state a DONE task with an evaluator has exactly one evaluation event on record and it passed; retention never removed it |
| Gates.EvaluationDecides | flotilla/actuator.py:35-62 | In every reachable state a task has at most one evaluation, only with an evaluator; if it passed the task is DONE, if it failed FAILED |
| Gates.StepKeepsRecord | flotilla/actuator.py:35-62 | No step but the commit of its own retirement changes what is recorded about a task's evaluation |
| Runs.DoneEntersWithEvaluation | flotilla/store.py:346-366 | DONE and its evaluation enter in one transaction, and there was no evaluation before |
| Theorems.TickAccounts | flotilla/scheduler.py:114-219 | Once a tick's attempts are over, its counter is the number of activations, every lease it took is on an activated worker or released, and a task is reserved under its claim only if the settling write failed or the process died |
| Leases.NeededGpuIsHeld | flotilla/scheduler.py:151-187 | In every reachable state the active worker of a task that needs a GPU carries that UUID on its row, and within one process lifetime the UUID is held for it |
| Leases.LiveTasksNeedDistinctGpus | flotilla/resource/gpu.py:22-55 | Within one process lifetime no two live tasks need the same GPU |
| Leases.RetirementGivesBack | flotilla/actuator.py:138-160 | A retirement that has committed with a worker row in hand leaves nothing held for that worker |
| Workers.WorkersComeAndGo | flotilla/scheduler.py:159-208 | Which steps start and end an external worker, as an iff for every step and worker |
| Workers.StoppedForGood | flotilla/actuator.py:106-121 | After a retirement with `stop` whose stop succeeded, the handle's worker never runs again |
| Workers.HandlesChangeExactly | flotilla/actuator.py:20-33 | Every step installs one handle, removes one or leaves the registry alone, and which it does is told from the step |
| TickSteps.TickTakesItsClaim | flotilla/scheduler.py:124-150 | Whatever follows its claim, the attempts of a tick are one for each task it claimed, under the id drawn for it, and no other |
| Callers.KnownIdStaysCallable | flotilla/actuator.py:30-33 | A worker id read from the handle registry or from an active row is one the retirement steps account for, however late the call comes |
| Callers.LateLookupIsCallable | flotilla/routes.py:285-316 | Once a worker was active, no other ever is: a later lookup gives that one or none |
| Callers.NoneStaysNone | flotilla/routes.py:313 | A lookup that finds none stays true for the rest of the run, and the call without an id stays admissible |
| Fairness.RankStep | flotilla/store.py:235-277 | A task that stays queued is set back if and only if a step puts another task into the queue under an earlier place in (updated_at, id) order, and then by one place; a claim that takes others brings it forward by their number |
| Fairness.WaitingIsBounded | flotilla/scheduler.py:133-139 | In every run, while a task waits there are at most as many non-empty claims as tasks that were ahead of it or entered the queue ahead of it since |
| Fairness.PunctualQueueIsFair | flotilla/store.py:235-277 | If everything that enters the queue is stamped later than the waiting task, it is claimed within its rank plus one non-empty claims |
| Fairness.LateInsertOvertakes | flotilla/routes.py:148-150 | A run with an advancing clock in which a submission validated earlier and inserted later sets a queued task back |
| Witnesses.LostCanBeLeft | flotilla/actuator.py:96-136 | A run in which a LOST task becomes FAILED |
| Witnesses.FaultLeavesRowOpen | flotilla/scheduler.py:188-217 | A run with one rolled-back activation that ends with a FAILED task and an open worker row |
| ControlPlaneModel.ControlPlane.Tick | flotilla/scheduler.py:114-219 | For every answer of adapters, runtime and host, completion order and interference: the tick claims first, brings exactly the claimed tasks to an outcome, and returns the number it activated. An attempt is activated only with every answer right, and must be unless it found its GPU in use, its task is over or the store failed; one that failed without a retry is never queued again |
| ControlPlaneModel.ControlPlane.Complete | flotilla/scheduler.py:159-217 | One finished start: registered, then activated; or after a failure stopped, unregistered if registered, released and settled, in that order on the run, whatever others do in between |
| ControlPlaneModel.ControlPlane.Retire | flotilla/actuator.py:65-165 | A second call on a task under retirement does nothing; otherwise the guard is free on every path and a live task ends unless it is deleted or the store fails. The answer is the committed state: the target, except that a task with an evaluator retired as DONE is DONE iff the evaluation passed, else FAILED, with that evaluation on record. The stopped worker does not run, nothing is held for the worker, the handle is gone. For STUCK: what each of the three answers says about the task |
| RecoveryModel.Recovery.ReconcileRunning | flotilla/app.py:14-125 | After recovery every live task is live with a handle naming its newest active worker, or LOST with its worker ended (a live task has just one, by `Theorems.OneActiveWorker`), or untouched because its host did not answer; the result counts the handles; and from a reached state the whole pass is a run of the protocol to a state with this database and these handles |
| RecoveryModel.Recovery.RecoverOne | flotilla/app.py:67-125 | One task's recovery changes no other task |
| RecoverySteps.LostIsRetirement | flotilla/app.py:42-63 | From a reached state, marking a live task LOST is one undisturbed retirement and one append; the call without a worker id does not occur there |
| RecoverySteps.FoundPaneIsReattach | flotilla/app.py:108-124 | The handle of a found pane names the task's one active worker, and along any later run stays a name that `retire` may be given |
| RecoverySteps.RecoveryIsReached | flotilla/app.py:67-125 | What recovery leads to is a reached state, so the invariant and every result about runs hold there |
| EventLog.StoredLogIsPrunedHistory | flotilla/store.py:442-458 | After any writes the stored log is the full log minus exactly the statuses with at least `retention` newer ones of their task |
| EventLog.StatusRetention | flotilla/store.py:448-458 | Each task's stored statuses are its newest ones up to the retention, oldest first |
| EventLog.WhatWasSaidIsStored | flotilla/store.py:442-458 | In terms of the writes alone: the newest statuses said of a task since it was created, and everything else said of it, are stored in the order they were said |
| EventLog.OthersKept | flotilla/store.py:448-458 | Events of every other kind are all kept, in order |
| EventLog.WindowIsNewest | flotilla/store.py:465-472 | A status window is the newest part of the full history, up to limit and retention |
| EventLog.LatestSurvives | flotilla/store.py:474-489 | The latest status of a task is the last one ever appended, whatever was pruned |
| PatrolPlan.FreeSlot | scripts/install-autokaggle-control.py:742-766 | Pigeonhole: a GPU whose first n slots are all occupied carries at least n active records, so one below its limit has a free slot |
| PatrolPlan.PickExists | scripts/install-autokaggle-control.py:753-766 | A slot exists exactly when slots are enabled and some GPU is below its limit |
| PatrolPlan.PlanClosedForm | scripts/install-autokaggle-control.py:1507-1549 | A failure-free plan starts exactly the first k pending tasks, k the least of starts, pending, remaining total room and free GPU room |
| PatrolPlan.PlanKeepsBalance | scripts/install-autokaggle-control.py:758-766 | The plan keeps the spread of loads within any bound of at least one that it had |
| PatrolPlan.PendingTail | scripts/install-autokaggle-control.py:697-719 | Registering the head of the queue leaves exactly its tail pending |
| PatrolPlan.PendingInOrder | scripts/install-autokaggle-control.py:697-719 | Of two pending tasks the one listed first has its first row first |
| PatrolModel.Control.ActiveCounts | scripts/install-autokaggle-control.py:643-654 | The counters equal the number of active records in all and per GPU |
| PatrolModel.Control.OccupiedSlots | scripts/install-autokaggle-control.py:742-750 | The set holds a pair exactly when an active record occupies it |
| PatrolModel.Control.QueueState | scripts/install-autokaggle-control.py:697-719 | Fails exactly on an unknown task; else lists first occurrences that are neither registered nor blocked, in queue order, and the refused rows with their positions and reasons |
| PatrolPlan.RefusalsExplained | scripts/install-autokaggle-control.py:704-714 | A row is refused as a duplicate exactly when its task was listed before, and as obstructed, for the obstacle found first, exactly when it is a first occurrence, unregistered and blocked |
| PatrolPlan.RowsAccounted | scripts/install-autokaggle-control.py:697-719 | Every row is pending, refused, or the first row of a registered task, and never two of these |
| PatrolModel.Control.ChooseAvailableSlot | scripts/install-autokaggle-control.py:753-766 | Returns the least loaded GPU (ties by index) and its lowest free slot; None exactly when slots are off or every GPU is full |
| PatrolModel.Control.StartTask | scripts/install-autokaggle-control.py:1110-1180 | A start refuses a task that is registered or blocked; otherwise registry record and workspace are there exactly as far as it got |
| PatrolModel.Control.RunPatrol | scripts/install-autokaggle-control.py:1484-1576 | For every pattern of failures: terminates; every attempt is the first pending task on the lowest free slot of the least loaded GPU, counting the registry and the tasks that failed since the last success; the report lists the successes and failures of these attempts in order; it ends only because the starts are used up, because nothing more can be placed by that count, or after a failure without `--keep-going`. Every world on the way is within the limits; started tasks are new, distinct and registered as reported; a dry run changes nothing and lists the plan that a failure-free live run carries out |
| PatrolModel.QuietPatrol | scripts/install-autokaggle-control.py:1507-1549 | Dry or live, a patrol without failures places the first k pending tasks and keeps the balance |
| PatrolModel.StartKeepsWithin | scripts/install-autokaggle-control.py:1507-1554 | One attempt, whichever way it ends, keeps the limits, because the working registry covers the actual one |
| LiveTheorems.RunKeepsInv | flotilla/sinks/web.py:28-88 | In every run each listed subscriber is on its way to the index: what it has, followed by all that is queued and still to be emitted for it, is the index on exactly the tasks that are not stale |
| LiveTheorems.DrainedShowsIndex | flotilla/routes.py:476-493 | A drained subscriber, whenever it joined, agrees with the replay of everything published on a task if and only if the task is not stale; its board is the replay iff no task is stale |
| LiveTheorems.NoOverflowNoStale | flotilla/sinks/web.py:44-60 | Without overflow no task is stale, so the drained board is exactly the replay |
| LiveTheorems.IndexIsReplay | flotilla/sinks/web.py:76-85 | The index is the fold of every published update |
| LiveTheorems.TakingDrains | flotilla/routes.py:479-491 | From any idle state, as many takes as updates are waiting bring a stream to the index on exactly the tasks that were not stale |
| LiveTheorems.NewestNeverDropped | flotilla/sinks/web.py:47-60 | With renders serialised, the second put always fits: the new update is never the one lost |
| LiveTheorems.OverflowCanLose | flotilla/sinks/web.py:49-60 | For every bound of at least one, a run in which a burst of one update more leaves a drained subscriber without a task |
| WebSinkModel.WebSink.Render | flotilla/sinks/web.py:66-88 | A render, with clients acting between any two queue operations, folds its updates into the index, keeps the invariant, and is a path of the board's machine with exactly one publication |
| WebSinkModel.WebSink.Put | flotilla/sinks/web.py:44-60 | Put, evict and put again for one queue, interrupted by clients at every point |
| WebSinkModel.WebSink.Subscribe | flotilla/sinks/web.py:28-33 | A new queue is empty and comes last in the list; a queue that is known already changes nothing |
| WebSinkModel.WebSink.Unsubscribe | flotilla/sinks/web.py:35-41 | Removes the first occurrence of the queue from the list and nothing else |
| TaskMerge.ReconcileTaskSnapshot | dashboard/src/taskState.ts:16-36 | The loops equal merging the buffered updates one by one into the filtered snapshot |
| TaskMerge.SnapshotIs | dashboard/src/taskState.ts:16-25 | An id is in the filtered snapshot iff a record carries it and it is not deleted, with its last record |
| TaskMerge.ShownTask | dashboard/src/taskState.ts:16-52 | A task is shown exactly when it was in the snapshot and nothing says it is deleted, and shows its record enriched by its own updates in order |
| TaskMerge.EnrichedFields | dashboard/src/taskState.ts:5-14 | Identity never changes; name, state and runtime are the last usable value sent; other properties are the last value sent |
| TaskMerge.BufferingIsTransparent | dashboard/src/taskState.ts:16-52 | Updates before or after the snapshot lead to the same map |
| TaskMerge.DeletionOrder | dashboard/src/taskState.ts:16-52 | A deletion learnt before the snapshot equals one learnt after it |
| TaskMerge.FreshUpdateCovers | dashboard/src/taskState.ts:5-14 | A complete update makes any older one irrelevant, so late duplicates do no harm |
| Text.TailLines | flotilla/observer.py:139-162 | For every file, n, byte limit and chunk size the result is the newest n lines of the decoded last `max_bytes` bytes, where lines are what the boundaries cut that text into, although reading stops after n+1 newlines |
| Text.LinesAreSplit | flotilla/observer.py:162 | The lines and their boundaries, put together in turn, are the text; no line holds a boundary character, carriage return and newline are one boundary, only the last line may go without one, and then it is not empty |
| Text.SplitIsUnique | flotilla/observer.py:162 | No other list of lines splits the text so |
| Text.DecodeOneMeans | flotilla/observer.py:161-162 | Where the bytes of a character stand it is decoded; everywhere else one replacement stands for a single byte or for the longest beginning of a character there |
| Text.DecodeAtNewline | flotilla/observer.py:161-162 | A newline byte is never part of another character, even in ill-formed text: decoding splits there |
| Text.SplitAtNewline | flotilla/observer.py:162 | `splitlines` before a newline does not depend on what follows |
| Text.DecodeEncode | flotilla/observer.py:162 | The decoder reads back every well-formed text exactly |
| ProcessTree.DescendantPids | scripts/monitor_state.py:1314-1329 | Exactly the pids reached from the root by parent edges, on any table, cycles included; nothing without a root |
| ProcessTree.ChildrenByParent | scripts/monitor_state.py:1317-1319 | The child lists hold exactly the parent edges of the table |

## Left out

- Theorems.OneActiveWorker: with store faults a task that is not live may keep an open row; `Runs.StrandedExactlyWhen` gives the exact case and `Witnesses.FaultLeavesRowOpen` a run.
- Theorems.GpuHeldByItsWorker: says nothing across a restart or between API processes, where leases are host-local by design.
- Theorems.TickAccounts: that no lease is ever leaked over all interleavings is not claimed; a retirement that read the worker row before activation committed skips the release.
- Fairness.RankStep: stamps are integers; ISO timestamps that drop a zero microsecond part, which sort differently as text, are not modelled. A batch submission is a row of single insertions.
- LiveTheorems.DrainedShowsIndex: renders of one project are serialised with each other; concurrent renders of the same task are outside the model.
- ControlPlaneModel.ControlPlane.Retire: a call without a target, or with one that is neither terminal nor STUCK, is not part of the protocol; no caller makes one.
- PatrolModel.Control.RunPatrol: the patrol is the only writer of new registry records while it runs; an external worker whose start failed before its record was written is not counted.
- RecoveryModel.Recovery.ReconcileRunning: starts with an empty handle registry and runs before any other thread, as at application start.
- TaskMerge.MergeKnownTask: maps are plain dictionaries; ids that name inherited JavaScript object properties are not modelled.
- Identifiers, GPU UUIDs and timestamps are numbers or integers; only equality and order of them are used. Task ids are compared as numbers where SQLite compares text.
- The operator edge from LOST to QUEUED, which no code takes, and reuse of a deleted task id.
- The CPU resource's slot count, workspace paths, session fields, hosts, templates and foreign-key text of the store.
- A start that raises after it has created an external worker: the model's failed start leaves none running.
- The delete route's check and stop before the delete; only the store's delete is a step.
- The decision table from worker status to task state (`_map_terminal`) and the observer's and heartbeat's own loops: the protocol admits a retirement or a STUCK mark with any target at any time, which covers them.
- Patrol reports: the skipped list, the status summary, monitor modes, queue file syntax, and uuid fields of GPUs.
- More than one project on the live board: boards of different projects share nothing but a lock.
- The keyed merge of legacy Feishu rows, and building task views and public metadata.
- SSH, tmux, HTTP, SQLite, threads, file locks and files themselves; each is an outcome passed to a step, or an atomic step.

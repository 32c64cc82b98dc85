# Verified model of the Chronos control plane

Chronos schedules tasks on workers. Its master keeps two stores: the task and worker tables in a
transactional database, and Redis, with a sorted set of queued tasks and one list of assignments per
worker. Handlers in several files change both by hand: submitting and cancelling, the reports of the
workers, registration, the scheduling batch with preemption, the failure check, and two passes that
rebuild Redis. This project models those handlers and proves what their combination guarantees:
resource accounting, the bound on overcommitting, no lost work, termination, and what a failure check
commits. It also covers the placement and preemption algorithms on their own, and the parser of the
dashboard's command field.

## How the model is built

- `Types` holds the rows and the two stores as values. CPU and memory are a pair of reals, the pair
  the original calls a resource request. Ids are totally ordered values.
- The services are classes over a shared `Stores.Backend`, the injected session and Redis client:
  `TaskServices`, `WorkerTaskApi`, `WorkerServices`, `PreemptionEngines`, `SchedulerLoops`,
  `FailureDetectors`. Each method is proved equal to a function on the two stores (`Handlers`,
  `Batching`, `FailureChecks`, `Reconciliation`), and the properties are proved about those functions.
- The placement snapshot is an array that a batch updates in place; a worker selected from a list is
  its index in that list.
- `HandlerEffects`, `TurnEffects` and `CommandGrammar` say what each of those functions does without
  the terms the functions are written in: field by field, and for the parser as a grammar.
- A query without an order returns its rows in an arbitrary order. The functions take that order as
  an argument and the theorems hold for every order.
- A handler is one transaction. An exception undoes what it did to the tables and nothing it did to Redis.
- `Runs` makes the handlers the steps of a state machine, with polling and with a fault that replaces
  the whole content of Redis. The fault also covers a crash in the middle of a batch: the tables roll
  back, the popped tasks are gone from the queue, and entries already pushed stay.
- The preemption engine and the batch assume `Invariants.RowsOk`, which `Runs.RunKeepsRows` proves for
  every run. Registration assumes the unique host name column.

## Where the code differs from its documentation

- Preemption changes the stored capacity of a worker and not the batch's snapshot of it, so a later
  spread placement of the same batch can take the stored capacity below zero (`Overcommit`).
- Cancelling a live task and burying a worker give no capacity back; the ledger needs a leak term.
- Registering a worker again frees its whole capacity even while it still has live tasks; what the
  capacity bound then is, and when a registration keeps the plain one, is in `CapacityBounds`.
- The failure check asks for RUNNING to PENDING and for SCHEDULED to FAILED, which the table forbids,
  and may read `old_state` before it is assigned. Each case rolls back the check of all workers; whether
  the last one happens can depend on the order of the rows (`CheckOrders`, and `Examples` for tables on
  which checks abort and on which the order decides).
- The scheduled pass says it resets tasks of dead workers, but its session is never committed. Over
  runs that branch is unreachable.
- A queue entry can be stale. A running task that a batch pops may be evicted by another turn of the
  same batch, and is then pending, or even scheduled, and queued at the end. `PoppedTasks` says when.
- A report names neither a worker nor an attempt, so one from an earlier attempt counts if the task runs
  again (`Examples.LateReportCounts`).

## Model

| member | source | states |
|---|---|---|
| Transitions.CyclesEnterPending | src/chronos/state_machine/transitions.py:7-24 | every cycle of legal transitions, and every path of more than three of them, enters PENDING |
| HandlerEffects.TableExactly | src/chronos/state_machine/transitions.py:7-24 | the eleven legal transitions, and no others |
| Histories.RunLeads | src/chronos/state_machine/transitions.py:27-40 | over every run each row came from where it was to where it is by legal transitions only, each entry into PENDING charged one retry, however the handlers and committed failure checks edit it |
| Histories.LifeIsBounded | src/chronos/state_machine/transitions.py:7-20 | from its creation a task makes at most 4 * max_retries + 3 transitions |
| Histories.LongestLife | src/chronos/state_machine/transitions.py:7-20 | some history makes exactly that many |
| BinPacking.SpreadSchedule | src/chronos/master/scheduler/bin_packing.py:44-69 | returns a worker with room for the request that leaves most, CPUs plus gigabytes, least id among ties; none exactly when nothing fits |
| BinPacking.BestFitSchedule | src/chronos/master/scheduler/bin_packing.py:18-41 | returns a worker with room for the request that leaves least, CPUs plus gigabytes, least id among ties; none exactly when nothing fits |
| BinPacking.FirstFitSchedule | src/chronos/master/scheduler/bin_packing.py:72-83 | returns the first worker that fits; none exactly when nothing fits |
| BinPacking.SpreadSelect | src/chronos/master/scheduler/bin_packing.py:56-69 | the same choice as a function: most headroom, least id among ties, none exactly when nothing fits |
| BinPacking.SpreadChoiceMaximises | src/chronos/master/scheduler/bin_packing.py:57-68 | that choice is exactly the one that has room and leaves most, CPUs plus gigabytes, least id among ties |
| BinPacking.NothingFitsExactly | src/chronos/master/scheduler/bin_packing.py:57-65 | nothing fits exactly when every worker lacks CPU or memory |
| BinPacking.SpreadChoiceIsUnique | src/chronos/master/scheduler/bin_packing.py:67-69 | with distinct worker ids there is only one such choice |
| BinPacking.ChoiceIgnoresOrder | src/chronos/master/scheduler/bin_packing.py:39-41 | with distinct ids, every permutation of the worker list gives the same spread choice and the same best fit |
| SpreadBalance.SpreadBalances | src/chronos/master/scheduler/bin_packing.py:48-69 | identical workers offered any number of identical tasks: after every placement the per-worker counts differ by at most one, and every worker has what it started with minus its share |
| SpreadBalance.SpreadPlacesAllItCan | src/chronos/master/scheduler/bin_packing.py:56-65 | on workers of any capacity, spread places all of n identical tasks if and only if some placement of n of them exists at all |
| Preemption.FindPreemptionCandidates | src/chronos/master/scheduler/preemption.py:93-135 | the planner's loops compute the first least-waste plan among the per-worker greedy plans |
| Preemption.PlanForWorker | src/chronos/master/scheduler/preemption.py:106-135 | the loop over one worker's evictable tasks computes that worker's greedy plan |
| Preemption.GreedyTakesShortestPrefix | src/chronos/master/scheduler/preemption.py:108-126 | the victims are the shortest prefix of the priority-sorted evictable tasks that makes room: every shorter prefix fails |
| Preemption.GreedyVictims | src/chronos/master/scheduler/preemption.py:107-111 | victims are running tasks of the worker, of strictly lower priority, none twice |
| Preemption.GreedyIsComplete | src/chronos/master/scheduler/preemption.py:112-126 | a worker has no plan if and only if it runs nothing of strictly lower priority or evicting all of that still does not make room |
| Preemption.GreedyIsBottleneckOptimal | src/chronos/master/scheduler/preemption.py:108-126 | any other selection of running tasks whose eviction makes room contains a task at least as important as the last greedy victim |
| Preemption.PlannerPicksFirstLeastWaste | src/chronos/master/scheduler/preemption.py:126-135 | the plan returned is the greedy plan of the first worker of least waste |
| Preemption.PlannerMinimisesLeftover | src/chronos/master/scheduler/preemption.py:126-133 | what it minimises, written out: free plus freed minus request, CPUs plus gigabytes |
| Preemption.EqualPrioritiesKeepQueryOrder | src/chronos/master/scheduler/preemption.py:106-111 | evictable tasks of equal priority are taken in the order the query returned them |
| Sorting.SortIsStable | src/chronos/master/scheduler/preemption.py:108-111 | sorting keeps elements the order does not tell apart in place relative to each other |
| Preemption.PlannerIsComplete | src/chronos/master/scheduler/preemption.py:104-135 | no plan is returned if and only if every worker fails the same test |
| Preemption.PlanEvictsUnlessRoom | src/chronos/master/scheduler/preemption.py:115-122 | a plan has no victims if and only if its worker has room as it stands |
| PriorityQueues.PriorityQueue.Enqueue | src/chronos/redis_client/priority_queue.py:16-17 | the entry of the task is set to minus its priority |
| PriorityQueues.PriorityQueue.Dequeue | src/chronos/redis_client/priority_queue.py:19-23 | removes and returns the first entry; none exactly when the queue is empty |
| PriorityQueues.PriorityQueue.DequeueBatch | src/chronos/redis_client/priority_queue.py:25-27 | returns the batch ZPOPMIN pops and removes exactly its members |
| PriorityQueues.PriorityQueue.Remove | src/chronos/redis_client/priority_queue.py:29-31 | removes the member and tells whether it was there |
| PriorityQueues.PriorityQueue.Contains | src/chronos/redis_client/priority_queue.py:39-41 | tells whether the member is queued |
| PriorityQueues.PopBatchTakesTheFirst | src/chronos/redis_client/priority_queue.py:25-27 | a popped batch is duplicate-free, in score order with ties by member, as long as count and queue allow, and nothing left behind was ahead of it |
| TaskAssignment.TaskAssignmentQueue.AssignTask | src/chronos/redis_client/task_assignment.py:18-20 | appends to the worker's list and touches no other |
| TaskAssignment.TaskAssignmentQueue.PollAssignment | src/chronos/redis_client/task_assignment.py:22-27 | takes the oldest entry of the worker's list, none when it is empty |
| HandlerEffects.PollEffect | src/chronos/redis_client/task_assignment.py:22-27 | as a step: the oldest entry of one worker's list goes, and nothing else changes |
| TaskAssignment.TaskAssignmentQueue.SendPreemptSignal | src/chronos/redis_client/task_assignment.py:31-33 | appends to the worker's preemption list |
| TaskServices.TaskService.CreateTask | src/chronos/master/services/task_service.py:25-46 | adds a PENDING, unassigned row without retries and queues it |
| HandlerEffects.CreateTaskEffect | src/chronos/master/services/task_service.py:25-46 | the new row has the priority, request and retry limit given, is PENDING on no worker with no retry charged, and is queued at minus that priority; every other row, entry and list stays |
| TaskServices.TaskService.CancelTask | src/chronos/master/services/task_service.py:127-142 | cancels a pending, scheduled or running task, refuses every other, and returns no capacity |
| HandlerEffects.CancelTaskEffect | src/chronos/master/services/task_service.py:127-142 | only the state and the worker of the row change, only the entry of a pending task goes, and each refusal is the right one |
| HandlerFacts.CancelledTaskIsWithdrawn | src/chronos/master/services/task_service.py:132-142 | a cancelled task is on no worker and, if it was pending, out of the queue, where every other entry stays; completed, failed, preempted and cancelled tasks are refused unchanged |
| WorkerTaskApi.InternalTasks.UpdateTaskState | src/chronos/master/api/workers.py:70-87 | writes the reported state if the transition is legal; otherwise nothing changes |
| HandlerEffects.ReportStateEffect | src/chronos/master/api/workers.py:70-87 | exactly the state of the row is written when the table allows it, and nothing otherwise |
| WorkerTaskApi.InternalTasks.CompleteTask | src/chronos/master/api/workers.py:98-133 | completes a running task and returns its request to its worker; otherwise nothing changes |
| HandlerEffects.CompleteTaskEffect | src/chronos/master/api/workers.py:98-133 | field by field: the row is COMPLETED, its worker has the request back, and no other row, worker field or Redis key changes |
| WorkerTaskApi.InternalTasks.FailTask | src/chronos/master/api/workers.py:154-199 | fails a running task, returns its request, and queues it again with one retry charged while retries remain; otherwise nothing changes |
| HandlerEffects.FailTaskEffect | src/chronos/master/api/workers.py:154-199 | field by field, for both retry outcomes |
| HandlerFacts.CompletionCountsOnce | src/chronos/master/api/workers.py:98-133 | a completion report counts if and only if the task is running: it is completed, the active worker it then runs on has exactly its request more, and a second report changes nothing |
| Examples.LateReportCounts | src/chronos/master/api/workers.py:98-133 | a concrete run: a task is preempted on one worker and runs again on another, and the first worker's report then completes it and frees capacity on the second |
| HandlerFacts.FailureCountsOnce | src/chronos/master/api/workers.py:154-200 | a failure report counts only for a running task: its worker has the request back, and it is failed for good without retries left, else pending, unassigned, queued and charged one retry |
| WorkerServices.WorkerService.RegisterWorker | src/chronos/master/services/worker_service.py:21-57 | overwrites the row with this host name, or adds one, as ACTIVE with everything free |
| HandlerEffects.RegisterWorkerEffect | src/chronos/master/services/worker_service.py:21-57 | afterwards exactly one worker has the host name, at its old id or else the new one; it is ACTIVE with total and free capacity as given; other workers, tasks and Redis are as before |
| HandlerEffects.DeadWorkerComesBack | src/chronos/master/services/worker_service.py:28-34 | a DEAD worker that registers again is among the active workers |
| PreemptionEngines.PreemptionEngine.GetWorkersWithRunningTasks | src/chronos/master/scheduler/preemption.py:72-91 | lists every active worker once, each with exactly its running tasks |
| PreemptionEngines.PreemptionEngine.Preempt | src/chronos/master/scheduler/preemption.py:43-70 | executes the best plan over the queried rows, or changes nothing when there is none |
| PreemptionEngines.PreemptionEngine.ExecutePreemption | src/chronos/master/scheduler/preemption.py:137-175 | evicts the victims one by one and schedules the task; none of its transitions can raise |
| PreemptionEngines.PreemptionEngine.EvictVictim | src/chronos/master/scheduler/preemption.py:139-157 | preempts and signals one running victim, returns its capacity, and queues it again while retries remain |
| SchedulerLoops.SchedulerLoop.GetAvailableWorkers | src/chronos/master/scheduler/scheduler_loop.py:184-197 | copies the free capacity of every active worker, each once |
| SchedulerLoops.SchedulerLoop.TryScheduleTask | src/chronos/master/scheduler/scheduler_loop.py:199-254 | places the task on the spread choice, taking its request off the snapshot entry in place and off the stored worker; changes nothing when nothing fits |
| SchedulerLoops.SchedulerLoop.ScheduleOne | src/chronos/master/scheduler/scheduler_loop.py:168-182 | one popped id: skipped unless pending, else spread, else preemption, else queued again |
| TurnEffects.SpreadTurnEffect | src/chronos/master/scheduler/scheduler_loop.py:199-231 | a popped pending task that some snapshot entry has room for goes to the entry left with most, CPUs plus gigabytes; entry and stored worker give up the request, the worker's list gains the task, and nothing else changes |
| TurnEffects.PreemptionTurnEffect | src/chronos/master/scheduler/preemption.py:43-70 | one that fits nowhere, when some queried worker has a greedy plan, goes to the first worker whose plan wastes least, and exactly that plan's victims are evicted and signalled in order; every row, capacity, entry and list is given |
| TurnEffects.RequeueTurnEffect | src/chronos/master/scheduler/scheduler_loop.py:180-182 | without any greedy plan it is queued again at its priority, and nothing else changes |
| TurnEffects.SkippedTurnEffect | src/chronos/master/scheduler/scheduler_loop.py:169-171 | an id that is not pending is passed over |
| SchedulerLoops.SchedulerLoop.ScheduleBatch | src/chronos/master/scheduler/scheduler_loop.py:149-182 | the whole batch, including the empty queue and the branch without active workers |
| TurnEffects.BatchBegins | src/chronos/master/scheduler/scheduler_loop.py:149-197 | a batch begins with the popped ids out of the queue and one snapshot entry for each ACTIVE worker, showing what it has free |
| TurnEffects.BatchStep | src/chronos/master/scheduler/scheduler_loop.py:168-182 | the batch is the turns of its popped ids in order, each on what the one before left |
| TurnEffects.BatchPreemptsWithLeastWaste | src/chronos/master/scheduler/scheduler_loop.py:173-179 | in a batch such a task ends SCHEDULED on the first worker whose greedy plan then wasted least |
| TurnEffects.BatchSparesUnpopped | src/chronos/master/scheduler/scheduler_loop.py:149-182 | the row and the entry of a task that was not popped and not running stay |
| SchedulerLoops.SchedulerLoop.RequeueAll | src/chronos/master/scheduler/scheduler_loop.py:159-166 | without active workers, the popped ids that are pending go back to the queue |
| TurnEffects.BatchWithoutWorkersEffect | src/chronos/master/scheduler/scheduler_loop.py:159-166 | then the batch changes nothing but the queue: popped pending tasks are back at their priority, other popped ids are gone |
| SchedulerLoops.SchedulerLoop.ReconcilePendingTasks | src/chronos/master/scheduler/scheduler_loop.py:67-83 | adds every pending task that is missing from the queue and leaves the other entries alone |
| HandlerEffects.PendingPassEffect | src/chronos/master/scheduler/scheduler_loop.py:67-83 | entry by entry, with tables and lists unchanged |
| SchedulerLoops.SchedulerLoop.ReconcileScheduledTasks | src/chronos/master/scheduler/scheduler_loop.py:85-118 | pushes every scheduled task of an active worker again; the rows written for other workers are never stored |
| HandlerEffects.ScheduledPassEffect | src/chronos/master/scheduler/scheduler_loop.py:85-110 | an active worker's list gains, at its end, every scheduled task assigned to it exactly once; tables and preemption lists stay, and no task of an active worker is queued |
| FailureDetectors.FailureDetector.HandleOrphan | src/chronos/master/scheduler/failure_detector.py:92-129 | one orphan is queued again or failed, or an exception leaves the loop |
| FailureDetectors.FailureDetector.HandleDeadWorker | src/chronos/master/scheduler/failure_detector.py:69-129 | marks the worker dead and handles all its scheduled and running tasks in query order |
| FailureDetectors.FailureDetector.CheckAllWorkers | src/chronos/master/scheduler/failure_detector.py:55-67 | checks all active workers in one transaction; an exception rolls back the tables and not Redis |
| BatchRows.PlanIsSound | src/chronos/master/scheduler/preemption.py:72-135 | a plan made from the query evicts only tasks running on one active worker, below the task's priority, none twice, and makes room there |
| BatchRows.ExecutePlanCapacity | src/chronos/master/scheduler/preemption.py:148-173 | the plan's worker ends with what it had plus the victims' requests minus the task's, at or above zero; no other worker's capacity moves |
| BatchOutcome.PlanExecutionAchieves | src/chronos/master/scheduler/preemption.py:137-175 | the task is scheduled on the plan's active worker and in its list; each victim had strictly lower priority and is either pending, unassigned, queued and charged one retry, or stays PREEMPTED with none left |
| BatchOutcome.VictimsAreSignalled | src/chronos/master/scheduler/preemption.py:143-146 | the worker's preemption list gains exactly the victims, in order |
| TurnEffects.EvictedTasksAreSignalled | src/chronos/master/scheduler/preemption.py:143-146 | when a batch ends every task it evicted is in the preemption list of the worker it ran on, and no earlier signal is lost or moved |
| BatchOutcome.PlanEvictsWhenSnapshotIsCurrent | src/chronos/master/scheduler/scheduler_loop.py:173-179 | when spread has failed on capacities equal to the stored ones, every plan evicts at least one task |
| PoppedTasks.PendingIsScheduledOrQueued | src/chronos/master/scheduler/scheduler_loop.py:151-182 | a task pending when popped ends in exactly one way: scheduled, out of the queue and in the list of its active worker; or pending, back in the queue at its priority, and fitting on no worker of the final snapshot |
| PoppedTasks.OtherIsDropped | src/chronos/master/scheduler/scheduler_loop.py:159-171 | a popped id that is neither pending nor running, or is unknown, is dropped: its row stays and it is out of the queue, whatever else the batch pops; so is a running one when no worker is active |
| PoppedTasks.RunningIsDroppedOrEvicted | src/chronos/master/scheduler/scheduler_loop.py:168-182 | a task running when popped: dropped unless some turn evicts it; it ends SCHEDULED if and only if an earlier turn evicted it with retries left and its own turn found a place or a plan, and it ends in the queue if and only if it was evicted with retries left |
| Examples.PoppedRunningTaskCanEndScheduledAndQueued | src/chronos/master/scheduler/scheduler_loop.py:168-182 | a concrete batch in which a popped running task ends scheduled and still queued |
| Examples.StaleEntryWithoutFault | src/chronos/master/scheduler/failure_detector.py:92-98 | a concrete run without Redis faults that leaves a running task in the queue: an aborted failure check, then a RUNNING report |
| PoppedTasks.ScheduledIsNeverVictim | src/chronos/master/scheduler/preemption.py:82-88 | no turn of a batch touches a row that is neither pending nor running, so what the batch scheduled it does not evict |
| BatchOutcome.FittingTaskIsSpread | src/chronos/master/scheduler/scheduler_loop.py:206-221 | a pending task that fits somewhere goes to the spread choice of the snapshot, that entry alone gives up the request, and no task is evicted |
| BatchOutcome.EvictionNeedsFailedSpread | src/chronos/master/scheduler/scheduler_loop.py:173-179 | a turn evicts a task only for a pending one of strictly higher priority that fits on no worker of the snapshot |
| Recovery.BatchFollowsPriority | src/chronos/master/scheduler/scheduler_loop.py:149-168 | after any run whose faults leave no wrong score, a batch considers tasks by descending priority, ties by id, and leaves nothing queued that outranks what it popped |
| Recovery.RunKeepsScores | src/chronos/redis_client/priority_queue.py:16-17 | over such runs every queue entry of a known task carries minus that task's priority |
| Recovery.LossIsHarmless | src/chronos/redis_client/priority_queue.py:16-27 | losing queue entries is such a fault |
| Recovery.CrashIsHarmless | src/chronos/master/scheduler/scheduler_loop.py:149-182 | so is a batch that crashes after any number of its turns: the popped ids are gone, the tables roll back, and what was pushed stays |
| Recovery.PendingPassRepairsRun | src/chronos/master/scheduler/scheduler_loop.py:67-83 | after any run with such faults, one pending pass puts every pending task in the queue at its priority, and there it stays through every later run without faults |
| Overcommit.BatchOvercommitBound | src/chronos/master/scheduler/scheduler_loop.py:155-227 | a batch leaves every worker's stored CPU and memory at or above minus the absolute value of what they were when it began |
| Overcommit.TurnStaysNonNegativeExactly | src/chronos/master/scheduler/scheduler_loop.py:219-227 | from non-negative capacities, a turn takes a worker below zero if and only if it places a task on a worker whose stored capacity does not cover the request |
| Overcommit.BatchStaysNonNegativeExactly | src/chronos/master/scheduler/scheduler_loop.py:168-182 | from non-negative capacities, no worker is below zero during or after a batch if and only if each of its spread placements goes to a worker whose stored capacity covers the request |
| Overcommit.CleanBatchStaysNonNegative | src/chronos/master/scheduler/scheduler_loop.py:168-182 | a batch in which no spread placement follows a preemption keeps all capacities at or above zero throughout |
| Examples.BatchCanOvercommit | src/chronos/master/scheduler/preemption.py:148-173 | a concrete batch that pops two queued tasks and ends with one CPU and one gigabyte less than nothing free |
| Runs.RunKeepsRows | src/chronos/master/scheduler/scheduler_loop.py:184-217 | over every run, with any Redis faults: a live task is assigned to an existing ACTIVE worker, a pending one to none, and a task rests in FAILED or PREEMPTED only with its retries used up |
| Runs.InactiveWorkersAreIdle | src/chronos/master/scheduler/scheduler_loop.py:100-110 | over every run a worker that is not active owns no live task, and every scheduled task names an active worker: the reset branch of the scheduled pass is unreachable |
| Runs.LedgerStep | src/chronos/master/api/workers.py:127-133 | total = free + held by live tasks + leak: every step but cancellation, committed death and registration keeps the leak; those change it by exactly the requests concerned |
| Runs.LedgerOverRuns | src/chronos/master/scheduler/preemption.py:148-173 | over any run the leak of a worker is what it was plus the sum of those changes |
| HandlerFacts.CancelLeak | src/chronos/master/services/task_service.py:136-138 | cancelling a live task leaks exactly its request on its worker |
| HandlerFacts.CommittedLeak | src/chronos/master/scheduler/failure_detector.py:75-117 | a committed death leaks exactly what the worker's live tasks held |
| HandlerFacts.RegisterLeak | src/chronos/master/services/worker_service.py:28-34 | registration makes the leak minus the load: at or above zero if and only if the worker has no live task, and then zero |
| CapacityBounds.RunOvercommitBound | src/chronos/master/scheduler/scheduler_loop.py:155-227 | over every run: free capacity stays between minus and plus the total and what the worker's last registration found in use, and live tasks never hold more than twice that sum |
| CapacityBounds.QuietRunStaysBounded | src/chronos/master/scheduler/scheduler_loop.py:155-227 | over every run whose registrations find no live task the totals alone are the bound: free capacity between minus the total and the total, live tasks at most twice the total |
| CapacityBounds.NewClusterIsBounded | src/chronos/master/scheduler/scheduler_loop.py:155-227 | the bound of every run, from an empty database and any Redis content |
| CapacityBounds.QuietRunsStayBoundedExactly | src/chronos/master/services/worker_service.py:28-34 | every continuation without such registrations keeps all workers bounded by their totals if and only if free plus held is at most the total and free at least minus the total on every worker |
| CapacityBounds.RegistrationKeepsBoundsExactly | src/chronos/master/services/worker_service.py:28-34 | right after a registration the workers are bounded by their totals if and only if twice the new total covers what the worker's live tasks hold; they stay so in every continuation whose registrations find no live task if and only if this one found none |
| Examples.RestartBreaksBounds | src/chronos/master/services/worker_service.py:28-34 | a concrete restart at the old size with one task still running: when that task completes, more is free than the total |
| Examples.ShrunkRestartBreaksBounds | src/chronos/master/services/worker_service.py:28-34 | a concrete restart at a smaller size: the running task at once holds more than twice the total |
| CapacityBounds.RunStaysNonNegativeExactly | src/chronos/master/scheduler/scheduler_loop.py:168-227 | from non-negative capacities, free capacity is never below zero in a run, nor inside its batches, if and only if every spread placement goes to a worker whose stored capacity covers it |
| CapacityBounds.CleanRunStaysNonNegative | src/chronos/master/scheduler/scheduler_loop.py:168-182 | so it is over runs in which no batch places by spread after preempting |
| NoLostWork.BatchKeepsQueue | src/chronos/master/scheduler/scheduler_loop.py:149-182 | a batch, with or without active workers, keeps every pending task in the queue at its priority, evicted tasks included |
| NoLostWork.RunLosesNoWork | src/chronos/master/api/workers.py:193-199 | over every run without Redis faults each pending task is in the queue with score minus its priority after every step |
| NoLostWork.PendingPassRebuildsQueue | src/chronos/master/scheduler/scheduler_loop.py:67-83 | one pending pass on arbitrary Redis content: tables unchanged, every pending task queued, existing entries keep their scores, new ones are right, all are right if and only if the existing ones were, and the pass is idempotent |
| NoLostWork.RedisIsReconstructable | README.md:385 | after both passes, from the tables of any run and arbitrary Redis content: tables unchanged, every pending task queued, every scheduled task in its active worker's list, no entry lost or rescored |
| FailureFacts.HandleOrphansExactly | src/chronos/master/scheduler/failure_detector.py:92-129 | one worker's orphans pass if and only if each was scheduled with retries left, or was running without any and either never retried or preceded by an orphan that was queued again |
| FailureFacts.CheckIsAllOrNothing | src/chronos/master/scheduler/failure_detector.py:55-67 | the check commits if and only if the orphans of every silent worker pass; then exactly the silent workers are dead and their live tasks queued again or failed; otherwise the tables are unchanged and Redis only gained entries of scheduled tasks |
| HandlerEffects.CommittedCheckEffect | src/chronos/master/scheduler/failure_detector.py:55-117 | a committed check row by row: which workers change and how, what each orphan becomes, which entries are made, and that nothing else changes |
| FailureFacts.CommitLeavesNoOrphans | src/chronos/master/scheduler/failure_detector.py:64-97 | after a commit every silent worker is DEAD without a live task and every other active worker is untouched |
| CheckOrders.SomeCheckCommits | src/chronos/master/scheduler/failure_detector.py:55-129 | the whole check can commit, in some order of the rows, if and only if on every silent worker each orphan can be handled and, if failing one reads `old_state`, some orphan of that worker assigns it |
| CheckOrders.EveryCheckCommits | src/chronos/master/scheduler/failure_detector.py:55-129 | it commits in every order of the rows if and only if on every silent worker each orphan can be handled and failing none of them reads `old_state` |
| CheckOrders.OneTaskBlocksEveryCheck | src/chronos/master/scheduler/failure_detector.py:92-117 | one live task of a silent worker that cannot be handled, such as a running one with retries left, makes every check leave all tables as they were |
| Examples.RunningOrphanBlocksCheck | src/chronos/master/scheduler/failure_detector.py:93-95 | a concrete check that aborts on a running orphan in either order of the rows |
| Examples.RowOrderDecides | src/chronos/master/scheduler/failure_detector.py:92-129 | concrete tables on which the same check commits in one order of the rows and aborts in the other |
| Progress.StepAdvances | src/chronos/state_machine/transitions.py:7-20 | at every step each task row is left alone or 3 * (max_retries - retry_count) + rank(state) strictly falls, and each dispatch uses up one of the dispatches left |
| Progress.TaskIsBounded | src/chronos/master/api/workers.py:193-196 | from its creation a task is dispatched at most max_retries + 1 times and at most 3 * max_retries + 3 steps change its row, over every run |
| Progress.NoLivelock | src/chronos/master/scheduler/preemption.py:153-156 | while no task is created, at most the sum of those amounts over all tasks steps change any task row, however tasks preempt each other and workers die |
| Progress.FinishedTasksStay | src/chronos/state_machine/transitions.py:16-20 | over every run a completed, finally failed, finally preempted or cancelled task is never touched again |
| CommandLine.ParseCommand | dashboard/src/components/tasks/TaskSubmitForm.tsx:387-411 | the loop computes the parse of its input and yields no empty argument |
| CommandGrammar.WordsParse | dashboard/src/components/tasks/TaskSubmitForm.tsx:394-409 | words made of bare, single-quoted and double-quoted text of any length, any spaces around and at least one between them, parse to their contents, the empty ones dropped |
| CommandGrammar.UnclosedQuoteParses | dashboard/src/components/tasks/TaskSubmitForm.tsx:394-410 | a quote never closed takes the rest of the input into the last argument |
| CommandGrammar.EveryInputIsALine | dashboard/src/components/tasks/TaskSubmitForm.tsx:387-411 | every input has one of these two forms and parses to what the form stands for, so parsing is determined on every input |
| CommandGrammar.JoinTypesWords | dashboard/src/components/tasks/TaskSubmitForm.tsx:72 | filling the field types the arguments with exactly one space between them |
| CommandLine.ParseYieldsNoEmptyArgument | dashboard/src/components/tasks/TaskSubmitForm.tsx:400-409 | parsing never yields an empty argument, on any input |
| CommandLine.RoundTripExactly | dashboard/src/components/tasks/TaskSubmitForm.tsx:72 | joining arguments with spaces and parsing gives them back if and only if every argument is non-empty and free of spaces and quotes |
| CommandLine.ParseIsOntoNonEmptyLists | dashboard/src/components/tasks/TaskSubmitForm.tsx:387-411 | a list is the parse of some input if and only if it has no empty argument, and a quoting printer finds such an input |

## Left out

- Leader election, the distributed lock and asyncio interleavings inside a handler: one scheduler runs at a time and each handler is atomic on the tables.
- The heartbeat endpoint and `update_worker_resources`, which overwrite capacity from outside; whether a worker is alive is an arbitrary parameter of the failure check.
- `WorkerTaskApi.InternalTasks.UpdateTaskState`: in runs only RUNNING is reported, as the worker does; the method itself takes any state.
- Polling of preemption signals and the tracking of active tasks in Redis: nothing on the master reads them.
- Size and peek of the queue, pagination, timestamps, results, container fields, events, metrics, logging, schemas and migrations.
- Docker execution, log capture, resource reporting of the worker, the Kubernetes operator and the rest of the dashboard.
- Rounding: resources are reals. Negative zero and overflow do not arise.
- Bounds of the request schemas other than positive resources and non-negative retry limits.
- The trimming test before the command field is parsed.

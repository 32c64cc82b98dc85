// What one scheduling batch does to the two stores (`_schedule_batch`, `_try_schedule_task` in
// src/chronos/master/scheduler/scheduler_loop.py; `_execute_preemption` in preemption.py).
module Batching {
  import opened Types
  import opened Transitions
  import opened PriorityQueues
  import opened BinPacking
  import opened Preemption
  import opened Handlers

  ghost function ActiveWorkers(db: Tables): set<Id> {
    set w | w in db.workers && db.workers[w].status == Active
  }

  function Snapshot(db: Tables, rows: seq<Id>): seq<WorkerCapacity>
    requires forall k :: 0 <= k < |rows| ==> rows[k] in db.workers
  {
    seq(|rows|, k requires 0 <= k < |rows| => WorkerCapacity(rows[k], db.workers[rows[k]].available))
  }

  // ---------- The preemption query ----------

  ghost predicate IsRunningRow(db: Tables, w: Id, r: RunningTask) {
    && r.id in db.tasks
    && var t := db.tasks[r.id];
       t.state == Running && t.worker == Some(w) && t.priority == r.priority && t.request == r.request
  }

  ghost predicate ListsRunning(db: Tables, w: Id, running: seq<RunningTask>) {
    && (forall i, j :: 0 <= i < j < |running| ==> running[i].id != running[j].id)
    && (forall k :: 0 <= k < |running| ==> IsRunningRow(db, w, running[k]))
    && (forall id :: id in db.tasks && db.tasks[id].state == Running && db.tasks[id].worker == Some(w) ==>
          RunningTask(id, db.tasks[id].priority, db.tasks[id].request) in running)
  }

  ghost predicate ListsWorker(db: Tables, w: WorkerWithTasks) {
    && w.workerId in ActiveWorkers(db)
    && w.available == db.workers[w.workerId].available
    && ListsRunning(db, w.workerId, w.running)
  }

  /** Every active worker once, each with all its running tasks, in whatever order the database chose. */
  ghost predicate IsQueryResult(db: Tables, workers: seq<WorkerWithTasks>) {
    && (forall i, j :: 0 <= i < j < |workers| ==> workers[i].workerId != workers[j].workerId)
    && (forall k :: 0 <= k < |workers| ==> ListsWorker(db, workers[k]))
    && (forall w :: w in ActiveWorkers(db) ==> exists k :: 0 <= k < |workers| && workers[k].workerId == w)
  }

  // ---------- Steps inside a batch ----------

  /** The task is scheduled on the worker, whose stored capacity shrinks by the request. */
  function Dispatch(s: State, id: Id, w: Id): State
    requires id in s.db.tasks
  {
    var t := s.db.tasks[id];
    State(Adjust(WithTask(s.db, id, t.(state := Scheduled, worker := Some(w))), Some(w), Negate(t.request)),
          s.redis.(assignments := PushTo(s.redis.assignments, w, id)))
  }

  /** The victim is stopped, its capacity returned, and it is queued again if it has retries left. */
  function Evict(s: State, w: Id, id: Id): State {
    if id !in s.db.tasks then s
    else
      var t := s.db.tasks[id].(state := Preempted);
      State(Adjust(WithTask(s.db, id, Retry(t)), Some(w), t.request),
            EnqueueIfRetried(s.redis.(preempts := PushTo(s.redis.preempts, w, id)), id, t))
  }

  function EvictAll(s: State, w: Id, victims: seq<RunningTask>): State {
    if victims == [] then s
    else Evict(EvictAll(s, w, victims[..|victims| - 1]), w, victims[|victims| - 1].id)
  }

  lemma {:induction false} EvictAllKeepsRows(s: State, w: Id, victims: seq<RunningTask>)
    ensures EvictAll(s, w, victims).db.tasks.Keys == s.db.tasks.Keys
    ensures EvictAll(s, w, victims).db.workers.Keys == s.db.workers.Keys
  {
    if victims != [] {
      EvictAllKeepsRows(s, w, victims[..|victims| - 1]);
    }
  }

  function ExecutePlan(s: State, plan: PreemptionPlan, id: Id): State
    requires id in s.db.tasks
  {
    EvictAllKeepsRows(s, plan.workerId, plan.victims);
    Dispatch(EvictAll(s, plan.workerId, plan.victims), id, plan.workerId)
  }

  // ---------- The batch ----------

  /** The stores, and the capacities the batch places against. */
  datatype Batch = Batch(s: State, snapshot: seq<WorkerCapacity>)

  predicate IsPending(db: Tables, id: Id) {
    id in db.tasks && db.tasks[id].state == Pending
  }

  /** One popped id: skipped unless pending; else placed by spread, else by preemption, else queued again. */
  function Turn(b: Batch, id: Id, workers: seq<WorkerWithTasks>): Batch {
    if !IsPending(b.s.db, id) then b
    else
      var t := b.s.db.tasks[id];
      match SpreadSelect(t.request, b.snapshot)
      case Some(k) => Batch(Dispatch(b.s, id, b.snapshot[k].workerId), Reserve(t.request, b.snapshot, k))
      case None =>
        match BestPlan(t.request, t.priority, workers)
        case Some(plan) => b.(s := ExecutePlan(b.s, plan, id))
        case None => b.(s := b.s.(redis := Enqueue(b.s.redis, id, t)))
  }

  /** The turns of the popped ids, each with the rows the preemption query returned in it. */
  function Turns(b: Batch, ids: seq<Id>, queries: seq<seq<WorkerWithTasks>>): Batch
    requires |queries| == |ids|
  {
    if ids == [] then b
    else Turn(Turns(b, ids[..|ids| - 1], queries[..|ids| - 1]), ids[|ids| - 1], queries[|ids| - 1])
  }

  ghost predicate AsksForPlan(b: Batch, id: Id) {
    IsPending(b.s.db, id) && NothingFits(b.s.db.tasks[id].request, b.snapshot)
  }

  ghost predicate LegalTurn(b: Batch, id: Id, workers: seq<WorkerWithTasks>) {
    AsksForPlan(b, id) ==> IsQueryResult(b.s.db, workers)
  }

  ghost predicate LegalTurns(b: Batch, ids: seq<Id>, queries: seq<seq<WorkerWithTasks>>) {
    && |queries| == |ids|
    && (ids != [] ==>
          LegalTurns(b, ids[..|ids| - 1], queries[..|ids| - 1]) &&
          LegalTurn(Turns(b, ids[..|ids| - 1], queries[..|ids| - 1]), ids[|ids| - 1], queries[|ids| - 1]))
  }

  /** With no active worker, the popped tasks that are pending go back to the queue. */
  function Requeue(s: State, ids: seq<Id>): State {
    if ids == [] then s
    else
      var before, id := Requeue(s, ids[..|ids| - 1]), ids[|ids| - 1];
      if IsPending(s.db, id) then before.(redis := Enqueue(before.redis, id, s.db.tasks[id])) else before
  }

  ghost function Popped(s: State, count: nat): State {
    s.(redis := s.redis.(queue := Without(s.redis.queue, PopBatch(s.redis.queue, count))))
  }

  ghost predicate LegalBatch(s: State, count: nat, rows: seq<Id>, queries: seq<seq<WorkerWithTasks>>) {
    && Lists(rows, ActiveWorkers(s.db))
    && (rows != [] ==>
          LegalTurns(Batch(Popped(s, count), Snapshot(s.db, rows)), PopBatch(s.redis.queue, count), queries))
  }

  /** The whole batch; `rows` is the order in which the active workers were read. */
  ghost function ScheduleBatch(s: State, count: nat, rows: seq<Id>, queries: seq<seq<WorkerWithTasks>>): State
    requires LegalBatch(s, count, rows, queries)
  {
    var ids := PopBatch(s.redis.queue, count);
    if rows == [] then Requeue(Popped(s, count), ids)
    else Turns(Batch(Popped(s, count), Snapshot(s.db, rows)), ids, queries).s
  }
}

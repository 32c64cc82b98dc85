// No pending task is lost: where the ids a batch pops end up, and how Redis is rebuilt.
module NoLostWork {
  import opened Types
  import opened PriorityQueues
  import opened BinPacking
  import opened Preemption
  import opened Batching
  import opened Reconciliation
  import opened Invariants
  import opened BatchRows
  import opened FailureFacts
  import opened Runs

  predicate QueuedRight(s: State, id: Id)
    requires id in s.db.tasks
  {
    id in s.redis.queue && s.redis.queue[id] == -s.db.tasks[id].priority
  }

  /** Every pending task outside `rest` is in the queue at its own priority. */
  ghost predicate QueuedExcept(s: State, rest: set<Id>) {
    forall id :: IsPending(s.db, id) && id !in rest ==> QueuedRight(s, id)
  }

  ghost predicate QueueOk(s: State) {
    QueuedExcept(s, {})
  }

  /** Every queue entry of a known task carries that task's priority. */
  ghost predicate WellScored(s: State) {
    forall id :: id in s.redis.queue && id in s.db.tasks ==> s.redis.queue[id] == -s.db.tasks[id].priority
  }

  ghost predicate IsRunning(db: Tables, id: Id) {
    id in db.tasks && db.tasks[id].state == Running
  }

  // ---------- What a turn does to the queue ----------

  /** Whether and at what score the id is queued has not changed. */
  ghost predicate SameEntry(b: State, after: State, id: Id) {
    && (id in after.redis.queue <==> id in b.redis.queue)
    && (id in b.redis.queue ==> after.redis.queue[id] == b.redis.queue[id])
  }

  /** The entries of all tasks stay, except of those that were running and wait now, and of the turn's own id. */
  ghost predicate QueueKept(b: State, after: State, id: Id) {
    forall v :: v != id && !(IsRunning(b.db, v) && IsPending(after.db, v)) ==> SameEntry(b, after, v)
  }

  /** A running task that a step makes pending is queued at its priority. */
  ghost predicate EvictedQueued(b: State, after: State) {
    forall v :: IsRunning(b.db, v) && IsPending(after.db, v) ==> QueuedRight(after, v)
  }

  lemma VictimsRun(db: Tables, w: Id, victims: seq<RunningTask>)
    requires AreVictims(db, w, victims)
    ensures forall v :: IsVictim(victims, v) ==> IsRunning(db, v)
  {
    forall v | IsVictim(victims, v) ensures IsRunning(db, v) {
      var k :| 0 <= k < |victims| && victims[k].id == v;
      assert IsRunningRow(db, w, victims[k]);
    }
  }

  /** The entry of a victim with retries left is made by its eviction; all others stay. */
  lemma PlanEntry(s: State, plan: PreemptionPlan, id: Id, v: Id)
    requires RowsOk(s.db) && IsPending(s.db, id) && PlanFits(s.db, s.db.tasks[id], plan)
    ensures var after := ExecutePlan(s, plan, id);
            if IsVictim(plan.victims, v) && v in s.db.tasks && HasRetriesLeft(s.db.tasks[v])
            then IsPending(after.db, v) && QueuedRight(after, v)
            else SameEntry(s, after, v) && !(IsRunning(s.db, v) && IsPending(after.db, v))
  {
    PlanSparesTheTask(s, plan, id);
    VictimsRun(s.db, plan.workerId, plan.victims);
    EvictAllQueue(s, plan.workerId, plan.victims);
    ExecutePlanRows(s, plan, id);
    assert ExecutePlan(s, plan, id).redis.queue == EvictAll(s, plan.workerId, plan.victims).redis.queue;
  }

  lemma PlanQueue(s: State, plan: PreemptionPlan, id: Id)
    requires RowsOk(s.db) && IsPending(s.db, id) && PlanFits(s.db, s.db.tasks[id], plan)
    ensures var after := ExecutePlan(s, plan, id);
            && QueueKept(s, after, id) && EvictedQueued(s, after)
            && SameEntry(s, after, id)
            && after.redis.assignments == PushTo(s.redis.assignments, plan.workerId, id)
  {
    var after := ExecutePlan(s, plan, id);
    PlanSparesTheTask(s, plan, id);
    EvictAllQueue(s, plan.workerId, plan.victims);
    PlanEntry(s, plan, id, id);
    forall v | !(IsRunning(s.db, v) && IsPending(after.db, v)) ensures SameEntry(s, after, v) {
      PlanEntry(s, plan, id, v);
    }
    forall v | IsRunning(s.db, v) && IsPending(after.db, v) ensures QueuedRight(after, v) {
      PlanEntry(s, plan, id, v);
    }
  }

  /** The turn's own id: scheduled and handed to an active worker, or queued again because it fits
      on no worker and no plan exists. */
  ghost predicate Handled(b: Batch, after: Batch, id: Id)
    requires id in b.s.db.tasks && id in after.s.db.tasks
  {
    var t := b.s.db.tasks[id];
    var t' := after.s.db.tasks[id];
    || (t'.state == Scheduled && SameEntry(b.s, after.s, id) && WasAssigned(after.s, id))
    || (t' == t && QueuedRight(after.s, id) && NothingFits(t.request, after.snapshot))
  }

  /** The task names an active worker, and that worker's list has it. */
  ghost predicate WasAssigned(s: State, id: Id)
    requires id in s.db.tasks
  {
    exists w :: w in ActiveWorkers(s.db) && s.db.tasks[id].worker == Some(w) && id in ListOf(s.redis.assignments, w)
  }

  lemma TurnQueue(b: Batch, id: Id, workers: seq<WorkerWithTasks>)
    requires BatchOk(b) && LegalTurn(b, id, workers)
    ensures var after := Turn(b, id, workers);
            && QueueKept(b.s, after.s, id) && EvictedQueued(b.s, after.s)
  {
    if IsPending(b.s.db, id) {
      var t := b.s.db.tasks[id];
      var choice := SpreadSelect(t.request, b.snapshot);
      if choice.Some? {
        DispatchRows(b.s, id, b.snapshot[choice.value].workerId);
      } else {
        PlanIsSound(b.s.db, t, workers);
        var plan := BestPlan(t.request, t.priority, workers);
        if plan.Some? {
          PlanQueue(b.s, plan.value, id);
        }
      }
    }
  }

  lemma PushedIsListed(lists: map<Id, seq<Id>>, w: Id, id: Id)
    ensures id in ListOf(PushTo(lists, w, id), w)
    ensures forall v, i :: i in ListOf(lists, v) ==> i in ListOf(PushTo(lists, w, id), v)
  {
  }

  lemma TurnHandlesItsTask(b: Batch, id: Id, workers: seq<WorkerWithTasks>)
    requires BatchOk(b) && LegalTurn(b, id, workers) && IsPending(b.s.db, id)
    ensures var after := Turn(b, id, workers);
            id in after.s.db.tasks && Handled(b, after, id)
  {
    var t := b.s.db.tasks[id];
    var choice := SpreadSelect(t.request, b.snapshot);
    var after := Turn(b, id, workers);
    if choice.Some? {
      var w := b.snapshot[choice.value].workerId;
      DispatchRows(b.s, id, w);
      PushedIsListed(b.s.redis.assignments, w, id);
      ActiveStays(b.s.db, after.s.db, w);
    } else {
      PlanIsSound(b.s.db, t, workers);
      var plan := BestPlan(t.request, t.priority, workers);
      if plan.Some? {
        ExecutePlanRows(b.s, plan.value, id);
        PlanQueue(b.s, plan.value, id);
        PushedIsListed(b.s.redis.assignments, plan.value.workerId, id);
        ActiveStays(b.s.db, after.s.db, plan.value.workerId);
      }
    }
  }

  lemma TurnKeepsQueued(b: Batch, id: Id, workers: seq<WorkerWithTasks>, rest: set<Id>)
    requires BatchOk(b) && LegalTurn(b, id, workers) && QueuedExcept(b.s, rest)
    ensures QueuedExcept(Turn(b, id, workers).s, rest - {id})
  {
    var after := Turn(b, id, workers);
    TurnRows(b, id, workers);
    TurnQueue(b, id, workers);
    forall v | IsPending(after.s.db, v) && v !in rest - {id} ensures QueuedRight(after.s, v) {
      assert TurnMoves(b.s.db.tasks[v], after.s.db.tasks[v]);
      if v == id && IsPending(b.s.db, id) {
        TurnHandlesItsTask(b, id, workers);
      } else if IsPending(b.s.db, v) {
        assert QueuedRight(b.s, v);
      }
    }
  }

  function IdSet(ids: seq<Id>): set<Id> {
    set id | id in ids
  }

  lemma {:induction false} TurnsKeepQueued(b: Batch, ids: seq<Id>, queries: seq<seq<WorkerWithTasks>>, rest: set<Id>)
    requires BatchOk(b) && LegalTurns(b, ids, queries) && QueuedExcept(b.s, rest)
    ensures QueuedExcept(Turns(b, ids, queries).s, rest - IdSet(ids))
  {
    if ids == [] {
      assert rest - IdSet(ids) == rest;
    } else {
      var n := |ids| - 1;
      TurnsKeepQueued(b, ids[..n], queries[..n], rest);
      TurnsRows(b, ids[..n], queries[..n]);
      TurnKeepsQueued(Turns(b, ids[..n], queries[..n]), ids[n], queries[n], rest - IdSet(ids[..n]));
      assert ids == ids[..n] + [ids[n]];
      assert rest - IdSet(ids) == rest - IdSet(ids[..n]) - {ids[n]};
    }
  }

  lemma {:induction false} RequeueQueues(s: State, ids: seq<Id>, rest: set<Id>)
    requires QueuedExcept(s, rest)
    ensures QueuedExcept(Requeue(s, ids), rest - IdSet(ids))
    ensures forall id :: id in ids && IsPending(s.db, id) ==> QueuedRight(s.(redis := Requeue(s, ids).redis), id)
  {
    RequeueKeepsTables(s, ids);
    if ids == [] {
      assert rest - IdSet(ids) == rest;
    } else {
      var n := |ids| - 1;
      RequeueQueues(s, ids[..n], rest);
      RequeueKeepsTables(s, ids[..n]);
      assert ids == ids[..n] + [ids[n]];
    }
  }

  /** A batch, with or without active workers, loses no pending task. */
  lemma BatchKeepsQueue(s: State, count: nat, rows: seq<Id>, queries: seq<seq<WorkerWithTasks>>)
    requires RowsOk(s.db) && QueueOk(s) && LegalBatch(s, count, rows, queries)
    ensures QueueOk(ScheduleBatch(s, count, rows, queries))
  {
    var ids := PopBatch(s.redis.queue, count);
    forall v | IsPending(s.db, v) && v !in IdSet(ids) ensures QueuedRight(Popped(s, count), v) {
      assert QueuedRight(s, v);
    }
    assert IdSet(ids) - IdSet(ids) == {};
    if rows == [] {
      RequeueQueues(Popped(s, count), ids, IdSet(ids));
    } else {
      SnapshotIsOk(s, rows, count);
      TurnsKeepQueued(Batch(Popped(s, count), Snapshot(s.db, rows)), ids, queries, IdSet(ids));
    }
  }

  // ---------- Every step, and every run without a Redis fault ----------

  lemma CommitKeepsQueue(s: State, after: State, dead: set<Id>)
    requires QueueOk(s) && Committed(s, after, dead)
    ensures QueueOk(after)
  {
    forall v | IsPending(after.db, v) ensures QueuedRight(after, v) {
      var t := s.db.tasks[v];
      if !OrphanOf(t, dead) {
        assert QueuedRight(s, v);
      }
    }
  }

  lemma AbortKeepsQueue(s: State, after: State, dead: set<Id>)
    requires QueueOk(s) && after.db == s.db && QueueGrew(s.db.tasks, dead, s.redis, after.redis)
    ensures QueueOk(after)
  {
    forall v | IsPending(after.db, v) ensures QueuedRight(after, v) {
      assert QueuedRight(s, v);
    }
  }

  lemma HandlerKeepsQueue(s: State, e: Event)
    requires QueueOk(s) && Enabled(s, e)
    requires || e.Create? || e.ReportRunning? || e.Complete? || e.Fail? || e.Cancel?
             || e.Register? || e.PendingPass? || e.Poll?
    ensures QueueOk(Apply(s, e))
  {
    var after := Apply(s, e);
    forall v | IsPending(after.db, v) ensures QueuedRight(after, v) {
      if IsPending(s.db, v) {
        assert QueuedRight(s, v);
      }
    }
  }

  lemma {:induction false} ReassignKeepsQueued(db: Tables, redis: Redis, rows: seq<Id>)
    ensures forall id :: id in redis.queue ==> id in ReassignAll(db, redis, rows).queue
    ensures forall id :: id in ReassignAll(db, redis, rows).queue ==>
              || (id in redis.queue && ReassignAll(db, redis, rows).queue[id] == redis.queue[id])
              || (id in db.tasks && ReassignAll(db, redis, rows).queue[id] == -db.tasks[id].priority)
  {
    if rows != [] {
      ReassignKeepsQueued(db, redis, rows[..|rows| - 1]);
    }
  }

  lemma StepKeepsQueue(s: State, e: Event)
    requires RowsOk(s.db) && QueueOk(s) && Enabled(s, e) && !e.RedisFault?
    ensures QueueOk(Apply(s, e))
  {
    match e
    case RunBatch(count, rows, queries) => BatchKeepsQueue(s, count, rows, queries);
    case CheckFailures(rows, alive, orphans) =>
      CheckIsAllOrNothing(s, rows, alive, orphans);
      if AllWorkersPass(s.db.tasks, rows, alive, orphans) {
        CommitKeepsQueue(s, Apply(s, e), DeadAmong(rows, alive));
      } else {
        AbortKeepsQueue(s, Apply(s, e), DeadAmong(rows, alive));
      }
    case ScheduledPass(rows) =>
      ReassignKeepsQueued(s.db, s.redis, rows);
      forall v | IsPending(s.db, v) ensures QueuedRight(Apply(s, e), v) {
        assert QueuedRight(s, v);
      }
    case _ => HandlerKeepsQueue(s, e);
  }

  ghost predicate FaultFree(events: seq<Event>) {
    forall k :: 0 <= k < |events| ==> !events[k].RedisFault?
  }

  /** Without Redis faults every pending task is in the queue, at its own priority, after every step:
      retried, preempted and orphaned tasks included, and aborted failure checks in between. */
  lemma {:induction false} RunLosesNoWork(s: State, events: seq<Event>)
    requires RowsOk(s.db) && QueueOk(s) && FaultFree(events)
    ensures QueueOk(Exec(s, events))
  {
    if events != [] {
      var front, e := events[..|events| - 1], events[|events| - 1];
      RunLosesNoWork(s, front);
      RunKeepsRows(s, front);
      if Enabled(Exec(s, front), e) {
        StepKeepsQueue(Exec(s, front), e);
      }
    }
  }

  // ---------- Rebuilding Redis ----------

  /** One pending pass on arbitrary Redis content: the tables stay, every pending task is queued,
      entries that were there keep their scores, so all are right afterwards exactly when those were,
      and a second pass changes nothing. */
  lemma PendingPassRebuildsQueue(s: State)
    ensures var after := ReconcilePending(s);
            && after.db == s.db
            && (forall id :: IsPending(s.db, id) ==> id in after.redis.queue)
            && (forall id :: id in s.redis.queue ==>
                  id in after.redis.queue && after.redis.queue[id] == s.redis.queue[id])
            && (forall id :: id in after.redis.queue && id !in s.redis.queue ==>
                  IsPending(s.db, id) && QueuedRight(after, id))
            && (WellScored(s) ==> WellScored(after) && QueueOk(after))
            && (QueueOk(after) <==> forall id :: IsPending(s.db, id) && id in s.redis.queue ==> QueuedRight(s, id))
            && ReconcilePending(after) == after
  {
    var after := ReconcilePending(s);
    assert ReconcilePending(after).redis.queue == after.redis.queue;
  }

  lemma {:induction false} ReassignAllLists(db: Tables, redis: Redis, rows: seq<Id>)
    ensures forall w, i :: i in ListOf(redis.assignments, w) ==>
              i in ListOf(ReassignAll(db, redis, rows).assignments, w)
    ensures forall id, w ::
              (id in rows && id in db.tasks && db.tasks[id].worker == Some(w) && w in ActiveWorkers(db)) ==>
              id in ListOf(ReassignAll(db, redis, rows).assignments, w)
  {
    if rows != [] {
      var n := |rows| - 1;
      var before := ReassignAll(db, redis, rows[..n]);
      ReassignAllLists(db, redis, rows[..n]);
      assert rows == rows[..n] + [rows[n]];
      if rows[n] in db.tasks && db.tasks[rows[n]].worker.Some? {
        PushedIsListed(before.assignments, db.tasks[rows[n]].worker.value, rows[n]);
      }
    }
  }

  lemma ScheduledIsListed(db: Tables, rows: seq<Id>, id: Id)
    requires RowsOk(db) && Lists(rows, AssignedScheduledTasks(db))
    requires id in db.tasks && db.tasks[id].state == Scheduled
    ensures id in rows && db.tasks[id].worker.Some? && db.tasks[id].worker.value in ActiveWorkers(db)
  {
    LiveTaskIsPlaced(db, id);
    assert id in AssignedScheduledTasks(db);
  }

  lemma ListedIsScheduled(db: Tables, rows: seq<Id>, k: nat)
    requires Lists(rows, AssignedScheduledTasks(db)) && k < |rows|
    ensures rows[k] in db.tasks && db.tasks[rows[k]].state == Scheduled
  {
    assert rows[k] in AssignedScheduledTasks(db);
  }

  lemma PassesRebuildRedis(db: Tables, redis: Redis, rows: seq<Id>)
    requires RowsOk(db) && Lists(rows, AssignedScheduledTasks(db))
    ensures var after := ReconcileScheduled(ReconcilePending(State(db, redis)), rows);
            && after.db == db
            && (forall id :: IsPending(db, id) ==> id in after.redis.queue)
            && (forall id :: id in redis.queue ==> id in after.redis.queue && after.redis.queue[id] == redis.queue[id])
            && (forall id :: id in db.tasks && db.tasks[id].state == Scheduled ==> WasAssigned(after, id))
  {
    var mid := ReconcilePending(State(db, redis));
    PendingPassRebuildsQueue(State(db, redis));
    forall k | 0 <= k < |rows|
      ensures rows[k] in db.tasks && db.tasks[rows[k]].worker.Some? ==>
                db.tasks[rows[k]].worker.value in ActiveWorkers(db)
    {
      ListedIsScheduled(db, rows, k);
      ScheduledIsListed(db, rows, rows[k]);
    }
    ReassignOnlyPushes(db, mid.redis, rows);
    forall id | id in db.tasks && db.tasks[id].state == Scheduled
      ensures WasAssigned(ReconcileScheduled(mid, rows), id)
    {
      ScheduledIsListed(db, rows, id);
      ListedOnItsWorker(db, mid.redis, rows, id, db.tasks[id].worker.value);
    }
  }

  /** Both passes, from the tables of any run and whatever Redis then holds: the tables stay, every
      pending task is queued, every scheduled task is in its worker's list, and no queue entry is
      lost or rescored. */
  lemma RedisIsReconstructable(s: State, events: seq<Event>, redis: Redis, rows: seq<Id>)
    requires RowsOk(s.db)
    requires Lists(rows, AssignedScheduledTasks(Exec(s, events).db))
    ensures var db := Exec(s, events).db;
            var after := ReconcileScheduled(ReconcilePending(State(db, redis)), rows);
            && after.db == db
            && (forall id :: IsPending(db, id) ==> id in after.redis.queue)
            && (forall id :: id in redis.queue ==> id in after.redis.queue && after.redis.queue[id] == redis.queue[id])
            && (forall id :: id in db.tasks && db.tasks[id].state == Scheduled ==> WasAssigned(after, id))
  {
    RunKeepsRows(s, events);
    PassesRebuildRedis(Exec(s, events).db, redis, rows);
  }

  lemma ListedOnItsWorker(db: Tables, redis: Redis, rows: seq<Id>, id: Id, w: Id)
    requires id in rows && id in db.tasks && db.tasks[id].worker == Some(w) && w in ActiveWorkers(db)
    ensures WasAssigned(State(db, ReassignAll(db, redis, rows)), id)
  {
    ReassignAllLists(db, redis, rows);
  }

  /** With every named worker active, the scheduled pass leaves the queue alone. */
  lemma {:induction false} ReassignOnlyPushes(db: Tables, redis: Redis, rows: seq<Id>)
    requires forall k :: 0 <= k < |rows| && rows[k] in db.tasks && db.tasks[rows[k]].worker.Some? ==>
               db.tasks[rows[k]].worker.value in ActiveWorkers(db)
    ensures ReassignAll(db, redis, rows).queue == redis.queue
  {
    if rows != [] {
      ReassignOnlyPushes(db, redis, rows[..|rows| - 1]);
    }
  }
}

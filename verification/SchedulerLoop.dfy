// The scheduling batch and the reconciliation passes (src/chronos/master/scheduler/scheduler_loop.py).
module SchedulerLoops {
  import opened Types
  import opened Transitions
  import opened PriorityQueues
  import opened TaskAssignment
  import opened BinPacking
  import opened Preemption
  import opened Handlers
  import opened Batching
  import opened Reconciliation
  import opened Invariants
  import opened BatchRows
  import opened Stores
  import opened PreemptionEngines

  class SchedulerLoop {
    const backend: Backend

    constructor (backend: Backend)
      ensures this.backend == backend
    {
      this.backend := backend;
    }

    method GetAvailableWorkers() returns (snapshot: array<WorkerCapacity>, ghost rows: seq<Id>)
      ensures fresh(snapshot)
      ensures Lists(rows, ActiveWorkers(backend.Db()))
      ensures snapshot[..] == Snapshot(backend.Db(), rows)
    {
      var workers := backend.workers;
      var ids := set w | w in workers && workers[w].status == Active;
      assert ids == ActiveWorkers(backend.Db());
      var order := Rows(ids);
      forall k | 0 <= k < |order| ensures order[k] in workers {
        assert order[k] in ids;
      }
      rows := order;
      snapshot := new WorkerCapacity[|order|](k requires 0 <= k < |order| =>
        WorkerCapacity(order[k], workers[order[k]].available));
    }

    /** Places the task by spread if any snapshot entry has room, and takes the request off both the
        snapshot entry and the stored worker. */
    method TryScheduleTask(taskId: Id, snapshot: array<WorkerCapacity>) returns (scheduled: bool)
      requires IsPending(backend.Db(), taskId) && DistinctIds(snapshot[..])
      modifies backend, backend.assignments, snapshot
      ensures var t := old(backend.tasks[taskId]);
              var choice := SpreadSelect(t.request, old(snapshot[..]));
              && (scheduled <==> choice.Some?)
              && (choice.Some? ==>
                    && backend.View() == Dispatch(old(backend.View()), taskId, old(snapshot[..])[choice.value].workerId)
                    && snapshot[..] == Reserve(t.request, old(snapshot[..]), choice.value))
              && (choice.None? ==> backend.View() == old(backend.View()) && snapshot[..] == old(snapshot[..]))
    {
      var task := backend.tasks[taskId];
      var selected := SpreadSchedule(task.request, snapshot[..]);
      if selected.None? {
        return false;
      }
      var k := selected.value;
      SpreadChoiceIsUnique(task.request, snapshot[..], k, SpreadSelect(task.request, snapshot[..]).value);
      var w := snapshot[k].workerId;
      var moved := TransitionTask(task, Scheduled).value;
      backend.tasks := backend.tasks[taskId := moved.(worker := Some(w))];
      snapshot[k] := snapshot[k].(available := snapshot[k].available.Minus(task.request));
      backend.AddCapacity(Some(w), Negate(task.request));
      backend.assignments.AssignTask(w, taskId);
      return true;
    }

    /** The body of the batch loop: one popped id. */
    method ScheduleOne(taskId: Id, snapshot: array<WorkerCapacity>) returns (ghost query: seq<WorkerWithTasks>)
      requires BatchOk(Batch(backend.View(), snapshot[..]))
      modifies backend, backend.queue, backend.assignments, snapshot
      ensures LegalTurn(old(Batch(backend.View(), snapshot[..])), taskId, query)
      ensures Batch(backend.View(), snapshot[..]) == Turn(old(Batch(backend.View(), snapshot[..])), taskId, query)
    {
      query := [];
      if taskId !in backend.tasks || backend.tasks[taskId].state != Pending {
        return query;
      }
      var scheduled := TryScheduleTask(taskId, snapshot);
      if !scheduled {
        query := PreemptOrRequeue(taskId);
      }
    }

    /** What happens to a popped task that spread cannot place. */
    method PreemptOrRequeue(taskId: Id) returns (ghost query: seq<WorkerWithTasks>)
      requires RowsOk(backend.Db()) && IsPending(backend.Db(), taskId)
      modifies backend, backend.queue, backend.assignments
      ensures IsQueryResult(old(backend.Db()), query)
      ensures var s := old(backend.View());
              var t := s.db.tasks[taskId];
              var plan := BestPlan(t.request, t.priority, query);
              backend.View() ==
              if plan.Some? then ExecutePlan(s, plan.value, taskId) else s.(redis := Enqueue(s.redis, taskId, t))
    {
      var engine := new PreemptionEngine(backend);
      var preempted;
      preempted, query := engine.Preempt(taskId);
      if !preempted {
        backend.queue.Enqueue(taskId, backend.tasks[taskId].priority);
      }
    }

    /** The order the active workers were read in and the rows of each preemption query are ghost results. */
    method ScheduleBatch(batchSize: nat) returns (ghost rows: seq<Id>, ghost queries: seq<seq<WorkerWithTasks>>)
      requires RowsOk(backend.Db())
      modifies backend, backend.queue, backend.assignments
      ensures LegalBatch(old(backend.View()), batchSize, rows, queries)
      ensures backend.View() == Batching.ScheduleBatch(old(backend.View()), batchSize, rows, queries)
    {
      ghost var s := backend.View();
      var taskIds := backend.queue.DequeueBatch(batchSize);
      if taskIds == [] {
        assert Without(s.redis.queue, []) == s.redis.queue;
        rows := SomeOrder(ActiveWorkers(s.db));
        queries := [];
        return;
      }
      var snapshot;
      snapshot, rows := GetAvailableWorkers();
      if snapshot.Length == 0 {
        RequeueAll(taskIds);
        queries := [];
        return;
      }
      SnapshotIsOk(s, rows, batchSize);
      queries := ScheduleEach(taskIds, snapshot);
    }

    /** The batch loop. */
    method ScheduleEach(taskIds: seq<Id>, snapshot: array<WorkerCapacity>)
      returns (ghost queries: seq<seq<WorkerWithTasks>>)
      requires BatchOk(Batch(backend.View(), snapshot[..]))
      modifies backend, backend.queue, backend.assignments, snapshot
      ensures LegalTurns(old(Batch(backend.View(), snapshot[..])), taskIds, queries)
      ensures Batch(backend.View(), snapshot[..]) == Turns(old(Batch(backend.View(), snapshot[..])), taskIds, queries)
    {
      ghost var start := Batch(backend.View(), snapshot[..]);
      queries := [];
      for i := 0 to |taskIds|
        invariant |queries| == i
        invariant LegalTurns(start, taskIds[..i], queries)
        invariant Batch(backend.View(), snapshot[..]) == Turns(start, taskIds[..i], queries)
      {
        TurnsRows(start, taskIds[..i], queries);
        ghost var query := ScheduleOne(taskIds[i], snapshot);
        ghost var before := queries;
        queries := queries + [query];
        assert taskIds[..i + 1][..i] == taskIds[..i] && queries[..i] == before;
      }
      assert taskIds[..|taskIds|] == taskIds;
    }

    method RequeueAll(taskIds: seq<Id>)
      modifies backend.queue
      ensures backend.View() == Requeue(old(backend.View()), taskIds)
    {
      ghost var s := backend.View();
      for i := 0 to |taskIds|
        invariant backend.View() == Requeue(s, taskIds[..i])
      {
        RequeueKeepsTables(s, taskIds[..i]);
        assert taskIds[..i + 1][..i] == taskIds[..i];
        if taskIds[i] in backend.tasks && backend.tasks[taskIds[i]].state == Pending {
          backend.queue.Enqueue(taskIds[i], backend.tasks[taskIds[i]].priority);
        }
      }
      assert taskIds[..|taskIds|] == taskIds;
    }

    method ReconcilePendingTasks()
      modifies backend.queue
      ensures backend.View() == ReconcilePending(old(backend.View()))
    {
      var tasks := backend.tasks;
      ghost var s := backend.View();
      var ids := set id | id in tasks && tasks[id].state == Pending;
      var rows := Rows(ids);
      for i := 0 to |rows|
        invariant forall id :: id in s.redis.queue ==>
          id in backend.queue.scores && backend.queue.scores[id] == s.redis.queue[id]
        invariant forall id :: id in backend.queue.scores && id !in s.redis.queue ==>
          id in ids && backend.queue.scores[id] == -tasks[id].priority
        invariant forall k :: 0 <= k < i ==> rows[k] in backend.queue.scores
      {
        assert rows[i] in ids;
        var found := backend.queue.Contains(rows[i]);
        if !found {
          backend.queue.Enqueue(rows[i], tasks[rows[i]].priority);
        }
      }
      forall id | id in ids ensures id in backend.queue.scores {
        var k :| 0 <= k < |rows| && rows[k] == id;
      }
      ghost var rebuilt := ReconcilePending(s).redis.queue;
      forall id
        ensures id in backend.queue.scores <==> id in rebuilt
        ensures id in rebuilt ==> backend.queue.scores[id] == rebuilt[id]
      {
        assert id in ids <==> IsPending(s.db, id);
      }
      assert backend.queue.scores == rebuilt;
    }

    /** The rows written for workers that are gone live only in the session, which is closed without
        a commit: the tables keep what they held. */
    method ReconcileScheduledTasks() returns (ghost rows: seq<Id>)
      modifies backend.queue, backend.assignments
      ensures Lists(rows, AssignedScheduledTasks(old(backend.Db())))
      ensures backend.View() == ReconcileScheduled(old(backend.View()), rows)
    {
      var session := backend.tasks;
      ghost var s := backend.View();
      var ids := set id | id in session && session[id].state == Scheduled && session[id].worker.Some?;
      assert ids == AssignedScheduledTasks(s.db);
      var order := Rows(ids);
      rows := order;
      for i := 0 to |order|
        invariant backend.View() == ReconcileScheduled(s, order[..i])
        invariant forall k :: i <= k < |order| ==> order[k] in session && session[order[k]] == backend.tasks[order[k]]
      {
        assert order[i] in ids;
        assert order[..i + 1][..i] == order[..i];
        session := ReconcileOne(session, order[i]);
      }
      assert order[..|order|] == order;
    }

    /** The body of the scheduled pass's loop; the result is the session's view of the tasks. */
    method ReconcileOne(session: map<Id, Task>, taskId: Id) returns (after: map<Id, Task>)
      requires taskId in backend.tasks && taskId in session && session[taskId] == backend.tasks[taskId]
      requires session[taskId].state == Scheduled && session[taskId].worker.Some?
      modifies backend.queue, backend.assignments
      ensures State(backend.Db(), backend.View().redis) ==
              State(old(backend.Db()), Reassign(old(backend.Db()), old(backend.View()).redis, taskId))
      ensures after.Keys == session.Keys && forall id :: id in session && id != taskId ==> after[id] == session[id]
    {
      after := session;
      var task := session[taskId];
      var w := task.worker.value;
      if w in backend.workers && backend.workers[w].status == Active {
        backend.assignments.AssignTask(w, taskId);
      } else {
        var moved := TransitionTask(task, Pending).value;
        after := session[taskId := moved.(worker := None)];
        backend.queue.Enqueue(taskId, task.priority);
      }
    }
  }
}

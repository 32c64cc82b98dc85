// Detecting dead workers (src/chronos/master/scheduler/failure_detector.py).
module FailureDetectors {
  import opened Types
  import opened Transitions
  import opened PriorityQueues
  import opened Handlers
  import opened Batching
  import opened FailureChecks
  import opened Stores

  lemma HandlingIgnoresEarlierCalls(c: Check, w: Id, orphans: seq<Id>)
    requires c.ok
    ensures FailureChecks.HandleDeadWorker(c, w, orphans) == FailureChecks.HandleDeadWorker(Begin(c.s), w, orphans)
  {
  }

  class FailureDetector {
    const backend: Backend

    constructor (backend: Backend)
      ensures this.backend == backend
    {
      this.backend := backend;
    }

    /** The body of the orphan loop; false when an exception leaves it. `bound` tells whether the
        local variable `old_state` has a value. */
    method HandleOrphan(taskId: Id, bound: bool) returns (ok: bool, nowBound: bool)
      modifies backend`tasks, backend.queue
      ensures var c := FailureChecks.HandleOrphan(Check(old(backend.View()), true, bound), taskId);
              backend.View() == c.s && ok == c.ok && (ok ==> nowBound == c.bound)
    {
      ok, nowBound := true, bound;
      if taskId in backend.tasks {
        var task := backend.tasks[taskId];
        if task.retries < task.maxRetries {
          nowBound := true;
          var moved := TransitionTask(task, Pending);
          if moved.None? {
            return false, nowBound;
          }
          backend.tasks := backend.tasks[taskId := moved.value.(retries := task.retries + 1, worker := None)];
          backend.queue.Enqueue(taskId, task.priority);
        } else {
          var moved := TransitionTask(task, Failed);
          if moved.None? {
            return false, nowBound;
          }
          backend.tasks := backend.tasks[taskId := moved.value];
          // The event names `old_state`, which only the other branch assigns.
          ok := !(task.retries > 0 && !nowBound);
        }
      }
    }

    /** Marks the worker dead and handles its live tasks; false when an exception leaves the call. */
    method HandleDeadWorker(workerId: Id) returns (ok: bool, ghost orphans: seq<Id>)
      requires workerId in backend.workers
      modifies backend, backend.queue
      ensures Lists(orphans, LiveTasksOn(old(backend.Db()), workerId))
      ensures backend.workers.Keys == old(backend.workers.Keys)
      ensures var c := FailureChecks.HandleDeadWorker(Begin(old(backend.View())), workerId, orphans);
              backend.View() == c.s && ok == c.ok
    {
      backend.workers := backend.workers[workerId := backend.workers[workerId].(status := Dead)];
      ghost var begun := Check(backend.View(), true, false);
      var rows := LiveTasks(workerId);
      orphans := rows;
      ok := true;
      var bound := false;
      for i := 0 to |rows|
        invariant backend.workers == begun.s.db.workers
        invariant var c := HandleOrphans(begun, rows[..i]);
                  backend.View() == c.s && ok == c.ok && (ok ==> bound == c.bound)
      {
        assert rows[..i + 1][..i] == rows[..i];
        if ok {
          ok, bound := HandleOrphan(rows[i], bound);
        }
      }
      assert rows[..|rows|] == rows;
    }

    /** The SCHEDULED and RUNNING tasks of a worker, in the order the database returns them. */
    method LiveTasks(workerId: Id) returns (rows: seq<Id>)
      ensures Lists(rows, LiveTasksOn(backend.Db(), workerId))
    {
      var tasks := backend.tasks;
      var ids := set id | id in tasks && (tasks[id].state == Running || tasks[id].state == Scheduled) &&
                          tasks[id].worker == Some(workerId);
      forall id ensures id in ids <==> id in LiveTasksOn(backend.Db(), workerId) {
        assert id in tasks ==> (tasks[id].LiveOn(workerId) <==> id in ids);
      }
      assert ids == LiveTasksOn(backend.Db(), workerId);
      rows := Rows(ids);
    }

    /** `alive` are the workers whose heartbeat key exists. The order the workers were read in and
        the orphans found for each are ghost results. */
    method CheckAllWorkers(alive: set<Id>) returns (ghost rows: seq<Id>, ghost orphans: seq<seq<Id>>)
      modifies backend, backend.queue
      ensures LegalCheck(old(backend.View()), rows, alive, orphans)
      ensures backend.View() == FailureChecks.CheckAllWorkers(old(backend.View()), rows, alive, orphans)
    {
      ghost var s := backend.View();
      var savedTasks, savedWorkers := backend.tasks, backend.workers;
      var ids := set w | w in savedWorkers && savedWorkers[w].status == Active;
      assert ids == ActiveWorkers(s.db);
      var order := Rows(ids);
      rows := order;
      orphans := [];
      var ok := true;
      for i := 0 to |order|
        invariant |orphans| == i
        invariant backend.workers.Keys == savedWorkers.Keys
        invariant LegalOrphans(Begin(s), order[..i], alive, orphans)
        invariant var c := CheckWorkers(Begin(s), order[..i], alive, orphans); backend.View() == c.s && ok == c.ok
      {
        ghost var found: seq<Id> := [];
        if ok && order[i] !in alive {
          assert order[i] in ids;
          ghost var c := CheckWorkers(Begin(s), order[..i], alive, orphans);
          ok, found := HandleDeadWorker(order[i]);
          HandlingIgnoresEarlierCalls(c, order[i], found);
        }
        ghost var before := orphans;
        orphans := orphans + [found];
        assert order[..i + 1][..i] == order[..i] && orphans[..i] == before;
      }
      assert order[..|order|] == order;
      if !ok {
        backend.tasks, backend.workers := savedTasks, savedWorkers;
      }
    }
  }
}

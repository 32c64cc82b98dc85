// Preempting running tasks (src/chronos/master/scheduler/preemption.py).
module PreemptionEngines {
  import opened Types
  import opened Transitions
  import opened PriorityQueues
  import opened TaskAssignment
  import opened Preemption
  import opened Handlers
  import opened Batching
  import opened Invariants
  import opened BatchRows
  import opened Stores

  class PreemptionEngine {
    const backend: Backend

    constructor (backend: Backend)
      ensures this.backend == backend
    {
      this.backend := backend;
    }

    /** The running tasks of one worker, in the order the database returns them. */
    method RunningTasks(workerId: Id) returns (running: seq<RunningTask>)
      ensures ListsRunning(backend.Db(), workerId, running)
    {
      var tasks := backend.tasks;
      var ids := set id | id in tasks && tasks[id].state == Running && tasks[id].worker == Some(workerId);
      var rows := Rows(ids);
      running := [];
      for i := 0 to |rows|
        invariant |running| == i
        invariant forall k :: 0 <= k < i ==>
          rows[k] in tasks && running[k] == RunningTask(rows[k], tasks[rows[k]].priority, tasks[rows[k]].request)
      {
        assert rows[i] in ids;
        running := running + [RunningTask(rows[i], tasks[rows[i]].priority, tasks[rows[i]].request)];
      }
      forall k | 0 <= k < |running| ensures IsRunningRow(backend.Db(), workerId, running[k]) {
        assert rows[k] in ids;
      }
      forall id | id in ids ensures RunningTask(id, tasks[id].priority, tasks[id].request) in running {
        var k :| 0 <= k < |rows| && rows[k] == id;
        assert running[k].id == id;
      }
    }

    method GetWorkersWithRunningTasks() returns (result: seq<WorkerWithTasks>)
      ensures IsQueryResult(backend.Db(), result)
    {
      var workers := backend.workers;
      var ids := set w | w in workers && workers[w].status == Active;
      assert ids == ActiveWorkers(backend.Db());
      var rows := Rows(ids);
      result := [];
      for i := 0 to |rows|
        invariant |result| == i
        invariant forall k :: 0 <= k < i ==> result[k].workerId == rows[k] && ListsWorker(backend.Db(), result[k])
      {
        assert rows[i] in ids;
        var running := RunningTasks(rows[i]);
        result := result + [WorkerWithTasks(rows[i], workers[rows[i]].available, running)];
      }
      forall w | w in ids ensures exists k :: 0 <= k < |result| && result[k].workerId == w {
        var k :| 0 <= k < |rows| && rows[k] == w;
        assert result[k].workerId == w;
      }
    }

    /** No transition here can raise: the victims run, and the task is pending. */
    method ExecutePreemption(plan: PreemptionPlan, taskId: Id)
      requires RowsOk(backend.Db()) && IsPending(backend.Db(), taskId)
      requires PlanFits(backend.Db(), backend.tasks[taskId], plan)
      modifies backend, backend.queue, backend.assignments
      ensures backend.View() == ExecutePlan(old(backend.View()), plan, taskId)
    {
      ghost var s := backend.View();
      var w := plan.workerId;
      for i := 0 to |plan.victims|
        invariant backend.View() == EvictAll(s, w, plan.victims[..i])
      {
        var victim := plan.victims[i].id;
        VictimStillRuns(s, w, plan.victims, i);
        assert plan.victims[..i + 1][..i] == plan.victims[..i];
        EvictVictim(w, victim);
      }
      assert plan.victims[..|plan.victims|] == plan.victims;
      PlanSparesTheTask(s, plan, taskId);

      var task := TransitionTask(backend.tasks[taskId], Scheduled).value;
      backend.tasks := backend.tasks[taskId := task.(worker := Some(w))];
      backend.AddCapacity(Some(w), Negate(task.request));
      backend.assignments.AssignTask(w, taskId);
    }

    /** The body of the eviction loop. */
    method EvictVictim(w: Id, victim: Id)
      requires victim in backend.tasks && backend.tasks[victim].state == Running
      modifies backend, backend.queue, backend.assignments
      ensures backend.View() == Evict(old(backend.View()), w, victim)
    {
      var task := TransitionTask(backend.tasks[victim], Preempted).value;
      backend.tasks := backend.tasks[victim := task];
      backend.assignments.SendPreemptSignal(w, victim);
      backend.AddCapacity(Some(w), task.request);
      if task.retries < task.maxRetries {
        var retried := TransitionTask(task.(retries := task.retries + 1), Pending).value;
        backend.tasks := backend.tasks[victim := retried.(worker := None)];
        backend.queue.Enqueue(victim, task.priority);
      }
    }

    lemma VictimStillRuns(s: State, w: Id, victims: seq<RunningTask>, i: nat)
      requires RowsOk(s.db) && AreVictims(s.db, w, victims) && i < |victims|
      ensures IsRunningRow(EvictAll(s, w, victims[..i]).db, w, victims[i])
    {
      assert victims[..i + 1][..i] == victims[..i];
      LastVictimStillRuns(s, w, victims[..i + 1]);
    }

    /** Makes room for a pending task by evicting lower-priority ones; the rows the query returned
        are the ghost result. */
    method Preempt(taskId: Id) returns (preempted: bool, ghost query: seq<WorkerWithTasks>)
      requires RowsOk(backend.Db()) && IsPending(backend.Db(), taskId)
      modifies backend, backend.queue, backend.assignments
      ensures IsQueryResult(old(backend.Db()), query)
      ensures var t := old(backend.tasks[taskId]);
              var plan := BestPlan(t.request, t.priority, query);
              && (preempted <==> plan.Some?)
              && backend.View() ==
                 if plan.Some? then ExecutePlan(old(backend.View()), plan.value, taskId) else old(backend.View())
    {
      var task := backend.tasks[taskId];
      var workers := GetWorkersWithRunningTasks();
      query := workers;
      var plan := FindPreemptionCandidates(task.request, task.priority, workers);
      PlanIsSound(backend.Db(), task, workers);
      if plan.None? {
        return false, query;
      }
      ExecutePreemption(plan.value, taskId);
      return true, query;
    }
  }
}

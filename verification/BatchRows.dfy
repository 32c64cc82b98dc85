// What a turn of the batch, and a whole batch, does to the rows.
module BatchRows {
  import opened Types
  import opened PriorityQueues
  import opened BinPacking
  import opened Preemption
  import opened Batching
  import opened Invariants

  // ---------- A plan made from the query fits the tables ----------

  lemma {:induction false} NoneTwice(tasks: seq<RunningTask>)
    requires forall i, j :: 0 <= i < j < |tasks| ==> tasks[i].id != tasks[j].id
    ensures forall t :: multiset(tasks)[t] <= 1
  {
    if tasks != [] {
      var n := |tasks| - 1;
      NoneTwice(tasks[..n]);
      assert tasks == tasks[..n] + [tasks[n]];
      assert tasks[n] !in tasks[..n];
      assert tasks[n] !in multiset(tasks[..n]);
    }
  }

  lemma CountedTwice(tasks: seq<RunningTask>, i: nat, j: nat)
    requires i < j < |tasks| && tasks[i] == tasks[j]
    ensures multiset(tasks)[tasks[i]] >= 2
  {
    assert tasks == tasks[..i] + [tasks[i]] + tasks[i + 1..j] + [tasks[j]] + tasks[j + 1..];
  }

  lemma SelectedDistinct(some: seq<RunningTask>, all: seq<RunningTask>)
    requires SelectedFrom(some, all)
    requires forall i, j :: 0 <= i < j < |all| ==> all[i].id != all[j].id
    ensures forall i, j :: 0 <= i < j < |some| ==> some[i].id != some[j].id
  {
    NoneTwice(all);
    forall i, j | 0 <= i < j < |some| ensures some[i].id != some[j].id {
      assert some[i] in multiset(some) && some[j] in multiset(some);
      var k :| 0 <= k < |all| && all[k] == some[i];
      var l :| 0 <= l < |all| && all[l] == some[j];
      if some[i].id == some[j].id {
        CountedTwice(some, i, j);
      }
    }
  }

  ghost predicate PlanFits(db: Tables, t: Task, plan: PreemptionPlan) {
    && plan.workerId in ActiveWorkers(db)
    && AreVictims(db, plan.workerId, plan.victims)
    && (forall k :: 0 <= k < |plan.victims| ==> plan.victims[k].priority < t.priority)
    && db.workers[plan.workerId].available.Plus(Sum(plan.victims)).Covers(t.request)
  }

  lemma GreedyPlanIsSound(db: Tables, t: Task, w: WorkerWithTasks)
    requires ListsWorker(db, w)
    ensures var plan := GreedyPlan(t.request, t.priority, w);
            plan.Some? ==> PlanFits(db, t, plan.value)
  {
    GreedyTakesShortestPrefix(t.request, t.priority, w);
    GreedyVictims(t.request, t.priority, w);
    var plan := GreedyPlan(t.request, t.priority, w);
    if plan.Some? {
      SelectedDistinct(plan.value.victims, w.running);
      forall k | 0 <= k < |plan.value.victims|
        ensures IsRunningRow(db, w.workerId, plan.value.victims[k])
        ensures plan.value.victims[k].priority < t.priority
      {
        assert plan.value.victims[k] in w.running;
      }
    }
  }

  /** A plan only evicts tasks that run, on an active worker, below the task's priority, and makes
      room for the task there. */
  lemma PlanIsSound(db: Tables, t: Task, workers: seq<WorkerWithTasks>)
    requires IsQueryResult(db, workers)
    ensures var plan := BestPlan(t.request, t.priority, workers);
            plan.Some? ==> PlanFits(db, t, plan.value)
  {
    PlannerPicksFirstLeastWaste(t.request, t.priority, workers);
    var plan := BestPlan(t.request, t.priority, workers);
    if plan.Some? {
      var i :| 0 <= i < |workers| && GreedyPlan(t.request, t.priority, workers[i]) == plan;
      GreedyPlanIsSound(db, t, workers[i]);
    }
  }

  // ---------- Executing a plan ----------

  lemma PlanSparesTheTask(s: State, plan: PreemptionPlan, id: Id)
    requires RowsOk(s.db) && IsPending(s.db, id) && PlanFits(s.db, s.db.tasks[id], plan)
    ensures !IsVictim(plan.victims, id)
    ensures var mid := EvictAll(s, plan.workerId, plan.victims);
            && RowsOk(mid.db)
            && SameWorkers(s.db.workers, mid.db.workers)
            && IsPending(mid.db, id) && mid.db.tasks[id] == s.db.tasks[id]
            && plan.workerId in ActiveWorkers(mid.db)
  {
    forall k | 0 <= k < |plan.victims| ensures plan.victims[k].id != id {
      assert IsRunningRow(s.db, plan.workerId, plan.victims[k]);
    }
    EvictAllRows(s, plan.workerId, plan.victims);
  }

  lemma ExecutePlanRows(s: State, plan: PreemptionPlan, id: Id)
    requires RowsOk(s.db) && IsPending(s.db, id) && PlanFits(s.db, s.db.tasks[id], plan)
    ensures var after := ExecutePlan(s, plan, id);
            && RowsOk(after.db)
            && SameWorkers(s.db.workers, after.db.workers)
            && after.db.tasks.Keys == s.db.tasks.Keys
            && after.db.tasks[id] == Dispatched(s.db.tasks[id], plan.workerId)
            && (forall v :: IsVictim(plan.victims, v) ==>
                  v in s.db.tasks && s.db.tasks[v].state == Running && after.db.tasks[v] == Evicted(s.db.tasks[v]))
            && (forall v :: v in s.db.tasks && v != id && !IsVictim(plan.victims, v) ==>
                  after.db.tasks[v] == s.db.tasks[v])
  {
    PlanSparesTheTask(s, plan, id);
    EvictAllRows(s, plan.workerId, plan.victims);
    DispatchRows(EvictAll(s, plan.workerId, plan.victims), id, plan.workerId);
    forall v | IsVictim(plan.victims, v) ensures v in s.db.tasks && s.db.tasks[v].state == Running {
      var k :| 0 <= k < |plan.victims| && plan.victims[k].id == v;
      assert IsRunningRow(s.db, plan.workerId, plan.victims[k]);
    }
  }

  lemma ExecutePlanLeaks(s: State, plan: PreemptionPlan, id: Id)
    requires RowsOk(s.db) && IsPending(s.db, id) && PlanFits(s.db, s.db.tasks[id], plan)
    ensures SameLeaks(s.db, ExecutePlan(s, plan, id).db)
  {
    PlanSparesTheTask(s, plan, id);
    EvictAllLeaks(s, plan.workerId, plan.victims);
    DispatchLeaks(EvictAll(s, plan.workerId, plan.victims), id, plan.workerId);
  }

  /** The plan's worker ends with what its victims freed beyond the request, never below zero; no
      other worker's capacity moves. */
  lemma ExecutePlanCapacity(s: State, plan: PreemptionPlan, id: Id, v: Id)
    requires RowsOk(s.db) && IsPending(s.db, id) && PlanFits(s.db, s.db.tasks[id], plan) && v in s.db.workers
    ensures var after := ExecutePlan(s, plan, id).db;
            && v in after.workers
            && (v == plan.workerId ==>
                  after.workers[v].available ==
                  s.db.workers[v].available.Plus(Sum(plan.victims)).Minus(s.db.tasks[id].request) &&
                  after.workers[v].available.NonNegative())
            && (v != plan.workerId ==> after.workers[v].available == s.db.workers[v].available)
  {
    PlanSparesTheTask(s, plan, id);
    EvictAllCapacity(s, plan.workerId, plan.victims, v);
    DispatchCapacity(EvictAll(s, plan.workerId, plan.victims), id, plan.workerId, v);
  }

  // ---------- One turn ----------

  ghost predicate BatchOk(b: Batch) {
    && RowsOk(b.s.db)
    && DistinctIds(b.snapshot)
    && forall k :: 0 <= k < |b.snapshot| ==> b.snapshot[k].workerId in ActiveWorkers(b.s.db)
  }

  /** What may happen to a row during a turn. */
  ghost predicate TurnMoves(t: Task, after: Task) {
    || after == t
    || (t.state == Pending && after.worker.Some? && after == Dispatched(t, after.worker.value))
    || (t.state == Running && after == Evicted(t))
  }

  lemma ActiveStays(a: Tables, b: Tables, w: Id)
    requires SameWorkers(a.workers, b.workers) && w in ActiveWorkers(a)
    ensures w in ActiveWorkers(b)
  {
    SameWorkerAt(a.workers, b.workers, w);
  }

  lemma TurnRows(b: Batch, id: Id, workers: seq<WorkerWithTasks>)
    requires BatchOk(b) && LegalTurn(b, id, workers)
    ensures var after := Turn(b, id, workers);
            && BatchOk(after)
            && SameWorkers(b.s.db.workers, after.s.db.workers)
            && after.s.db.tasks.Keys == b.s.db.tasks.Keys
            && (forall v :: v in b.s.db.tasks ==> TurnMoves(b.s.db.tasks[v], after.s.db.tasks[v]))
            && (forall v :: v in b.s.db.tasks && v != id && b.s.db.tasks[v].state == Pending ==>
                  after.s.db.tasks[v] == b.s.db.tasks[v])
  {
    var after := Turn(b, id, workers);
    if IsPending(b.s.db, id) {
      var t := b.s.db.tasks[id];
      var choice := SpreadSelect(t.request, b.snapshot);
      if choice.Some? {
        DispatchRows(b.s, id, b.snapshot[choice.value].workerId);
      } else {
        PlanIsSound(b.s.db, t, workers);
        var plan := BestPlan(t.request, t.priority, workers);
        if plan.Some? {
          ExecutePlanRows(b.s, plan.value, id);
        }
      }
    }
    forall k | 0 <= k < |after.snapshot| ensures after.snapshot[k].workerId in ActiveWorkers(after.s.db) {
      ActiveStays(b.s.db, after.s.db, b.snapshot[k].workerId);
    }
  }

  lemma TurnLeaks(b: Batch, id: Id, workers: seq<WorkerWithTasks>)
    requires BatchOk(b) && LegalTurn(b, id, workers)
    ensures SameLeaks(b.s.db, Turn(b, id, workers).s.db)
  {
    if IsPending(b.s.db, id) {
      var t := b.s.db.tasks[id];
      var choice := SpreadSelect(t.request, b.snapshot);
      if choice.Some? {
        DispatchLeaks(b.s, id, b.snapshot[choice.value].workerId);
      } else {
        PlanIsSound(b.s.db, t, workers);
        var plan := BestPlan(t.request, t.priority, workers);
        if plan.Some? {
          ExecutePlanLeaks(b.s, plan.value, id);
        }
      }
    }
  }

  // ---------- All turns ----------

  lemma SameWorkersTransitive(a: map<Id, Worker>, b: map<Id, Worker>, c: map<Id, Worker>)
    requires SameWorkers(a, b) && SameWorkers(b, c)
    ensures SameWorkers(a, c)
  {
    forall w | w in a
      ensures a[w].hostname == c[w].hostname && a[w].status == c[w].status && a[w].total == c[w].total
    {
      assert w in b && a[w].hostname == b[w].hostname;
    }
  }

  lemma {:induction false} TurnsRows(b: Batch, ids: seq<Id>, queries: seq<seq<WorkerWithTasks>>)
    requires BatchOk(b) && LegalTurns(b, ids, queries)
    ensures var after := Turns(b, ids, queries);
            && BatchOk(after)
            && SameWorkers(b.s.db.workers, after.s.db.workers)
            && SameLeaks(b.s.db, after.s.db)
            && after.s.db.tasks.Keys == b.s.db.tasks.Keys
  {
    if ids != [] {
      var n := |ids| - 1;
      TurnsRows(b, ids[..n], queries[..n]);
      var before := Turns(b, ids[..n], queries[..n]);
      TurnRows(before, ids[n], queries[n]);
      TurnLeaks(before, ids[n], queries[n]);
      SameWorkersTransitive(b.s.db.workers, before.s.db.workers, Turn(before, ids[n], queries[n]).s.db.workers);
    }
  }

  lemma {:induction false} RequeueKeepsTables(s: State, ids: seq<Id>)
    ensures Requeue(s, ids).db == s.db
    ensures Requeue(s, ids).redis.assignments == s.redis.assignments
  {
    if ids != [] {
      RequeueKeepsTables(s, ids[..|ids| - 1]);
    }
  }

  lemma SnapshotIsOk(s: State, rows: seq<Id>, count: nat)
    requires RowsOk(s.db) && Lists(rows, ActiveWorkers(s.db))
    ensures BatchOk(Batch(Popped(s, count), Snapshot(s.db, rows)))
  {
  }

  /** A batch keeps the row invariants, every worker's identity and every worker's ledger. */
  lemma BatchKeepsRows(s: State, count: nat, rows: seq<Id>, queries: seq<seq<WorkerWithTasks>>)
    requires RowsOk(s.db) && LegalBatch(s, count, rows, queries)
    ensures var after := ScheduleBatch(s, count, rows, queries);
            && RowsOk(after.db)
            && SameWorkers(s.db.workers, after.db.workers)
            && SameLeaks(s.db, after.db)
            && after.db.tasks.Keys == s.db.tasks.Keys
  {
    if rows == [] {
      RequeueKeepsTables(Popped(s, count), PopBatch(s.redis.queue, count));
    } else {
      SnapshotIsOk(s, rows, count);
      TurnsRows(Batch(Popped(s, count), Snapshot(s.db, rows)), PopBatch(s.redis.queue, count), queries);
    }
  }
}

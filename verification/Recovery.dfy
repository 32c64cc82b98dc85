// The scores of queue entries over runs in which Redis is lost and batches crash: the order of a batch
// stays right, and one pending pass repairs the queue.
module Recovery {
  import opened Types
  import opened PriorityQueues
  import opened BinPacking
  import opened Preemption
  import opened Batching
  import opened Invariants
  import opened BatchRows
  import opened FailureFacts
  import opened Runs
  import opened NoLostWork

  // ---------- Scores over the steps ----------

  lemma PlanScores(s: State, plan: PreemptionPlan, id: Id)
    requires RowsOk(s.db) && IsPending(s.db, id) && PlanFits(s.db, s.db.tasks[id], plan) && WellScored(s)
    ensures WellScored(ExecutePlan(s, plan, id))
  {
    var after := ExecutePlan(s, plan, id);
    PlanSparesTheTask(s, plan, id);
    EvictAllQueue(s, plan.workerId, plan.victims);
    ExecutePlanRows(s, plan, id);
    forall v | v in after.redis.queue && v in after.db.tasks
      ensures after.redis.queue[v] == -after.db.tasks[v].priority
    {
      assert after.db.tasks[v].priority == s.db.tasks[v].priority;
    }
  }

  lemma TurnScores(b: Batch, id: Id, workers: seq<WorkerWithTasks>)
    requires BatchOk(b) && LegalTurn(b, id, workers) && WellScored(b.s)
    ensures WellScored(Turn(b, id, workers).s)
  {
    if IsPending(b.s.db, id) {
      var t := b.s.db.tasks[id];
      var choice := SpreadSelect(t.request, b.snapshot);
      if choice.Some? {
        DispatchRows(b.s, id, b.snapshot[choice.value].workerId);
      } else {
        PlanIsSound(b.s.db, t, workers);
        var plan := BestPlan(t.request, t.priority, workers);
        if plan.Some? {
          PlanScores(b.s, plan.value, id);
        }
      }
    }
  }

  lemma {:induction false} TurnsScore(b: Batch, ids: seq<Id>, queries: seq<seq<WorkerWithTasks>>)
    requires BatchOk(b) && LegalTurns(b, ids, queries) && WellScored(b.s)
    ensures WellScored(Turns(b, ids, queries).s)
  {
    if ids != [] {
      var n := |ids| - 1;
      TurnsScore(b, ids[..n], queries[..n]);
      TurnsRows(b, ids[..n], queries[..n]);
      TurnScores(Turns(b, ids[..n], queries[..n]), ids[n], queries[n]);
    }
  }

  lemma {:induction false} RequeueScores(s: State, ids: seq<Id>)
    requires WellScored(s)
    ensures WellScored(Requeue(s, ids))
  {
    RequeueKeepsTables(s, ids);
    if ids != [] {
      RequeueScores(s, ids[..|ids| - 1]);
      RequeueKeepsTables(s, ids[..|ids| - 1]);
    }
  }

  lemma CommitScores(s: State, after: State, dead: set<Id>)
    requires WellScored(s) && Committed(s, after, dead)
    ensures WellScored(after)
  {
    forall v | v in after.redis.queue && v in after.db.tasks
      ensures after.redis.queue[v] == -after.db.tasks[v].priority
    {
      assert after.db.tasks[v].priority == s.db.tasks[v].priority;
    }
  }

  lemma HandlerScores(s: State, e: Event)
    requires WellScored(s) && Enabled(s, e)
    requires || e.Create? || e.ReportRunning? || e.Complete? || e.Fail? || e.Cancel?
             || e.Register? || e.PendingPass? || e.Poll?
    ensures WellScored(Apply(s, e))
  {
  }

  lemma StepKeepsScores(s: State, e: Event)
    requires RowsOk(s.db) && WellScored(s) && Enabled(s, e) && !e.RedisFault?
    ensures WellScored(Apply(s, e))
  {
    match e
    case RunBatch(count, rows, queries) =>
      if rows == [] {
        RequeueScores(Popped(s, count), PopBatch(s.redis.queue, count));
      } else {
        SnapshotIsOk(s, rows, count);
        TurnsScore(Batch(Popped(s, count), Snapshot(s.db, rows)), PopBatch(s.redis.queue, count), queries);
      }
    case CheckFailures(rows, alive, orphans) =>
      CheckIsAllOrNothing(s, rows, alive, orphans);
      if AllWorkersPass(s.db.tasks, rows, alive, orphans) {
        CommitScores(s, Apply(s, e), DeadAmong(rows, alive));
      }
    case ScheduledPass(rows) => ReassignKeepsQueued(s.db, s.redis, rows);
    case _ => HandlerScores(s, e);
  }

  // ---------- Faults that leave no wrong score ----------

  /** A fault after which each entry of a known task carries its priority. */
  ghost predicate Harmless(s: State, e: Event) {
    e.RedisFault? ==> WellScored(State(s.db, e.redis))
  }

  ghost predicate HarmlessRun(s: State, events: seq<Event>) {
    events != [] ==>
      HarmlessRun(s, events[..|events| - 1]) && Harmless(Exec(s, events[..|events| - 1]), events[|events| - 1])
  }

  lemma {:induction false} FaultFreeIsHarmless(s: State, events: seq<Event>)
    requires FaultFree(events)
    ensures HarmlessRun(s, events)
  {
    if events != [] {
      FaultFreeIsHarmless(s, events[..|events| - 1]);
    }
  }

  /** Redis loses entries, or all of them. */
  predicate LosesEntries(before: Redis, after: Redis) {
    forall id :: id in after.queue ==> id in before.queue && after.queue[id] == before.queue[id]
  }

  lemma LossIsHarmless(s: State, redis: Redis)
    requires WellScored(s) && LosesEntries(s.redis, redis)
    ensures Harmless(s, RedisFault(redis))
  {
  }

  /** What a batch that crashes before its `n`-th turn leaves in Redis: the popped ids are gone, and the
      turns before have pushed what they pushed. */
  ghost function CrashedRedis(s: State, count: nat, rows: seq<Id>, queries: seq<seq<WorkerWithTasks>>, n: nat): Redis
    requires LegalBatch(s, count, rows, queries) && n <= |PopBatch(s.redis.queue, count)|
  {
    var ids := PopBatch(s.redis.queue, count)[..n];
    if rows == [] then Requeue(Popped(s, count), ids).redis
    else Turns(Batch(Popped(s, count), Snapshot(s.db, rows)), ids, queries[..n]).s.redis
  }

  lemma {:induction false} LegalTurnsPrefix(b: Batch, ids: seq<Id>, queries: seq<seq<WorkerWithTasks>>, n: nat)
    requires LegalTurns(b, ids, queries) && n <= |ids|
    ensures LegalTurns(b, ids[..n], queries[..n])
  {
    var m := |ids| - 1;
    if n <= m {
      LegalTurnsPrefix(b, ids[..m], queries[..m], n);
      assert ids[..m][..n] == ids[..n] && queries[..m][..n] == queries[..n];
    } else {
      assert ids[..n] == ids && queries[..n] == queries;
    }
  }

  lemma {:induction false} TurnsKeepPriorities(b: Batch, ids: seq<Id>, queries: seq<seq<WorkerWithTasks>>)
    requires BatchOk(b) && LegalTurns(b, ids, queries)
    ensures var after := Turns(b, ids, queries).s.db.tasks;
            after.Keys == b.s.db.tasks.Keys && forall v :: v in after ==> after[v].priority == b.s.db.tasks[v].priority
  {
    if ids != [] {
      var n := |ids| - 1;
      var before := Turns(b, ids[..n], queries[..n]);
      TurnsKeepPriorities(b, ids[..n], queries[..n]);
      TurnsRows(b, ids[..n], queries[..n]);
      TurnRows(before, ids[n], queries[n]);
      forall v | v in before.s.db.tasks
        ensures Turn(before, ids[n], queries[n]).s.db.tasks[v].priority == b.s.db.tasks[v].priority
      {
        assert TurnMoves(before.s.db.tasks[v], Turn(before, ids[n], queries[n]).s.db.tasks[v]);
      }
    }
  }

  /** A crash of a batch, after any number of its turns, is harmless: the tables roll back and the
      entries it pushed carry the right scores. */
  lemma CrashIsHarmless(s: State, count: nat, rows: seq<Id>, queries: seq<seq<WorkerWithTasks>>, n: nat)
    requires RowsOk(s.db) && WellScored(s)
    requires LegalBatch(s, count, rows, queries) && n <= |PopBatch(s.redis.queue, count)|
    ensures Harmless(s, RedisFault(CrashedRedis(s, count, rows, queries, n)))
  {
    var ids := PopBatch(s.redis.queue, count);
    if rows == [] {
      RequeueScores(Popped(s, count), ids[..n]);
      RequeueKeepsTables(Popped(s, count), ids[..n]);
    } else {
      var b := Batch(Popped(s, count), Snapshot(s.db, rows));
      SnapshotIsOk(s, rows, count);
      LegalTurnsPrefix(b, ids, queries, n);
      TurnsScore(b, ids[..n], queries[..n]);
      TurnsKeepPriorities(b, ids[..n], queries[..n]);
    }
  }

  // ---------- Over runs ----------

  lemma {:induction false} RunKeepsScores(s: State, events: seq<Event>)
    requires RowsOk(s.db) && WellScored(s) && HarmlessRun(s, events)
    ensures WellScored(Exec(s, events))
  {
    if events != [] {
      var front, e := events[..|events| - 1], events[|events| - 1];
      RunKeepsScores(s, front);
      RunKeepsRows(s, front);
      if Enabled(Exec(s, front), e) && !e.RedisFault? {
        StepKeepsScores(Exec(s, front), e);
      }
    }
  }

  /** Whatever was lost before, and however many batches crashed: after one pending pass every pending
      task is in the queue at its priority, and stays there until the next fault. */
  lemma PendingPassRepairsRun(s: State, front: seq<Event>, later: seq<Event>)
    requires RowsOk(s.db) && WellScored(s) && HarmlessRun(s, front) && FaultFree(later)
    ensures QueueOk(Exec(s, front + [PendingPass] + later))
  {
    var lost := Exec(s, front);
    RunKeepsScores(s, front);
    RunKeepsRows(s, front);
    PendingPassRebuildsQueue(lost);
    ExecOne(lost, PendingPass);
    ExecConcat(s, front, [PendingPass]);
    ExecConcat(s, front + [PendingPass], later);
    RunLosesNoWork(Exec(s, front + [PendingPass]), later);
  }

  // ---------- The order of a batch ----------

  predicate Outranks(db: Tables, a: Id, b: Id)
    requires a in db.tasks && b in db.tasks
  {
    db.tasks[a].priority > db.tasks[b].priority || (db.tasks[a].priority == db.tasks[b].priority && a <= b)
  }

  /** After any such run, a batch considers tasks by descending priority, ties by id,
      and leaves no task in the queue that outranks one it popped. */
  lemma BatchFollowsPriority(s: State, events: seq<Event>, count: nat)
    requires RowsOk(s.db) && WellScored(s) && HarmlessRun(s, events)
    ensures var now := Exec(s, events);
            var ids := PopBatch(now.redis.queue, count);
            && (forall i, j :: 0 <= i < j < |ids| && ids[i] in now.db.tasks && ids[j] in now.db.tasks ==>
                  Outranks(now.db, ids[i], ids[j]))
            && (forall k, id :: (0 <= k < |ids| && ids[k] in now.db.tasks && id in now.db.tasks &&
                                 id in Without(now.redis.queue, ids)) ==> Outranks(now.db, ids[k], id))
  {
    RunKeepsScores(s, events);
    var now := Exec(s, events);
    var ids := PopBatch(now.redis.queue, count);
    PopBatchTakesTheFirst(now.redis.queue, count);
    forall i, j | 0 <= i < j < |ids| && ids[i] in now.db.tasks && ids[j] in now.db.tasks
      ensures Outranks(now.db, ids[i], ids[j])
    {
      assert Ahead(now.redis.queue, ids[i], ids[j]);
    }
    forall k, id | 0 <= k < |ids| && ids[k] in now.db.tasks && id in now.db.tasks && id in Without(now.redis.queue, ids)
      ensures Outranks(now.db, ids[k], id)
    {
      assert Ahead(now.redis.queue, ids[k], id);
    }
  }
}

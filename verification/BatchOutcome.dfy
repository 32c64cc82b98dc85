// What executing a plan achieves, and when the batch preempts.
module BatchOutcome {
  import opened Types
  import opened BinPacking
  import opened Preemption
  import opened Batching
  import opened Invariants
  import opened BatchRows
  import opened Overcommit
  import opened NoLostWork

  // ---------- What executing a plan achieves ----------

  function VictimIds(victims: seq<RunningTask>): seq<Id> {
    if victims == [] then [] else VictimIds(victims[..|victims| - 1]) + [victims[|victims| - 1].id]
  }

  /** Evicting the victims appends their ids, in order, to the worker's preemption list. */
  lemma {:induction false} VictimsAreSignalled(s: State, w: Id, victims: seq<RunningTask>)
    requires RowsOk(s.db) && AreVictims(s.db, w, victims)
    ensures ListOf(EvictAll(s, w, victims).redis.preempts, w) == ListOf(s.redis.preempts, w) + VictimIds(victims)
  {
    if victims != [] {
      var n := |victims| - 1;
      LastVictimStillRuns(s, w, victims);
      VictimsAreSignalled(s, w, victims[..n]);
      OneSignal(EvictAll(s, w, victims[..n]), w, victims[n].id);
    }
  }

  lemma OneSignal(s: State, w: Id, id: Id)
    requires id in s.db.tasks
    ensures ListOf(Evict(s, w, id).redis.preempts, w) == ListOf(s.redis.preempts, w) + [id]
  {
  }

  /** A victim had strictly lower priority. With retries left it waits again, unassigned, queued at
      its priority and charged one retry; otherwise it stays preempted. */
  ghost predicate VictimFate(s: State, after: State, t: Task, v: Id)
    requires v in s.db.tasks && v in after.db.tasks
  {
    var was, now := s.db.tasks[v], after.db.tasks[v];
    && was.state == Running && was.priority < t.priority
    && if was.retries < was.maxRetries
       then now == was.(state := Pending, worker := None, retries := was.retries + 1) && QueuedRight(after, v)
       else now == was.(state := Preempted) && was.retries == was.maxRetries
  }

  /** Executing a plan made from the query: the plan's worker ends at or above zero, every victim is
      signalled and meets its fate, and the task is scheduled there and in its list. */
  lemma PlanExecutionAchieves(s: State, workers: seq<WorkerWithTasks>, id: Id)
    requires RowsOk(s.db) && IsPending(s.db, id) && IsQueryResult(s.db, workers)
    requires BestPlan(s.db.tasks[id].request, s.db.tasks[id].priority, workers).Some?
    ensures var t := s.db.tasks[id];
            var plan := BestPlan(t.request, t.priority, workers).value;
            var after := ExecutePlan(s, plan, id);
            && id in after.db.tasks && after.db.tasks[id] == t.(state := Scheduled, worker := Some(plan.workerId))
            && WasAssigned(after, id)
            && plan.workerId in after.db.workers && after.db.workers[plan.workerId].available.NonNegative()
            && (forall v :: IsVictim(plan.victims, v) ==>
                  v in s.db.tasks && v in after.db.tasks && VictimFate(s, after, t, v))
  {
    var t := s.db.tasks[id];
    PlanIsSound(s.db, t, workers);
    var plan := BestPlan(t.request, t.priority, workers).value;
    var after := ExecutePlan(s, plan, id);
    ExecutePlanRows(s, plan, id);
    PlanQueue(s, plan, id);
    ExecutePlanCapacity(s, plan, id, plan.workerId);
    PushedIsListed(s.redis.assignments, plan.workerId, id);
    ActiveStays(s.db, after.db, plan.workerId);
    forall v | IsVictim(plan.victims, v)
      ensures v in s.db.tasks && v in after.db.tasks && VictimFate(s, after, t, v)
    {
      var k :| 0 <= k < |plan.victims| && plan.victims[k].id == v;
      assert IsRunningRow(s.db, plan.workerId, plan.victims[k]);
      assert TaskOk(s.db.workers, s.db.tasks[v]);
    }
  }

  /** Every active worker has an entry in the snapshot. */
  ghost predicate SnapshotComplete(b: Batch) {
    forall w :: w in ActiveWorkers(b.s.db) ==> exists k :: 0 <= k < |b.snapshot| && b.snapshot[k].workerId == w
  }

  /** When spread has failed and the snapshot shows exactly what is stored, a plan evicts someone: a
      plan without victims takes a stale snapshot. */
  lemma PlanEvictsWhenSnapshotIsCurrent(b: Batch, id: Id, workers: seq<WorkerWithTasks>)
    requires SnapshotCurrent(b) && SnapshotComplete(b)
    requires AsksForPlan(b, id) && IsQueryResult(b.s.db, workers)
    ensures var t := b.s.db.tasks[id];
            var plan := BestPlan(t.request, t.priority, workers);
            plan.Some? ==> plan.value.victims != []
  {
    var t := b.s.db.tasks[id];
    var plan := BestPlan(t.request, t.priority, workers);
    if plan.Some? {
      PlanEvictsUnlessRoom(t.request, t.priority, workers);
      var i :| 0 <= i < |workers| && workers[i].workerId == plan.value.workerId &&
               (plan.value.victims == [] <==> workers[i].available.Covers(t.request));
      assert ListsWorker(b.s.db, workers[i]);
      var k :| 0 <= k < |b.snapshot| && b.snapshot[k].workerId == workers[i].workerId;
      assert !Fits(t.request, b.snapshot[k]);
    }
  }

  // ---------- Spread first, preemption only when it fails ----------

  /** A pending task that fits somewhere is placed on the spread choice of the snapshot, that entry alone
      gives up the request, and nothing is evicted. */
  lemma FittingTaskIsSpread(b: Batch, id: Id, workers: seq<WorkerWithTasks>)
    requires BatchOk(b) && IsPending(b.s.db, id) && !NothingFits(b.s.db.tasks[id].request, b.snapshot)
    ensures var t, after := b.s.db.tasks[id], Turn(b, id, workers);
            exists k: nat ::
              && IsSpreadChoice(t.request, b.snapshot, k)
              && after.s.db.tasks == b.s.db.tasks[id := Dispatched(t, b.snapshot[k].workerId)]
              && after.snapshot == Reserve(t.request, b.snapshot, k)
  {
    var k := SpreadSelect(b.s.db.tasks[id].request, b.snapshot).value;
    DispatchRows(b.s, id, b.snapshot[k].workerId);
    assert IsSpreadChoice(b.s.db.tasks[id].request, b.snapshot, k);
  }

  /** A turn evicts a task only for a pending one of strictly higher priority that fits on no worker of
      the snapshot. */
  lemma EvictionNeedsFailedSpread(b: Batch, id: Id, workers: seq<WorkerWithTasks>, v: Id)
    requires BatchOk(b) && LegalTurn(b, id, workers) && IsRunning(b.s.db, v)
    requires v in Turn(b, id, workers).s.db.tasks && Turn(b, id, workers).s.db.tasks[v] != b.s.db.tasks[v]
    ensures AsksForPlan(b, id) && b.s.db.tasks[v].priority < b.s.db.tasks[id].priority
  {
    if IsPending(b.s.db, id) {
      var t := b.s.db.tasks[id];
      if !NothingFits(t.request, b.snapshot) {
        FittingTaskIsSpread(b, id, workers);
      } else {
        PlanIsSound(b.s.db, t, workers);
        var plan := BestPlan(t.request, t.priority, workers);
        if plan.Some? {
          ExecutePlanRows(b.s, plan.value, id);
          var k :| 0 <= k < |plan.value.victims| && plan.value.victims[k].id == v;
          assert IsRunningRow(b.s.db, plan.value.workerId, plan.value.victims[k]);
        }
      }
    }
  }
}

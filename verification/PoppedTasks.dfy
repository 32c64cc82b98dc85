// Where each id that a batch pops ends up.
module PoppedTasks {
  import opened Types
  import opened PriorityQueues
  import opened BinPacking
  import opened Preemption
  import opened Batching
  import opened Invariants
  import opened BatchRows
  import opened Overcommit
  import opened FailureFacts
  import opened NoLostWork

  // ---------- What later turns leave alone ----------

  ghost predicate SnapshotShrank(before: seq<WorkerCapacity>, after: seq<WorkerCapacity>) {
    && |after| == |before|
    && forall k :: 0 <= k < |before| ==> before[k].available.Covers(after[k].available)
  }

  lemma TurnShrinksSnapshot(b: Batch, id: Id, workers: seq<WorkerWithTasks>)
    requires BatchOk(b)
    ensures SnapshotShrank(b.snapshot, Turn(b, id, workers).snapshot)
  {
    if IsPending(b.s.db, id) {
      assert TaskOk(b.s.db.workers, b.s.db.tasks[id]);
    }
  }

  lemma StillNothingFits(request: Resources, before: seq<WorkerCapacity>, after: seq<WorkerCapacity>)
    requires NothingFits(request, before) && SnapshotShrank(before, after)
    ensures NothingFits(request, after)
  {
    forall k | 0 <= k < |after| ensures !Fits(request, after[k]) {
      assert !Fits(request, before[k]);
    }
  }

  lemma TurnKeepsAssigned(b: Batch, id: Id, workers: seq<WorkerWithTasks>, v: Id)
    requires BatchOk(b) && LegalTurn(b, id, workers)
    requires v in b.s.db.tasks && b.s.db.tasks[v].state == Scheduled && WasAssigned(b.s, v)
    ensures var after := Turn(b, id, workers).s;
            v in after.db.tasks && after.db.tasks[v] == b.s.db.tasks[v] && WasAssigned(after, v)
  {
    var after := Turn(b, id, workers).s;
    TurnRows(b, id, workers);
    assert TurnMoves(b.s.db.tasks[v], after.db.tasks[v]);
    var w :| w in ActiveWorkers(b.s.db) && b.s.db.tasks[v].worker == Some(w) && v in ListOf(b.s.redis.assignments, w);
    ActiveStays(b.s.db, after.db, w);
    TurnAssigns(b, id, workers, w, v);
  }

  lemma TurnAssigns(b: Batch, id: Id, workers: seq<WorkerWithTasks>, w: Id, v: Id)
    requires BatchOk(b) && LegalTurn(b, id, workers) && v in ListOf(b.s.redis.assignments, w)
    ensures v in ListOf(Turn(b, id, workers).s.redis.assignments, w)
  {
    if IsPending(b.s.db, id) {
      var t := b.s.db.tasks[id];
      var choice := SpreadSelect(t.request, b.snapshot);
      if choice.Some? {
        PushedIsListed(b.s.redis.assignments, b.snapshot[choice.value].workerId, id);
      } else {
        PlanIsSound(b.s.db, t, workers);
        var plan := BestPlan(t.request, t.priority, workers);
        if plan.Some? {
          PlanQueue(b.s, plan.value, id);
          PushedIsListed(b.s.redis.assignments, plan.value.workerId, id);
        }
      }
    }
  }

  // ---------- Each popped pending task has exactly one outcome ----------

  ghost predicate WasScheduled(after: Batch, id: Id) {
    && id in after.s.db.tasks && after.s.db.tasks[id].state == Scheduled
    && id !in after.s.redis.queue
    && WasAssigned(after.s, id)
  }

  ghost predicate WasQueuedAgain(t: Task, after: Batch, id: Id) {
    && id in after.s.db.tasks && after.s.db.tasks[id] == t
    && QueuedRight(after.s, id)
    && NothingFits(t.request, after.snapshot)
  }

  lemma OwnTurnDecides(b: Batch, id: Id, workers: seq<WorkerWithTasks>)
    requires BatchOk(b) && LegalTurn(b, id, workers) && IsPending(b.s.db, id) && id !in b.s.redis.queue
    ensures var after := Turn(b, id, workers);
            WasScheduled(after, id) || WasQueuedAgain(b.s.db.tasks[id], after, id)
  {
    TurnHandlesItsTask(b, id, workers);
  }

  lemma LaterTurnKeepsOutcome(t: Task, b: Batch, v: Id, workers: seq<WorkerWithTasks>, id: Id)
    requires BatchOk(b) && LegalTurn(b, v, workers) && v != id && t.state == Pending
    requires WasScheduled(b, id) || WasQueuedAgain(t, b, id)
    ensures var after := Turn(b, v, workers);
            WasScheduled(after, id) || WasQueuedAgain(t, after, id)
  {
    var after := Turn(b, v, workers);
    TurnRows(b, v, workers);
    TurnQueue(b, v, workers);
    assert SameEntry(b.s, after.s, id);
    if WasScheduled(b, id) {
      TurnKeepsAssigned(b, v, workers, id);
    } else {
      TurnShrinksSnapshot(b, v, workers);
      StillNothingFits(t.request, b.snapshot, after.snapshot);
    }
  }

  lemma OtherTurnSpares(b: Batch, v: Id, workers: seq<WorkerWithTasks>, id: Id)
    requires BatchOk(b) && LegalTurn(b, v, workers) && v != id && IsPending(b.s.db, id)
    ensures var after := Turn(b, v, workers).s;
            id in after.db.tasks && after.db.tasks[id] == b.s.db.tasks[id] && SameEntry(b.s, after, id)
  {
    TurnRows(b, v, workers);
    TurnQueue(b, v, workers);
  }

  lemma {:induction false} TurnsDecide(b: Batch, ids: seq<Id>, queries: seq<seq<WorkerWithTasks>>, id: Id)
    requires BatchOk(b) && LegalTurns(b, ids, queries) && Distinct(ids)
    requires IsPending(b.s.db, id) && id !in b.s.redis.queue
    ensures var after := Turns(b, ids, queries);
            if id in ids then WasScheduled(after, id) || WasQueuedAgain(b.s.db.tasks[id], after, id)
            else id in after.s.db.tasks && after.s.db.tasks[id] == b.s.db.tasks[id] && id !in after.s.redis.queue
  {
    if ids != [] {
      var n := |ids| - 1;
      var before := Turns(b, ids[..n], queries[..n]);
      TurnsDecide(b, ids[..n], queries[..n], id);
      TurnsRows(b, ids[..n], queries[..n]);
      assert ids == ids[..n] + [ids[n]];
      if id == ids[n] {
        OwnTurnDecides(before, id, queries[n]);
      } else if id in ids[..n] {
        LaterTurnKeepsOutcome(b.s.db.tasks[id], before, ids[n], queries[n], id);
      } else {
        OtherTurnSpares(before, ids[n], queries[n], id);
      }
    }
  }

  // ---------- A task scheduled in a batch stays scheduled in it ----------

  /** No turn touches a row that is neither pending nor running: what one turn of a batch scheduled,
      no later turn of it evicts. */
  lemma {:induction false} ScheduledIsNeverVictim(b: Batch, ids: seq<Id>, queries: seq<seq<WorkerWithTasks>>, v: Id)
    requires BatchOk(b) && LegalTurns(b, ids, queries)
    requires v in b.s.db.tasks && b.s.db.tasks[v].state != Pending && b.s.db.tasks[v].state != Running
    ensures var after := Turns(b, ids, queries).s.db;
            v in after.tasks && after.tasks[v] == b.s.db.tasks[v]
  {
    if ids != [] {
      var n := |ids| - 1;
      ScheduledIsNeverVictim(b, ids[..n], queries[..n], v);
      TurnsRows(b, ids[..n], queries[..n]);
      var before := Turns(b, ids[..n], queries[..n]);
      TurnRows(before, ids[n], queries[n]);
      assert TurnMoves(before.s.db.tasks[v], Turn(before, ids[n], queries[n]).s.db.tasks[v]);
    }
  }

  // ---------- A popped id that is neither pending nor running ----------

  /** The row, if there is one, is as it was, and the id is not queued. */
  ghost predicate WasDropped(before: Tables, after: State, id: Id) {
    && (id in after.db.tasks <==> id in before.tasks)
    && (id in before.tasks ==> after.db.tasks[id] == before.tasks[id])
    && id !in after.redis.queue
  }

  lemma {:induction false} TurnsDropStale(b: Batch, ids: seq<Id>, queries: seq<seq<WorkerWithTasks>>, id: Id)
    requires BatchOk(b) && LegalTurns(b, ids, queries) && id !in b.s.redis.queue
    requires !IsPending(b.s.db, id) && !IsRunning(b.s.db, id)
    ensures WasDropped(b.s.db, Turns(b, ids, queries).s, id)
  {
    if ids != [] {
      var n := |ids| - 1;
      var before := Turns(b, ids[..n], queries[..n]);
      TurnsDropStale(b, ids[..n], queries[..n], id);
      TurnsRows(b, ids[..n], queries[..n]);
      TurnRows(before, ids[n], queries[n]);
      TurnQueue(before, ids[n], queries[n]);
      if id in before.s.db.tasks {
        assert TurnMoves(before.s.db.tasks[id], Turn(before, ids[n], queries[n]).s.db.tasks[id]);
      }
      if id != ids[n] {
        assert SameEntry(before.s, Turn(before, ids[n], queries[n]).s, id);
      }
    }
  }

  // ---------- A popped id that is running ----------

  /** The task was evicted: it waits, queued at its priority, if it had retries left, and otherwise stays
      PREEMPTED and out of the queue. */
  ghost predicate WasEvicted(t: Task, after: State, id: Id) {
    && id in after.db.tasks && after.db.tasks[id] == Evicted(t)
    && if HasRetriesLeft(t) then QueuedRight(after, id) else id !in after.redis.queue
  }

  /** The task was evicted and dispatched again in the same batch: it is scheduled, in the list of its
      active worker, and still in the queue. */
  ghost predicate WasRedispatched(t: Task, after: State, id: Id) {
    && id in after.db.tasks && WasAssigned(after, id) && QueuedRight(after, id)
    && after.db.tasks[id] == Evicted(t).(state := Scheduled, worker := after.db.tasks[id].worker)
  }

  lemma TurnOnRunning(b: Batch, v: Id, workers: seq<WorkerWithTasks>, id: Id)
    requires BatchOk(b) && LegalTurn(b, v, workers) && IsRunning(b.s.db, id) && id !in b.s.redis.queue
    ensures var after := Turn(b, v, workers).s;
            if IsRunning(after.db, id) then WasDropped(b.s.db, after, id)
            else v != id && WasEvicted(b.s.db.tasks[id], after, id)
  {
    var after := Turn(b, v, workers).s;
    if v != id {
      TurnRows(b, v, workers);
      TurnQueue(b, v, workers);
      assert TurnMoves(b.s.db.tasks[id], after.db.tasks[id]);
      if IsPending(after.db, id) {
        assert QueuedRight(after, id);
      } else {
        assert SameEntry(b.s, after, id);
      }
    }
  }

  lemma TurnKeepsEvicted(t: Task, b: Batch, v: Id, workers: seq<WorkerWithTasks>, id: Id)
    requires BatchOk(b) && LegalTurn(b, v, workers) && t.state == Running && WasEvicted(t, b.s, id)
    requires v != id || !HasRetriesLeft(t)
    ensures WasEvicted(t, Turn(b, v, workers).s, id)
  {
    if v != id {
      TurnRows(b, v, workers);
      TurnQueue(b, v, workers);
      assert TurnMoves(b.s.db.tasks[id], Turn(b, v, workers).s.db.tasks[id]);
      assert SameEntry(b.s, Turn(b, v, workers).s, id);
    }
  }

  lemma TurnKeepsRedispatched(t: Task, b: Batch, v: Id, workers: seq<WorkerWithTasks>, id: Id)
    requires BatchOk(b) && LegalTurn(b, v, workers) && WasRedispatched(t, b.s, id)
    ensures WasRedispatched(t, Turn(b, v, workers).s, id)
  {
    TurnKeepsAssigned(b, v, workers, id);
    if v != id {
      TurnQueue(b, v, workers);
      assert SameEntry(b.s, Turn(b, v, workers).s, id);
    }
  }

  /** The turn finds a place or a plan for its task. */
  ghost predicate FindsRoom(b: Batch, id: Id, workers: seq<WorkerWithTasks>) {
    Places(b, id) || Preempts(b, id, workers)
  }

  lemma TurnOfEvicted(t: Task, b: Batch, id: Id, workers: seq<WorkerWithTasks>)
    requires BatchOk(b) && LegalTurn(b, id, workers)
    requires t.state == Running && HasRetriesLeft(t) && WasEvicted(t, b.s, id)
    ensures var after := Turn(b, id, workers);
            if FindsRoom(b, id, workers) then WasRedispatched(t, after.s, id)
            else WasEvicted(t, after.s, id) && NothingFits(t.request, after.snapshot)
  {
    TurnHandlesItsTask(b, id, workers);
    TurnRows(b, id, workers);
    assert TurnMoves(b.s.db.tasks[id], Turn(b, id, workers).s.db.tasks[id]);
    if FindsRoom(b, id, workers) {
      DispatchingTurn(b, id, workers);
    }
  }

  lemma DispatchingTurn(b: Batch, id: Id, workers: seq<WorkerWithTasks>)
    requires BatchOk(b) && LegalTurn(b, id, workers) && FindsRoom(b, id, workers)
    ensures var after := Turn(b, id, workers).s.db.tasks;
            id in after && after[id].state == Scheduled
  {
    if Preempts(b, id, workers) {
      var t := b.s.db.tasks[id];
      PlanIsSound(b.s.db, t, workers);
      ExecutePlanRows(b.s, BestPlan(t.request, t.priority, workers).value, id);
    }
  }

  lemma {:induction false} BeforeItsTurn(b: Batch, ids: seq<Id>, queries: seq<seq<WorkerWithTasks>>, id: Id)
    requires BatchOk(b) && LegalTurns(b, ids, queries) && id !in ids
    requires IsRunning(b.s.db, id) && id !in b.s.redis.queue
    ensures var after := Turns(b, ids, queries).s;
            if IsRunning(after.db, id) then WasDropped(b.s.db, after, id)
            else WasEvicted(b.s.db.tasks[id], after, id)
  {
    if ids != [] {
      var n := |ids| - 1;
      var before := Turns(b, ids[..n], queries[..n]);
      BeforeItsTurn(b, ids[..n], queries[..n], id);
      TurnsRows(b, ids[..n], queries[..n]);
      if IsRunning(before.s.db, id) {
        TurnOnRunning(before, ids[n], queries[n], id);
      } else {
        TurnKeepsEvicted(b.s.db.tasks[id], before, ids[n], queries[n], id);
      }
    }
  }

  /** What becomes of a running task that is popped `p`-th, by who evicted it: nobody, and it is dropped
      from the queue; a later turn; or an earlier one, and then its own turn handles it like any pending
      task, but leaves the entry that the eviction made. */
  ghost predicate RunningOutcome(t: Task, own: Batch, after: Batch, id: Id, query: seq<WorkerWithTasks>) {
    if IsRunning(own.s.db, id) then
      if IsRunning(after.s.db, id)
      then after.s.db.tasks[id] == t && id !in after.s.redis.queue
      else WasEvicted(t, after.s, id)
    else if HasRetriesLeft(t) then
      if FindsRoom(own, id, query) then WasRedispatched(t, after.s, id)
      else WasEvicted(t, after.s, id) && NothingFits(t.request, after.snapshot)
    else WasEvicted(t, after.s, id)
  }

  lemma OwnTurnOfRunning(b: Batch, ids: seq<Id>, queries: seq<seq<WorkerWithTasks>>, id: Id,
                         query: seq<WorkerWithTasks>)
    requires BatchOk(b) && LegalTurns(b, ids, queries) && id !in ids
    requires IsRunning(b.s.db, id) && id !in b.s.redis.queue
    requires LegalTurn(Turns(b, ids, queries), id, query)
    ensures var own := Turns(b, ids, queries);
            RunningOutcome(b.s.db.tasks[id], own, Turn(own, id, query), id, query)
  {
    var own := Turns(b, ids, queries);
    BeforeItsTurn(b, ids, queries, id);
    TurnsRows(b, ids, queries);
    if !IsRunning(own.s.db, id) && HasRetriesLeft(b.s.db.tasks[id]) {
      TurnOfEvicted(b.s.db.tasks[id], own, id, query);
    }
  }

  lemma LaterTurnOnRunning(t: Task, own: Batch, b: Batch, v: Id, workers: seq<WorkerWithTasks>, id: Id,
                           query: seq<WorkerWithTasks>)
    requires BatchOk(b) && LegalTurn(b, v, workers) && v != id && t.state == Running
    requires RunningOutcome(t, own, b, id, query) && (IsRunning(b.s.db, id) ==> IsRunning(own.s.db, id))
    ensures var after := Turn(b, v, workers);
            RunningOutcome(t, own, after, id, query) && (IsRunning(after.s.db, id) ==> IsRunning(own.s.db, id))
  {
    TurnShrinksSnapshot(b, v, workers);
    if IsRunning(b.s.db, id) {
      TurnOnRunning(b, v, workers, id);
    } else if !IsRunning(own.s.db, id) && HasRetriesLeft(t) && FindsRoom(own, id, query) {
      TurnKeepsRedispatched(t, b, v, workers, id);
    } else {
      TurnKeepsEvicted(t, b, v, workers, id);
      if NothingFits(t.request, b.snapshot) {
        StillNothingFits(t.request, b.snapshot, Turn(b, v, workers).snapshot);
      }
    }
  }

  lemma {:induction false} TurnsOnRunning(b: Batch, ids: seq<Id>, queries: seq<seq<WorkerWithTasks>>, p: nat)
    requires BatchOk(b) && LegalTurns(b, ids, queries) && Distinct(ids) && p < |ids|
    requires IsRunning(b.s.db, ids[p]) && ids[p] !in b.s.redis.queue
    ensures var own, after := Turns(b, ids[..p], queries[..p]), Turns(b, ids, queries);
            && RunningOutcome(b.s.db.tasks[ids[p]], own, after, ids[p], queries[p])
            && (IsRunning(after.s.db, ids[p]) ==> IsRunning(own.s.db, ids[p]))
  {
    var n := |ids| - 1;
    var before := Turns(b, ids[..n], queries[..n]);
    if p == n {
      OwnTurnOfRunning(b, ids[..n], queries[..n], ids[n], queries[n]);
    } else {
      TurnsOnRunning(b, ids[..n], queries[..n], p);
      TurnsRows(b, ids[..n], queries[..n]);
      assert ids[..n][..p] == ids[..p] && queries[..n][..p] == queries[..p];
      LaterTurnOnRunning(b.s.db.tasks[ids[p]], Turns(b, ids[..p], queries[..p]), before, ids[n], queries[n],
                         ids[p], queries[p]);
    }
  }

  // ---------- Every popped id ----------

  /** The capacities a batch ends with. */
  ghost function FinalSnapshot(s: State, count: nat, rows: seq<Id>,
                               queries: seq<seq<WorkerWithTasks>>): seq<WorkerCapacity>
    requires LegalBatch(s, count, rows, queries)
  {
    if rows == [] then []
    else Turns(Batch(Popped(s, count), Snapshot(s.db, rows)), PopBatch(s.redis.queue, count), queries).snapshot
  }

  /** The batch when it comes to its `p`-th id. */
  ghost function BeforeTurn(s: State, count: nat, rows: seq<Id>, queries: seq<seq<WorkerWithTasks>>, p: nat): Batch
    requires LegalBatch(s, count, rows, queries) && rows != [] && p <= |PopBatch(s.redis.queue, count)|
  {
    Turns(Batch(Popped(s, count), Snapshot(s.db, rows)), PopBatch(s.redis.queue, count)[..p], queries[..p])
  }

  /** A task that was pending when a batch popped it ends in exactly one of two ways: scheduled, gone
      from the queue and in the list of its active worker; or still pending, back in the queue at its
      priority, and then it fits on no worker of the final snapshot. */
  lemma PendingIsScheduledOrQueued(s: State, count: nat, rows: seq<Id>, queries: seq<seq<WorkerWithTasks>>, id: Id)
    requires RowsOk(s.db) && LegalBatch(s, count, rows, queries)
    requires IsPending(s.db, id) && id in PopBatch(s.redis.queue, count)
    ensures var after := Batch(ScheduleBatch(s, count, rows, queries), FinalSnapshot(s, count, rows, queries));
            || (WasScheduled(after, id) && !WasQueuedAgain(s.db.tasks[id], after, id))
            || (WasQueuedAgain(s.db.tasks[id], after, id) && !WasScheduled(after, id))
  {
    var ids := PopBatch(s.redis.queue, count);
    PopBatchTakesTheFirst(s.redis.queue, count);
    if rows == [] {
      RequeueQueues(Popped(s, count), ids, s.db.tasks.Keys);
      RequeueKeepsTables(Popped(s, count), ids);
    } else {
      SnapshotIsOk(s, rows, count);
      TurnsDecide(Batch(Popped(s, count), Snapshot(s.db, rows)), ids, queries, id);
    }
  }

  lemma {:induction false} RequeueSparesOthers(s: State, ids: seq<Id>, id: Id)
    requires !IsPending(s.db, id) && id !in s.redis.queue
    ensures id !in Requeue(s, ids).redis.queue
  {
    if ids != [] {
      RequeueSparesOthers(s, ids[..|ids| - 1], id);
    }
  }

  /** An id that was neither pending nor running, or unknown, is dropped: its row stays, its entry goes. So
      is a running one when there is no active worker. */
  lemma OtherIsDropped(s: State, count: nat, rows: seq<Id>, queries: seq<seq<WorkerWithTasks>>, id: Id)
    requires RowsOk(s.db) && LegalBatch(s, count, rows, queries)
    requires id in PopBatch(s.redis.queue, count) && !IsPending(s.db, id) && (rows != [] ==> !IsRunning(s.db, id))
    ensures WasDropped(s.db, ScheduleBatch(s, count, rows, queries), id)
  {
    var ids := PopBatch(s.redis.queue, count);
    if rows == [] {
      RequeueKeepsTables(Popped(s, count), ids);
      RequeueSparesOthers(Popped(s, count), ids, id);
    } else {
      SnapshotIsOk(s, rows, count);
      TurnsDropStale(Batch(Popped(s, count), Snapshot(s.db, rows)), ids, queries, id);
    }
  }

  /** A running task, popped through a stale entry, is SCHEDULED afterwards exactly when an earlier turn of
      the batch evicted it with retries left and its own turn then found it a place or a plan; it is then
      queued as well. It is queued exactly when it was evicted with retries left. */
  lemma RunningIsDroppedOrEvicted(s: State, count: nat, rows: seq<Id>, queries: seq<seq<WorkerWithTasks>>, p: nat)
    requires RowsOk(s.db) && LegalBatch(s, count, rows, queries) && rows != []
    requires p < |PopBatch(s.redis.queue, count)| && IsRunning(s.db, PopBatch(s.redis.queue, count)[p])
    ensures var id := PopBatch(s.redis.queue, count)[p];
            var t, own := s.db.tasks[id], BeforeTurn(s, count, rows, queries, p);
            var after := Batch(ScheduleBatch(s, count, rows, queries), FinalSnapshot(s, count, rows, queries));
            && RunningOutcome(t, own, after, id, queries[p])
            && id in after.s.db.tasks
            && (after.s.db.tasks[id].state == Scheduled <==>
                  !IsRunning(own.s.db, id) && HasRetriesLeft(t) && FindsRoom(own, id, queries[p]))
            && (id in after.s.redis.queue <==> !IsRunning(after.s.db, id) && HasRetriesLeft(t))
  {
    PopBatchTakesTheFirst(s.redis.queue, count);
    SnapshotIsOk(s, rows, count);
    TurnsOnRunning(Batch(Popped(s, count), Snapshot(s.db, rows)), PopBatch(s.redis.queue, count), queries, p);
  }
}

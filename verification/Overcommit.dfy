// How far a batch can overcommit a worker. Spread places against the snapshot taken when the batch
// began; preemption works on the stored capacity and leaves the snapshot as it is.
module Overcommit {
  import opened Types
  import opened PriorityQueues
  import opened BinPacking
  import opened Preemption
  import opened Batching
  import opened Invariants
  import opened BatchRows

  function Min(a: real, b: real): real {
    if a < b then a else b
  }

  function Abs(a: real): real {
    if a < 0.0 then -a else a
  }

  /** The stored amount is at or above minus the absolute value of the given one. */
  predicate AboveMinus(stored: Resources, start: Resources) {
    stored.cpu >= -Abs(start.cpu) && stored.memory >= -Abs(start.memory)
  }

  /** Between the amount a batch started from, the snapshot entry and the stored amount: the snapshot
      only shrinks and never goes below zero by it, and the stored amount is behind the snapshot by
      at most what was there at the start. */
  predicate Within(start: real, snapshot: real, stored: real) {
    snapshot <= start && snapshot >= Min(start, 0.0) && stored - snapshot >= Min(0.0, -start)
  }

  predicate WithinBoth(start: Resources, snapshot: Resources, stored: Resources) {
    Within(start.cpu, snapshot.cpu, stored.cpu) && Within(start.memory, snapshot.memory, stored.memory)
  }

  lemma WithinMeansAboveMinus(start: Resources, snapshot: Resources, stored: Resources)
    requires WithinBoth(start, snapshot, stored)
    ensures AboveMinus(stored, start)
  {
  }

  /** The batch since it began with `start`: same workers in the same places, each within bounds. */
  ghost predicate Envelope(start: seq<WorkerCapacity>, b: Batch) {
    && |b.snapshot| == |start|
    && forall k :: 0 <= k < |start| ==>
         && b.snapshot[k].workerId == start[k].workerId
         && start[k].workerId in b.s.db.workers
         && WithinBoth(start[k].available, b.snapshot[k].available, b.s.db.workers[start[k].workerId].available)
  }

  lemma PlaceWithin(start: Resources, snapshot: Resources, stored: Resources, request: Resources)
    requires WithinBoth(start, snapshot, stored) && snapshot.Covers(request) && request.Positive()
    ensures WithinBoth(start, snapshot.Minus(request), stored.Minus(request))
  {
  }

  lemma PreemptWithin(start: Resources, snapshot: Resources, stored: Resources, after: Resources)
    requires WithinBoth(start, snapshot, stored) && after.NonNegative()
    ensures WithinBoth(start, snapshot, after)
  {
  }

  lemma PlaceKeepsEnvelope(start: seq<WorkerCapacity>, b: Batch, id: Id, k: nat)
    requires BatchOk(b) && Envelope(start, b) && IsPending(b.s.db, id)
    requires k < |b.snapshot| && Fits(b.s.db.tasks[id].request, b.snapshot[k])
    ensures var t := b.s.db.tasks[id];
            Envelope(start, Batch(Dispatch(b.s, id, b.snapshot[k].workerId), Reserve(t.request, b.snapshot, k)))
  {
    var t := b.s.db.tasks[id];
    var w := b.snapshot[k].workerId;
    PlaceWithin(start[k].available, b.snapshot[k].available, b.s.db.workers[w].available, t.request);
    forall j | 0 <= j < |start|
      ensures var after := Dispatch(b.s, id, w);
              && start[j].workerId in after.db.workers
              && WithinBoth(start[j].available, Reserve(t.request, b.snapshot, k)[j].available,
                            after.db.workers[start[j].workerId].available)
    {
      DispatchCapacity(b.s, id, w, start[j].workerId);
    }
  }

  lemma PlanKeepsEnvelope(start: seq<WorkerCapacity>, b: Batch, id: Id, plan: PreemptionPlan)
    requires BatchOk(b) && Envelope(start, b) && IsPending(b.s.db, id)
    requires PlanFits(b.s.db, b.s.db.tasks[id], plan)
    ensures Envelope(start, b.(s := ExecutePlan(b.s, plan, id)))
  {
    forall j | 0 <= j < |start|
      ensures var after := ExecutePlan(b.s, plan, id);
              && start[j].workerId in after.db.workers
              && WithinBoth(start[j].available, b.snapshot[j].available,
                            after.db.workers[start[j].workerId].available)
    {
      ExecutePlanCapacity(b.s, plan, id, start[j].workerId);
      if start[j].workerId == plan.workerId {
        PreemptWithin(start[j].available, b.snapshot[j].available, b.s.db.workers[plan.workerId].available,
                      ExecutePlan(b.s, plan, id).db.workers[plan.workerId].available);
      }
    }
  }

  lemma TurnKeepsEnvelope(start: seq<WorkerCapacity>, b: Batch, id: Id, workers: seq<WorkerWithTasks>)
    requires BatchOk(b) && LegalTurn(b, id, workers) && Envelope(start, b)
    ensures Envelope(start, Turn(b, id, workers))
  {
    if IsPending(b.s.db, id) {
      var t := b.s.db.tasks[id];
      var choice := SpreadSelect(t.request, b.snapshot);
      if choice.Some? {
        PlaceKeepsEnvelope(start, b, id, choice.value);
      } else {
        PlanIsSound(b.s.db, t, workers);
        var plan := BestPlan(t.request, t.priority, workers);
        if plan.Some? {
          PlanKeepsEnvelope(start, b, id, plan.value);
        }
      }
    }
  }

  /** Only active workers' capacities move. */
  lemma TurnSparesInactive(b: Batch, id: Id, workers: seq<WorkerWithTasks>, v: Id)
    requires BatchOk(b) && LegalTurn(b, id, workers)
    requires v in b.s.db.workers && v !in ActiveWorkers(b.s.db)
    ensures var after := Turn(b, id, workers).s.db;
            v in after.workers && after.workers[v] == b.s.db.workers[v]
  {
    TurnRows(b, id, workers);
    if IsPending(b.s.db, id) {
      var t := b.s.db.tasks[id];
      var choice := SpreadSelect(t.request, b.snapshot);
      if choice.Some? {
        DispatchCapacity(b.s, id, b.snapshot[choice.value].workerId, v);
      } else {
        PlanIsSound(b.s.db, t, workers);
        var plan := BestPlan(t.request, t.priority, workers);
        if plan.Some? {
          ExecutePlanCapacity(b.s, plan.value, id, v);
        }
      }
    }
  }

  lemma {:induction false} TurnsKeepEnvelope(b: Batch, ids: seq<Id>, queries: seq<seq<WorkerWithTasks>>,
                                             start: seq<WorkerCapacity>)
    requires BatchOk(b) && LegalTurns(b, ids, queries) && Envelope(start, b)
    ensures Envelope(start, Turns(b, ids, queries))
  {
    if ids != [] {
      var n := |ids| - 1;
      TurnsKeepEnvelope(b, ids[..n], queries[..n], start);
      TurnsRows(b, ids[..n], queries[..n]);
      TurnKeepsEnvelope(start, Turns(b, ids[..n], queries[..n]), ids[n], queries[n]);
    }
  }

  lemma InactiveStays(a: Tables, b: Tables, v: Id)
    requires SameWorkers(a.workers, b.workers) && v in a.workers && v !in ActiveWorkers(a)
    ensures v in b.workers && v !in ActiveWorkers(b)
  {
    SameWorkerAt(a.workers, b.workers, v);
  }

  lemma {:induction false} TurnsSpareInactive(b: Batch, ids: seq<Id>, queries: seq<seq<WorkerWithTasks>>, v: Id)
    requires BatchOk(b) && LegalTurns(b, ids, queries)
    requires v in b.s.db.workers && v !in ActiveWorkers(b.s.db)
    ensures var after := Turns(b, ids, queries).s.db;
            v in after.workers && after.workers[v] == b.s.db.workers[v]
  {
    if ids != [] {
      var n := |ids| - 1;
      TurnsSpareInactive(b, ids[..n], queries[..n], v);
      TurnsRows(b, ids[..n], queries[..n]);
      InactiveStays(b.s.db, Turns(b, ids[..n], queries[..n]).s.db, v);
      TurnSparesInactive(Turns(b, ids[..n], queries[..n]), ids[n], queries[n], v);
    }
  }

  lemma FreshSnapshotIsWithin(s: State, rows: seq<Id>, count: nat)
    requires Lists(rows, ActiveWorkers(s.db))
    ensures Envelope(Snapshot(s.db, rows), Batch(Popped(s, count), Snapshot(s.db, rows)))
  {
  }

  /** A batch leaves every worker's stored capacity at or above minus the absolute value of what it
      was when the batch began. */
  lemma BatchOvercommitBound(s: State, count: nat, rows: seq<Id>, queries: seq<seq<WorkerWithTasks>>, w: Id)
    requires RowsOk(s.db) && LegalBatch(s, count, rows, queries) && w in s.db.workers
    ensures var after := ScheduleBatch(s, count, rows, queries).db;
            w in after.workers && AboveMinus(after.workers[w].available, s.db.workers[w].available)
  {
    var ids := PopBatch(s.redis.queue, count);
    if rows == [] {
      RequeueKeepsTables(Popped(s, count), ids);
    } else {
      var start := Snapshot(s.db, rows);
      var b := Batch(Popped(s, count), start);
      SnapshotIsOk(s, rows, count);
      FreshSnapshotIsWithin(s, rows, count);
      TurnsKeepEnvelope(b, ids, queries, start);
      if w in ActiveWorkers(s.db) {
        var k :| 0 <= k < |rows| && rows[k] == w;
        var after := Turns(b, ids, queries);
        WithinMeansAboveMinus(start[k].available, after.snapshot[k].available, after.s.db.workers[w].available);
      } else {
        TurnsSpareInactive(b, ids, queries, w);
      }
    }
  }

  // ---------- When capacity stays at or above zero ----------

  ghost predicate AllNonNegative(db: Tables) {
    forall w :: w in db.workers ==> db.workers[w].available.NonNegative()
  }

  ghost predicate Places(b: Batch, id: Id) {
    IsPending(b.s.db, id) && SpreadSelect(b.s.db.tasks[id].request, b.snapshot).Some?
  }

  ghost predicate Preempts(b: Batch, id: Id, workers: seq<WorkerWithTasks>) {
    && IsPending(b.s.db, id) && !Places(b, id)
    && BestPlan(b.s.db.tasks[id].request, b.s.db.tasks[id].priority, workers).Some?
  }

  /** The worker spread is about to place the task on has the stored capacity for it. */
  ghost predicate StoredCovers(b: Batch, id: Id) {
    Places(b, id) ==>
      var t := b.s.db.tasks[id];
      var w := b.snapshot[SpreadSelect(t.request, b.snapshot).value].workerId;
      w in b.s.db.workers && b.s.db.workers[w].available.Covers(t.request)
  }

  /** A turn takes some worker below zero exactly when it places a task on a worker whose stored
      capacity, not its snapshot entry, is too small. */
  lemma TurnStaysNonNegativeExactly(b: Batch, id: Id, workers: seq<WorkerWithTasks>)
    requires BatchOk(b) && LegalTurn(b, id, workers) && AllNonNegative(b.s.db)
    ensures AllNonNegative(Turn(b, id, workers).s.db) <==> StoredCovers(b, id)
  {
    TurnRows(b, id, workers);
    var after := Turn(b, id, workers).s.db;
    if IsPending(b.s.db, id) {
      var t := b.s.db.tasks[id];
      if Places(b, id) {
        var w := b.snapshot[SpreadSelect(t.request, b.snapshot).value].workerId;
        DispatchCapacity(b.s, id, w, w);
        assert after.workers[w].available == b.s.db.workers[w].available.Minus(t.request);
        forall v | v in after.workers && v != w ensures after.workers[v].available.NonNegative() {
          DispatchCapacity(b.s, id, w, v);
          assert b.s.db.workers[v].available.NonNegative();
        }
      } else {
        PlanIsSound(b.s.db, t, workers);
        var plan := BestPlan(t.request, t.priority, workers);
        if plan.Some? {
          forall v | v in after.workers ensures after.workers[v].available.NonNegative() {
            ExecutePlanCapacity(b.s, plan.value, id, v);
            assert b.s.db.workers[v].available.NonNegative();
          }
        }
      }
    }
  }

  /** No worker is below zero before or after any of these turns. */
  ghost predicate NonNegativeThroughout(b: Batch, ids: seq<Id>, queries: seq<seq<WorkerWithTasks>>)
    requires |queries| == |ids|
  {
    && AllNonNegative(Turns(b, ids, queries).s.db)
    && (ids != [] ==> NonNegativeThroughout(b, ids[..|ids| - 1], queries[..|ids| - 1]))
  }

  /** Each of these turns places, if it does, on a worker whose stored capacity covers the request. */
  ghost predicate CoveredThroughout(b: Batch, ids: seq<Id>, queries: seq<seq<WorkerWithTasks>>)
    requires |queries| == |ids|
  {
    ids != [] ==>
      var n := |ids| - 1;
      CoveredThroughout(b, ids[..n], queries[..n]) && StoredCovers(Turns(b, ids[..n], queries[..n]), ids[n])
  }

  /** The turns of a batch never take a worker below zero exactly when every one of them places on a
      worker whose stored capacity covers the request. */
  lemma {:induction false} TurnsStayNonNegativeExactly(b: Batch, ids: seq<Id>, queries: seq<seq<WorkerWithTasks>>)
    requires BatchOk(b) && LegalTurns(b, ids, queries) && AllNonNegative(b.s.db)
    ensures NonNegativeThroughout(b, ids, queries) <==> CoveredThroughout(b, ids, queries)
  {
    if ids != [] {
      var n := |ids| - 1;
      TurnsStayNonNegativeExactly(b, ids[..n], queries[..n]);
      TurnsRows(b, ids[..n], queries[..n]);
      if NonNegativeThroughout(b, ids[..n], queries[..n]) {
        TurnStaysNonNegativeExactly(Turns(b, ids[..n], queries[..n]), ids[n], queries[n]);
      }
    }
  }

  /** The snapshot promises exactly what is stored. */
  ghost predicate SnapshotCurrent(b: Batch) {
    forall k :: 0 <= k < |b.snapshot| ==>
      && b.snapshot[k].workerId in b.s.db.workers
      && b.s.db.workers[b.snapshot[k].workerId].available == b.snapshot[k].available
  }

  lemma TurnKeepsSnapshotCurrent(b: Batch, id: Id, workers: seq<WorkerWithTasks>)
    requires BatchOk(b) && SnapshotCurrent(b) && !Preempts(b, id, workers)
    ensures SnapshotCurrent(Turn(b, id, workers))
    ensures StoredCovers(b, id)
  {
    if Places(b, id) {
      var t := b.s.db.tasks[id];
      var k := SpreadSelect(t.request, b.snapshot).value;
      var after := Turn(b, id, workers);
      forall j | 0 <= j < |b.snapshot|
        ensures after.snapshot[j].workerId in after.s.db.workers
        ensures after.s.db.workers[after.snapshot[j].workerId].available == after.snapshot[j].available
      {
        DispatchCapacity(b.s, id, b.snapshot[k].workerId, b.snapshot[j].workerId);
      }
    }
  }

  /** One of these turns preempts. */
  ghost predicate PreemptedIn(b: Batch, ids: seq<Id>, queries: seq<seq<WorkerWithTasks>>)
    requires |queries| == |ids|
  {
    ids != [] &&
    var n := |ids| - 1;
    PreemptedIn(b, ids[..n], queries[..n]) || Preempts(Turns(b, ids[..n], queries[..n]), ids[n], queries[n])
  }

  /** In these turns no spread placement comes after a preemption. */
  ghost predicate NoPlacementAfterPreemption(b: Batch, ids: seq<Id>, queries: seq<seq<WorkerWithTasks>>)
    requires |queries| == |ids|
  {
    ids != [] ==>
      var n := |ids| - 1;
      NoPlacementAfterPreemption(b, ids[..n], queries[..n]) &&
      (Places(Turns(b, ids[..n], queries[..n]), ids[n]) ==> !PreemptedIn(b, ids[..n], queries[..n]))
  }

  lemma {:induction false} CleanTurnsStayNonNegative(b: Batch, ids: seq<Id>, queries: seq<seq<WorkerWithTasks>>)
    requires BatchOk(b) && LegalTurns(b, ids, queries)
    requires SnapshotCurrent(b) && AllNonNegative(b.s.db)
    requires NoPlacementAfterPreemption(b, ids, queries)
    ensures NonNegativeThroughout(b, ids, queries)
    ensures !PreemptedIn(b, ids, queries) ==> SnapshotCurrent(Turns(b, ids, queries))
  {
    if ids != [] {
      var n := |ids| - 1;
      var before := Turns(b, ids[..n], queries[..n]);
      CleanTurnsStayNonNegative(b, ids[..n], queries[..n]);
      TurnsRows(b, ids[..n], queries[..n]);
      if Preempts(before, ids[n], queries[n]) || PreemptedIn(b, ids[..n], queries[..n]) {
        assert !Places(before, ids[n]);
      } else {
        TurnKeepsSnapshotCurrent(before, ids[n], queries[n]);
      }
      TurnStaysNonNegativeExactly(before, ids[n], queries[n]);
    }
  }

  ghost predicate CleanBatch(s: State, count: nat, rows: seq<Id>, queries: seq<seq<WorkerWithTasks>>)
    requires LegalBatch(s, count, rows, queries)
  {
    rows != [] ==>
      NoPlacementAfterPreemption(Batch(Popped(s, count), Snapshot(s.db, rows)), PopBatch(s.redis.queue, count), queries)
  }

  /** No worker is below zero before, during or after the batch. */
  ghost predicate BatchStaysNonNegative(s: State, count: nat, rows: seq<Id>, queries: seq<seq<WorkerWithTasks>>)
    requires LegalBatch(s, count, rows, queries)
  {
    if rows == [] then AllNonNegative(s.db)
    else NonNegativeThroughout(Batch(Popped(s, count), Snapshot(s.db, rows)), PopBatch(s.redis.queue, count), queries)
  }

  ghost predicate BatchIsCovered(s: State, count: nat, rows: seq<Id>, queries: seq<seq<WorkerWithTasks>>)
    requires LegalBatch(s, count, rows, queries)
  {
    rows != [] ==>
      CoveredThroughout(Batch(Popped(s, count), Snapshot(s.db, rows)), PopBatch(s.redis.queue, count), queries)
  }

  lemma BatchStaysNonNegativeExactly(s: State, count: nat, rows: seq<Id>, queries: seq<seq<WorkerWithTasks>>)
    requires RowsOk(s.db) && LegalBatch(s, count, rows, queries) && AllNonNegative(s.db)
    ensures BatchStaysNonNegative(s, count, rows, queries) <==> BatchIsCovered(s, count, rows, queries)
    ensures BatchStaysNonNegative(s, count, rows, queries) ==>
              AllNonNegative(ScheduleBatch(s, count, rows, queries).db)
  {
    var ids := PopBatch(s.redis.queue, count);
    if rows == [] {
      RequeueKeepsTables(Popped(s, count), ids);
    } else {
      var b := Batch(Popped(s, count), Snapshot(s.db, rows));
      SnapshotIsOk(s, rows, count);
      TurnsStayNonNegativeExactly(b, ids, queries);
    }
  }

  /** A batch in which no spread placement follows a preemption never takes a worker below zero. */
  lemma CleanBatchStaysNonNegative(s: State, count: nat, rows: seq<Id>, queries: seq<seq<WorkerWithTasks>>)
    requires RowsOk(s.db) && LegalBatch(s, count, rows, queries)
    requires AllNonNegative(s.db) && CleanBatch(s, count, rows, queries)
    ensures BatchStaysNonNegative(s, count, rows, queries)
    ensures AllNonNegative(ScheduleBatch(s, count, rows, queries).db)
  {
    var ids := PopBatch(s.redis.queue, count);
    if rows == [] {
      RequeueKeepsTables(Popped(s, count), ids);
    } else {
      SnapshotIsOk(s, rows, count);
      CleanTurnsStayNonNegative(Batch(Popped(s, count), Snapshot(s.db, rows)), ids, queries);
    }
  }
}

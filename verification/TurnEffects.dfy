// What a turn of the batch changes and what it leaves alone, field by field, and how long it lasts.
module TurnEffects {
  import opened Types
  import opened PriorityQueues
  import opened BinPacking
  import opened Preemption
  import opened Batching
  import opened Invariants
  import opened BatchRows
  import opened NoLostWork
  import opened PoppedTasks
  import opened BatchOutcome
  import opened Recovery
  import opened HandlerEffects

  /** One worker's free capacity changes by these amounts; nothing else about any worker does. */
  ghost predicate CapacityMoved(db: Tables, after: Tables, w: Id, cpu: real, memory: real) {
    && after.workers.Keys == db.workers.Keys
    && forall v :: v in db.workers ==>
         && after.workers[v].hostname == db.workers[v].hostname && after.workers[v].status == db.workers[v].status
         && after.workers[v].total == db.workers[v].total
         && after.workers[v].available.cpu == db.workers[v].available.cpu + (if v == w then cpu else 0.0)
         && after.workers[v].available.memory == db.workers[v].available.memory + (if v == w then memory else 0.0)
  }

  /** One worker's list gains these ids at its end; all other lists stay. */
  ghost predicate ListGrew(before: map<Id, seq<Id>>, after: map<Id, seq<Id>>, w: Id, added: seq<Id>) {
    forall v :: ListOf(after, v) == ListOf(before, v) + if v == w then added else []
  }

  // ---------- Spread ----------

  /** A pending task for which some snapshot entry has room goes to the entry that is left with most, in
      CPUs and gigabytes, the least id among equals. The entry and the stored worker give up the
      request, and the worker's list gains the task. */
  lemma SpreadTurnEffect(b: Batch, id: Id, workers: seq<WorkerWithTasks>) returns (k: nat)
    requires BatchOk(b) && IsPending(b.s.db, id)
    requires exists j :: && 0 <= j < |b.snapshot|
                         && b.snapshot[j].available.cpu >= b.s.db.tasks[id].request.cpu
                         && b.snapshot[j].available.memory >= b.s.db.tasks[id].request.memory
    ensures k < |b.snapshot|
    ensures var request, free := b.s.db.tasks[id].request, b.snapshot[k].available;
            && free.cpu >= request.cpu && free.memory >= request.memory
            && forall j :: 0 <= j < |b.snapshot| ==>
                 var other := b.snapshot[j].available;
                 other.cpu >= request.cpu && other.memory >= request.memory ==>
                   var headroom := (free.cpu - request.cpu) + (free.memory - request.memory) / 1024.0;
                   var less := (other.cpu - request.cpu) + (other.memory - request.memory) / 1024.0;
                   less < headroom || (less == headroom && b.snapshot[k].workerId <= b.snapshot[j].workerId)
    ensures var t, w, after := b.s.db.tasks[id], b.snapshot[k].workerId, Turn(b, id, workers);
            && id in after.s.db.tasks && after.s.db.tasks[id] == t.(state := Scheduled, worker := Some(w))
            && OtherRowsKept(b.s.db.tasks, after.s.db.tasks, id)
            && CapacityMoved(b.s.db, after.s.db, w, -t.request.cpu, -t.request.memory)
            && after.s.redis.queue == b.s.redis.queue && after.s.redis.preempts == b.s.redis.preempts
            && ListGrew(b.s.redis.assignments, after.s.redis.assignments, w, [id])
            && after.snapshot == b.snapshot[k := WorkerCapacity(w, after.snapshot[k].available)]
            && after.snapshot[k].available.cpu == b.snapshot[k].available.cpu - t.request.cpu
            && after.snapshot[k].available.memory == b.snapshot[k].available.memory - t.request.memory
  {
    var t := b.s.db.tasks[id];
    NothingFitsExactly(t.request, b.snapshot);
    k := SpreadSelect(t.request, b.snapshot).value;
    SpreadChoiceMaximises(t.request, b.snapshot, k);
    DispatchEffect(b.s, id, b.snapshot[k].workerId);
  }

  lemma DispatchEffect(s: State, id: Id, w: Id)
    requires IsPending(s.db, id) && w in s.db.workers
    ensures var t, after := s.db.tasks[id], Dispatch(s, id, w);
            && id in after.db.tasks && after.db.tasks[id] == t.(state := Scheduled, worker := Some(w))
            && OtherRowsKept(s.db.tasks, after.db.tasks, id)
            && CapacityMoved(s.db, after.db, w, -t.request.cpu, -t.request.memory)
            && after.redis.queue == s.redis.queue && after.redis.preempts == s.redis.preempts
            && ListGrew(s.redis.assignments, after.redis.assignments, w, [id])
  {
  }

  // ---------- Preemption ----------

  lemma {:induction false} SignalsSpareOthers(s: State, w: Id, victims: seq<RunningTask>, v: Id)
    requires v != w
    ensures ListOf(EvictAll(s, w, victims).redis.preempts, v) == ListOf(s.redis.preempts, v)
  {
    if victims != [] {
      SignalsSpareOthers(s, w, victims[..|victims| - 1], v);
    }
  }

  /** The task is dispatched to the worker, from which exactly these victims are evicted. Each waits
      unassigned, charged one retry and queued at its priority, or stays PREEMPTED if it has no retry
      left. The worker gives up the request and gets the victims' back; it is told to stop the victims, in
      order, and to run the task. Nothing else changes. */
  ghost predicate PlanExecuted(s: State, after: State, id: Id, w: Id, victims: seq<RunningTask>)
    requires id in s.db.tasks
  {
    && after.db.tasks.Keys == s.db.tasks.Keys
    && after.db.tasks[id] == s.db.tasks[id].(state := Scheduled, worker := Some(w))
    && (forall v :: v in s.db.tasks && v != id ==>
          var was := s.db.tasks[v];
          after.db.tasks[v] ==
          if !IsVictim(victims, v) then was
          else if was.retries < was.maxRetries then was.(state := Pending, worker := None, retries := was.retries + 1)
          else was.(state := Preempted))
    && CapacityMoved(s.db, after.db, w, Sum(victims).cpu - s.db.tasks[id].request.cpu,
                     Sum(victims).memory - s.db.tasks[id].request.memory)
    && (forall v :: if v in s.db.tasks && IsVictim(victims, v) && s.db.tasks[v].retries < s.db.tasks[v].maxRetries
                    then v in after.redis.queue && after.redis.queue[v] == -s.db.tasks[v].priority
                    else SameIn(s.redis.queue, after.redis.queue, v))
    && ListGrew(s.redis.preempts, after.redis.preempts, w, VictimIds(victims))
    && ListGrew(s.redis.assignments, after.redis.assignments, w, [id])
  }

  lemma PlanCapacity(s: State, plan: PreemptionPlan, id: Id)
    requires RowsOk(s.db) && IsPending(s.db, id) && PlanFits(s.db, s.db.tasks[id], plan)
    ensures CapacityMoved(s.db, ExecutePlan(s, plan, id).db, plan.workerId,
                          Sum(plan.victims).cpu - s.db.tasks[id].request.cpu,
                          Sum(plan.victims).memory - s.db.tasks[id].request.memory)
  {
    ExecutePlanRows(s, plan, id);
    forall v | v in s.db.workers
      ensures var after := ExecutePlan(s, plan, id).db.workers;
              && v in after
              && after[v].available.cpu == s.db.workers[v].available.cpu +
                 (if v == plan.workerId then Sum(plan.victims).cpu - s.db.tasks[id].request.cpu else 0.0)
              && after[v].available.memory == s.db.workers[v].available.memory +
                 (if v == plan.workerId then Sum(plan.victims).memory - s.db.tasks[id].request.memory else 0.0)
    {
      ExecutePlanCapacity(s, plan, id, v);
    }
  }

  lemma PlanLists(s: State, plan: PreemptionPlan, id: Id)
    requires RowsOk(s.db) && IsPending(s.db, id) && PlanFits(s.db, s.db.tasks[id], plan)
    ensures var after := ExecutePlan(s, plan, id).redis;
            && ListGrew(s.redis.preempts, after.preempts, plan.workerId, VictimIds(plan.victims))
            && ListGrew(s.redis.assignments, after.assignments, plan.workerId, [id])
  {
    var after := ExecutePlan(s, plan, id).redis;
    var mid := EvictAll(s, plan.workerId, plan.victims);
    PlanQueue(s, plan, id);
    PlanSparesTheTask(s, plan, id);
    assert after.preempts == mid.redis.preempts;
    VictimsAreSignalled(s, plan.workerId, plan.victims);
    forall v | v != plan.workerId ensures ListOf(after.preempts, v) == ListOf(s.redis.preempts, v) {
      SignalsSpareOthers(s, plan.workerId, plan.victims, v);
    }
  }

  lemma PlanExecutionEffect(s: State, plan: PreemptionPlan, id: Id)
    requires RowsOk(s.db) && IsPending(s.db, id) && PlanFits(s.db, s.db.tasks[id], plan)
    ensures PlanExecuted(s, ExecutePlan(s, plan, id), id, plan.workerId, plan.victims)
  {
    var after := ExecutePlan(s, plan, id);
    ExecutePlanRows(s, plan, id);
    PlanCapacity(s, plan, id);
    PlanLists(s, plan, id);
    forall v
      ensures if v in s.db.tasks && IsVictim(plan.victims, v) && s.db.tasks[v].retries < s.db.tasks[v].maxRetries
              then v in after.redis.queue && after.redis.queue[v] == -s.db.tasks[v].priority
              else SameIn(s.redis.queue, after.redis.queue, v)
    {
      PlanEntry(s, plan, id, v);
    }
  }

  lemma BestPlanWastesLeast(request: Resources, priority: int, workers: seq<WorkerWithTasks>) returns (i: nat)
    requires exists j :: 0 <= j < |workers| && GreedyPlan(request, priority, workers[j]).Some?
    ensures WastesLeast(request, priority, workers, i)
    ensures BestPlan(request, priority, workers) == GreedyPlan(request, priority, workers[i])
    ensures GreedyPlan(request, priority, workers[i]).value.workerId == workers[i].workerId
  {
    PlanExists(request, priority, workers);
    PlannerMinimisesLeftover(request, priority, workers);
    i :| WastesLeast(request, priority, workers, i) &&
         GreedyPlan(request, priority, workers[i]) == BestPlan(request, priority, workers);
    GreedyTakesShortestPrefix(request, priority, workers[i]);
  }

  lemma PlanExists(request: Resources, priority: int, workers: seq<WorkerWithTasks>)
    ensures BestPlan(request, priority, workers).Some? <==>
              exists j :: 0 <= j < |workers| && GreedyPlan(request, priority, workers[j]).Some?
  {
    var plans := PlansFor(request, priority, workers);
    var _ := BestOfIsFirstLeast(plans);
    forall j | 0 <= j < |workers| ensures plans[j] == GreedyPlan(request, priority, workers[j]) {
    }
  }

  /** A pending task that fits on no snapshot entry, when some queried worker has a greedy plan, goes to the
      first worker whose plan wastes least, and exactly that plan is executed there. */
  lemma PreemptionTurnEffect(b: Batch, id: Id, workers: seq<WorkerWithTasks>) returns (i: nat)
    requires BatchOk(b) && AsksForPlan(b, id) && IsQueryResult(b.s.db, workers)
    requires exists j :: 0 <= j < |workers| &&
                         GreedyPlan(b.s.db.tasks[id].request, b.s.db.tasks[id].priority, workers[j]).Some?
    ensures var t, after := b.s.db.tasks[id], Turn(b, id, workers);
            && WastesLeast(t.request, t.priority, workers, i)
            && PlanExecuted(b.s, after.s, id, workers[i].workerId,
                            GreedyPlan(t.request, t.priority, workers[i]).value.victims)
            && after.snapshot == b.snapshot
  {
    var t := b.s.db.tasks[id];
    i := BestPlanWastesLeast(t.request, t.priority, workers);
    PlanIsSound(b.s.db, t, workers);
    PlanExecutionEffect(b.s, BestPlan(t.request, t.priority, workers).value, id);
  }

  // ---------- Neither ----------

  /** Without any greedy plan the task goes back to the queue at its priority, and nothing else changes. */
  lemma RequeueTurnEffect(b: Batch, id: Id, workers: seq<WorkerWithTasks>)
    requires AsksForPlan(b, id)
    requires forall j :: 0 <= j < |workers| ==>
               GreedyPlan(b.s.db.tasks[id].request, b.s.db.tasks[id].priority, workers[j]).None?
    ensures var after := Turn(b, id, workers);
            && after.snapshot == b.snapshot && after.s.db == b.s.db
            && id in after.s.redis.queue && after.s.redis.queue[id] == -b.s.db.tasks[id].priority
            && OtherEntriesKept(b.s.redis.queue, after.s.redis.queue, id)
            && ListsKept(b.s.redis, after.s.redis)
  {
    var t := b.s.db.tasks[id];
    PlanExists(t.request, t.priority, workers);
  }

  /** An id that is not pending is passed over. */
  lemma SkippedTurnEffect(b: Batch, id: Id, workers: seq<WorkerWithTasks>)
    requires !(id in b.s.db.tasks && b.s.db.tasks[id].state == Pending)
    ensures Turn(b, id, workers) == b
  {
  }

  // ---------- In a whole batch ----------

  /** A batch begins with the popped ids out of the queue and one snapshot entry for each active worker, showing
      what that worker has free. */
  lemma BatchBegins(s: State, count: nat, rows: seq<Id>, queries: seq<seq<WorkerWithTasks>>)
    requires LegalBatch(s, count, rows, queries) && rows != []
    ensures var b, ids := BeforeTurn(s, count, rows, queries, 0), PopBatch(s.redis.queue, count);
            && b.s.db == s.db && ListsKept(s.redis, b.s.redis)
            && (forall id :: if id in ids then id !in b.s.redis.queue else SameIn(s.redis.queue, b.s.redis.queue, id))
            && (forall i, j :: 0 <= i < j < |b.snapshot| ==> b.snapshot[i].workerId != b.snapshot[j].workerId)
            && (forall k :: 0 <= k < |b.snapshot| ==>
                  var w := b.snapshot[k].workerId;
                  && w in s.db.workers && s.db.workers[w].status == Active
                  && b.snapshot[k].available == s.db.workers[w].available)
            && (forall w :: w in s.db.workers && s.db.workers[w].status == Active ==>
                  exists k :: 0 <= k < |b.snapshot| && b.snapshot[k].workerId == w)
  {
    var b := BeforeTurn(s, count, rows, queries, 0);
    assert b.snapshot == Snapshot(s.db, rows);
    forall k | 0 <= k < |rows| ensures rows[k] in s.db.workers && s.db.workers[rows[k]].status == Active {
      assert rows[k] in ActiveWorkers(s.db);
    }
    forall w | w in s.db.workers && s.db.workers[w].status == Active
      ensures exists k :: 0 <= k < |b.snapshot| && b.snapshot[k].workerId == w
    {
      assert w in ActiveWorkers(s.db);
      var k :| 0 <= k < |rows| && rows[k] == w;
      assert b.snapshot[k].workerId == w;
    }
  }

  /** The batch is its turns, one after the other, each on what the one before left. */
  lemma BatchStep(s: State, count: nat, rows: seq<Id>, queries: seq<seq<WorkerWithTasks>>, p: nat)
    requires RowsOk(s.db) && LegalBatch(s, count, rows, queries) && rows != []
    requires p < |PopBatch(s.redis.queue, count)|
    ensures var id, b := PopBatch(s.redis.queue, count)[p], BeforeTurn(s, count, rows, queries, p);
            && BatchOk(b) && LegalTurn(b, id, queries[p])
            && BeforeTurn(s, count, rows, queries, p + 1) == Turn(b, id, queries[p])
    ensures BeforeTurn(s, count, rows, queries, |PopBatch(s.redis.queue, count)|).s ==
            ScheduleBatch(s, count, rows, queries)
  {
    var ids := PopBatch(s.redis.queue, count);
    var start := Batch(Popped(s, count), Snapshot(s.db, rows));
    SnapshotIsOk(s, rows, count);
    LegalTurnsPrefix(start, ids, queries, p + 1);
    assert ids[..p + 1][..p] == ids[..p] && queries[..p + 1][..p] == queries[..p];
    TurnsRows(start, ids[..p], queries[..p]);
    assert ids[..|ids|] == ids && queries[..|ids|] == queries;
  }

  /** A row scheduled after `n` turns is so after all of them. */
  lemma {:induction false} ScheduledToTheEnd(b: Batch, ids: seq<Id>, queries: seq<seq<WorkerWithTasks>>, n: nat, v: Id)
    requires BatchOk(b) && LegalTurns(b, ids, queries) && n <= |ids|
    requires var mid := Turns(b, ids[..n], queries[..n]).s.db; v in mid.tasks && mid.tasks[v].state == Scheduled
    ensures var end := Turns(b, ids, queries).s.db;
            v in end.tasks && end.tasks[v] == Turns(b, ids[..n], queries[..n]).s.db.tasks[v]
  {
    var m := |ids| - 1;
    if n > m {
      assert ids[..n] == ids && queries[..n] == queries;
    } else {
      assert ids[..m][..n] == ids[..n] && queries[..m][..n] == queries[..n];
      ScheduledToTheEnd(b, ids[..m], queries[..m], n, v);
      TurnsRows(b, ids[..m], queries[..m]);
      var before := Turns(b, ids[..m], queries[..m]);
      TurnRows(before, ids[m], queries[m]);
      assert TurnMoves(before.s.db.tasks[v], Turn(before, ids[m], queries[m]).s.db.tasks[v]);
    }
  }

  /** In a batch, a task that fits nowhere at its turn, when some worker then has a greedy plan, ends on the
      first worker whose plan wastes least, and its turn executes exactly that plan. */
  lemma BatchPreemptsWithLeastWaste(s: State, count: nat, rows: seq<Id>, queries: seq<seq<WorkerWithTasks>>, p: nat)
    returns (i: nat)
    requires RowsOk(s.db) && LegalBatch(s, count, rows, queries) && rows != []
    requires p < |PopBatch(s.redis.queue, count)|
    requires AsksForPlan(BeforeTurn(s, count, rows, queries, p), PopBatch(s.redis.queue, count)[p])
    requires var t := BeforeTurn(s, count, rows, queries, p).s.db.tasks[PopBatch(s.redis.queue, count)[p]];
             exists j :: 0 <= j < |queries[p]| && GreedyPlan(t.request, t.priority, queries[p][j]).Some?
    ensures var id := PopBatch(s.redis.queue, count)[p];
            var b, next := BeforeTurn(s, count, rows, queries, p).s, BeforeTurn(s, count, rows, queries, p + 1).s;
            var t, end := b.db.tasks[id], ScheduleBatch(s, count, rows, queries).db.tasks;
            && WastesLeast(t.request, t.priority, queries[p], i)
            && PlanExecuted(b, next, id, queries[p][i].workerId,
                            GreedyPlan(t.request, t.priority, queries[p][i]).value.victims)
            && id in end && end[id] == t.(state := Scheduled, worker := Some(queries[p][i].workerId))
  {
    var ids := PopBatch(s.redis.queue, count);
    BatchStep(s, count, rows, queries, p);
    i := PreemptionTurnEffect(BeforeTurn(s, count, rows, queries, p), ids[p], queries[p]);
    SnapshotIsOk(s, rows, count);
    ScheduledToTheEnd(Batch(Popped(s, count), Snapshot(s.db, rows)), ids, queries, p + 1, ids[p]);
  }

  // ---------- Signals ----------

  /** No list loses an entry or changes their order. */
  ghost predicate OnlyGrew(before: map<Id, seq<Id>>, after: map<Id, seq<Id>>) {
    forall w :: ListOf(before, w) <= ListOf(after, w)
  }

  lemma GrownListOnlyGrew(before: map<Id, seq<Id>>, after: map<Id, seq<Id>>, w: Id, added: seq<Id>)
    requires ListGrew(before, after, w, added)
    ensures OnlyGrew(before, after)
  {
  }

  lemma {:induction false} VictimIdIn(victims: seq<RunningTask>, v: Id)
    ensures v in VictimIds(victims) <==> IsVictim(victims, v)
  {
    if victims != [] {
      var n := |victims| - 1;
      VictimIdIn(victims[..n], v);
      assert victims == victims[..n] + [victims[n]];
      assert IsVictim(victims, v) <==> IsVictim(victims[..n], v) || victims[n].id == v by {
        if IsVictim(victims, v) && victims[n].id != v {
          var k :| 0 <= k < |victims| && victims[k].id == v;
          assert victims[..n][k].id == v;
        }
        if IsVictim(victims[..n], v) {
          var k :| 0 <= k < n && victims[..n][k].id == v;
          assert victims[k].id == v;
        }
        if victims[n].id == v {
          assert IsVictim(victims, v);
        }
      }
    }
  }

  lemma PlanSignals(s: State, plan: PreemptionPlan, id: Id, v: Id)
    requires RowsOk(s.db) && IsPending(s.db, id) && PlanFits(s.db, s.db.tasks[id], plan)
    ensures var after := ExecutePlan(s, plan, id);
            && OnlyGrew(s.redis.preempts, after.redis.preempts)
            && (IsRunning(s.db, v) && !IsRunning(after.db, v) ==>
                  s.db.tasks[v].worker.Some? && v in ListOf(after.redis.preempts, s.db.tasks[v].worker.value))
  {
    var after := ExecutePlan(s, plan, id);
    PlanLists(s, plan, id);
    GrownListOnlyGrew(s.redis.preempts, after.redis.preempts, plan.workerId, VictimIds(plan.victims));
    ExecutePlanRows(s, plan, id);
    if IsRunning(s.db, v) && !IsRunning(after.db, v) {
      VictimIdIn(plan.victims, v);
      var k :| 0 <= k < |plan.victims| && plan.victims[k].id == v;
      assert IsRunningRow(s.db, plan.workerId, plan.victims[k]);
    }
  }

  lemma TurnSignals(b: Batch, id: Id, workers: seq<WorkerWithTasks>, v: Id)
    requires BatchOk(b) && LegalTurn(b, id, workers)
    ensures var after := Turn(b, id, workers).s;
            && OnlyGrew(b.s.redis.preempts, after.redis.preempts)
            && (IsRunning(b.s.db, v) && !IsRunning(after.db, v) ==>
                  b.s.db.tasks[v].worker.Some? && v in ListOf(after.redis.preempts, b.s.db.tasks[v].worker.value))
  {
    if IsPending(b.s.db, id) {
      var t := b.s.db.tasks[id];
      var choice := SpreadSelect(t.request, b.snapshot);
      if choice.Some? {
        DispatchRows(b.s, id, b.snapshot[choice.value].workerId);
      } else {
        PlanIsSound(b.s.db, t, workers);
        var plan := BestPlan(t.request, t.priority, workers);
        if plan.Some? {
          PlanSignals(b.s, plan.value, id, v);
        }
      }
    }
  }

  lemma {:induction false} TurnsSignal(b: Batch, ids: seq<Id>, queries: seq<seq<WorkerWithTasks>>, v: Id)
    requires BatchOk(b) && LegalTurns(b, ids, queries) && IsRunning(b.s.db, v)
    ensures var after := Turns(b, ids, queries).s;
            && OnlyGrew(b.s.redis.preempts, after.redis.preempts)
            && v in after.db.tasks
            && (if IsRunning(after.db, v) then after.db.tasks[v] == b.s.db.tasks[v]
                else b.s.db.tasks[v].worker.Some? &&
                     v in ListOf(after.redis.preempts, b.s.db.tasks[v].worker.value))
  {
    if ids != [] {
      var n := |ids| - 1;
      var before := Turns(b, ids[..n], queries[..n]);
      TurnsSignal(b, ids[..n], queries[..n], v);
      TurnsRows(b, ids[..n], queries[..n]);
      TurnRows(before, ids[n], queries[n]);
      TurnSignals(before, ids[n], queries[n], v);
      assert TurnMoves(before.s.db.tasks[v], Turn(before, ids[n], queries[n]).s.db.tasks[v]);
    }
  }

  /** When a batch ends, every task it evicted has been signalled to the worker it ran on: no later turn
      takes a signal away, and earlier signals stay in order. */
  lemma EvictedTasksAreSignalled(s: State, count: nat, rows: seq<Id>, queries: seq<seq<WorkerWithTasks>>, v: Id)
    requires RowsOk(s.db) && LegalBatch(s, count, rows, queries) && rows != [] && IsRunning(s.db, v)
    ensures var after := ScheduleBatch(s, count, rows, queries);
            && OnlyGrew(s.redis.preempts, after.redis.preempts)
            && (!IsRunning(after.db, v) ==>
                  s.db.tasks[v].worker.Some? && v in ListOf(after.redis.preempts, s.db.tasks[v].worker.value))
  {
    SnapshotIsOk(s, rows, count);
    TurnsSignal(Batch(Popped(s, count), Snapshot(s.db, rows)), PopBatch(s.redis.queue, count), queries, v);
  }

  // ---------- What a batch leaves alone ----------

  lemma {:induction false} RequeueEntries(s: State, ids: seq<Id>, v: Id)
    ensures var after := Requeue(s, ids).redis;
            && ListsKept(s.redis, after)
            && if v in ids && v in s.db.tasks && s.db.tasks[v].state == Pending
               then v in after.queue && after.queue[v] == -s.db.tasks[v].priority
               else SameIn(s.redis.queue, after.queue, v)
  {
    if ids != [] {
      var n := |ids| - 1;
      RequeueEntries(s, ids[..n], v);
      assert ids == ids[..n] + [ids[n]];
    }
  }

  /** Without active workers a batch gives back the entries of the pending tasks it popped, drops the other
      popped ids, and changes nothing else. */
  lemma BatchWithoutWorkersEffect(s: State, count: nat, queries: seq<seq<WorkerWithTasks>>, v: Id)
    requires LegalBatch(s, count, [], queries)
    ensures var after := ScheduleBatch(s, count, [], queries);
            && after.db == s.db && ListsKept(s.redis, after.redis)
            && if v !in PopBatch(s.redis.queue, count) then SameIn(s.redis.queue, after.redis.queue, v)
               else if v in s.db.tasks && s.db.tasks[v].state == Pending
               then v in after.redis.queue && after.redis.queue[v] == -s.db.tasks[v].priority
               else v !in after.redis.queue
  {
    var ids := PopBatch(s.redis.queue, count);
    RequeueKeepsTables(Popped(s, count), ids);
    RequeueEntries(Popped(s, count), ids, v);
  }

  lemma {:induction false} TurnsSpareUnpopped(b: Batch, ids: seq<Id>, queries: seq<seq<WorkerWithTasks>>, v: Id)
    requires BatchOk(b) && LegalTurns(b, ids, queries) && v !in ids && !IsRunning(b.s.db, v)
    ensures var after := Turns(b, ids, queries).s;
            && (v in after.db.tasks <==> v in b.s.db.tasks)
            && (v in b.s.db.tasks ==> after.db.tasks[v] == b.s.db.tasks[v])
            && SameIn(b.s.redis.queue, after.redis.queue, v)
  {
    if ids != [] {
      var n := |ids| - 1;
      var before := Turns(b, ids[..n], queries[..n]);
      var after := Turn(before, ids[n], queries[n]);
      TurnsSpareUnpopped(b, ids[..n], queries[..n], v);
      TurnsRows(b, ids[..n], queries[..n]);
      TurnRows(before, ids[n], queries[n]);
      TurnQueue(before, ids[n], queries[n]);
      assert v != ids[n];
      assert SameEntry(before.s, after.s, v);
      if v in before.s.db.tasks {
        assert TurnMoves(before.s.db.tasks[v], after.s.db.tasks[v]);
      }
    }
  }

  /** A batch leaves alone the row and the queue entry of every task that it did not pop and that was not
      running. */
  lemma BatchSparesUnpopped(s: State, count: nat, rows: seq<Id>, queries: seq<seq<WorkerWithTasks>>, v: Id)
    requires RowsOk(s.db) && LegalBatch(s, count, rows, queries)
    requires v !in PopBatch(s.redis.queue, count) && !(v in s.db.tasks && s.db.tasks[v].state == Running)
    ensures var after := ScheduleBatch(s, count, rows, queries);
            && (v in after.db.tasks <==> v in s.db.tasks)
            && (v in s.db.tasks ==> after.db.tasks[v] == s.db.tasks[v])
            && SameIn(s.redis.queue, after.redis.queue, v)
  {
    if rows == [] {
      BatchWithoutWorkersEffect(s, count, queries, v);
    } else {
      SnapshotIsOk(s, rows, count);
      TurnsSpareUnpopped(Batch(Popped(s, count), Snapshot(s.db, rows)), PopBatch(s.redis.queue, count), queries, v);
    }
  }
}

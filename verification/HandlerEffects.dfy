// What each handler changes and what it leaves alone, field by field.
module HandlerEffects {
  import opened Types
  import opened Transitions
  import opened Handlers
  import opened Batching
  import opened FailureChecks
  import opened Reconciliation
  import opened Invariants
  import opened FailureFacts
  import opened CheckOrders
  import opened Runs

  /** All rows but this one are as they were. */
  ghost predicate OtherRowsKept(a: map<Id, Task>, b: map<Id, Task>, id: Id) {
    forall v :: v != id ==> (v in b <==> v in a) && (v in a ==> b[v] == a[v])
  }

  ghost predicate OtherEntriesKept(a: map<Id, int>, b: map<Id, int>, id: Id) {
    forall v :: v != id ==> (v in b <==> v in a) && (v in a ==> b[v] == a[v])
  }

  predicate ListsKept(a: Redis, b: Redis) {
    b.assignments == a.assignments && b.preempts == a.preempts
  }

  // ---------- Tasks ----------

  /** A new task has exactly what was asked for, waits on no worker with no retry charged, and is queued at
      minus its priority; nothing else changes. */
  lemma CreateTaskEffect(s: State, id: Id, priority: int, request: Resources, maxRetries: nat)
    ensures var after := CreateTask(s, id, priority, request, maxRetries);
            && id in after.db.tasks
            && var t := after.db.tasks[id];
               && t.priority == priority && t.request == request && t.maxRetries == maxRetries
               && t.state == Pending && t.worker == None && t.retries == 0
               && OtherRowsKept(s.db.tasks, after.db.tasks, id) && after.db.workers == s.db.workers
               && id in after.redis.queue && after.redis.queue[id] == -priority
               && OtherEntriesKept(s.redis.queue, after.redis.queue, id) && ListsKept(s.redis, after.redis)
  {
  }

  /** A cancelled task keeps everything but its state and its worker. Its queue entry goes only if it was
      pending; no capacity and no list changes. Finished tasks are refused, unknown ones not found. */
  lemma CancelTaskEffect(s: State, id: Id)
    ensures var after := CancelTask(s, id);
            if id !in s.db.tasks then CancelOutcomeOf(s, id) == TaskNotFound && after == s
            else if s.db.tasks[id].state in {Pending, Scheduled, Running} then
              && CancelOutcomeOf(s, id) == Done
              && id in after.db.tasks && after.db.tasks[id] == s.db.tasks[id].(state := Cancelled, worker := None)
              && OtherRowsKept(s.db.tasks, after.db.tasks, id) && after.db.workers == s.db.workers
              && OtherEntriesKept(s.redis.queue, after.redis.queue, id) && ListsKept(s.redis, after.redis)
              && (if s.db.tasks[id].state == Pending then id !in after.redis.queue
                  else after.redis.queue == s.redis.queue)
            else CancelOutcomeOf(s, id) == InvalidTransition && after == s
  {
  }

  /** The transition table, entry by entry. */
  lemma TableExactly(a: TaskState, b: TaskState)
    ensures ValidateTransition(a, b) <==>
              (a, b) in {(Pending, Scheduled), (Pending, Cancelled),
                         (Scheduled, Running), (Scheduled, Pending), (Scheduled, Cancelled),
                         (Running, Completed), (Running, Failed), (Running, Preempted), (Running, Cancelled),
                         (Failed, Pending), (Preempted, Pending)}
  {
  }

  /** A report of a state writes that state and nothing else, if the table allows the move. */
  lemma ReportStateEffect(s: State, id: Id, next: TaskState)
    ensures var after := ReportState(s, id, next);
            if id in s.db.tasks && ValidateTransition(s.db.tasks[id].state, next) then
              && id in after.db.tasks && after.db.tasks[id] == s.db.tasks[id].(state := next)
              && OtherRowsKept(s.db.tasks, after.db.tasks, id) && after.db.workers == s.db.workers
              && after.redis == s.redis
            else after == s
  {
  }

  /** Finishing gives the request back to the worker and changes nothing else about any worker. */
  ghost predicate GivesBack(db: Tables, after: Tables, w: Id, request: Resources) {
    && after.workers.Keys == db.workers.Keys
    && forall v :: v in db.workers ==>
         && after.workers[v].hostname == db.workers[v].hostname && after.workers[v].status == db.workers[v].status
         && after.workers[v].total == db.workers[v].total
         && after.workers[v].available.cpu == db.workers[v].available.cpu + (if v == w then request.cpu else 0.0)
         && after.workers[v].available.memory ==
            db.workers[v].available.memory + (if v == w then request.memory else 0.0)
  }

  lemma CompleteTaskEffect(s: State, id: Id)
    requires RowsOk(s.db)
    ensures var after := CompleteTask(s, id);
            if id in s.db.tasks && s.db.tasks[id].state == Running then
              var t := s.db.tasks[id];
              && id in after.db.tasks && after.db.tasks[id] == t.(state := Completed)
              && OtherRowsKept(s.db.tasks, after.db.tasks, id)
              && t.worker.Some? && t.worker.value in s.db.workers
              && GivesBack(s.db, after.db, t.worker.value, t.request)
              && after.redis == s.redis
            else after == s
  {
    if id in s.db.tasks {
      assert TaskOk(s.db.workers, s.db.tasks[id]);
    }
  }

  lemma FailTaskEffect(s: State, id: Id)
    requires RowsOk(s.db)
    ensures var after := FailTask(s, id);
            if id in s.db.tasks && s.db.tasks[id].state == Running then
              var t := s.db.tasks[id];
              && id in after.db.tasks && OtherRowsKept(s.db.tasks, after.db.tasks, id)
              && t.worker.Some? && t.worker.value in s.db.workers
              && GivesBack(s.db, after.db, t.worker.value, t.request)
              && ListsKept(s.redis, after.redis)
              && (if t.retries < t.maxRetries then
                    && after.db.tasks[id] == t.(state := Pending, worker := None, retries := t.retries + 1)
                    && id in after.redis.queue && after.redis.queue[id] == -t.priority
                    && OtherEntriesKept(s.redis.queue, after.redis.queue, id)
                  else after.db.tasks[id] == t.(state := Failed) && after.redis.queue == s.redis.queue)
            else after == s
  {
    if id in s.db.tasks {
      assert TaskOk(s.db.workers, s.db.tasks[id]);
    }
  }

  // ---------- Workers ----------

  /** After a registration exactly one worker has the host name: the one that had it, or else the new
      one. It is active with everything free; all other workers, all tasks and Redis are as before. */
  lemma RegisterWorkerEffect(s: State, newId: Id, hostname: string, total: Resources) returns (w: Id)
    requires HostnamesUnique(s.db.workers) && newId !in s.db.workers
    ensures forall v :: v in s.db.workers && s.db.workers[v].hostname == hostname ==> w == v
    ensures (forall v :: v in s.db.workers ==> s.db.workers[v].hostname != hostname) ==> w == newId
    ensures var after := RegisterWorker(s, newId, hostname, total);
            && w in after.db.workers
            && after.db.workers[w].hostname == hostname && after.db.workers[w].status == Active
            && after.db.workers[w].total == total && after.db.workers[w].available == total
            && (forall v :: v in after.db.workers && after.db.workers[v].hostname == hostname ==> v == w)
            && (forall v :: v != w ==> (v in after.db.workers <==> v in s.db.workers) &&
                                       (v in s.db.workers ==> after.db.workers[v] == s.db.workers[v]))
            && after.db.tasks == s.db.tasks && after.redis == s.redis
  {
    w := RegisteredId(s.db.workers, newId, hostname);
    assert forall v :: v in s.db.workers && s.db.workers[v].hostname == hostname ==>
                         IsRegistered(s.db.workers, hostname, v);
  }

  /** A worker that was declared dead and registers again can be scheduled on. */
  lemma DeadWorkerComesBack(s: State, newId: Id, total: Resources, w: Id)
    requires HostnamesUnique(s.db.workers) && newId !in s.db.workers
    requires w in s.db.workers && s.db.workers[w].status == Dead
    ensures w in ActiveWorkers(RegisterWorker(s, newId, s.db.workers[w].hostname, total).db)
    ensures w !in ActiveWorkers(s.db)
  {
    var v := RegisterWorkerEffect(s, newId, s.db.workers[w].hostname, total);
  }

  /** Polling takes the oldest entry of one worker's list, and nothing else. */
  lemma PollEffect(s: State, w: Id)
    ensures var after := Apply(s, Poll(w));
            && after.db == s.db && after.redis.queue == s.redis.queue && after.redis.preempts == s.redis.preempts
            && (forall v :: v != w ==> (v in after.redis.assignments <==> v in s.redis.assignments) &&
                                       (v in s.redis.assignments ==>
                                          after.redis.assignments[v] == s.redis.assignments[v]))
            && (if w in s.redis.assignments && s.redis.assignments[w] != []
                then w in after.redis.assignments && after.redis.assignments[w] == s.redis.assignments[w][1..]
                else after.redis.assignments == s.redis.assignments)
  {
  }

  // ---------- The failure check ----------

  /** The task lives on an active worker without a heartbeat. */
  predicate IsOrphaned(db: Tables, alive: set<Id>, t: Task) {
    && (t.state == Scheduled || t.state == Running)
    && t.worker.Some? && t.worker.value in db.workers && t.worker.value !in alive
    && db.workers[t.worker.value].status == Active
  }

  lemma OrphanedMeansOrphanOf(s: State, rows: seq<Id>, alive: set<Id>, t: Task)
    requires Lists(rows, ActiveWorkers(s.db))
    ensures IsOrphaned(s.db, alive, t) <==> OrphanOf(t, DeadAmong(rows, alive))
  {
    if t.worker.Some? {
      var w := t.worker.value;
      assert w in rows <==> w in ActiveWorkers(s.db);
    }
  }

  /** A committed check, row by row: active workers without a heartbeat become dead and keep everything else;
      their tasks with retries left wait unassigned and queued, charged one retry, and the others fail
      where they are. Nothing else changes, in the tables or in Redis. */
  lemma CommittedCheckEffect(s: State, rows: seq<Id>, alive: set<Id>, orphans: seq<seq<Id>>)
    requires LegalCheck(s, rows, alive, orphans) && Commits(s, rows, alive, orphans)
    ensures var after := CheckAllWorkers(s, rows, alive, orphans);
            && after.db.tasks.Keys == s.db.tasks.Keys && after.db.workers.Keys == s.db.workers.Keys
            && ListsKept(s.redis, after.redis)
            && (forall w :: w in s.db.workers ==>
                  after.db.workers[w] == if s.db.workers[w].status == Active && w !in alive
                                         then s.db.workers[w].(status := Dead) else s.db.workers[w])
            && (forall id :: id in s.db.tasks ==>
                  var t := s.db.tasks[id];
                  after.db.tasks[id] ==
                  if !IsOrphaned(s.db, alive, t) then t
                  else if t.retries < t.maxRetries then t.(state := Pending, worker := None, retries := t.retries + 1)
                  else t.(state := Failed))
            && (forall id :: if id in s.db.tasks && IsOrphaned(s.db, alive, s.db.tasks[id]) &&
                                s.db.tasks[id].retries < s.db.tasks[id].maxRetries
                             then id in after.redis.queue && after.redis.queue[id] == -s.db.tasks[id].priority
                             else SameIn(s.redis.queue, after.redis.queue, id))
  {
    CheckIsAllOrNothing(s, rows, alive, orphans);
    CommitsExactly(s, rows, alive, orphans);
    var after := CheckAllWorkers(s, rows, alive, orphans);
    forall w | w in s.db.workers
      ensures w in DeadAmong(rows, alive) <==> s.db.workers[w].status == Active && w !in alive
    {
      assert w in ActiveWorkers(s.db) <==> s.db.workers[w].status == Active;
      if w in rows {
        assert w in ActiveWorkers(s.db);
      }
    }
    forall id | id in s.db.tasks
      ensures IsOrphaned(s.db, alive, s.db.tasks[id]) <==> OrphanOf(s.db.tasks[id], DeadAmong(rows, alive))
    {
      OrphanedMeansOrphanOf(s, rows, alive, s.db.tasks[id]);
    }
  }

  predicate SameIn(a: map<Id, int>, b: map<Id, int>, id: Id) {
    (id in b <==> id in a) && (id in a ==> b[id] == a[id])
  }

  // ---------- The passes ----------

  /** The pending pass adds the entries that are missing and changes nothing else. */
  lemma PendingPassEffect(s: State, id: Id)
    ensures var after := ReconcilePending(s);
            && after.db == s.db && ListsKept(s.redis, after.redis)
            && if id !in s.redis.queue && id in s.db.tasks && s.db.tasks[id].state == Pending
               then id in after.redis.queue && after.redis.queue[id] == -s.db.tasks[id].priority
               else SameIn(s.redis.queue, after.redis.queue, id)
  {
  }

  /** The rows assigned to this worker, in the order they came. */
  function RowsOn(db: Tables, rows: seq<Id>, w: Id): seq<Id> {
    if rows == [] then []
    else
      var n := |rows| - 1;
      RowsOn(db, rows[..n], w) +
      if rows[n] in db.tasks && db.tasks[rows[n]].worker == Some(w) then [rows[n]] else []
  }

  /** Every active worker's list gains exactly its rows, each once and at the end; the lists of other workers
      and the preemption lists stay. */
  lemma {:induction false} ReassignAppends(db: Tables, redis: Redis, rows: seq<Id>, w: Id)
    ensures var after := ReassignAll(db, redis, rows);
            && after.preempts == redis.preempts
            && ListOf(after.assignments, w) ==
               ListOf(redis.assignments, w) +
               (if w in db.workers && db.workers[w].status == Active then RowsOn(db, rows, w) else [])
  {
    if rows != [] {
      var n := |rows| - 1;
      var before := ReassignAll(db, redis, rows[..n]);
      ReassignAppends(db, redis, rows[..n], w);
      ReassignOne(db, before, rows[n], w);
      if w in db.workers && db.workers[w].status == Active {
        var own := if rows[n] in db.tasks && db.tasks[rows[n]].worker == Some(w) then [rows[n]] else [];
        assert ListOf(redis.assignments, w) + RowsOn(db, rows[..n], w) + own ==
               ListOf(redis.assignments, w) + (RowsOn(db, rows[..n], w) + own);
      }
    }
  }

  lemma ReassignOne(db: Tables, redis: Redis, id: Id, w: Id)
    ensures var after := Reassign(db, redis, id);
            && after.preempts == redis.preempts
            && ListOf(after.assignments, w) ==
               ListOf(redis.assignments, w) +
               (if w in db.workers && db.workers[w].status == Active && id in db.tasks && db.tasks[id].worker == Some(w)
                then [id] else [])
  {
  }

  lemma {:induction false} RowsOnMembers(db: Tables, rows: seq<Id>, w: Id)
    requires Distinct(rows)
    ensures Distinct(RowsOn(db, rows, w))
    ensures forall id :: id in RowsOn(db, rows, w) <==> id in rows && id in db.tasks && db.tasks[id].worker == Some(w)
  {
    if rows != [] {
      var n := |rows| - 1;
      RowsOnMembers(db, rows[..n], w);
      assert rows == rows[..n] + [rows[n]];
      assert rows[n] !in rows[..n];
      assert rows[n] !in RowsOn(db, rows[..n], w);
    }
  }

  /** The entry of a scheduled task whose worker is gone or inactive is set; every other entry stays. */
  lemma {:induction false} ReassignEntries(db: Tables, redis: Redis, rows: seq<Id>, id: Id)
    ensures var after := ReassignAll(db, redis, rows).queue;
            if id in rows && id in db.tasks && db.tasks[id].worker.Some? &&
               !(db.tasks[id].worker.value in db.workers && db.workers[db.tasks[id].worker.value].status == Active)
            then id in after && after[id] == -db.tasks[id].priority
            else SameIn(redis.queue, after, id)
  {
    if rows != [] {
      var n := |rows| - 1;
      ReassignEntries(db, redis, rows[..n], id);
      assert rows == rows[..n] + [rows[n]];
    }
  }

  /** The scheduled pass appends to each active worker's list every scheduled task assigned to it, exactly
      once, and leaves the tables and the preemption lists alone. Only tasks whose worker is not active
      are queued. */
  lemma ScheduledPassEffect(s: State, rows: seq<Id>, w: Id) returns (added: seq<Id>)
    requires Lists(rows, AssignedScheduledTasks(s.db)) && w in s.db.workers && s.db.workers[w].status == Active
    ensures var after := ReconcileScheduled(s, rows);
            && after.db == s.db && after.redis.preempts == s.redis.preempts
            && ListOf(after.redis.assignments, w) == ListOf(s.redis.assignments, w) + added
    ensures Distinct(added)
    ensures forall id :: id in added <==>
              id in s.db.tasks && s.db.tasks[id].state == Scheduled && s.db.tasks[id].worker == Some(w)
    ensures forall id :: id in s.db.tasks && s.db.tasks[id].worker.Some? &&
                         s.db.tasks[id].worker.value in s.db.workers &&
                         s.db.workers[s.db.tasks[id].worker.value].status == Active ==>
              SameIn(s.redis.queue, ReconcileScheduled(s, rows).redis.queue, id)
  {
    forall id { ReassignEntries(s.db, s.redis, rows, id); }
    added := RowsOn(s.db, rows, w);
    ReassignAppends(s.db, s.redis, rows, w);
    RowsOnMembers(s.db, rows, w);
    forall id ensures id in rows <==> id in AssignedScheduledTasks(s.db) {
      if id in rows {
        var k :| 0 <= k < |rows| && rows[k] == id;
      }
    }
  }
}

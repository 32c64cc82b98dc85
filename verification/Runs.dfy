// The control plane as a state machine: its steps, its faults, and what holds over every run.
module Runs {
  import opened Types
  import opened Preemption
  import opened Handlers
  import opened Batching
  import opened FailureChecks
  import opened Reconciliation
  import opened Ledger
  import opened Invariants
  import opened BatchRows
  import opened FailureFacts
  import opened HandlerFacts

  datatype Event =
    | Create(id: Id, priority: int, request: Resources, maxRetries: nat)
    | ReportRunning(id: Id)
    | Complete(id: Id)
    | Fail(id: Id)
    | Cancel(id: Id)
    | Register(newId: Id, hostname: string, total: Resources)
    | RunBatch(count: nat, rows: seq<Id>, queries: seq<seq<WorkerWithTasks>>)
    | CheckFailures(rows: seq<Id>, alive: set<Id>, orphans: seq<seq<Id>>)
    | PendingPass
    | ScheduledPass(rows: seq<Id>)
    | Poll(worker: Id)
      // Redis loses, keeps or gains anything at all, as when it restarts empty, or when a crash rolls
      // back the tables of a batch that had already popped its tasks.
    | RedisFault(redis: Redis)

  ghost predicate Enabled(s: State, e: Event) {
    match e
    case Create(id, _, request, _) => id !in s.db.tasks && request.Positive()
    case Register(newId, _, total) => newId !in s.db.workers && total.Positive()
    case RunBatch(count, rows, queries) => LegalBatch(s, count, rows, queries)
    case CheckFailures(rows, alive, orphans) => LegalCheck(s, rows, alive, orphans)
    case ScheduledPass(rows) => Lists(rows, AssignedScheduledTasks(s.db))
    case _ => true
  }

  function PollAssignment(redis: Redis, w: Id): Redis {
    var list := ListOf(redis.assignments, w);
    if list == [] then redis else redis.(assignments := redis.assignments[w := list[1..]])
  }

  ghost function Apply(s: State, e: Event): State
    requires Enabled(s, e)
  {
    match e
    case Create(id, priority, request, maxRetries) => CreateTask(s, id, priority, request, maxRetries)
    case ReportRunning(id) => ReportState(s, id, Running)
    case Complete(id) => CompleteTask(s, id)
    case Fail(id) => FailTask(s, id)
    case Cancel(id) => CancelTask(s, id)
    case Register(newId, hostname, total) => RegisterWorker(s, newId, hostname, total)
    case RunBatch(count, rows, queries) => ScheduleBatch(s, count, rows, queries)
    case CheckFailures(rows, alive, orphans) => CheckAllWorkers(s, rows, alive, orphans)
    case PendingPass => ReconcilePending(s)
    case ScheduledPass(rows) => ReconcileScheduled(s, rows)
    case Poll(w) => s.(redis := PollAssignment(s.redis, w))
    case RedisFault(redis) => s.(redis := redis)
  }

  /** The state after a run; a step that is not enabled does not happen. */
  ghost function Exec(s: State, events: seq<Event>): State {
    if events == [] then s
    else
      var before, e := Exec(s, events[..|events| - 1]), events[|events| - 1];
      if Enabled(before, e) then Apply(before, e) else before
  }

  // ---------- The row invariants over runs ----------

  lemma StepKeepsRows(s: State, e: Event)
    requires RowsOk(s.db) && Enabled(s, e)
    ensures RowsOk(Apply(s, e).db)
  {
    match e
    case Create(id, priority, request, maxRetries) => CreateRows(s, id, priority, request, maxRetries);
    case ReportRunning(id) => ReportRunningRows(s, id);
    case Complete(id) => CompleteRows(s, id);
    case Fail(id) => FailRows(s, id);
    case Cancel(id) => CancelRows(s, id);
    case Register(newId, hostname, total) => RegisterRows(s, newId, hostname, total);
    case RunBatch(count, rows, queries) => BatchKeepsRows(s, count, rows, queries);
    case CheckFailures(rows, alive, orphans) =>
      CheckIsAllOrNothing(s, rows, alive, orphans);
      if AllWorkersPass(s.db.tasks, rows, alive, orphans) {
        CommittedRows(s, Apply(s, e), rows, alive, orphans);
      }
    case PendingPass =>
    case ScheduledPass(rows) =>
    case Poll(w) =>
    case RedisFault(redis) =>
  }

  /** In every run, from tables in which it holds: a live task is assigned to an existing active
      worker, a pending one to none, and one rests in FAILED or PREEMPTED only without retries. */
  lemma {:induction false} RunKeepsRows(s: State, events: seq<Event>)
    requires RowsOk(s.db)
    ensures RowsOk(Exec(s, events).db)
  {
    if events != [] {
      RunKeepsRows(s, events[..|events| - 1]);
      var before, e := Exec(s, events[..|events| - 1]), events[|events| - 1];
      if Enabled(before, e) {
        StepKeepsRows(before, e);
      }
    }
  }

  lemma LiveTaskIsPlaced(db: Tables, id: Id)
    requires RowsOk(db) && id in db.tasks && db.tasks[id].Live()
    ensures db.tasks[id].worker.Some? && db.tasks[id].worker.value in ActiveWorkers(db)
  {
    assert TaskOk(db.workers, db.tasks[id]);
  }

  lemma InactiveWorkerIsIdle(db: Tables, w: Id)
    requires RowsOk(db) && w !in ActiveWorkers(db)
    ensures LiveTasksOn(db, w) == {}
  {
    forall id | id in db.tasks ensures !db.tasks[id].LiveOn(w) {
      if db.tasks[id].LiveOn(w) {
        LiveTaskIsPlaced(db, id);
      }
    }
  }

  /** In every run, a worker that is not active owns no live task; so registering it again is quiet.
      And every scheduled task that names a worker names an active one, so the branch of the
      scheduled pass that resets a task is never taken. */
  lemma InactiveWorkersAreIdle(s: State, events: seq<Event>)
    requires RowsOk(s.db)
    ensures var db := Exec(s, events).db;
            && (forall w :: w !in ActiveWorkers(db) ==> LiveTasksOn(db, w) == {})
            && (forall id :: id in db.tasks && db.tasks[id].state == Scheduled ==>
                  db.tasks[id].worker.Some? && db.tasks[id].worker.value in ActiveWorkers(db))
  {
    RunKeepsRows(s, events);
    var db := Exec(s, events).db;
    forall w | w !in ActiveWorkers(db) ensures LiveTasksOn(db, w) == {} {
      InactiveWorkerIsIdle(db, w);
    }
    forall id | id in db.tasks && db.tasks[id].state == Scheduled
      ensures db.tasks[id].worker.Some? && db.tasks[id].worker.value in ActiveWorkers(db)
    {
      LiveTaskIsPlaced(db, id);
    }
  }

  // ---------- The ledger over runs ----------

  /** What a step adds to the leak of a worker. */
  ghost function LeakDelta(s: State, e: Event, w: Id): Resources
    requires w in s.db.workers
  {
    match e
    case Cancel(id) => ShareOf(s.db.tasks, id, w)
    case Register(newId, hostname, _) =>
      if w == RegisteredId(s.db.workers, newId, hostname)
      then ZERO.Minus(Load(s.db.tasks, w)).Minus(Leak(s.db, w)) else ZERO
    case CheckFailures(rows, alive, orphans) =>
      if |orphans| == |rows| && AllWorkersPass(s.db.tasks, rows, alive, orphans) && w in DeadAmong(rows, alive)
      then Load(s.db.tasks, w) else ZERO
    case _ => ZERO
  }

  lemma PlusZero(r: Resources, q: Resources)
    ensures r.Plus(ZERO) == r && q == r.Plus(q.Minus(r))
  {
  }

  lemma SameLeaksMeansNoDelta(a: Tables, b: Tables, w: Id)
    requires SameLeaks(a, b) && w in a.workers
    ensures w in b.workers && Leak(b, w) == Leak(a, w).Plus(ZERO)
  {
    PlusZero(Leak(a, w), ZERO);
  }

  lemma OthersUntouched(s: State, newId: Id, hostname: string, total: Resources, w: Id)
    requires w in s.db.workers && w != RegisteredId(s.db.workers, newId, hostname)
    ensures var after := RegisterWorker(s, newId, hostname, total).db;
            w in after.workers && Leak(after, w) == Leak(s.db, w)
  {
  }

  /** Creating, starting, completing, failing and batches with any number of preemptions keep every
      worker's leak; cancelling a live task and a committed death raise it by exactly the requests
      concerned; registration sets it to minus what live tasks still hold. */
  lemma LedgerStep(s: State, e: Event, w: Id)
    requires RowsOk(s.db) && Enabled(s, e) && w in s.db.workers
    ensures w in Apply(s, e).db.workers
    ensures Leak(Apply(s, e).db, w) == Leak(s.db, w).Plus(LeakDelta(s, e, w))
  {
    match e
    case Create(id, priority, request, maxRetries) =>
      CreateLeaks(s, id, priority, request, maxRetries);
      SameLeaksMeansNoDelta(s.db, Apply(s, e).db, w);
    case ReportRunning(id) =>
      ReportRunningLeaks(s, id);
      SameLeaksMeansNoDelta(s.db, Apply(s, e).db, w);
    case Complete(id) =>
      CompleteLeaks(s, id);
      SameLeaksMeansNoDelta(s.db, Apply(s, e).db, w);
    case Fail(id) =>
      FailLeaks(s, id);
      SameLeaksMeansNoDelta(s.db, Apply(s, e).db, w);
    case Cancel(id) =>
      CancelLeak(s, id, w);
    case Register(newId, hostname, total) =>
      RegisterLeak(s, newId, hostname, total);
      if w == RegisteredId(s.db.workers, newId, hostname) {
        PlusZero(Leak(s.db, w), ZERO.Minus(Load(s.db.tasks, w)));
      } else {
        OthersUntouched(s, newId, hostname, total, w);
        PlusZero(Leak(s.db, w), ZERO);
      }
    case RunBatch(count, rows, queries) =>
      BatchKeepsRows(s, count, rows, queries);
      SameLeaksMeansNoDelta(s.db, Apply(s, e).db, w);
    case CheckFailures(rows, alive, orphans) =>
      CheckIsAllOrNothing(s, rows, alive, orphans);
      if AllWorkersPass(s.db.tasks, rows, alive, orphans) {
        CommittedLeak(s, Apply(s, e), DeadAmong(rows, alive), w);
      } else {
        PlusZero(Leak(s.db, w), ZERO);
      }
    case PendingPass => PlusZero(Leak(s.db, w), ZERO);
    case ScheduledPass(rows) => PlusZero(Leak(s.db, w), ZERO);
    case Poll(v) => PlusZero(Leak(s.db, w), ZERO);
    case RedisFault(redis) => PlusZero(Leak(s.db, w), ZERO);
  }

  /** The leaks of a whole run. */
  ghost function TotalDelta(s: State, events: seq<Event>, w: Id): Resources {
    if events == [] then ZERO
    else
      var before, e := Exec(s, events[..|events| - 1]), events[|events| - 1];
      TotalDelta(s, events[..|events| - 1], w)
        .Plus(if w in before.db.workers && Enabled(before, e) then LeakDelta(before, e, w) else ZERO)
  }

  lemma PlusAssociates(a: Resources, b: Resources, c: Resources)
    ensures a.Plus(b).Plus(c) == a.Plus(b.Plus(c))
    ensures a.Plus(ZERO) == a
  {
  }

  /** Over any run: capacity = free + held by live tasks + what leaked before + what the run's
      cancellations, committed deaths and registrations leaked. */
  lemma {:induction false} LedgerOverRuns(s: State, events: seq<Event>, w: Id)
    requires RowsOk(s.db) && w in s.db.workers
    ensures w in Exec(s, events).db.workers
    ensures Leak(Exec(s, events).db, w) == Leak(s.db, w).Plus(TotalDelta(s, events, w))
  {
    if events == [] {
      PlusAssociates(Leak(s.db, w), ZERO, ZERO);
    } else {
      var front, e := events[..|events| - 1], events[|events| - 1];
      var before := Exec(s, front);
      LedgerOverRuns(s, front, w);
      RunKeepsRows(s, front);
      if Enabled(before, e) {
        LedgerStep(before, e, w);
        PlusAssociates(Leak(s.db, w), TotalDelta(s, front, w), LeakDelta(before, e, w));
      } else {
        PlusAssociates(TotalDelta(s, front, w), ZERO, ZERO);
      }
    }
  }

  // ---------- Runs one after the other ----------

  lemma {:induction false} ExecConcat(s: State, first: seq<Event>, second: seq<Event>)
    ensures Exec(s, first + second) == Exec(Exec(s, first), second)
  {
    if second == [] {
      assert first + second == first;
    } else {
      ExecConcat(s, first, second[..|second| - 1]);
      assert (first + second)[..|first + second| - 1] == first + second[..|second| - 1];
    }
  }

  lemma ExecOne(s: State, e: Event)
    requires Enabled(s, e)
    ensures Exec(s, [e]) == Apply(s, e)
  {
    assert [e][..0] == [];
  }
}

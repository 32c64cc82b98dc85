// Concrete tables and runs in which properties that do not hold in general fail.
module Examples {
  import opened Types
  import opened Sorting
  import opened PriorityQueues
  import opened BinPacking
  import opened Preemption
  import opened Handlers
  import opened Batching
  import opened FailureChecks
  import opened Ledger
  import opened Invariants
  import opened Overcommit
  import opened FailureFacts
  import opened CheckOrders
  import opened HandlerFacts
  import opened Runs
  import opened CapacityBounds
  import opened NoLostWork

  const BIG: Resources := Resources(4.0, 4096.0)
  const MOST: Resources := Resources(3.0, 3072.0)
  const HALF: Resources := Resources(2.0, 2048.0)
  const LITTLE: Resources := Resources(1.0, 1024.0)

  /** One worker half used by a running task of priority 0, which may be retried `limit` times; an urgent
      task that needs three quarters of the worker and a lesser one that needs half. */
  function BusyTables(limit: nat): Tables {
    Tables(map[1 := Task(0, Running, HALF, Some(7), 0, limit),
               2 := Task(9, Pending, MOST, None, 0, 0),
               3 := Task(5, Pending, HALF, None, 0, 0)],
           map[7 := Worker("w", Active, BIG, HALF)])
  }

  function QueueOnly(queue: map<Id, int>): Redis {
    Redis(queue, map[], map[])
  }

  function BusyQuery(): seq<WorkerWithTasks> {
    [WorkerWithTasks(7, HALF, [RunningTask(1, 0, HALF)])]
  }

  // ---------- The urgent task evicts the running one ----------

  lemma BusyPlan()
    ensures BestPlan(MOST, 9, BusyQuery()) ==
            Some(PreemptionPlan(7, [RunningTask(1, 0, HALF)], LITTLE.Score()))
  {
    var r := RunningTask(1, 0, HALF);
    var w := WorkerWithTasks(7, HALF, [r]);
    assert [r][..0] == [] && [r][1..] == [];
    assert LowerPriority([r], 9) == [r];
    assert Sort([r][1..], ByPriority) == [];
    assert Evictable([r], 9) == [r];
    assert Sum([]) == ZERO;
    assert Sum([r]) == HALF;
    assert Needed(HALF, MOST, [r], 0) == 1;
    assert [r][..1] == [r];
    var plan := GreedyPlan(MOST, 9, w);
    assert plan == Some(PreemptionPlan(7, [r], LITTLE.Score()));
    var plans := PlansFor(MOST, 9, [w]);
    assert plans == [plan];
    assert plans[..0] == [];
  }

  function VictimRow(limit: nat): Task {
    if limit > 0 then Task(0, Pending, HALF, None, 1, limit) else Task(0, Preempted, HALF, Some(7), 0, limit)
  }

  /** What that turn leaves. */
  ghost predicate UrgentWon(limit: nat, s: State, after: State) {
    && after.db.workers == map[7 := Worker("w", Active, BIG, LITTLE)]
    && after.db.tasks == map[1 := VictimRow(limit),
                             2 := Task(9, Scheduled, MOST, Some(7), 0, 0),
                             3 := Task(5, Pending, HALF, None, 0, 0)]
    && after.redis.queue == if limit > 0 then s.redis.queue[1 := 0] else s.redis.queue
  }

  lemma EvictTheRunning(limit: nat, s: State)
    requires s.db == BusyTables(limit)
    ensures var after := Evict(s, 7, 1);
            && after.db.workers == map[7 := Worker("w", Active, BIG, BIG)]
            && after.db.tasks == s.db.tasks[1 := VictimRow(limit)]
            && after.redis.queue == if limit > 0 then s.redis.queue[1 := 0] else s.redis.queue
  {
  }

  lemma DispatchTheUrgent(limit: nat, s: State, mid: State)
    requires s.db == BusyTables(limit) && mid.db.tasks == s.db.tasks[1 := VictimRow(limit)]
    requires mid.db.workers == map[7 := Worker("w", Active, BIG, BIG)]
    requires mid.redis.queue == if limit > 0 then s.redis.queue[1 := 0] else s.redis.queue
    ensures UrgentWon(limit, s, Dispatch(mid, 2, 7))
  {
  }

  lemma ListsTheRunning(limit: nat)
    ensures IsQueryResult(BusyTables(limit), BusyQuery())
  {
    assert RunningTask(1, 0, HALF) in BusyQuery()[0].running;
    assert ListsWorker(BusyTables(limit), BusyQuery()[0]);
    assert BusyQuery()[0].workerId == 7;
  }

  lemma FirstTurn(limit: nat, s: State)
    requires s.db == BusyTables(limit)
    ensures var b := Batch(s, [WorkerCapacity(7, HALF)]);
            var after := Turn(b, 2, BusyQuery());
            LegalTurn(b, 2, BusyQuery()) && after.snapshot == b.snapshot && UrgentWon(limit, s, after.s)
  {
    var b, r := Batch(s, [WorkerCapacity(7, HALF)]), RunningTask(1, 0, HALF);
    assert s.db.tasks[2] == Task(9, Pending, MOST, None, 0, 0);
    assert !Fits(MOST, b.snapshot[0]);
    ListsTheRunning(limit);
    BusyPlan();
    assert [r][..0] == [];
    assert EvictAll(s, 7, []) == s;
    assert EvictAll(s, 7, [r]) == Evict(s, 7, 1);
    EvictTheRunning(limit, s);
    DispatchTheUrgent(limit, s, Evict(s, 7, 1));
  }

  // ---------- A second task on the stale snapshot ----------

  lemma SecondTurn(b: Batch, id: Id, w: Id, workers: seq<WorkerWithTasks>)
    requires |b.snapshot| == 1 && b.snapshot[0].workerId == w && w in b.s.db.workers
    requires IsPending(b.s.db, id) && Fits(b.s.db.tasks[id].request, b.snapshot[0])
    ensures LegalTurn(b, id, workers)
    ensures Turn(b, id, workers).s == Dispatch(b.s, id, w)
  {
  }

  lemma TwoTurns(b: Batch, i: Id, j: Id, q: seq<WorkerWithTasks>, r: seq<WorkerWithTasks>)
    ensures Turns(b, [i, j], [q, r]) == Turn(Turn(b, i, q), j, r)
    ensures LegalTurns(b, [i, j], [q, r]) <==> LegalTurn(b, i, q) && LegalTurn(Turn(b, i, q), j, r)
  {
    assert [i, j][..1] == [i] && [q, r][..1] == [q];
    assert [i][..0] == [] && [q][..0] == [];
    assert Turns(b, [i], [q]) == Turn(b, i, q);
    assert LegalTurns(b, [i], [q]) <==> LegalTurn(b, i, q);
  }

  lemma PopOne(q: map<Id, int>, a: Id)
    requires IsFirst(q, a)
    ensures PopBatch(q, 1) == [a]
  {
    FirstIsUnique(q, a, First(q));
    assert PopBatch(Without(q, [a]), 0) == [];
  }

  lemma PopTwo(q: map<Id, int>, a: Id, b: Id)
    requires q.Keys == {a, b} && a != b && q[a] < q[b]
    ensures PopBatch(q, 2) == [a, b] && Without(q, [a, b]) == map[]
  {
    assert a in q && b in q;
    FirstIsUnique(q, a, First(q));
    var rest := Without(q, [a]);
    assert IsFirst(rest, b);
    PopOne(rest, b);
  }

  lemma OneActive(limit: nat)
    ensures Lists([7], ActiveWorkers(BusyTables(limit)))
    ensures Snapshot(BusyTables(limit), [7]) == [WorkerCapacity(7, HALF)]
  {
    assert 7 in [7];
    assert forall w :: w in ActiveWorkers(BusyTables(limit)) ==> w == 7;
    assert [7][0] == 7;
  }

  /** A batch that pops the urgent task and then one that still fits on the stale snapshot. */
  lemma UrgentThen(limit: nat, s: State, id: Id) returns (mid: State)
    requires s.db == BusyTables(limit) && PopBatch(s.redis.queue, 2) == [2, id]
    requires id == 3 || (id == 1 && limit > 0)
    ensures UrgentWon(limit, Popped(s, 2), mid) && IsPending(mid.db, id)
    ensures LegalBatch(s, 2, [7], [BusyQuery(), []])
    ensures ScheduleBatch(s, 2, [7], [BusyQuery(), []]) == Dispatch(mid, id, 7)
  {
    OneActive(limit);
    var b := Batch(Popped(s, 2), [WorkerCapacity(7, HALF)]);
    FirstTurn(limit, b.s);
    TwoTurns(b, 2, id, BusyQuery(), []);
    mid := Turn(b, 2, BusyQuery()).s;
    SecondTurn(Turn(b, 2, BusyQuery()), id, 7, []);
  }

  lemma BusyTablesAreOk(limit: nat)
    ensures RowsOk(BusyTables(limit)) && AllNonNegative(BusyTables(limit))
  {
  }

  /** Stored capacity can go below zero: the urgent task evicts the running one and takes its place and
      more, and the lesser task is placed on what the stale snapshot still shows as free. */
  lemma BatchCanOvercommit() returns (s: State)
    ensures s == State(BusyTables(0), QueueOnly(map[2 := -9, 3 := -5]))
    ensures RowsOk(s.db) && QueueOk(s) && AllNonNegative(s.db)
    ensures LegalBatch(s, 2, [7], [BusyQuery(), []])
    ensures var after := ScheduleBatch(s, 2, [7], [BusyQuery(), []]).db.workers;
            7 in after && after[7].available == Resources(-1.0, -1024.0)
  {
    s := State(BusyTables(0), QueueOnly(map[2 := -9, 3 := -5]));
    BusyTablesAreOk(0);
    PopTwo(s.redis.queue, 2, 3);
    var mid := UrgentThen(0, s, 3);
    DispatchCapacity(mid, 3, 7, 7);
  }

  /** A running task with a stale queue entry can be evicted by an earlier turn of the batch that pops it,
      and dispatched again by its own: it ends scheduled and still queued. */
  lemma PoppedRunningTaskCanEndScheduledAndQueued() returns (s: State)
    ensures s == State(BusyTables(1), QueueOnly(map[2 := -9, 1 := 0]))
    ensures RowsOk(s.db) && WellScored(s) && PopBatch(s.redis.queue, 2) == [2, 1]
    ensures IsRunning(s.db, 1) && LegalBatch(s, 2, [7], [BusyQuery(), []])
    ensures var after := ScheduleBatch(s, 2, [7], [BusyQuery(), []]);
            && 1 in after.db.tasks && after.db.tasks[1] == Task(0, Scheduled, HALF, Some(7), 1, 1)
            && 1 in after.redis.queue
  {
    s := State(BusyTables(1), QueueOnly(map[2 := -9, 1 := 0]));
    BusyTablesAreOk(1);
    PopTwo(s.redis.queue, 2, 1);
    var mid := UrgentThen(1, s, 1);
    RedispatchedRow(Popped(s, 2), mid);
  }

  lemma RedispatchedRow(s: State, mid: State)
    requires UrgentWon(1, s, mid)
    ensures var after := Dispatch(mid, 1, 7);
            && 1 in after.db.tasks && after.db.tasks[1] == Task(0, Scheduled, HALF, Some(7), 1, 1)
            && 1 in after.redis.queue
  {
    DispatchedRow(mid, 1, 7);
  }

  lemma DispatchedRow(s: State, id: Id, w: Id)
    requires id in s.db.tasks
    ensures var after := Dispatch(s, id, w);
            && id in after.db.tasks && after.db.tasks[id] == Dispatched(s.db.tasks[id], w)
            && after.redis.queue == s.redis.queue
  {
  }

  // ---------- A late report ----------

  lemma LegalOneTaskBatch(s: State, id: Id, rows: seq<Id>, query: seq<WorkerWithTasks>)
    requires Lists(rows, ActiveWorkers(s.db)) && rows != [] && IsFirst(s.redis.queue, id)
    requires LegalTurn(Batch(Popped(s, 1), Snapshot(s.db, rows)), id, query)
    ensures LegalBatch(s, 1, rows, [query])
    ensures ScheduleBatch(s, 1, rows, [query]) == Turn(Batch(Popped(s, 1), Snapshot(s.db, rows)), id, query).s
    ensures Popped(s, 1).db == s.db && Popped(s, 1).redis.queue == Without(s.redis.queue, [id])
  {
    PopOne(s.redis.queue, id);
    var b := Batch(Popped(s, 1), Snapshot(s.db, rows));
    assert [id][..0] == [] && [query][..0] == [];
    assert Turns(b, [], []) == b;
    assert Turns(b, [id], [query]) == Turn(b, id, query);
    assert LegalTurns(b, [id], [query]);
  }

  /** The urgent task takes the place of the first attempt. */
  lemma FirstAttemptEnds(s: State)
    requires s == State(BusyTables(1), QueueOnly(map[2 := -9]))
    ensures LegalBatch(s, 1, [7], [BusyQuery()])
    ensures UrgentWon(1, Popped(s, 1), ScheduleBatch(s, 1, [7], [BusyQuery()]))
    ensures ScheduleBatch(s, 1, [7], [BusyQuery()]).redis.queue == map[1 := 0]
  {
    OneActive(1);
    FirstTurn(1, Popped(s, 1));
    assert IsFirst(s.redis.queue, 2);
    LegalOneTaskBatch(s, 2, [7], BusyQuery());
  }

  function TwoWorkers(): map<Id, Worker> {
    map[7 := Worker("w", Active, BIG, LITTLE), 8 := Worker("x", Active, BIG, BIG)]
  }

  lemma SecondWorkerJoins(s: State)
    requires s.db.workers == map[7 := Worker("w", Active, BIG, LITTLE)]
    ensures Enabled(s, Register(8, "x", BIG))
    ensures Apply(s, Register(8, "x", BIG)) == s.(db := s.db.(workers := TwoWorkers()))
  {
    assert forall w :: !IsRegistered(s.db.workers, "x", w);
    assert RegisteredId(s.db.workers, 8, "x") == 8;
  }

  lemma TwoActive(db: Tables)
    requires db.workers == TwoWorkers()
    ensures Lists([7, 8], ActiveWorkers(db))
    ensures Snapshot(db, [7, 8]) == [WorkerCapacity(7, LITTLE), WorkerCapacity(8, BIG)]
  {
    assert [7, 8][0] == 7 && [7, 8][1] == 8;
  }

  /** The second attempt goes to the new worker. */
  lemma SecondAttemptStarts(s: State)
    requires s.db.workers == TwoWorkers() && s.redis.queue == map[1 := 0]
    requires 1 in s.db.tasks && s.db.tasks[1] == VictimRow(1)
    ensures LegalBatch(s, 1, [7, 8], [[]])
    ensures ScheduleBatch(s, 1, [7, 8], [[]]) == Dispatch(Popped(s, 1), 1, 8)
  {
    TwoActive(s.db);
    var b := Batch(Popped(s, 1), Snapshot(s.db, [7, 8]));
    assert !Fits(HALF, b.snapshot[0]) && Fits(HALF, b.snapshot[1]);
    assert SpreadSelect(HALF, b.snapshot) == Some(1);
    assert IsFirst(s.redis.queue, 1);
    LegalOneTaskBatch(s, 1, [7, 8], []);
  }

  lemma SecondAttemptRuns(s: State)
    requires s.db.workers == TwoWorkers() && 1 in s.db.tasks && s.db.tasks[1] == VictimRow(1)
    ensures var db := ReportState(Dispatch(s, 1, 8), 1, Running).db;
            && 1 in db.tasks && db.tasks[1] == Task(0, Running, HALF, Some(8), 1, 1)
            && 8 in db.workers && db.workers[8].available == HALF
  {
    DispatchedRow(s, 1, 8);
    DispatchCapacity(s, 1, 8, 8);
  }

  /** The run: task 1 runs on worker 7, is preempted there, and runs again on worker 8. */
  function SecondAttempt(): seq<Event> {
    [RunBatch(1, [7], [BusyQuery()]), Register(8, "x", BIG), RunBatch(1, [7, 8], [[]]), ReportRunning(1)]
  }

  lemma ExecNext(s: State, events: seq<Event>, e: Event)
    requires Enabled(Exec(s, events), e)
    ensures Exec(s, events + [e]) == Apply(Exec(s, events), e)
  {
    assert (events + [e])[..|events|] == events;
  }

  lemma FirstAttemptPreempted(s: State)
    requires s == State(BusyTables(1), QueueOnly(map[2 := -9]))
    ensures var after := Exec(s, SecondAttempt()[..1]);
            && after.db.workers == map[7 := Worker("w", Active, BIG, LITTLE)] && after.redis.queue == map[1 := 0]
            && 1 in after.db.tasks && after.db.tasks[1] == VictimRow(1)
  {
    FirstAttemptEnds(s);
    ExecOne(s, RunBatch(1, [7], [BusyQuery()]));
    assert SecondAttempt()[..1] == [RunBatch(1, [7], [BusyQuery()])];
  }

  lemma PreemptedAndJoined(s: State)
    requires s == State(BusyTables(1), QueueOnly(map[2 := -9]))
    ensures var joined := Exec(s, SecondAttempt()[..2]);
            && joined.db.workers == TwoWorkers() && joined.redis.queue == map[1 := 0]
            && 1 in joined.db.tasks && joined.db.tasks[1] == VictimRow(1)
  {
    FirstAttemptPreempted(s);
    SecondWorkerJoins(Exec(s, SecondAttempt()[..1]));
    ExecNext(s, SecondAttempt()[..1], Register(8, "x", BIG));
    assert SecondAttempt()[..1] + [Register(8, "x", BIG)] == SecondAttempt()[..2];
  }

  lemma DispatchedAgain(s: State)
    requires s == State(BusyTables(1), QueueOnly(map[2 := -9]))
    ensures var joined := Exec(s, SecondAttempt()[..2]);
            1 in joined.db.tasks && Exec(s, SecondAttempt()[..3]) == Dispatch(Popped(joined, 1), 1, 8)
  {
    PreemptedAndJoined(s);
    SecondAttemptStarts(Exec(s, SecondAttempt()[..2]));
    ExecNext(s, SecondAttempt()[..2], SecondAttempt()[2]);
    assert SecondAttempt()[..2] + [SecondAttempt()[2]] == SecondAttempt()[..3];
  }

  lemma SecondAttemptIsReached(s: State)
    requires s == State(BusyTables(1), QueueOnly(map[2 := -9]))
    ensures var db := Exec(s, SecondAttempt()).db;
            && 1 in db.tasks && db.tasks[1] == Task(0, Running, HALF, Some(8), 1, 1)
            && 8 in db.workers && db.workers[8].available == HALF
  {
    PreemptedAndJoined(s);
    DispatchedAgain(s);
    SecondAttemptRuns(Popped(Exec(s, SecondAttempt()[..2]), 1));
    ExecNext(s, SecondAttempt()[..3], ReportRunning(1));
    assert SecondAttempt()[..3] + [ReportRunning(1)] == SecondAttempt();
  }

  /** The completion report of the first attempt, from the worker that was told to stop, counts while
      the task runs elsewhere: it completes the task and frees capacity on the other worker. */
  lemma LateReportCounts() returns (s: State)
    ensures s == State(BusyTables(1), QueueOnly(map[2 := -9]))
    ensures RowsOk(s.db) && WellScored(s)
    ensures s.db.tasks[1].state == Running && s.db.tasks[1].worker == Some(7)
    ensures var before, after := Exec(s, SecondAttempt()).db, Exec(s, SecondAttempt() + [Complete(1)]).db;
            && 1 in before.tasks && before.tasks[1] == Task(0, Running, HALF, Some(8), 1, 1)
            && 1 in after.tasks && after.tasks[1] == Task(0, Completed, HALF, Some(8), 1, 1)
            && FreeOn(before, 8) == HALF && FreeOn(after, 8) == BIG
  {
    s := State(BusyTables(1), QueueOnly(map[2 := -9]));
    BusyTablesAreOk(1);
    SecondAttemptIsReached(s);
    ExecNext(s, SecondAttempt(), Complete(1));
    RunKeepsRows(s, SecondAttempt());
    CompletionCountsOnce(Exec(s, SecondAttempt()), 1);
  }

  // ---------- Registrations ----------

  lemma OneLiveTask(tasks: map<Id, Task>, id: Id, w: Id)
    requires id in tasks && tasks[id].LiveOn(w)
    requires forall other :: other in tasks && other != id ==> !tasks[other].LiveOn(w)
    ensures Load(tasks, w) == tasks[id].request
  {
    LoadDrop(tasks, id, w);
    LoadOfNone(Drop(tasks, id), w);
    PlusZero(tasks[id].request, ZERO);
  }

  lemma NothingLeaked(half: Resources)
    ensures half.Plus(half).Minus(half).Minus(half).Plus(ZERO) == ZERO
  {
  }

  lemma FreeHalf(half: Resources)
    requires half.NonNegative()
    ensures half.Plus(half.Plus(half).Plus(ZERO)).NonNegative()
  {
  }

  /** The only worker has half of its capacity free, and its only live task holds the other half. */
  ghost predicate HalfUsed(db: Tables, w: Id, id: Id, half: Resources) {
    && half.Positive() && db.workers.Keys == {w}
    && db.workers[w].total == half.Plus(half) && db.workers[w].available == half
    && id in db.tasks && db.tasks[id].LiveOn(w) && db.tasks[id].request == half
    && forall other :: other in db.tasks && other != id ==> !db.tasks[other].LiveOn(w)
  }

  lemma HalfUsedIsOk(db: Tables, w: Id, id: Id, half: Resources)
    requires HalfUsed(db, w, id, half)
    ensures Load(db.tasks, w) == half && CapacityOk(db)
  {
    OneLiveTask(db.tasks, id, w);
    NothingLeaked(half);
    FreeHalf(half);
  }

  lemma BusyTablesAreHalfUsed(limit: nat)
    ensures HalfUsed(BusyTables(limit), 7, 1, HALF)
  {
  }

  lemma BusyCapacityIsOk(limit: nat)
    ensures Load(BusyTables(limit).tasks, 7) == HALF
    ensures CapacityOk(BusyTables(limit))
  {
    BusyTablesAreHalfUsed(limit);
    HalfUsedIsOk(BusyTables(limit), 7, 1, HALF);
  }

  lemma WorkerRestarts(limit: nat, redis: Redis, total: Resources)
    requires total.Positive()
    ensures var s := State(BusyTables(limit), redis);
            && Enabled(s, Register(8, "w", total))
            && Registers(s, Register(8, "w", total), 7)
            && Apply(s, Register(8, "w", total)).db ==
               Tables(BusyTables(limit).tasks, map[7 := Worker("w", Active, total, total)])
  {
    var db := BusyTables(limit);
    assert IsRegistered(db.workers, "w", 7);
    assert RegisteredId(db.workers, 8, "w") == 7;
  }

  lemma TooMuchHeld(db: Tables, w: Id, total: Resources)
    requires w in db.workers && db.workers[w].total == total && !total.Plus(total).Covers(Load(db.tasks, w))
    ensures !AllBounded(db)
  {
    assert !WorkerBounded(db, w, total);
  }

  lemma TooMuchFree(db: Tables, w: Id, total: Resources, more: Resources)
    requires w in db.workers && db.workers[w].total == total && db.workers[w].available == total.Plus(more)
    requires more.Positive()
    ensures !AllBounded(db)
  {
    assert !total.Covers(total.Plus(more));
    assert !WorkerBounded(db, w, total);
  }

  /** A worker registers again, smaller, while a task is still marked as running on it: that task at once
      holds more than twice the total. */
  lemma ShrunkRestartBreaksBounds(limit: nat, redis: Redis) returns (s: State, small: Resources)
    ensures s == State(BusyTables(limit), redis) && RowsOk(s.db) && CapacityOk(s.db)
    ensures Enabled(s, Register(8, "w", small))
    ensures var db := Apply(s, Register(8, "w", small)).db;
            && 7 in db.workers && db.workers[7].total == small && Load(db.tasks, 7) == HALF
            && !AllBounded(db)
  {
    s := State(BusyTables(limit), redis);
    small := Resources(0.5, 512.0);
    BusyTablesAreOk(limit);
    BusyCapacityIsOk(limit);
    WorkerRestarts(limit, redis, small);
    TooMuchHeld(Apply(s, Register(8, "w", small)).db, 7, small);
  }

  lemma CompletedAfterRestart(s: State, e: Event, w: Id, id: Id)
    requires Enabled(s, e) && Registers(s, e, w)
    requires IsRunning(s.db, id) && s.db.tasks[id].worker == Some(w) && s.db.tasks[id].request.Positive()
    ensures var db := Apply(Apply(s, e), Complete(id)).db;
            && w in db.workers && db.workers[w].total == e.total
            && db.workers[w].available == e.total.Plus(s.db.tasks[id].request)
            && !AllBounded(db)
  {
    var db := Apply(Apply(s, e), Complete(id)).db;
    TooMuchFree(db, w, e.total, s.db.tasks[id].request);
  }

  /** The event registers this worker again, on which this task is marked as running. */
  ghost predicate RestartsBusy(db: Tables, e: Event, w: Id, id: Id) {
    && e.Register? && IsRegistered(db.workers, e.hostname, w) && HostnamesUnique(db.workers)
    && e.newId !in db.workers && e.total.Positive()
    && IsRunning(db, id) && db.tasks[id].worker == Some(w) && db.tasks[id].request.Positive()
  }

  lemma RestartOf(db: Tables, redis: Redis, e: Event, w: Id, id: Id) returns (s: State)
    requires RestartsBusy(db, e, w, id)
    ensures s == State(db, redis) && Enabled(s, e) && !AllBounded(Apply(Apply(s, e), Complete(id)).db)
  {
    s := State(db, redis);
    assert RegisteredId(db.workers, e.newId, e.hostname) == w;
    CompletedAfterRestart(s, e, w, id);
  }

  lemma BusyRestart(limit: nat)
    ensures RestartsBusy(BusyTables(limit), Register(8, "w", BIG), 7, 1)
  {
  }

  /** A worker registers again, at its old size, while a task is still marked as running on it: once that
      task completes, more is free than there is. */
  lemma RestartBreaksBounds(limit: nat, redis: Redis) returns (s: State, e: Event)
    ensures s == State(BusyTables(limit), redis) && e == Register(8, "w", BIG)
    ensures RowsOk(s.db) && CapacityOk(s.db) && Enabled(s, e)
    ensures !AllBounded(Apply(Apply(s, e), Complete(1)).db)
  {
    e := Register(8, "w", BIG);
    BusyRestart(limit);
    BusyTablesAreOk(limit);
    BusyCapacityIsOk(limit);
    s := RestartOf(BusyTables(limit), redis, e, 7, 1);
  }

  // ---------- Failure checks ----------

  /** A worker with a scheduled task that may be retried once, and another task. */
  function OrphanTables(other: Task): Tables {
    Tables(map[1 := Task(0, Scheduled, LITTLE, Some(7), 0, 1), 4 := other],
           map[7 := Worker("w", Active, BIG, HALF)])
  }

  lemma OrphanRows(s: State, other: Task, ids: seq<Id>)
    requires s.db == OrphanTables(other) && other.LiveOn(7) && (ids == [1, 4] || ids == [4, 1])
    ensures LegalCheck(s, [7], {}, [ids])
  {
    assert ids[0] in ids && ids[1] in ids;
    assert LiveTasksOn(s.db, 7) == {1, 4};
    assert [7][0] == 7;
    ListedIsLegal(s, [7], {}, [ids]);
  }

  lemma OneWorkerCommits(s: State, ids: seq<Id>)
    requires LegalCheck(s, [7], {}, [ids])
    ensures Commits(s, [7], {}, [ids]) <==> AllOrphansPass(s.db.tasks, ids)
  {
    CommitsExactly(s, [7], {}, [ids]);
  }

  lemma OrdersDiffer(tasks: map<Id, Task>, a: Id, b: Id)
    requires a in tasks && tasks[a].state == Scheduled && HasRetriesLeft(tasks[a])
    requires b in tasks && tasks[b].state == Running && ReadsOldState(tasks[b])
    ensures AllOrphansPass(tasks, [a, b]) && !AllOrphansPass(tasks, [b, a])
  {
    assert HasRetriesLeft(tasks[[a, b][0]]);
    assert OrphanPasses(tasks, [a, b], 0) && OrphanPasses(tasks, [a, b], 1);
    assert !OrphanPasses(tasks, [b, a], 0);
  }

  /** Whether the check commits can depend on the order of the rows alone: failing the second task reads
      `old_state`, which queueing the first one again assigns. */
  lemma RowOrderDecides(redis: Redis) returns (s: State)
    ensures s == State(OrphanTables(Task(0, Running, LITTLE, Some(7), 1, 1)), redis) && RowsOk(s.db)
    ensures LegalCheck(s, [7], {}, [[1, 4]]) && Commits(s, [7], {}, [[1, 4]])
    ensures LegalCheck(s, [7], {}, [[4, 1]]) && !Commits(s, [7], {}, [[4, 1]])
    ensures CheckAllWorkers(s, [7], {}, [[4, 1]]).db == s.db
  {
    s := State(OrphanTables(Task(0, Running, LITTLE, Some(7), 1, 1)), redis);
    OrphanRows(s, s.db.tasks[4], [1, 4]);
    OrphanRows(s, s.db.tasks[4], [4, 1]);
    OrdersDiffer(s.db.tasks, 1, 4);
    OneWorkerCommits(s, [1, 4]);
    OneWorkerCommits(s, [4, 1]);
  }

  /** A running task with retries left. */
  function StuckTask(): Task {
    Task(0, Running, LITTLE, Some(7), 0, 1)
  }

  /** A check aborts on it, in either order of the rows: the silent worker stays active. */
  lemma RunningOrphanBlocksCheck(redis: Redis, ids: seq<Id>) returns (s: State)
    requires ids == [1, 4] || ids == [4, 1]
    ensures s == State(OrphanTables(StuckTask()), redis) && RowsOk(s.db)
    ensures LegalCheck(s, [7], {}, [ids]) && !Commits(s, [7], {}, [ids])
    ensures CheckAllWorkers(s, [7], {}, [ids]).db == s.db && SilentWorker(s.db, {}, 7)
  {
    s := State(OrphanTables(StuckTask()), redis);
    OrphanRows(s, StuckTask(), ids);
    OneTaskBlocksEveryCheck(s, [7], {}, [ids], 4);
  }

  /** The aborted check has queued the first orphan all the same. */
  lemma AbortedCheckQueues(s: State)
    requires s.db == OrphanTables(StuckTask())
    ensures CheckWorkers(Begin(s), [7], {}, [[1, 4]]).s.redis.queue == s.redis.queue[1 := 0]
  {
    var begun := Check(s.(db := Bury(s.db, 7)), true, false);
    assert [7][..0] == [] && [[1, 4]][..0] == [];
    assert CheckWorkers(Begin(s), [], {}, []) == Begin(s);
    assert CheckWorkers(Begin(s), [7], {}, [[1, 4]]) == HandleOrphans(begun, [1, 4]);
    assert [1, 4][..1] == [1] && [1][..0] == [];
    assert HandleOrphans(begun, [1]) == HandleOrphan(begun, 1);
    var queued := HandleOrphan(begun, 1);
    assert queued.ok && queued.s.redis.queue == s.redis.queue[1 := 0];
    assert HandleOrphan(queued, 4) == queued.(ok := false);
  }

  /** Without any Redis fault, a task can be running and still be queued: an aborted check queued it, and
      then its worker reported that it runs. */
  lemma StaleEntryWithoutFault() returns (s: State, events: seq<Event>)
    ensures s == State(OrphanTables(StuckTask()), QueueOnly(map[]))
    ensures events == [CheckFailures([7], {}, [[1, 4]]), ReportRunning(1)]
    ensures RowsOk(s.db) && QueueOk(s) && WellScored(s)
    ensures IsRunning(Exec(s, events).db, 1) && 1 in Exec(s, events).redis.queue
  {
    s := RunningOrphanBlocksCheck(QueueOnly(map[]), [1, 4]);
    var check := CheckFailures([7], {}, [[1, 4]]);
    events := [check, ReportRunning(1)];
    AbortedCheckQueues(s);
    ExecOne(s, check);
    ExecNext(s, [check], ReportRunning(1));
    assert [check] + [ReportRunning(1)] == events;
  }
}

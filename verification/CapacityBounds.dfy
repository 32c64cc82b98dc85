// How far the capacity of a worker can be overcommitted over a run, and when it is not.
module CapacityBounds {
  import opened Types
  import opened Handlers
  import opened FailureChecks
  import opened Ledger
  import opened Invariants
  import opened BatchRows
  import opened Overcommit
  import opened FailureFacts
  import opened HandlerFacts
  import opened Runs

  /** Free capacity lies between minus this amount and this amount, and live tasks hold at most twice it. */
  predicate BoundedBy(free: Resources, load: Resources, amount: Resources) {
    && free.Plus(amount).NonNegative()
    && amount.Covers(free)
    && amount.Plus(amount).Covers(load)
  }

  ghost predicate WorkerBounded(db: Tables, w: Id, amount: Resources)
    requires w in db.workers
  {
    BoundedBy(db.workers[w].available, Load(db.tasks, w), amount)
  }

  /** Every worker is bounded by its own total. */
  ghost predicate AllBounded(db: Tables) {
    forall w :: w in db.workers ==> WorkerBounded(db, w, db.workers[w].total)
  }

  ghost predicate Registers(s: State, e: Event, w: Id) {
    e.Register? && w == RegisteredId(s.db.workers, e.newId, e.hostname)
  }

  /** What live tasks held on the worker when the run last registered it; nothing if it never did. */
  ghost function LoadFound(s: State, events: seq<Event>, w: Id): Resources {
    if events == [] then ZERO
    else
      var before, e := Exec(s, events[..|events| - 1]), events[|events| - 1];
      if Enabled(before, e) && Registers(before, e, w) then Load(before.db.tasks, w)
      else LoadFound(s, events[..|events| - 1], w)
  }

  // ---------- One step ----------

  /** The leak is at or above minus the debt, and the free capacity at or above minus total and debt. */
  ghost predicate DebtCovered(db: Tables, w: Id, debt: Resources)
    requires w in db.workers
  {
    && Leak(db, w).Plus(debt).NonNegative()
    && db.workers[w].available.Plus(db.workers[w].total.Plus(debt)).NonNegative()
  }

  ghost predicate CapacityOk(db: Tables) {
    forall w :: w in db.workers ==> DebtCovered(db, w, ZERO)
  }

  lemma LedgerBounds(free: Resources, load: Resources, total: Resources, debt: Resources)
    requires total.Minus(free).Minus(load).Plus(debt).NonNegative() && load.NonNegative()
    requires free.Plus(total.Plus(debt)).NonNegative()
    ensures BoundedBy(free, load, total.Plus(debt))
  {
  }

  lemma LoadsAreNonNegative(db: Tables, w: Id)
    requires RowsOk(db)
    ensures Load(db.tasks, w).NonNegative()
    ensures forall id :: id in db.tasks ==> db.tasks[id].request.Positive()
  {
    forall id | id in db.tasks ensures db.tasks[id].request.Positive() {
      assert TaskOk(db.workers, db.tasks[id]);
    }
    LoadIsNonNegative(db.tasks, w);
  }

  lemma WorkerIsBounded(db: Tables, w: Id, debt: Resources)
    requires RowsOk(db) && w in db.workers && DebtCovered(db, w, debt)
    ensures WorkerBounded(db, w, db.workers[w].total.Plus(debt))
  {
    LoadsAreNonNegative(db, w);
    LedgerBounds(db.workers[w].available, Load(db.tasks, w), db.workers[w].total, debt);
  }

  lemma AboveMinusKeepsFloor(free: Resources, after: Resources, load: Resources, amount: Resources)
    requires BoundedBy(free, load, amount) && AboveMinus(after, free)
    ensures after.Plus(amount).NonNegative()
  {
  }

  /** Outside batches, a worker's free capacity never shrinks, except that registration sets it to
      the total. */
  lemma OtherStepsFreeCapacity(s: State, e: Event, w: Id)
    requires RowsOk(s.db) && Enabled(s, e) && !e.RunBatch? && w in s.db.workers
    ensures var after := Apply(s, e).db.workers;
            w in after && (after[w].available == after[w].total ||
                           (after[w].total == s.db.workers[w].total &&
                            after[w].available.Covers(s.db.workers[w].available)))
  {
    match e
    case Complete(id) => if id in s.db.tasks { assert TaskOk(s.db.workers, s.db.tasks[id]); }
    case Fail(id) => if id in s.db.tasks { assert TaskOk(s.db.workers, s.db.tasks[id]); }
    case CheckFailures(rows, alive, orphans) => CheckIsAllOrNothing(s, rows, alive, orphans);
    case _ =>
  }

  lemma RaisedFloor(free: Resources, after: Resources, amount: Resources)
    requires free.Plus(amount).NonNegative() && after.Covers(free)
    ensures after.Plus(amount).NonNegative()
  {
  }

  lemma TotalFloor(total: Resources, debt: Resources)
    requires total.Positive() && debt.NonNegative()
    ensures total.Plus(total.Plus(debt)).NonNegative() && total.NonNegative()
  {
  }

  lemma StepKeepsFloor(s: State, e: Event, w: Id, debt: Resources)
    requires RowsOk(s.db) && Enabled(s, e) && w in s.db.workers
    requires debt.NonNegative() && DebtCovered(s.db, w, debt)
    ensures var after := Apply(s, e).db.workers;
            w in after && after[w].available.Plus(after[w].total.Plus(debt)).NonNegative()
  {
    StepKeepsRows(s, e);
    var was, now := s.db.workers[w], Apply(s, e).db.workers;
    if e.RunBatch? {
      BatchKeepsRows(s, e.count, e.rows, e.queries);
      BatchOvercommitBound(s, e.count, e.rows, e.queries, w);
      WorkerIsBounded(s.db, w, debt);
      AboveMinusKeepsFloor(was.available, now[w].available, Load(s.db.tasks, w), was.total.Plus(debt));
    } else {
      OtherStepsFreeCapacity(s, e, w);
      if now[w].available == now[w].total {
        TotalFloor(now[w].total, debt);
      } else {
        RaisedFloor(was.available, now[w].available, now[w].total.Plus(debt));
      }
    }
  }

  lemma LeakStaysCovered(leak: Resources, delta: Resources, debt: Resources)
    requires leak.Plus(debt).NonNegative() && delta.NonNegative()
    ensures leak.Plus(delta).Plus(debt).NonNegative()
  {
  }

  lemma DeltaIsNonNegative(s: State, e: Event, w: Id)
    requires w in s.db.workers && Load(s.db.tasks, w).NonNegative()
    requires forall id :: id in s.db.tasks ==> s.db.tasks[id].request.Positive()
    requires !Registers(s, e, w)
    ensures LeakDelta(s, e, w).NonNegative()
  {
  }

  lemma StepKeepsDebt(s: State, e: Event, w: Id, debt: Resources)
    requires RowsOk(s.db) && Enabled(s, e) && !Registers(s, e, w) && w in s.db.workers
    requires debt.NonNegative() && DebtCovered(s.db, w, debt)
    ensures w in Apply(s, e).db.workers && DebtCovered(Apply(s, e).db, w, debt)
  {
    StepKeepsFloor(s, e, w, debt);
    LedgerStep(s, e, w);
    LoadsAreNonNegative(s.db, w);
    DeltaIsNonNegative(s, e, w);
    LeakStaysCovered(Leak(s.db, w), LeakDelta(s, e, w), debt);
  }

  lemma NegatedDebt(total: Resources, load: Resources)
    requires total.Positive() && load.NonNegative()
    ensures ZERO.Minus(load).Plus(load).NonNegative() && total.Plus(total.Plus(load)).NonNegative()
  {
  }

  /** A registration hands out what live tasks still hold: that much debt, and no more. */
  lemma RegistrationDebt(s: State, e: Event, w: Id)
    requires RowsOk(s.db) && Enabled(s, e) && Registers(s, e, w)
    ensures w in Apply(s, e).db.workers && DebtCovered(Apply(s, e).db, w, Load(s.db.tasks, w))
  {
    RegisteredLeakIs(s, e.newId, e.hostname, e.total);
    LoadsAreNonNegative(s.db, w);
    NegatedDebt(e.total, Load(s.db.tasks, w));
  }

  /** Workers appear only by registration, with everything free. */
  lemma NewWorkers(s: State, e: Event, w: Id)
    requires RowsOk(s.db) && Enabled(s, e)
    requires w !in s.db.workers && w in Apply(s, e).db.workers
    ensures Registers(s, e, w)
    ensures var after := Apply(s, e).db.workers; after[w].available == after[w].total
  {
    match e
    case Register(newId, hostname, total) =>
    case RunBatch(count, rows, queries) => BatchKeepsRows(s, count, rows, queries);
    case CheckFailures(rows, alive, orphans) => CheckIsAllOrNothing(s, rows, alive, orphans);
    case Complete(id) =>
    case Fail(id) =>
    case _ =>
  }

  // ---------- Every run ----------

  lemma {:induction false} RunKeepsDebt(s: State, events: seq<Event>, w: Id)
    requires RowsOk(s.db) && CapacityOk(s.db) && w in Exec(s, events).db.workers
    ensures LoadFound(s, events, w).NonNegative()
    ensures DebtCovered(Exec(s, events).db, w, LoadFound(s, events, w))
  {
    if events != [] {
      var front, e := events[..|events| - 1], events[|events| - 1];
      var before := Exec(s, front);
      RunKeepsRows(s, front);
      if Enabled(before, e) {
        if w !in before.db.workers {
          NewWorkers(before, e, w);
        }
        if Registers(before, e, w) {
          RegistrationDebt(before, e, w);
          LoadsAreNonNegative(before.db, w);
        } else {
          RunKeepsDebt(s, front, w);
          StepKeepsDebt(before, e, w, LoadFound(s, front, w));
        }
      } else {
        RunKeepsDebt(s, front, w);
      }
    }
  }

  /** Over every run, whatever its registrations and Redis faults: a worker's free capacity never leaves
      the range between minus and plus its total and what its last registration found in use, and its
      SCHEDULED and RUNNING tasks never hold more than twice that. */
  lemma RunOvercommitBound(s: State, events: seq<Event>, w: Id)
    requires RowsOk(s.db) && CapacityOk(s.db) && w in Exec(s, events).db.workers
    ensures var db := Exec(s, events).db;
            WorkerBounded(db, w, db.workers[w].total.Plus(LoadFound(s, events, w)))
  {
    RunKeepsRows(s, events);
    RunKeepsDebt(s, events, w);
    WorkerIsBounded(Exec(s, events).db, w, LoadFound(s, events, w));
  }

  const EMPTY: Tables := Tables(map[], map[])

  /** In particular from an empty database. */
  lemma NewClusterIsBounded(redis: Redis, events: seq<Event>)
    ensures var s := State(EMPTY, redis);
            var db := Exec(s, events).db;
            RowsOk(db) && forall w :: w in db.workers ==>
              WorkerBounded(db, w, db.workers[w].total.Plus(LoadFound(s, events, w)))
  {
    var s := State(EMPTY, redis);
    var db := Exec(s, events).db;
    RunKeepsRows(s, events);
    forall w | w in db.workers
      ensures WorkerBounded(db, w, db.workers[w].total.Plus(LoadFound(s, events, w)))
    {
      RunOvercommitBound(s, events, w);
    }
  }

  // ---------- Runs whose registrations find no live task ----------

  /** A registration of a worker that has no live task. */
  ghost predicate Quiet(s: State, e: Event) {
    e.Register? ==> LiveTasksOn(s.db, RegisteredId(s.db.workers, e.newId, e.hostname)) == {}
  }

  ghost predicate QuietRun(s: State, events: seq<Event>) {
    events != [] ==>
      QuietRun(s, events[..|events| - 1]) && Quiet(Exec(s, events[..|events| - 1]), events[|events| - 1])
  }

  lemma {:induction false} QuietRunFindsNothing(s: State, events: seq<Event>, w: Id)
    requires RowsOk(s.db) && QuietRun(s, events)
    ensures LoadFound(s, events, w) == ZERO
  {
    if events != [] {
      var front := events[..|events| - 1];
      RunKeepsRows(s, front);
      QuietRunFindsNothing(s, front, w);
      LoadTellsLife(Exec(s, front).db, w);
    }
  }

  /** Then the totals alone are the bound. */
  lemma QuietRunStaysBounded(s: State, events: seq<Event>)
    requires RowsOk(s.db) && CapacityOk(s.db) && QuietRun(s, events)
    ensures CapacityOk(Exec(s, events).db) && AllBounded(Exec(s, events).db)
  {
    var db := Exec(s, events).db;
    forall w | w in db.workers ensures DebtCovered(db, w, ZERO) && WorkerBounded(db, w, db.workers[w].total) {
      QuietRunFindsNothing(s, events, w);
      RunKeepsDebt(s, events, w);
      RunOvercommitBound(s, events, w);
      PlusZero(db.workers[w].total, ZERO);
    }
  }

  // ---------- Exactly then ----------

  ghost predicate NoRegistration(events: seq<Event>) {
    forall k :: 0 <= k < |events| ==> !events[k].Register?
  }

  lemma {:induction false} NoRegistrationIsQuiet(s: State, events: seq<Event>)
    requires NoRegistration(events)
    ensures QuietRun(s, events)
  {
    if events != [] {
      NoRegistrationIsQuiet(s, events[..|events| - 1]);
    }
  }

  /** The worker has given up live tasks, and got back exactly what they held. */
  ghost predicate Relieved(db: Tables, after: Tables, w: Id) {
    && RowsOk(after) && w in db.workers && w in after.workers
    && after.workers[w].total == db.workers[w].total
    && Leak(after, w) == Leak(db, w)
  }

  function Finished(s: State, id: Id): State {
    CompleteTask(ReportState(s, id, Running), id)
  }

  lemma FinishedRow(s: State, w: Id, id: Id)
    requires RowsOk(s.db) && id in LiveTasksOn(s.db, w)
    ensures Finished(s, id).db.tasks == s.db.tasks[id := s.db.tasks[id].(state := Completed)]
    ensures SameWorkers(s.db.workers, Finished(s, id).db.workers)
    ensures w in s.db.workers
  {
    assert TaskOk(s.db.workers, s.db.tasks[id]);
  }

  /** A live task starts, if it has not yet, and completes. */
  lemma FinishOne(s: State, w: Id, id: Id)
    requires RowsOk(s.db) && id in LiveTasksOn(s.db, w)
    ensures Relieved(s.db, Finished(s, id).db, w)
    ensures LiveTasksOn(Finished(s, id).db, w) == LiveTasksOn(s.db, w) - {id}
  {
    var started := ReportState(s, id, Running);
    FinishedRow(s, w, id);
    ReportRunningRows(s, id);
    ReportRunningLeaks(s, id);
    CompleteRows(started, id);
    CompleteLeaks(started, id);
    assert Leak(started.db, w) == Leak(s.db, w);
  }

  lemma ExecFinish(s: State, id: Id)
    ensures Exec(s, [ReportRunning(id), Complete(id)]) == Finished(s, id)
  {
    ExecOne(s, ReportRunning(id));
    ExecOne(Apply(s, ReportRunning(id)), Complete(id));
    ExecConcat(s, [ReportRunning(id)], [Complete(id)]);
    assert [ReportRunning(id)] + [Complete(id)] == [ReportRunning(id), Complete(id)];
  }

  /** After these events, no registration among them, the worker has no live task left. */
  ghost predicate Drains(s: State, events: seq<Event>, w: Id) {
    && NoRegistration(events)
    && Relieved(s.db, Exec(s, events).db, w) && LiveTasksOn(Exec(s, events).db, w) == {}
  }

  lemma FinishThen(s: State, w: Id, id: Id, rest: seq<Event>)
    requires RowsOk(s.db) && id in LiveTasksOn(s.db, w) && Drains(Finished(s, id), rest, w)
    ensures Drains(s, [ReportRunning(id), Complete(id)] + rest, w)
  {
    FinishOne(s, w, id);
    ExecFinish(s, id);
    ExecConcat(s, [ReportRunning(id), Complete(id)], rest);
  }

  lemma NothingToFinish(s: State, w: Id)
    requires RowsOk(s.db) && w in s.db.workers && LiveTasksOn(s.db, w) == {}
    ensures Drains(s, [], w)
  {
  }

  lemma OneLess(ids: set<Id>) returns (id: Id)
    requires ids != {}
    ensures id in ids && |ids - {id}| < |ids|
  {
    EmptyOrInhabited(ids);
    id :| id in ids;
  }

  /** All live tasks of a worker can complete. */
  lemma {:induction false} FinishAll(s: State, w: Id) returns (events: seq<Event>)
    requires RowsOk(s.db) && w in s.db.workers
    ensures Drains(s, events, w)
    decreases |LiveTasksOn(s.db, w)|
  {
    if LiveTasksOn(s.db, w) == {} {
      NothingToFinish(s, w);
      events := [];
    } else {
      var id := OneLess(LiveTasksOn(s.db, w));
      FinishOne(s, w, id);
      var rest := FinishAll(Finished(s, id), w);
      FinishThen(s, w, id, rest);
      events := [ReportRunning(id), Complete(id)] + rest;
    }
  }

  lemma NegativeLeakMeansTooMuchFree(free: Resources, total: Resources)
    requires !total.Minus(free).Minus(ZERO).Plus(ZERO).NonNegative()
    ensures !total.Covers(free)
  {
  }

  /** Tables that do not satisfy `CapacityOk` leave the bounds once the tasks of some worker complete. */
  lemma CapacityIsNeeded(s: State) returns (events: seq<Event>)
    requires RowsOk(s.db) && !CapacityOk(s.db)
    ensures NoRegistration(events) && !AllBounded(Exec(s, events).db)
  {
    var w :| w in s.db.workers && !DebtCovered(s.db, w, ZERO);
    if Leak(s.db, w).Plus(ZERO).NonNegative() {
      events := [];
      PlusZero(s.db.workers[w].total, ZERO);
      assert !WorkerBounded(s.db, w, s.db.workers[w].total);
    } else {
      events := FinishAll(s, w);
      var after := Exec(s, events).db;
      LoadTellsLife(after, w);
      NegativeLeakMeansTooMuchFree(after.workers[w].available, after.workers[w].total);
      assert !WorkerBounded(after, w, after.workers[w].total);
    }
  }

  ghost predicate StaysBounded(s: State) {
    forall events :: QuietRun(s, events) ==> AllBounded(Exec(s, events).db)
  }

  /** Every quiet continuation stays within the totals exactly when nothing negative has leaked and
      nothing is below minus its total. */
  lemma QuietRunsStayBoundedExactly(s: State)
    requires RowsOk(s.db)
    ensures StaysBounded(s) <==> CapacityOk(s.db)
  {
    if CapacityOk(s.db) {
      forall events | QuietRun(s, events) ensures AllBounded(Exec(s, events).db) {
        QuietRunStaysBounded(s, events);
      }
    } else {
      var events := CapacityIsNeeded(s);
      NoRegistrationIsQuiet(s, events);
    }
  }

  lemma FreshTotalsBound(total: Resources, load: Resources)
    requires total.Positive()
    ensures BoundedBy(total, load, total) <==> total.Plus(total).Covers(load)
  {
  }

  lemma OtherWorkersBounded(s: State, e: Event, w: Id, v: Id)
    requires RowsOk(s.db) && CapacityOk(s.db) && Enabled(s, e) && Registers(s, e, w) && v != w
    requires v in Apply(s, e).db.workers
    ensures v in s.db.workers && DebtCovered(Apply(s, e).db, v, ZERO)
    ensures WorkerBounded(Apply(s, e).db, v, Apply(s, e).db.workers[v].total)
  {
    RegisteredLeakIs(s, e.newId, e.hostname, e.total);
    assert DebtCovered(s.db, v, ZERO);
    WorkerIsBounded(s.db, v, ZERO);
    PlusZero(s.db.workers[v].total, ZERO);
  }

  lemma QuietExactly(s: State, e: Event, w: Id)
    requires RowsOk(s.db) && Enabled(s, e) && Registers(s, e, w)
    ensures w in Apply(s, e).db.workers && (DebtCovered(Apply(s, e).db, w, ZERO) <==> LiveTasksOn(s.db, w) == {})
  {
    RegisterLeak(s, e.newId, e.hostname, e.total);
    TotalFloor(e.total, ZERO);
    PlusZero(Leak(Apply(s, e).db, w), ZERO);
  }

  lemma BoundedAfterRegistration(s: State, e: Event, w: Id)
    requires RowsOk(s.db) && CapacityOk(s.db) && Enabled(s, e) && Registers(s, e, w)
    ensures AllBounded(Apply(s, e).db) <==> e.total.Plus(e.total).Covers(Load(s.db.tasks, w))
  {
    var after := Apply(s, e).db;
    FreshTotalsBound(e.total, Load(s.db.tasks, w));
    assert w in after.workers;
    assert WorkerBounded(after, w, e.total) <==> e.total.Plus(e.total).Covers(Load(s.db.tasks, w));
    forall v | v in after.workers && v != w ensures WorkerBounded(after, v, after.workers[v].total) {
      OtherWorkersBounded(s, e, w, v);
    }
  }

  lemma CapacityAfterRegistration(s: State, e: Event, w: Id)
    requires RowsOk(s.db) && CapacityOk(s.db) && Enabled(s, e) && Registers(s, e, w)
    ensures CapacityOk(Apply(s, e).db) <==> LiveTasksOn(s.db, w) == {}
  {
    var after := Apply(s, e).db;
    forall v | v in after.workers && v != w ensures DebtCovered(after, v, ZERO) {
      OtherWorkersBounded(s, e, w, v);
    }
    QuietExactly(s, e, w);
  }

  /** Right after a registration the bounds hold exactly when twice the new total covers what the
      worker's live tasks hold; they go on to hold, whatever quiet run follows, exactly when it has
      none. */
  lemma RegistrationKeepsBoundsExactly(s: State, e: Event)
    requires RowsOk(s.db) && CapacityOk(s.db) && Enabled(s, e) && e.Register?
    ensures AllBounded(Apply(s, e).db) <==>
              e.total.Plus(e.total).Covers(Load(s.db.tasks, RegisteredId(s.db.workers, e.newId, e.hostname)))
    ensures StaysBounded(Apply(s, e)) <==> Quiet(s, e)
  {
    var w := RegisteredId(s.db.workers, e.newId, e.hostname);
    BoundedAfterRegistration(s, e, w);
    CapacityAfterRegistration(s, e, w);
    StepKeepsRows(s, e);
    QuietRunsStayBoundedExactly(Apply(s, e));
  }

  // ---------- Runs that never go below zero ----------

  lemma CoversNonNegative(free: Resources, after: Resources)
    requires free.NonNegative() && after.Covers(free)
    ensures after.NonNegative()
  {
  }

  lemma OtherStepsKeepNonNegative(s: State, e: Event)
    requires RowsOk(s.db) && AllNonNegative(s.db) && Enabled(s, e) && !e.RunBatch?
    ensures AllNonNegative(Apply(s, e).db)
  {
    StepKeepsRows(s, e);
    var after := Apply(s, e).db;
    forall w | w in after.workers ensures after.workers[w].available.NonNegative() {
      TotalFloor(after.workers[w].total, ZERO);
      if w in s.db.workers {
        OtherStepsFreeCapacity(s, e, w);
        if after.workers[w].available != after.workers[w].total {
          CoversNonNegative(s.db.workers[w].available, after.workers[w].available);
        }
      } else {
        NewWorkers(s, e, w);
      }
    }
  }

  /** No worker is below zero after any step of the run or any turn of its batches. */
  ghost predicate RunStaysNonNegative(s: State, events: seq<Event>) {
    && AllNonNegative(Exec(s, events).db)
    && (events != [] ==>
          var before, e := Exec(s, events[..|events| - 1]), events[|events| - 1];
          && RunStaysNonNegative(s, events[..|events| - 1])
          && (e.RunBatch? && Enabled(before, e) ==> BatchStaysNonNegative(before, e.count, e.rows, e.queries)))
  }

  /** Every placement of the run is on a worker whose stored capacity covers it. */
  ghost predicate RunIsCovered(s: State, events: seq<Event>) {
    events != [] ==>
      var before, e := Exec(s, events[..|events| - 1]), events[|events| - 1];
      && RunIsCovered(s, events[..|events| - 1])
      && (e.RunBatch? && Enabled(before, e) ==> BatchIsCovered(before, e.count, e.rows, e.queries))
  }

  /** A run never takes free capacity below zero exactly when every spread placement in it goes to a
      worker whose stored capacity, not only its snapshot entry, covers the request. */
  lemma {:induction false} RunStaysNonNegativeExactly(s: State, events: seq<Event>)
    requires RowsOk(s.db) && AllNonNegative(s.db)
    ensures RunStaysNonNegative(s, events) <==> RunIsCovered(s, events)
  {
    if events != [] {
      var front, e := events[..|events| - 1], events[|events| - 1];
      var before := Exec(s, front);
      RunStaysNonNegativeExactly(s, front);
      RunKeepsRows(s, front);
      if Enabled(before, e) && RunStaysNonNegative(s, front) {
        if e.RunBatch? {
          BatchStaysNonNegativeExactly(before, e.count, e.rows, e.queries);
        } else {
          OtherStepsKeepNonNegative(before, e);
        }
      }
    }
  }

  /** In each batch of the run, no spread placement follows a preemption. */
  ghost predicate CleanRun(s: State, events: seq<Event>) {
    events != [] ==>
      var before, e := Exec(s, events[..|events| - 1]), events[|events| - 1];
      && CleanRun(s, events[..|events| - 1])
      && (e.RunBatch? && Enabled(before, e) ==> CleanBatch(before, e.count, e.rows, e.queries))
  }

  /** In runs where no spread placement follows a preemption within a batch, free capacity never
      goes below zero. */
  lemma {:induction false} CleanRunStaysNonNegative(s: State, events: seq<Event>)
    requires RowsOk(s.db) && AllNonNegative(s.db) && CleanRun(s, events)
    ensures RunStaysNonNegative(s, events)
  {
    if events != [] {
      var front, e := events[..|events| - 1], events[|events| - 1];
      var before := Exec(s, front);
      CleanRunStaysNonNegative(s, front);
      RunKeepsRows(s, front);
      if Enabled(before, e) {
        if e.RunBatch? {
          CleanBatchStaysNonNegative(before, e.count, e.rows, e.queries);
        } else {
          OtherStepsKeepNonNegative(before, e);
        }
      }
    }
  }
}

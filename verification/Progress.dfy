// Every committed change of a task row uses up a bounded budget: tasks end, and preemption cannot
// go on for ever.
module Progress {
  import opened Types
  import opened Transitions
  import opened PriorityQueues
  import opened Preemption
  import opened Handlers
  import opened Batching
  import opened Ledger
  import opened Invariants
  import opened BatchRows
  import opened FailureFacts
  import opened Runs
  import opened PoppedTasks

  predicate Dispatches(t: Task, after: Task) {
    t.state != Scheduled && after.state == Scheduled
  }

  /** How far a task can still go, counted in changes its row undergoes: a handler that fails or
      evicts a task and queues it again makes one change of the two transitions. */
  function ChangesLeft(t: Task): int {
    3 * (t.maxRetries - t.retries) + Rank(t.state)
  }

  /** A row is left alone, or what it can still undergo falls; the dispatches still possible never
      increase, and each dispatch uses one. */
  predicate Advances(t: Task, after: Task) {
    && after.maxRetries == t.maxRetries && after.request == t.request && after.priority == t.priority
    && (after == t || ChangesLeft(after) < ChangesLeft(t))
    && DispatchBudget(after) <= DispatchBudget(t)
    && (Dispatches(t, after) ==> DispatchBudget(after) < DispatchBudget(t))
  }

  ghost predicate AllAdvance(a: map<Id, Task>, b: map<Id, Task>) {
    forall id :: id in a ==> id in b && Advances(a[id], b[id])
  }

  lemma AdvancesTwice(a: Task, b: Task, c: Task)
    requires Advances(a, b) && Advances(b, c)
    ensures Advances(a, c)
  {
  }

  lemma TurnMovesAdvance(t: Task, after: Task)
    requires TurnMoves(t, after)
    ensures Advances(t, after)
  {
  }

  lemma {:induction false} TurnsAdvance(b: Batch, ids: seq<Id>, queries: seq<seq<WorkerWithTasks>>)
    requires BatchOk(b) && LegalTurns(b, ids, queries)
    ensures AllAdvance(b.s.db.tasks, Turns(b, ids, queries).s.db.tasks)
  {
    if ids != [] {
      var n := |ids| - 1;
      var before, after := Turns(b, ids[..n], queries[..n]), Turns(b, ids, queries);
      TurnsAdvance(b, ids[..n], queries[..n]);
      TurnsRows(b, ids[..n], queries[..n]);
      TurnRows(before, ids[n], queries[n]);
      forall id | id in b.s.db.tasks
        ensures id in after.s.db.tasks && Advances(b.s.db.tasks[id], after.s.db.tasks[id])
      {
        assert Advances(b.s.db.tasks[id], before.s.db.tasks[id]);
        TurnMovesAdvance(before.s.db.tasks[id], after.s.db.tasks[id]);
        AdvancesTwice(b.s.db.tasks[id], before.s.db.tasks[id], after.s.db.tasks[id]);
      }
    }
  }

  lemma OrphanAdvances(t: Task)
    requires t.Live()
    ensures Advances(t, Orphaned(t))
  {
  }

  lemma CommitAdvances(db: Tables, after: Tables, dead: set<Id>)
    requires Buried(db, after, dead)
    ensures AllAdvance(db.tasks, after.tasks)
  {
    forall id | id in db.tasks ensures id in after.tasks && Advances(db.tasks[id], after.tasks[id]) {
      if OrphanOf(db.tasks[id], dead) {
        OrphanAdvances(db.tasks[id]);
      }
    }
  }

  lemma WriteAdvances(db: Tables, id: Id, t: Task, on: Option<Id>, delta: Resources)
    requires id in db.tasks ==> Advances(db.tasks[id], t)
    ensures AllAdvance(db.tasks, Adjust(WithTask(db, id, t), on, delta).tasks)
    ensures AllAdvance(db.tasks, WithTask(db, id, t).tasks)
  {
    AdjustKeepsShape(db, id, t, on, delta);
  }

  lemma NextStateAdvances(t: Task, next: TaskState)
    requires ValidateTransition(t.state, next) && next != Pending && next != Scheduled
    ensures Advances(t, t.(state := next))
    ensures Advances(t, t.(state := next, worker := None))
    ensures next == Failed ==> Advances(t, Retry(t.(state := next)))
  {
  }

  lemma HandlerAdvances(s: State, e: Event)
    requires Enabled(s, e) && !e.RunBatch? && !e.CheckFailures?
    ensures AllAdvance(s.db.tasks, Apply(s, e).db.tasks)
  {
    match e
    case ReportRunning(id) =>
      if id in s.db.tasks && ValidateTransition(s.db.tasks[id].state, Running) {
        NextStateAdvances(s.db.tasks[id], Running);
        WriteAdvances(s.db, id, s.db.tasks[id].(state := Running), None, ZERO);
      }
    case Complete(id) =>
      if id in s.db.tasks && ValidateTransition(s.db.tasks[id].state, Completed) {
        var t := s.db.tasks[id];
        NextStateAdvances(t, Completed);
        WriteAdvances(s.db, id, t.(state := Completed), t.worker, t.request);
      }
    case Fail(id) =>
      if id in s.db.tasks && ValidateTransition(s.db.tasks[id].state, Failed) {
        var t := s.db.tasks[id];
        NextStateAdvances(t, Failed);
        WriteAdvances(s.db, id, Retry(t.(state := Failed)), t.worker, t.request);
      }
    case Cancel(id) =>
      if CancelOutcomeOf(s, id) == Done {
        NextStateAdvances(s.db.tasks[id], Cancelled);
        WriteAdvances(s.db, id, s.db.tasks[id].(state := Cancelled, worker := None), None, ZERO);
      }
    case _ =>
  }

  /** At every step, each task row stays as it is or what it can still undergo strictly falls. */
  lemma StepAdvances(s: State, e: Event)
    requires RowsOk(s.db) && Enabled(s, e)
    ensures AllAdvance(s.db.tasks, Apply(s, e).db.tasks)
  {
    match e
    case RunBatch(count, rows, queries) =>
      var ids := PopBatch(s.redis.queue, count);
      if rows == [] {
        RequeueKeepsTables(Popped(s, count), ids);
      } else {
        SnapshotIsOk(s, rows, count);
        TurnsAdvance(Batch(Popped(s, count), Snapshot(s.db, rows)), ids, queries);
      }
    case CheckFailures(rows, alive, orphans) =>
      CheckIsAllOrNothing(s, rows, alive, orphans);
      if AllWorkersPass(s.db.tasks, rows, alive, orphans) {
        CommitAdvances(s.db, Apply(s, e).db, DeadAmong(rows, alive));
      }
    case _ => HandlerAdvances(s, e);
  }

  // ---------- One task over a run ----------

  /** How many steps of the run change the row. */
  ghost function Changes(s: State, events: seq<Event>, id: Id): nat {
    if events == [] then 0
    else
      var front := events[..|events| - 1];
      Changes(s, front, id) +
      (var before, after := Exec(s, front).db.tasks, Exec(s, events).db.tasks;
       if id in before && id in after && before[id] != after[id] then 1 else 0)
  }

  /** How many steps of the run dispatch the task. */
  ghost function DispatchCount(s: State, events: seq<Event>, id: Id): nat {
    if events == [] then 0
    else
      var front := events[..|events| - 1];
      DispatchCount(s, front, id) +
      (var before, after := Exec(s, front).db.tasks, Exec(s, events).db.tasks;
       if id in before && id in after && Dispatches(before[id], after[id]) then 1 else 0)
  }

  lemma LastStepAdvances(s: State, events: seq<Event>)
    requires RowsOk(s.db) && events != []
    ensures AllAdvance(Exec(s, events[..|events| - 1]).db.tasks, Exec(s, events).db.tasks)
  {
    var front, e := events[..|events| - 1], events[|events| - 1];
    RunKeepsRows(s, front);
    if Enabled(Exec(s, front), e) {
      StepAdvances(Exec(s, front), e);
    }
  }

  lemma {:induction false} RunUsesUpBudgets(s: State, events: seq<Event>, id: Id)
    requires RowsOk(s.db) && id in s.db.tasks
    ensures var after := Exec(s, events).db.tasks;
            && id in after
            && ChangesLeft(after[id]) + Changes(s, events, id) <= ChangesLeft(s.db.tasks[id])
            && DispatchBudget(after[id]) + DispatchCount(s, events, id) <= DispatchBudget(s.db.tasks[id])
  {
    if events != [] {
      RunUsesUpBudgets(s, events[..|events| - 1], id);
      LastStepAdvances(s, events);
    }
  }

  /** Whatever happens, faults included: from its creation on, a task is dispatched at most
      maxRetries + 1 times and its row changes at most 3 * maxRetries + 3 times. */
  lemma TaskIsBounded(s: State, events: seq<Event>, id: Id)
    requires RowsOk(s.db) && id in s.db.tasks
    requires s.db.tasks[id].state == Pending && s.db.tasks[id].retries == 0
    ensures DispatchCount(s, events, id) <= s.db.tasks[id].maxRetries + 1
    ensures Changes(s, events, id) <= 3 * s.db.tasks[id].maxRetries + 3
  {
    RunUsesUpBudgets(s, events, id);
    RunKeepsRows(s, events);
    assert TaskOk(Exec(s, events).db.workers, Exec(s, events).db.tasks[id]);
  }

  // ---------- All tasks together ----------

  ghost function TotalChangesLeft(tasks: map<Id, Task>): int
    decreases |tasks|
  {
    if tasks == map[] then 0
    else
      var id := AnyTask(tasks);
      DropShrinks(tasks, id);
      ChangesLeft(tasks[id]) + TotalChangesLeft(Drop(tasks, id))
  }

  lemma {:induction false} TotalDrop(tasks: map<Id, Task>, id: Id)
    requires id in tasks
    ensures TotalChangesLeft(tasks) == ChangesLeft(tasks[id]) + TotalChangesLeft(Drop(tasks, id))
    decreases |tasks|
  {
    var first := AnyTask(tasks);
    if first != id {
      DropShrinks(tasks, first);
      DropShrinks(tasks, id);
      TotalDrop(Drop(tasks, first), id);
      TotalDrop(Drop(tasks, id), first);
      DropTwice(tasks, first, id);
    }
  }

  ghost predicate SomeRowChanged(a: map<Id, Task>, b: map<Id, Task>) {
    exists id :: id in a && id in b && a[id] != b[id]
  }

  lemma {:induction false} TotalFalls(a: map<Id, Task>, b: map<Id, Task>)
    requires a.Keys == b.Keys && AllAdvance(a, b)
    ensures TotalChangesLeft(b) <= TotalChangesLeft(a)
    ensures SomeRowChanged(a, b) ==> TotalChangesLeft(b) < TotalChangesLeft(a)
    decreases |a|
  {
    if a == map[] {
      assert b == map[] by { assert b.Keys == {}; }
    } else {
      var id := AnyTask(a);
      if changed :| changed in a && changed in b && a[changed] != b[changed] {
        id := changed;
      }
      DropShrinks(a, id);
      TotalFalls(Drop(a, id), Drop(b, id));
      TotalDrop(a, id);
      TotalDrop(b, id);
      assert Advances(a[id], b[id]);
    }
  }

  lemma {:induction false} TotalIsNonNegative(db: Tables, tasks: map<Id, Task>)
    requires forall id :: id in tasks ==> TaskOk(db.workers, tasks[id])
    ensures TotalChangesLeft(tasks) >= 0
    decreases |tasks|
  {
    if tasks != map[] {
      var id := AnyTask(tasks);
      DropShrinks(tasks, id);
      TotalIsNonNegative(db, Drop(tasks, id));
      assert TaskOk(db.workers, tasks[id]);
    }
  }

  ghost predicate CreatesNothing(events: seq<Event>) {
    forall k :: 0 <= k < |events| ==> !events[k].Create?
  }

  /** How many steps of the run change some task row. */
  ghost function BusySteps(s: State, events: seq<Event>): nat {
    if events == [] then 0
    else
      var front := events[..|events| - 1];
      BusySteps(s, front) + (if SomeRowChanged(Exec(s, front).db.tasks, Exec(s, events).db.tasks) then 1 else 0)
  }

  lemma StepKeepsTaskIds(s: State, e: Event)
    requires RowsOk(s.db) && Enabled(s, e) && !e.Create?
    ensures Apply(s, e).db.tasks.Keys == s.db.tasks.Keys
  {
    match e
    case RunBatch(count, rows, queries) => BatchKeepsRows(s, count, rows, queries);
    case CheckFailures(rows, alive, orphans) => CheckIsAllOrNothing(s, rows, alive, orphans);
    case Complete(id) =>
    case Fail(id) =>
    case Cancel(id) =>
    case _ =>
  }

  /** No livelock: while no task is created, at most `TotalChangesLeft` steps change any task row, however
      the tasks preempt each other and however often workers die. */
  lemma {:induction false} NoLivelock(s: State, events: seq<Event>)
    requires RowsOk(s.db) && CreatesNothing(events)
    ensures BusySteps(s, events) + TotalChangesLeft(Exec(s, events).db.tasks) <= TotalChangesLeft(s.db.tasks)
    ensures BusySteps(s, events) <= TotalChangesLeft(s.db.tasks)
  {
    if events != [] {
      var front, e := events[..|events| - 1], events[|events| - 1];
      NoLivelock(s, front);
      RunKeepsRows(s, front);
      LastStepAdvances(s, events);
      if Enabled(Exec(s, front), e) {
        StepKeepsTaskIds(Exec(s, front), e);
      }
      TotalFalls(Exec(s, front).db.tasks, Exec(s, events).db.tasks);
    }
    RunKeepsRows(s, events);
    TotalIsNonNegative(Exec(s, events).db, Exec(s, events).db.tasks);
  }

  // ---------- Finished tasks ----------

  predicate Finished(t: Task) {
    t.state in {Completed, Failed, Preempted, Cancelled}
  }

  ghost predicate FinishedStay(a: map<Id, Task>, b: map<Id, Task>) {
    forall id :: id in a && Finished(a[id]) ==> id in b && b[id] == a[id]
  }

  lemma FinishedHasNoExit(t: Task, next: TaskState)
    requires Finished(t) && next != Pending
    ensures !ValidateTransition(t.state, next)
  {
  }

  lemma WriteKeepsFinished(db: Tables, id: Id, t: Task, on: Option<Id>, delta: Resources)
    requires id in db.tasks ==> !Finished(db.tasks[id])
    ensures FinishedStay(db.tasks, Adjust(WithTask(db, id, t), on, delta).tasks)
    ensures FinishedStay(db.tasks, WithTask(db, id, t).tasks)
  {
    AdjustKeepsShape(db, id, t, on, delta);
  }

  lemma HandlerKeepsFinished(s: State, e: Event)
    requires Enabled(s, e) && !e.RunBatch? && !e.CheckFailures?
    ensures FinishedStay(s.db.tasks, Apply(s, e).db.tasks)
  {
    match e
    case Complete(id) =>
      if id in s.db.tasks && ValidateTransition(s.db.tasks[id].state, Completed) {
        var t := s.db.tasks[id];
        WriteKeepsFinished(s.db, id, t.(state := Completed), t.worker, t.request);
      }
    case Fail(id) =>
      if id in s.db.tasks && ValidateTransition(s.db.tasks[id].state, Failed) {
        var t := s.db.tasks[id];
        WriteKeepsFinished(s.db, id, Retry(t.(state := Failed)), t.worker, t.request);
      }
    case ReportRunning(id) =>
      if id in s.db.tasks && Finished(s.db.tasks[id]) {
        FinishedHasNoExit(s.db.tasks[id], Running);
      }
    case _ =>
  }

  lemma StepKeepsFinished(s: State, e: Event)
    requires RowsOk(s.db) && Enabled(s, e)
    ensures FinishedStay(s.db.tasks, Apply(s, e).db.tasks)
  {
    match e
    case RunBatch(count, rows, queries) =>
      var ids := PopBatch(s.redis.queue, count);
      if rows == [] {
        RequeueKeepsTables(Popped(s, count), ids);
      } else {
        SnapshotIsOk(s, rows, count);
        forall v | v in s.db.tasks && Finished(s.db.tasks[v])
          ensures v in Apply(s, e).db.tasks && Apply(s, e).db.tasks[v] == s.db.tasks[v]
        {
          ScheduledIsNeverVictim(Batch(Popped(s, count), Snapshot(s.db, rows)), ids, queries, v);
        }
      }
    case CheckFailures(rows, alive, orphans) => CheckIsAllOrNothing(s, rows, alive, orphans);
    case _ => HandlerKeepsFinished(s, e);
  }

  /** A task that has completed, finally failed, been finally preempted or been cancelled is never
      touched again, whatever is reported, popped or replayed. */
  lemma {:induction false} FinishedTasksStay(s: State, events: seq<Event>)
    requires RowsOk(s.db)
    ensures FinishedStay(s.db.tasks, Exec(s, events).db.tasks)
  {
    if events != [] {
      var front, e := events[..|events| - 1], events[|events| - 1];
      FinishedTasksStay(s, front);
      RunKeepsRows(s, front);
      if Enabled(Exec(s, front), e) {
        StepKeepsFinished(Exec(s, front), e);
      }
    }
  }
}

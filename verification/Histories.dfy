// Every row that is ever stored got there by transitions of the table, however the handlers edit it.
module Histories {
  import opened Types
  import opened Transitions
  import opened PriorityQueues
  import opened Preemption
  import opened Handlers
  import opened Batching
  import opened FailureChecks
  import opened Invariants
  import opened BatchRows
  import opened FailureFacts
  import opened CheckOrders
  import opened Runs

  ghost predicate AllLead(a: map<Id, Task>, b: map<Id, Task>) {
    forall id :: id in a ==> id in b && LeadsTo(a[id], b[id])
  }

  /** Entering PREEMPTED or FAILED and being queued again are one change of the row but two transitions. */
  lemma RetryLeads(t: Task, next: TaskState)
    requires t.state == Running && t.retries <= t.maxRetries && (next == Failed || next == Preempted)
    ensures LeadsTo(t, Retry(t.(state := next)))
  {
    var stopped := t.(state := next);
    MoveLeads(t, stopped);
    if t.retries < t.maxRetries {
      MoveLeads(stopped, Retry(stopped));
      LeadsOn(t, stopped, Retry(stopped));
    }
  }

  lemma TurnMovesLead(t: Task, after: Task)
    requires TurnMoves(t, after) && t.retries <= t.maxRetries
    ensures LeadsTo(t, after)
  {
    if after == t {
      LeadsToItself(t);
    } else if t.state == Pending {
      MoveLeads(t, after);
    } else {
      RetryLeads(t, Preempted);
    }
  }

  lemma {:induction false} TurnsLead(b: Batch, ids: seq<Id>, queries: seq<seq<WorkerWithTasks>>, id: Id)
    requires BatchOk(b) && LegalTurns(b, ids, queries) && id in b.s.db.tasks
    ensures var after := Turns(b, ids, queries).s.db.tasks;
            id in after && LeadsTo(b.s.db.tasks[id], after[id])
  {
    if ids == [] {
      LeadsToItself(b.s.db.tasks[id]);
    } else {
      var n := |ids| - 1;
      var before := Turns(b, ids[..n], queries[..n]);
      var after := Turn(before, ids[n], queries[n]);
      TurnsLead(b, ids[..n], queries[..n], id);
      TurnsRows(b, ids[..n], queries[..n]);
      TurnRows(before, ids[n], queries[n]);
      assert TaskOk(before.s.db.workers, before.s.db.tasks[id]);
      TurnMovesLead(before.s.db.tasks[id], after.s.db.tasks[id]);
      LeadsOn(b.s.db.tasks[id], before.s.db.tasks[id], after.s.db.tasks[id]);
    }
  }

  lemma BatchLeads(s: State, count: nat, rows: seq<Id>, queries: seq<seq<WorkerWithTasks>>)
    requires RowsOk(s.db) && LegalBatch(s, count, rows, queries)
    ensures AllLead(s.db.tasks, ScheduleBatch(s, count, rows, queries).db.tasks)
  {
    var ids := PopBatch(s.redis.queue, count);
    var after := ScheduleBatch(s, count, rows, queries).db.tasks;
    forall id | id in s.db.tasks ensures id in after && LeadsTo(s.db.tasks[id], after[id]) {
      if rows == [] {
        RequeueKeepsTables(Popped(s, count), ids);
        LeadsToItself(s.db.tasks[id]);
      } else {
        SnapshotIsOk(s, rows, count);
        TurnsLead(Batch(Popped(s, count), Snapshot(s.db, rows)), ids, queries, id);
      }
    }
  }

  /** A check only commits moves the table allows. */
  lemma CheckLeads(s: State, rows: seq<Id>, alive: set<Id>, orphans: seq<seq<Id>>)
    requires RowsOk(s.db) && LegalCheck(s, rows, alive, orphans)
    ensures AllLead(s.db.tasks, CheckAllWorkers(s, rows, alive, orphans).db.tasks)
  {
    CheckIsAllOrNothing(s, rows, alive, orphans);
    CommitsExactly(s, rows, alive, orphans);
    var after := CheckAllWorkers(s, rows, alive, orphans).db.tasks;
    forall id | id in s.db.tasks ensures id in after && LeadsTo(s.db.tasks[id], after[id]) {
      var t := s.db.tasks[id];
      assert TaskOk(s.db.workers, t);
      if Commits(s, rows, alive, orphans) && OrphanOf(t, DeadAmong(rows, alive)) {
        assert t.worker.value in ActiveWorkers(s.db);
        assert id in LiveTasksOn(s.db, t.worker.value);
        CommitNeedsSomeOrder(s, rows, alive, orphans, t.worker.value);
        MoveLeads(t, Orphaned(t));
      } else {
        LeadsToItself(t);
      }
    }
  }

  lemma WriteLeads(db: Tables, id: Id, t: Task, on: Option<Id>, delta: Resources)
    requires id in db.tasks && LeadsTo(db.tasks[id], t)
    ensures AllLead(db.tasks, Adjust(WithTask(db, id, t), on, delta).tasks)
    ensures AllLead(db.tasks, WithTask(db, id, t).tasks)
  {
    AdjustKeepsShape(db, id, t, on, delta);
    forall other | other in db.tasks ensures LeadsTo(db.tasks[other], db.tasks[id := t][other]) {
      LeadsToItself(db.tasks[other]);
    }
  }

  lemma SameTasksLead(tasks: map<Id, Task>)
    ensures AllLead(tasks, tasks)
  {
    forall id | id in tasks ensures LeadsTo(tasks[id], tasks[id]) {
      LeadsToItself(tasks[id]);
    }
  }

  lemma CompletionLeads(s: State, id: Id)
    requires RowsOk(s.db) && id in s.db.tasks
    ensures AllLead(s.db.tasks, CompleteTask(s, id).db.tasks)
  {
    var t := s.db.tasks[id];
    assert TaskOk(s.db.workers, t);
    SameTasksLead(s.db.tasks);
    if t.state == Running {
      MoveLeads(t, t.(state := Completed));
      WriteLeads(s.db, id, t.(state := Completed), t.worker, t.request);
    }
  }

  lemma FailureLeads(s: State, id: Id)
    requires RowsOk(s.db) && id in s.db.tasks
    ensures AllLead(s.db.tasks, FailTask(s, id).db.tasks)
  {
    var t := s.db.tasks[id];
    assert TaskOk(s.db.workers, t);
    SameTasksLead(s.db.tasks);
    if t.state == Running {
      RetryLeads(t, Failed);
      WriteLeads(s.db, id, Retry(t.(state := Failed)), t.worker, t.request);
    }
  }

  lemma RelabelLeads(s: State, id: Id)
    requires RowsOk(s.db) && id in s.db.tasks
    ensures AllLead(s.db.tasks, ReportState(s, id, Running).db.tasks)
    ensures AllLead(s.db.tasks, CancelTask(s, id).db.tasks)
  {
    var t := s.db.tasks[id];
    assert TaskOk(s.db.workers, t);
    SameTasksLead(s.db.tasks);
    if t.state == Scheduled {
      MoveLeads(t, t.(state := Running));
      WriteLeads(s.db, id, t.(state := Running), None, ZERO);
    }
    if CancelOutcomeOf(s, id) == Done {
      MoveLeads(t, t.(state := Cancelled, worker := None));
      WriteLeads(s.db, id, t.(state := Cancelled, worker := None), None, ZERO);
    }
  }

  lemma StepLeads(s: State, e: Event)
    requires RowsOk(s.db) && Enabled(s, e)
    ensures AllLead(s.db.tasks, Apply(s, e).db.tasks)
  {
    SameTasksLead(s.db.tasks);
    match e
    case RunBatch(count, rows, queries) => BatchLeads(s, count, rows, queries);
    case CheckFailures(rows, alive, orphans) => CheckLeads(s, rows, alive, orphans);
    case ReportRunning(id) => if id in s.db.tasks { RelabelLeads(s, id); }
    case Complete(id) => if id in s.db.tasks { CompletionLeads(s, id); }
    case Fail(id) => if id in s.db.tasks { FailureLeads(s, id); }
    case Cancel(id) => if id in s.db.tasks { RelabelLeads(s, id); }
    case _ =>
  }

  /** Over every run, whatever state a row is found in, it came there from where it was by transitions
      of the table, each entry into PENDING paid for with a retry. */
  lemma {:induction false} RunLeads(s: State, events: seq<Event>, id: Id)
    requires RowsOk(s.db) && id in s.db.tasks
    ensures var after := Exec(s, events).db.tasks;
            id in after && LeadsTo(s.db.tasks[id], after[id])
  {
    if events == [] {
      LeadsToItself(s.db.tasks[id]);
    } else {
      var front, e := events[..|events| - 1], events[|events| - 1];
      var before := Exec(s, front);
      RunLeads(s, front, id);
      RunKeepsRows(s, front);
      if Enabled(before, e) {
        StepLeads(before, e);
        LeadsOn(s.db.tasks[id], before.db.tasks[id], Apply(before, e).db.tasks[id]);
      }
    }
  }

  /** A new task makes at most 4 * maxRetries + 3 transitions in its life. */
  lemma LifeIsBounded(rows: seq<Task>)
    requires IsHistory(rows)
    requires rows[0].state == Pending && rows[0].retries == 0
    ensures |rows| - 1 <= 4 * rows[0].maxRetries + 3
  {
    HistoryIsBounded(rows);
    var n := |rows| - 1;
    if n > 0 {
      assert IsMove(rows[n - 1], rows[n]);
      SameLimit(rows);
    }
  }

  lemma {:induction false} SameLimit(rows: seq<Task>)
    requires IsHistory(rows)
    ensures rows[|rows| - 1].maxRetries == rows[0].maxRetries
  {
    var n := |rows| - 1;
    if n > 0 {
      SameLimit(rows[..n]);
      assert IsMove(rows[n - 1], rows[n]);
    }
  }

  /** The bound is reached: dispatched, started and preempted until the retries are gone. */
  lemma {:induction false} LongestLife(t: Task) returns (rows: seq<Task>)
    requires t.state == Pending && t.retries <= t.maxRetries
    ensures IsHistory(rows) && rows[0] == t && |rows| - 1 == Measure(t)
    decreases t.maxRetries - t.retries
  {
    var ran := t.(state := Running);
    rows := [t, t.(state := Scheduled), ran, ran.(state := Preempted)];
    assert IsHistory(rows);
    if t.retries < t.maxRetries {
      var again := t.(retries := t.retries + 1);
      var rest := LongestLife(again);
      var all := rows + rest;
      forall k | 0 <= k < |all| - 1 ensures IsMove(all[k], all[k + 1]) {
        if k >= 4 {
          assert all[k] == rest[k - 4] && all[k + 1] == rest[k - 3];
          assert IsMove(rest[k - 4], rest[k - 3]);
        }
      }
      rows := all;
    }
  }
}

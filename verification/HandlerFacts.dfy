// How the single-task handlers, registration and the failure check keep the row invariants and move
// the ledger.
module HandlerFacts {
  import opened Types
  import opened Transitions
  import opened Handlers
  import opened Batching
  import opened FailureChecks
  import opened FailureFacts
  import opened Ledger
  import opened Invariants

  // ---------- Rows ----------

  lemma CreateRows(s: State, id: Id, priority: int, request: Resources, maxRetries: nat)
    requires RowsOk(s.db) && request.Positive()
    ensures RowsOk(CreateTask(s, id, priority, request, maxRetries).db)
  {
    RowsOkAfter(s.db, id, NewTask(priority, request, maxRetries), None, ZERO);
  }

  lemma ReportRunningRows(s: State, id: Id)
    requires RowsOk(s.db)
    ensures RowsOk(ReportState(s, id, Running).db)
  {
    if id in s.db.tasks && ValidateTransition(s.db.tasks[id].state, Running) {
      var t := s.db.tasks[id];
      assert TaskOk(s.db.workers, t);
      RowsOkAfter(s.db, id, t.(state := Running), None, ZERO);
    }
  }

  lemma CompleteRows(s: State, id: Id)
    requires RowsOk(s.db)
    ensures RowsOk(CompleteTask(s, id).db)
  {
    if id in s.db.tasks && ValidateTransition(s.db.tasks[id].state, Completed) {
      var t := s.db.tasks[id];
      assert TaskOk(s.db.workers, t);
      RowsOkAfter(s.db, id, t.(state := Completed), t.worker, t.request);
    }
  }

  lemma FailRows(s: State, id: Id)
    requires RowsOk(s.db)
    ensures RowsOk(FailTask(s, id).db)
  {
    if id in s.db.tasks && ValidateTransition(s.db.tasks[id].state, Failed) {
      var t := s.db.tasks[id];
      assert TaskOk(s.db.workers, t);
      RowsOkAfter(s.db, id, Retry(t.(state := Failed)), t.worker, t.request);
    }
  }

  lemma CancelRows(s: State, id: Id)
    requires RowsOk(s.db)
    ensures RowsOk(CancelTask(s, id).db)
  {
    if CancelOutcomeOf(s, id) == Done {
      var t := s.db.tasks[id];
      assert TaskOk(s.db.workers, t);
      RowsOkAfter(s.db, id, t.(state := Cancelled, worker := None), None, ZERO);
    }
  }

  lemma RegisterRows(s: State, newId: Id, hostname: string, total: Resources)
    requires RowsOk(s.db) && newId !in s.db.workers && total.Positive()
    ensures RowsOk(RegisterWorker(s, newId, hostname, total).db)
  {
    var w := RegisteredId(s.db.workers, newId, hostname);
    var after := RegisterWorker(s, newId, hostname, total).db;
    forall u, v | u in after.workers && v in after.workers && after.workers[u].hostname == after.workers[v].hostname
      ensures u == v
    {
      if u == w && v != w {
        assert IsRegistered(s.db.workers, hostname, v);
      }
      if v == w && u != w {
        assert IsRegistered(s.db.workers, hostname, u);
      }
    }
    forall id | id in after.tasks ensures TaskOk(after.workers, after.tasks[id]) {
      assert TaskOk(s.db.workers, after.tasks[id]);
      RegisterKeepsTaskOk(s.db.workers, w, after.workers[w], after.tasks[id]);
    }
  }

  lemma RegisterKeepsTaskOk(workers: map<Id, Worker>, w: Id, worker: Worker, t: Task)
    requires TaskOk(workers, t) && worker.status == Active
    ensures TaskOk(workers[w := worker], t)
  {
  }

  // ---------- Leaks ----------

  lemma CreateLeaks(s: State, id: Id, priority: int, request: Resources, maxRetries: nat)
    requires id !in s.db.tasks
    ensures SameLeaks(s.db, CreateTask(s, id, priority, request, maxRetries).db)
  {
    forall w | w in s.db.workers
      ensures Leak(CreateTask(s, id, priority, request, maxRetries).db, w) == Leak(s.db, w)
    {
      LeakConserved(s.db, id, NewTask(priority, request, maxRetries), None, ZERO, w);
    }
  }

  lemma StartKeepsShare(t: Task, w: Id)
    requires t.state == Scheduled
    ensures Share(t, w) == Share(t.(state := Running), w).Plus(DeltaOn(None, ZERO, w))
  {
  }

  lemma FinishReturnsShare(t: Task, after: Task, w: Id)
    requires t.state == Running && !after.Live()
    ensures Share(t, w) == Share(after, w).Plus(DeltaOn(t.worker, t.request, w))
  {
  }

  lemma StartLeaks(db: Tables, id: Id)
    requires id in db.tasks && db.tasks[id].state == Scheduled
    ensures SameLeaks(db, WithTask(db, id, db.tasks[id].(state := Running)))
  {
    var t := db.tasks[id];
    var after := WithTask(db, id, t.(state := Running));
    assert after == Adjust(after, None, ZERO);
    forall w | w in db.workers ensures Leak(after, w) == Leak(db, w) {
      StartKeepsShare(t, w);
      LeakConserved(db, id, t.(state := Running), None, ZERO, w);
    }
  }

  lemma ReportRunningLeaks(s: State, id: Id)
    ensures SameLeaks(s.db, ReportState(s, id, Running).db)
  {
    if id in s.db.tasks && ValidateTransition(s.db.tasks[id].state, Running) {
      StartLeaks(s.db, id);
    }
  }

  lemma FinishLeaks(db: Tables, id: Id, after: Task)
    requires id in db.tasks && db.tasks[id].state == Running && !after.Live()
    ensures SameLeaks(db, Adjust(WithTask(db, id, after), db.tasks[id].worker, db.tasks[id].request))
  {
    var t := db.tasks[id];
    AdjustKeepsShape(db, id, after, t.worker, t.request);
    forall w | w in db.workers
      ensures Leak(Adjust(WithTask(db, id, after), t.worker, t.request), w) == Leak(db, w)
    {
      FinishReturnsShare(t, after, w);
      LeakConserved(db, id, after, t.worker, t.request, w);
    }
  }

  lemma CompleteLeaks(s: State, id: Id)
    ensures SameLeaks(s.db, CompleteTask(s, id).db)
  {
    if id in s.db.tasks && ValidateTransition(s.db.tasks[id].state, Completed) {
      FinishLeaks(s.db, id, s.db.tasks[id].(state := Completed));
    }
  }

  lemma FailLeaks(s: State, id: Id)
    ensures SameLeaks(s.db, FailTask(s, id).db)
  {
    if id in s.db.tasks && ValidateTransition(s.db.tasks[id].state, Failed) {
      FinishLeaks(s.db, id, Retry(s.db.tasks[id].(state := Failed)));
    }
  }

  /** Cancelling a live task leaks exactly its request on its worker, and nothing elsewhere. */
  lemma CancelLeak(s: State, id: Id, w: Id)
    requires w in s.db.workers
    ensures var after := CancelTask(s, id).db;
            && after.workers == s.db.workers
            && Leak(after, w) == Leak(s.db, w).Plus(ShareOf(s.db.tasks, id, w))
  {
    if CancelOutcomeOf(s, id) == Done {
      var cancelled := s.db.tasks[id].(state := Cancelled, worker := None);
      LeakAfter(s.db, id, cancelled, None, ZERO, w);
      AlsoWithoutRest(Leak(s.db, w), ShareOf(s.db.tasks, id, w));
    } else {
      NothingHeld(s, id, w);
    }
  }

  lemma AlsoWithoutRest(leak: Resources, share: Resources)
    ensures leak.Plus(share).Minus(ZERO).Minus(ZERO) == leak.Plus(share)
  {
  }

  lemma NothingHeld(s: State, id: Id, w: Id)
    requires CancelOutcomeOf(s, id) != Done
    ensures ShareOf(s.db.tasks, id, w) == ZERO
  {
  }

  lemma RegisteredLeakIs(s: State, newId: Id, hostname: string, total: Resources)
    ensures var w := RegisteredId(s.db.workers, newId, hostname);
            var after := RegisterWorker(s, newId, hostname, total).db;
            && w in after.workers
            && Leak(after, w) == ZERO.Minus(Load(s.db.tasks, w))
            && forall v :: v in s.db.workers && v != w ==> v in after.workers && after.workers[v] == s.db.workers[v]
  {
    NegatedLoad(total, Load(s.db.tasks, RegisteredId(s.db.workers, newId, hostname)));
  }

  lemma LoadTellsLife(db: Tables, w: Id)
    requires RowsOk(db)
    ensures LiveTasksOn(db, w) == {} ==> Load(db.tasks, w) == ZERO
    ensures LiveTasksOn(db, w) != {} ==> Load(db.tasks, w).Positive()
  {
    forall id | id in db.tasks ensures db.tasks[id].request.Positive() {
      assert TaskOk(db.workers, db.tasks[id]);
    }
    if id :| id in db.tasks && db.tasks[id].LiveOn(w) {
      assert id in LiveTasksOn(db, w);
      LoadIsNonNegative(db.tasks, w);
    } else {
      LoadOfNone(db.tasks, w);
      assert LiveTasksOn(db, w) == {};
    }
  }

  /** Registration makes the whole capacity free, whatever live tasks still hold: the leak becomes
      minus the load, so it is at or above zero exactly when the worker had no live task. */
  lemma RegisterLeak(s: State, newId: Id, hostname: string, total: Resources)
    requires RowsOk(s.db)
    ensures var w := RegisteredId(s.db.workers, newId, hostname);
            var after := RegisterWorker(s, newId, hostname, total).db;
            && w in after.workers
            && Leak(after, w) == ZERO.Minus(Load(s.db.tasks, w))
            && (Leak(after, w).NonNegative() <==> LiveTasksOn(s.db, w) == {})
            && (LiveTasksOn(s.db, w) == {} ==> Leak(after, w) == ZERO)
  {
    var w := RegisteredId(s.db.workers, newId, hostname);
    RegisteredLeakIs(s, newId, hostname, total);
    LoadTellsLife(s.db, w);
    NegatedLoad(total, Load(s.db.tasks, w));
  }

  lemma NegatedLoad(total: Resources, load: Resources)
    ensures total.Minus(total).Minus(load) == ZERO.Minus(load)
    ensures load.Positive() ==> !ZERO.Minus(load).NonNegative()
  {
  }

  // ---------- The failure check ----------

  lemma CommittedRows(s: State, after: State, rows: seq<Id>, alive: set<Id>, orphans: seq<seq<Id>>)
    requires RowsOk(s.db) && Committed(s, after, DeadAmong(rows, alive))
    ensures RowsOk(after.db)
  {
    var dead := DeadAmong(rows, alive);
    forall id | id in after.db.tasks ensures TaskOk(after.db.workers, after.db.tasks[id]) {
      assert TaskOk(s.db.workers, s.db.tasks[id]);
      BuriedTaskOk(s.db, after.db, dead, id);
    }
    forall v, w | v in after.db.workers && w in after.db.workers &&
                  after.db.workers[v].hostname == after.db.workers[w].hostname
      ensures v == w
    {
      assert s.db.workers[v].hostname == s.db.workers[w].hostname;
    }
    forall w | w in after.db.workers ensures after.db.workers[w].total.Positive() {
      assert s.db.workers[w].total.Positive();
    }
  }

  lemma BuriedTaskOk(db: Tables, after: Tables, dead: set<Id>, id: Id)
    requires Buried(db, after, dead) && id in db.tasks && TaskOk(db.workers, db.tasks[id])
    ensures TaskOk(after.workers, after.tasks[id])
  {
    var t := db.tasks[id];
    if t.Live() && !OrphanOf(t, dead) {
      SurvivorStatus(db, after, dead, t.worker.value);
    }
  }

  lemma SurvivorStatus(db: Tables, after: Tables, dead: set<Id>, w: Id)
    requires Buried(db, after, dead) && w in db.workers && w !in dead
    ensures w in after.workers && after.workers[w] == db.workers[w]
  {
  }

  lemma {:induction false} LoadAgrees(a: map<Id, Task>, b: map<Id, Task>, w: Id)
    requires a.Keys == b.Keys
    requires forall id :: id in a ==> Share(a[id], w) == Share(b[id], w)
    ensures Load(a, w) == Load(b, w)
    decreases |a|
  {
    if a == map[] {
      assert b == map[] by { assert b.Keys == {}; }
    } else {
      var id := AnyTask(a);
      DropShrinks(a, id);
      LoadAgrees(Drop(a, id), Drop(b, id), w);
      LoadDrop(a, id, w);
      LoadDrop(b, id, w);
    }
  }

  lemma BuriedLoad(db: Tables, after: Tables, dead: set<Id>, w: Id)
    requires Buried(db, after, dead)
    ensures Load(after.tasks, w) == if w in dead then ZERO else Load(db.tasks, w)
  {
    if w in dead {
      forall id | id in after.tasks ensures !after.tasks[id].LiveOn(w) {
        OrphanSplit(db.tasks[id], dead, w);
        assert dead + {w} == dead;
      }
      LoadOfNone(after.tasks, w);
    } else {
      forall id | id in db.tasks ensures Share(after.tasks[id], w) == Share(db.tasks[id], w) {
        NotOrphanElsewhere(db.tasks[id], dead, w);
      }
      LoadAgrees(after.tasks, db.tasks, w);
    }
  }

  /** A committed death leaks exactly what the worker's live tasks held. */
  lemma CommittedLeak(s: State, after: State, dead: set<Id>, w: Id)
    requires Committed(s, after, dead) && w in s.db.workers
    ensures w in after.db.workers
    ensures Leak(after.db, w) == Leak(s.db, w).Plus(if w in dead then Load(s.db.tasks, w) else ZERO)
  {
    BuriedLoad(s.db, after.db, dead, w);
    DeathLeaks(s.db.workers[w].total, s.db.workers[w].available, Load(s.db.tasks, w));
  }

  lemma DeathLeaks(total: Resources, free: Resources, load: Resources)
    ensures total.Minus(free).Minus(ZERO) == total.Minus(free).Minus(load).Plus(load)
    ensures total.Minus(free).Minus(load) == total.Minus(free).Minus(load).Plus(ZERO)
  {
  }

  // ---------- Cancelling ----------

  /** A cancelled task is withdrawn: on no worker, and if it was pending no longer in the queue, where
      every other entry stays. Tasks that are done, failed or preempted cannot be cancelled. */
  lemma CancelledTaskIsWithdrawn(s: State, id: Id)
    requires RowsOk(s.db) && id in s.db.tasks
    ensures var after := CancelTask(s, id);
            if CancelOutcomeOf(s, id) == Done then
              && s.db.tasks[id].state !in {Completed, Cancelled, Failed, Preempted}
              && id in after.db.tasks && after.db.tasks[id].state == Cancelled && after.db.tasks[id].worker == None
              && (s.db.tasks[id].state == Pending ==> id !in after.redis.queue)
              && (forall other :: other != id ==>
                    (other in after.redis.queue <==> other in s.redis.queue) &&
                    (other in s.redis.queue ==> after.redis.queue[other] == s.redis.queue[other]))
            else s.db.tasks[id].state in {Completed, Cancelled, Failed, Preempted} && after == s
  {
    assert TaskOk(s.db.workers, s.db.tasks[id]);
  }

  // ---------- Reports ----------

  ghost function FreeOn(db: Tables, w: Id): Resources {
    if w in db.workers then db.workers[w].available else ZERO
  }

  /** A completion counts exactly when the task is running, whoever reports it: the task is completed on
      the worker it then runs on, which has exactly its request more, and a second report changes nothing. */
  lemma CompletionCountsOnce(s: State, id: Id)
    requires RowsOk(s.db)
    ensures var after := CompleteTask(s, id);
            if id in s.db.tasks && s.db.tasks[id].state == Running then
              var t := s.db.tasks[id];
              && after.db.tasks == s.db.tasks[id := t.(state := Completed)]
              && t.worker.Some? && t.worker.value in ActiveWorkers(s.db)
              && FreeOn(after.db, t.worker.value) == FreeOn(s.db, t.worker.value).Plus(t.request)
              && (forall w :: w != t.worker.value ==> FreeOn(after.db, w) == FreeOn(s.db, w))
              && after.redis == s.redis
              && CompleteTask(after, id) == after && FailTask(after, id) == after
            else after == s
  {
    if id in s.db.tasks && s.db.tasks[id].state == Running {
      assert TaskOk(s.db.workers, s.db.tasks[id]);
    }
  }

  /** A failure counts exactly when the task is running: the worker it then runs on has the request back,
      and the task is failed for good if its retries are used up, or else pending, unassigned, queued
      and charged one retry. */
  lemma FailureCountsOnce(s: State, id: Id)
    requires RowsOk(s.db)
    ensures var after := FailTask(s, id);
            if id in s.db.tasks && s.db.tasks[id].state == Running then
              var t := s.db.tasks[id];
              && t.worker.Some? && t.worker.value in ActiveWorkers(s.db)
              && FreeOn(after.db, t.worker.value) == FreeOn(s.db, t.worker.value).Plus(t.request)
              && (forall w :: w != t.worker.value ==> FreeOn(after.db, w) == FreeOn(s.db, w))
              && (if t.retries < t.maxRetries then
                    && after.db.tasks ==
                       s.db.tasks[id := t.(state := Pending, worker := None, retries := t.retries + 1)]
                    && after.redis == s.redis.(queue := s.redis.queue[id := -t.priority])
                  else after.db.tasks == s.db.tasks[id := t.(state := Failed)] && after.redis == s.redis)
              && FailTask(after, id) == after && CompleteTask(after, id) == after
            else after == s
  {
    if id in s.db.tasks && s.db.tasks[id].state == Running {
      assert TaskOk(s.db.workers, s.db.tasks[id]);
    }
  }
}

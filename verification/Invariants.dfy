// What every reachable pair of tables satisfies, and how the single-row steps keep it.
module Invariants {
  import opened Types
  import opened Transitions
  import opened Preemption
  import opened Handlers
  import opened Batching
  import opened Ledger

  /** A live task is on an active worker, a pending one on none; a task rests in FAILED or PREEMPTED
      only when its retries are used up. */
  ghost predicate TaskOk(workers: map<Id, Worker>, t: Task) {
    && t.request.Positive()
    && t.retries <= t.maxRetries
    && (t.state == Pending ==> t.worker == None)
    && (t.Live() ==> t.worker.Some? && t.worker.value in workers && workers[t.worker.value].status == Active)
    && (t.state == Failed || t.state == Preempted ==> t.retries == t.maxRetries)
  }

  ghost predicate TasksOk(db: Tables) {
    forall id :: id in db.tasks ==> TaskOk(db.workers, db.tasks[id])
  }

  ghost predicate WorkersOk(workers: map<Id, Worker>) {
    && HostnamesUnique(workers)
    && forall w :: w in workers ==> workers[w].total.Positive()
  }

  ghost predicate RowsOk(db: Tables) {
    TasksOk(db) && WorkersOk(db.workers)
  }

  /** Nothing about the workers changed but their free capacity. */
  ghost predicate SameWorkers(a: map<Id, Worker>, b: map<Id, Worker>) {
    && a.Keys == b.Keys
    && forall w :: w in a ==> a[w].hostname == b[w].hostname && a[w].status == b[w].status && a[w].total == b[w].total
  }

  ghost predicate SameLeaks(a: Tables, b: Tables) {
    && a.workers.Keys == b.workers.Keys
    && forall w :: w in a.workers ==> Leak(b, w) == Leak(a, w)
  }

  lemma SameWorkersKeepsWorkersOk(a: map<Id, Worker>, b: map<Id, Worker>)
    requires SameWorkers(a, b) && WorkersOk(a)
    ensures WorkersOk(b)
  {
    forall v, w | v in b && w in b && b[v].hostname == b[w].hostname ensures v == w {
      assert a[v].hostname == a[w].hostname;
    }
    forall w | w in b ensures b[w].total.Positive() {
      assert a[w].total == b[w].total;
    }
  }

  lemma SameWorkerAt(a: map<Id, Worker>, b: map<Id, Worker>, w: Id)
    requires SameWorkers(a, b) && w in a
    ensures w in b && a[w].status == b[w].status
  {
  }

  lemma SameWorkersKeepsTaskOk(a: map<Id, Worker>, b: map<Id, Worker>, t: Task)
    requires SameWorkers(a, b) && TaskOk(a, t)
    ensures TaskOk(b, t)
  {
    if t.Live() {
      SameWorkerAt(a, b, t.worker.value);
    }
  }

  lemma AdjustKeepsShape(db: Tables, id: Id, t: Task, on: Option<Id>, delta: Resources)
    ensures var after := Adjust(WithTask(db, id, t), on, delta);
            && after.tasks == db.tasks[id := t]
            && SameWorkers(db.workers, after.workers)
  {
  }

  lemma RowsOkAfter(db: Tables, id: Id, t: Task, on: Option<Id>, delta: Resources)
    requires RowsOk(db) && TaskOk(db.workers, t)
    ensures RowsOk(Adjust(WithTask(db, id, t), on, delta))
    ensures RowsOk(WithTask(db, id, t))
  {
    var after := Adjust(WithTask(db, id, t), on, delta);
    AdjustKeepsShape(db, id, t, on, delta);
    SameWorkersKeepsWorkersOk(db.workers, after.workers);
    forall i | i in after.tasks ensures TaskOk(after.workers, after.tasks[i]) {
      SameWorkersKeepsTaskOk(db.workers, after.workers, after.tasks[i]);
    }
  }

  // ---------- Dispatching a pending task ----------

  function Dispatched(t: Task, w: Id): Task {
    t.(state := Scheduled, worker := Some(w))
  }

  lemma DispatchRows(s: State, id: Id, w: Id)
    requires RowsOk(s.db) && IsPending(s.db, id) && w in ActiveWorkers(s.db)
    ensures var after := Dispatch(s, id, w);
            && RowsOk(after.db)
            && SameWorkers(s.db.workers, after.db.workers)
            && after.db.tasks == s.db.tasks[id := Dispatched(s.db.tasks[id], w)]
            && after.redis.queue == s.redis.queue
  {
    var t := s.db.tasks[id];
    RowsOkAfter(s.db, id, Dispatched(t, w), Some(w), Negate(t.request));
    AdjustKeepsShape(s.db, id, Dispatched(t, w), Some(w), Negate(t.request));
  }

  lemma DispatchLeaks(s: State, id: Id, w: Id)
    requires RowsOk(s.db) && IsPending(s.db, id) && w in ActiveWorkers(s.db)
    ensures SameLeaks(s.db, Dispatch(s, id, w).db)
  {
    var t := s.db.tasks[id];
    AdjustKeepsShape(s.db, id, Dispatched(t, w), Some(w), Negate(t.request));
    forall v | v in s.db.workers ensures Leak(Dispatch(s, id, w).db, v) == Leak(s.db, v) {
      LeakConserved(s.db, id, Dispatched(t, w), Some(w), Negate(t.request), v);
    }
  }

  lemma DispatchCapacity(s: State, id: Id, w: Id, v: Id)
    requires id in s.db.tasks && v in s.db.workers
    ensures var after := Dispatch(s, id, w).db;
            v in after.workers && after.workers[v].available ==
            if v == w then s.db.workers[v].available.Minus(s.db.tasks[id].request) else s.db.workers[v].available
  {
  }

  // ---------- Evicting running tasks ----------

  function Evicted(t: Task): Task {
    Retry(t.(state := Preempted))
  }

  /** The victims of a plan for worker `w`: running on it, none twice. */
  ghost predicate AreVictims(db: Tables, w: Id, victims: seq<RunningTask>) {
    && (forall i, j :: 0 <= i < j < |victims| ==> victims[i].id != victims[j].id)
    && (forall k :: 0 <= k < |victims| ==> IsRunningRow(db, w, victims[k]))
  }

  ghost predicate IsVictim(victims: seq<RunningTask>, id: Id) {
    exists k :: 0 <= k < |victims| && victims[k].id == id
  }

  lemma EvictRows(s: State, w: Id, r: RunningTask)
    requires RowsOk(s.db) && IsRunningRow(s.db, w, r)
    ensures var after := Evict(s, w, r.id);
            && RowsOk(after.db)
            && SameWorkers(s.db.workers, after.db.workers)
            && after.db.tasks == s.db.tasks[r.id := Evicted(s.db.tasks[r.id])]
  {
    var t := s.db.tasks[r.id];
    RowsOkAfter(s.db, r.id, Evicted(t), Some(w), t.request);
    AdjustKeepsShape(s.db, r.id, Evicted(t), Some(w), t.request);
  }

  lemma EvictLeaks(s: State, w: Id, r: RunningTask)
    requires IsRunningRow(s.db, w, r)
    ensures SameLeaks(s.db, Evict(s, w, r.id).db)
  {
    var t := s.db.tasks[r.id];
    AdjustKeepsShape(s.db, r.id, Evicted(t), Some(w), t.request);
    forall v | v in s.db.workers ensures Leak(Evict(s, w, r.id).db, v) == Leak(s.db, v) {
      LeakConserved(s.db, r.id, Evicted(t), Some(w), t.request, v);
    }
  }

  lemma EvictCapacity(s: State, w: Id, r: RunningTask, v: Id)
    requires IsRunningRow(s.db, w, r) && v in s.db.workers
    ensures var after := Evict(s, w, r.id).db;
            v in after.workers && after.workers[v].available ==
            if v == w then s.db.workers[v].available.Plus(r.request) else s.db.workers[v].available
  {
  }

  lemma EvictQueue(s: State, w: Id, id: Id)
    requires id in s.db.tasks
    ensures Evict(s, w, id).redis.queue ==
            if s.db.tasks[id].retries < s.db.tasks[id].maxRetries
            then s.redis.queue[id := -s.db.tasks[id].priority] else s.redis.queue
    ensures Evict(s, w, id).redis.assignments == s.redis.assignments
  {
  }

  lemma {:induction false} EvictAllRows(s: State, w: Id, victims: seq<RunningTask>)
    requires RowsOk(s.db) && AreVictims(s.db, w, victims)
    ensures var after := EvictAll(s, w, victims);
            && RowsOk(after.db)
            && SameWorkers(s.db.workers, after.db.workers)
            && after.db.tasks.Keys == s.db.tasks.Keys
            && (forall id :: id in s.db.tasks && !IsVictim(victims, id) ==> after.db.tasks[id] == s.db.tasks[id])
            && (forall id :: IsVictim(victims, id) ==>
                  id in s.db.tasks && after.db.tasks[id] == Evicted(s.db.tasks[id]))
  {
    if victims != [] {
      var n := |victims| - 1;
      var front, last := victims[..n], victims[n];
      VictimsSplit(victims);
      EvictAllRows(s, w, front);
      var before := EvictAll(s, w, front);
      assert before.db.tasks[last.id] == s.db.tasks[last.id];
      EvictRows(before, w, last);
    }
  }

  lemma VictimsSplit(victims: seq<RunningTask>)
    requires victims != []
    requires forall i, j :: 0 <= i < j < |victims| ==> victims[i].id != victims[j].id
    ensures var n := |victims| - 1;
            && !IsVictim(victims[..n], victims[n].id)
            && forall id :: IsVictim(victims, id) <==> IsVictim(victims[..n], id) || id == victims[n].id
  {
    var n := |victims| - 1;
    forall id ensures IsVictim(victims, id) <==> IsVictim(victims[..n], id) || id == victims[n].id {
      if IsVictim(victims, id) {
        var k :| 0 <= k < |victims| && victims[k].id == id;
        if k < n { assert victims[..n][k].id == id; }
      }
      if IsVictim(victims[..n], id) {
        var k :| 0 <= k < n && victims[..n][k].id == id;
        assert victims[k].id == id;
      }
    }
  }

  lemma {:induction false} EvictAllLeaks(s: State, w: Id, victims: seq<RunningTask>)
    requires RowsOk(s.db) && AreVictims(s.db, w, victims)
    ensures SameLeaks(s.db, EvictAll(s, w, victims).db)
  {
    if victims != [] {
      var n := |victims| - 1;
      EvictAllLeaks(s, w, victims[..n]);
      LastVictimStillRuns(s, w, victims);
      EvictLeaks(EvictAll(s, w, victims[..n]), w, victims[n]);
    }
  }

  lemma LastVictimStillRuns(s: State, w: Id, victims: seq<RunningTask>)
    requires RowsOk(s.db) && AreVictims(s.db, w, victims) && victims != []
    ensures IsRunningRow(EvictAll(s, w, victims[..|victims| - 1]).db, w, victims[|victims| - 1])
    ensures AreVictims(s.db, w, victims[..|victims| - 1])
  {
    VictimsSplit(victims);
    EvictAllRows(s, w, victims[..|victims| - 1]);
  }

  lemma {:induction false} EvictAllCapacity(s: State, w: Id, victims: seq<RunningTask>, v: Id)
    requires RowsOk(s.db) && AreVictims(s.db, w, victims) && v in s.db.workers
    ensures var after := EvictAll(s, w, victims).db;
            v in after.workers && after.workers[v].available ==
            if v == w then s.db.workers[v].available.Plus(Sum(victims)) else s.db.workers[v].available
  {
    if victims != [] {
      var n := |victims| - 1;
      EvictAllCapacity(s, w, victims[..n], v);
      LastVictimStillRuns(s, w, victims);
      EvictCapacity(EvictAll(s, w, victims[..n]), w, victims[n], v);
    }
  }

  lemma {:induction false} EvictAllQueue(s: State, w: Id, victims: seq<RunningTask>)
    requires RowsOk(s.db) && AreVictims(s.db, w, victims)
    ensures var after := EvictAll(s, w, victims).redis;
            && after.assignments == s.redis.assignments
            && (forall id :: id in after.queue <==>
                  id in s.redis.queue || (IsVictim(victims, id) && s.db.tasks[id].retries < s.db.tasks[id].maxRetries))
            && (forall id :: id in after.queue ==>
                  after.queue[id] ==
                  if IsVictim(victims, id) && s.db.tasks[id].retries < s.db.tasks[id].maxRetries
                  then -s.db.tasks[id].priority else s.redis.queue[id])
  {
    if victims != [] {
      var n := |victims| - 1;
      EvictAllQueue(s, w, victims[..n]);
      VictimsSplit(victims);
      EvictAllRows(s, w, victims[..n]);
      EvictQueue(EvictAll(s, w, victims[..n]), w, victims[n].id);
    }
  }
}

// Resource accounting: what a worker has free, what its live tasks hold, and what has leaked.
module Ledger {
  import opened Types
  import opened Handlers

  ghost function Share(t: Task, w: Id): Resources {
    if t.LiveOn(w) then t.request else ZERO
  }

  /** What the SCHEDULED and RUNNING tasks of a worker hold together. */
  ghost function Load(tasks: map<Id, Task>, w: Id): Resources
    decreases |tasks|
  {
    if tasks == map[] then ZERO
    else
      var id := AnyTask(tasks);
      DropShrinks(tasks, id);
      Share(tasks[id], w).Plus(Load(Drop(tasks, id), w))
  }

  ghost function AnyTask(tasks: map<Id, Task>): (id: Id)
    requires tasks != map[]
    ensures id in tasks
  {
    EmptyMapOrInhabited(tasks);
    var id :| id in tasks;
    id
  }

  function Drop(tasks: map<Id, Task>, id: Id): map<Id, Task> {
    tasks - {id}
  }

  lemma DropShrinks(tasks: map<Id, Task>, id: Id)
    requires id in tasks
    ensures |Drop(tasks, id)| < |tasks|
  {
    assert Drop(tasks, id).Keys == tasks.Keys - {id};
    assert |tasks.Keys - {id}| < |tasks.Keys|;
  }

  /** Capacity of the worker that is neither free nor held by a live task. */
  ghost function Leak(db: Tables, w: Id): Resources
    requires w in db.workers
  {
    db.workers[w].total.Minus(db.workers[w].available).Minus(Load(db.tasks, w))
  }

  // ---------- The load as a sum over rows ----------

  lemma DropTwice(tasks: map<Id, Task>, a: Id, b: Id)
    ensures Drop(Drop(tasks, a), b) == Drop(Drop(tasks, b), a)
  {
  }

  lemma DropUpdated(tasks: map<Id, Task>, id: Id, t: Task)
    ensures Drop(tasks[id := t], id) == Drop(tasks, id)
    ensures id !in tasks ==> Drop(tasks, id) == tasks
  {
  }

  lemma PlusSwaps(a: Resources, b: Resources, c: Resources)
    ensures a.Plus(b.Plus(c)) == b.Plus(a.Plus(c))
  {
  }

  lemma {:induction false} LoadDrop(tasks: map<Id, Task>, id: Id, w: Id)
    requires id in tasks
    ensures Load(tasks, w) == Share(tasks[id], w).Plus(Load(Drop(tasks, id), w))
    decreases |tasks|
  {
    var first := AnyTask(tasks);
    if first != id {
      DropShrinks(tasks, first);
      DropShrinks(tasks, id);
      LoadDrop(Drop(tasks, first), id, w);
      LoadDrop(Drop(tasks, id), first, w);
      DropTwice(tasks, first, id);
      PlusSwaps(Share(tasks[first], w), Share(tasks[id], w), Load(Drop(Drop(tasks, first), id), w));
    }
  }

  lemma Exchange(before: Resources, after: Resources, rest: Resources, out: Resources, into: Resources)
    requires before == out.Plus(rest) && after == into.Plus(rest)
    ensures after == before.Minus(out).Plus(into)
  {
  }

  ghost function ShareOf(tasks: map<Id, Task>, id: Id, w: Id): Resources {
    if id in tasks then Share(tasks[id], w) else ZERO
  }

  lemma LoadParts(tasks: map<Id, Task>, id: Id, t: Task, w: Id)
    ensures Load(tasks[id := t], w) == Share(t, w).Plus(Load(Drop(tasks, id), w))
    ensures Load(tasks, w) == ShareOf(tasks, id, w).Plus(Load(Drop(tasks, id), w))
  {
    DropUpdated(tasks, id, t);
    LoadDrop(tasks[id := t], id, w);
    if id in tasks {
      LoadDrop(tasks, id, w);
    }
  }

  lemma LoadUpdate(tasks: map<Id, Task>, id: Id, t: Task, w: Id)
    ensures Load(tasks[id := t], w) == Load(tasks, w).Minus(ShareOf(tasks, id, w)).Plus(Share(t, w))
  {
    LoadParts(tasks, id, t, w);
    Exchange(Load(tasks, w), Load(tasks[id := t], w), Load(Drop(tasks, id), w), ShareOf(tasks, id, w), Share(t, w));
  }

  lemma {:induction false} LoadIsNonNegative(tasks: map<Id, Task>, w: Id)
    requires forall id :: id in tasks ==> tasks[id].request.Positive()
    ensures Load(tasks, w).NonNegative()
    ensures (exists id :: id in tasks && tasks[id].LiveOn(w)) ==> Load(tasks, w).Positive()
    decreases |tasks|
  {
    if tasks != map[] {
      var id := AnyTask(tasks);
      if live :| live in tasks && tasks[live].LiveOn(w) {
        id := live;
      }
      DropShrinks(tasks, id);
      LoadDrop(tasks, id, w);
      LoadIsNonNegative(Drop(tasks, id), w);
    }
  }

  lemma {:induction false} LoadOfNone(tasks: map<Id, Task>, w: Id)
    requires forall id :: id in tasks ==> !tasks[id].LiveOn(w)
    ensures Load(tasks, w) == ZERO
    decreases |tasks|
  {
    if tasks != map[] {
      var id := AnyTask(tasks);
      DropShrinks(tasks, id);
      LoadDrop(tasks, id, w);
      LoadOfNone(Drop(tasks, id), w);
    }
  }

  // ---------- The leak after one row is written and one worker adjusted ----------

  lemma LeakAlgebra(total: Resources, free: Resources, load: Resources, delta: Resources,
                    out: Resources, into: Resources)
    ensures total.Minus(free.Plus(delta)).Minus(load.Minus(out).Plus(into)) ==
            total.Minus(free).Minus(load).Plus(out).Minus(into).Minus(delta)
  {
  }

  ghost function DeltaOn(on: Option<Id>, delta: Resources, w: Id): Resources {
    if on == Some(w) then delta else ZERO
  }

  lemma AdjustedWorker(db: Tables, id: Id, t: Task, on: Option<Id>, delta: Resources, w: Id)
    requires w in db.workers
    ensures var after := Adjust(WithTask(db, id, t), on, delta);
            && after.tasks == db.tasks[id := t]
            && after.workers.Keys == db.workers.Keys
            && after.workers[w] ==
               db.workers[w].(available := db.workers[w].available.Plus(DeltaOn(on, delta, w)))
  {
  }

  lemma LeakAfter(db: Tables, id: Id, t: Task, on: Option<Id>, delta: Resources, w: Id)
    requires w in db.workers
    ensures var after := Adjust(WithTask(db, id, t), on, delta);
            w in after.workers &&
            Leak(after, w) ==
            Leak(db, w).Plus(ShareOf(db.tasks, id, w)).Minus(Share(t, w)).Minus(DeltaOn(on, delta, w))
  {
    AdjustedWorker(db, id, t, on, delta, w);
    LoadUpdate(db.tasks, id, t, w);
    LeakAlgebra(db.workers[w].total, db.workers[w].available, Load(db.tasks, w),
                DeltaOn(on, delta, w), ShareOf(db.tasks, id, w), Share(t, w));
  }

  /** The leak stays when the capacity given back equals what the task stops holding. */
  lemma LeakConserved(db: Tables, id: Id, t: Task, on: Option<Id>, delta: Resources, w: Id)
    requires w in db.workers
    requires ShareOf(db.tasks, id, w) == Share(t, w).Plus(DeltaOn(on, delta, w))
    ensures var after := Adjust(WithTask(db, id, t), on, delta);
            w in after.workers && Leak(after, w) == Leak(db, w)
  {
    LeakAfter(db, id, t, on, delta, w);
    Balance(Leak(db, w), ShareOf(db.tasks, id, w), Share(t, w), DeltaOn(on, delta, w));
  }

  lemma Balance(leak: Resources, out: Resources, into: Resources, delta: Resources)
    requires out == into.Plus(delta)
    ensures leak.Plus(out).Minus(into).Minus(delta) == leak
  {
  }
}

// One failure check as a single transaction (`_check_all_workers`, `_handle_dead_worker` in
// src/chronos/master/scheduler/failure_detector.py).
module FailureChecks {
  import opened Types
  import opened Transitions
  import opened Handlers
  import opened Batching

  /** The transaction so far: whether it is still running, and whether the local variable
      `old_state` of the current `_handle_dead_worker` call has been assigned. */
  datatype Check = Check(s: State, ok: bool, bound: bool)

  /** The orphan goes back to the queue with one retry charged, or fails if it has none left. An
      illegal transition raises; so does reading the unassigned `old_state` for the event of a
      failed task that has been retried before. */
  function HandleOrphan(c: Check, id: Id): Check {
    if !c.ok || id !in c.s.db.tasks then c
    else
      var t := c.s.db.tasks[id];
      if t.retries < t.maxRetries then
        match TransitionTask(t, Pending)
        case None => c.(ok := false)
        case Some(p) =>
          var requeued := p.(retries := t.retries + 1, worker := None);
          Check(State(WithTask(c.s.db, id, requeued), Enqueue(c.s.redis, id, requeued)), true, true)
      else
        match TransitionTask(t, Failed)
        case None => c.(ok := false)
        case Some(f) => Check(c.s.(db := WithTask(c.s.db, id, f)), !(t.retries > 0 && !c.bound), c.bound)
  }

  function HandleOrphans(c: Check, orphans: seq<Id>): Check {
    if orphans == [] then c
    else HandleOrphan(HandleOrphans(c, orphans[..|orphans| - 1]), orphans[|orphans| - 1])
  }

  function Bury(db: Tables, w: Id): Tables {
    if w in db.workers then db.(workers := db.workers[w := db.workers[w].(status := Dead)]) else db
  }

  function HandleDeadWorker(c: Check, w: Id, orphans: seq<Id>): Check {
    if !c.ok then c
    else HandleOrphans(Check(c.s.(db := Bury(c.s.db, w)), true, false), orphans)
  }

  /** The workers in the order they were read, each with the orphans its query returned. */
  function CheckWorkers(c: Check, rows: seq<Id>, alive: set<Id>, orphans: seq<seq<Id>>): Check
    requires |orphans| == |rows|
  {
    if rows == [] then c
    else
      var n := |rows| - 1;
      var before := CheckWorkers(c, rows[..n], alive, orphans[..n]);
      if rows[n] in alive then before else HandleDeadWorker(before, rows[n], orphans[n])
  }

  ghost function LiveTasksOn(db: Tables, w: Id): set<Id> {
    set id | id in db.tasks && db.tasks[id].LiveOn(w)
  }

  ghost predicate LegalOrphans(c: Check, rows: seq<Id>, alive: set<Id>, orphans: seq<seq<Id>>) {
    && |orphans| == |rows|
    && (rows != [] ==>
          var n := |rows| - 1;
          LegalOrphans(c, rows[..n], alive, orphans[..n]) &&
          var before := CheckWorkers(c, rows[..n], alive, orphans[..n]);
          before.ok && rows[n] !in alive ==> Lists(orphans[n], LiveTasksOn(before.s.db, rows[n])))
  }

  function Begin(s: State): Check {
    Check(s, true, false)
  }

  ghost predicate LegalCheck(s: State, rows: seq<Id>, alive: set<Id>, orphans: seq<seq<Id>>) {
    && Lists(rows, ActiveWorkers(s.db))
    && LegalOrphans(Begin(s), rows, alive, orphans)
  }

  /** Commit keeps everything; a raised exception rolls the tables back but not Redis. */
  function CheckAllWorkers(s: State, rows: seq<Id>, alive: set<Id>, orphans: seq<seq<Id>>): State
    requires |orphans| == |rows|
  {
    var c := CheckWorkers(Begin(s), rows, alive, orphans);
    if c.ok then c.s else State(s.db, c.s.redis)
  }
}

// Rebuilding Redis from the tables (`_reconcile_pending_tasks`, `_reconcile_scheduled_tasks` in
// src/chronos/master/scheduler/scheduler_loop.py).
module Reconciliation {
  import opened Types
  import opened Handlers
  import opened Batching

  ghost function AssignedScheduledTasks(db: Tables): set<Id> {
    set id | id in db.tasks && db.tasks[id].state == Scheduled && db.tasks[id].worker.Some?
  }

  /** Every pending task missing from the queue is added; entries that are there stay as they are. */
  function ReconcilePending(s: State): State {
    s.(redis := s.redis.(queue :=
      map id | id in s.redis.queue.Keys + s.db.tasks.Keys && (id in s.redis.queue || IsPending(s.db, id)) ::
        if id in s.redis.queue then s.redis.queue[id] else -s.db.tasks[id].priority))
  }

  /** One scheduled task: pushed again to its worker's list if that worker is active, queued
      otherwise. The row written in the second case is never stored: the session is closed without
      a commit. */
  function Reassign(db: Tables, redis: Redis, id: Id): Redis {
    if id !in db.tasks || db.tasks[id].worker.None? then redis
    else
      var w := db.tasks[id].worker.value;
      if w in db.workers && db.workers[w].status == Active
      then redis.(assignments := PushTo(redis.assignments, w, id))
      else Enqueue(redis, id, db.tasks[id])
  }

  function ReassignAll(db: Tables, redis: Redis, rows: seq<Id>): Redis {
    if rows == [] then redis
    else Reassign(db, ReassignAll(db, redis, rows[..|rows| - 1]), rows[|rows| - 1])
  }

  /** `rows` lists the scheduled tasks that name a worker. */
  function ReconcileScheduled(s: State, rows: seq<Id>): State {
    s.(redis := ReassignAll(s.db, s.redis, rows))
  }
}

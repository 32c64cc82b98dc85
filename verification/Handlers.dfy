// What the single-task and registration handlers do to the two stores
// (src/chronos/master/api/workers.py, services/task_service.py, services/worker_service.py).
module Handlers {
  import opened Types
  import opened Transitions
  import opened PriorityQueues

  function WithTask(db: Tables, id: Id, t: Task): Tables {
    db.(tasks := db.tasks[id := t])
  }

  /** Adds to the free capacity of a worker, if there is such a worker. */
  function Adjust(db: Tables, w: Option<Id>, delta: Resources): Tables {
    if w.Some? && w.value in db.workers then
      var worker := db.workers[w.value];
      db.(workers := db.workers[w.value := worker.(available := worker.available.Plus(delta))])
    else db
  }

  function Negate(r: Resources): Resources {
    ZERO.Minus(r)
  }

  function Enqueue(redis: Redis, id: Id, t: Task): Redis {
    redis.(queue := redis.queue[id := -t.priority])
  }

  /** The queue entry a retried task gets. */
  function EnqueueIfRetried(redis: Redis, id: Id, t: Task): Redis {
    if t.retries < t.maxRetries then Enqueue(redis, id, t) else redis
  }

  function NewTask(priority: int, request: Resources, maxRetries: nat): Task {
    Task(priority, Pending, request, None, 0, maxRetries)
  }

  function CreateTask(s: State, id: Id, priority: int, request: Resources, maxRetries: nat): State {
    var t := NewTask(priority, request, maxRetries);
    State(WithTask(s.db, id, t), Enqueue(s.redis, id, t))
  }

  /** An illegal transition raises, so the transaction is rolled back. */
  function ReportState(s: State, id: Id, next: TaskState): State {
    if id !in s.db.tasks then s
    else
      match TransitionTask(s.db.tasks[id], next)
      case None => s
      case Some(t) => s.(db := WithTask(s.db, id, t))
  }

  function CompleteTask(s: State, id: Id): State {
    if id !in s.db.tasks then s
    else
      match TransitionTask(s.db.tasks[id], Completed)
      case None => s
      case Some(t) => s.(db := Adjust(WithTask(s.db, id, t), t.worker, t.request))
  }

  function FailTask(s: State, id: Id): State {
    if id !in s.db.tasks then s
    else
      match TransitionTask(s.db.tasks[id], Failed)
      case None => s
      case Some(t) =>
        State(Adjust(WithTask(s.db, id, Retry(t)), t.worker, t.request), EnqueueIfRetried(s.redis, id, t))
  }

  datatype CancelOutcome = Done | TaskNotFound | InvalidTransition

  function CancelOutcomeOf(s: State, id: Id): CancelOutcome {
    if id !in s.db.tasks then TaskNotFound
    else if s.db.tasks[id].state in {Pending, Scheduled, Running} then Done
    else InvalidTransition
  }

  /** The worker keeps the capacity of a live task that is cancelled: nothing gives it back. */
  function CancelTask(s: State, id: Id): State {
    if CancelOutcomeOf(s, id) != Done then s
    else
      var t := s.db.tasks[id];
      State(WithTask(s.db, id, t.(state := Cancelled, worker := None)),
            if t.state == Pending then s.redis.(queue := Without(s.redis.queue, [id])) else s.redis)
  }

  /** The unique constraint on the host name column (src/chronos/models/worker.py). */
  ghost predicate HostnamesUnique(workers: map<Id, Worker>) {
    forall v, w :: v in workers && w in workers && workers[v].hostname == workers[w].hostname ==> v == w
  }

  ghost predicate IsRegistered(workers: map<Id, Worker>, hostname: string, w: Id) {
    w in workers && workers[w].hostname == hostname
  }

  /** Registration overwrites the row with this host name, or adds one under a new id. */
  ghost function RegisteredId(workers: map<Id, Worker>, newId: Id, hostname: string): Id {
    if w :| IsRegistered(workers, hostname, w) then w else newId
  }

  ghost function RegisterWorker(s: State, newId: Id, hostname: string, total: Resources): State {
    var w := RegisteredId(s.db.workers, newId, hostname);
    s.(db := s.db.(workers := s.db.workers[w := Worker(hostname, Active, total, total)]))
  }
}

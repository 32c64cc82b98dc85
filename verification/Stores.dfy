// The database session and the Redis client the services share.
module Stores {
  import opened Types
  import opened PriorityQueues
  import opened TaskAssignment
  import opened Handlers

  class Backend {
    // The tables.
    var tasks: map<Id, Task>
    var workers: map<Id, Worker>

    // The Redis keys.
    const queue: PriorityQueue
    const assignments: TaskAssignmentQueue

    constructor ()
      ensures fresh(queue) && fresh(assignments)
      ensures View() == State(Tables(map[], map[]), Redis(map[], map[], map[]))
    {
      tasks, workers := map[], map[];
      queue := new PriorityQueue();
      assignments := new TaskAssignmentQueue();
    }

    ghost function Db(): Tables
      reads this
    {
      Tables(tasks, workers)
    }

    ghost function View(): State
      reads this, queue, assignments
    {
      State(Db(), Redis(queue.scores, assignments.assignments, assignments.preempts))
    }

    /** Adds to a worker's free capacity, if the worker exists. */
    method AddCapacity(workerId: Option<Id>, delta: Resources)
      modifies this`workers
      ensures Db() == Adjust(old(Db()), workerId, delta)
    {
      if workerId.Some? && workerId.value in workers {
        var worker := workers[workerId.value];
        workers := workers[workerId.value := worker.(available := worker.available.Plus(delta))];
      }
    }
  }
}

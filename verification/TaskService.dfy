// Creating and cancelling tasks (src/chronos/master/services/task_service.py).
module TaskServices {
  import opened Types
  import opened Transitions
  import opened PriorityQueues
  import opened Handlers
  import opened Stores

  class TaskService {
    const backend: Backend

    constructor (backend: Backend)
      ensures this.backend == backend
    {
      this.backend := backend;
    }

    /** `newId` is the identifier drawn for the task. */
    method CreateTask(newId: Id, priority: int, request: Resources, maxRetries: nat)
      requires newId !in backend.tasks
      modifies backend`tasks, backend.queue
      ensures backend.View() == Handlers.CreateTask(old(backend.View()), newId, priority, request, maxRetries)
    {
      backend.tasks := backend.tasks[newId := Task(priority, Pending, request, None, 0, maxRetries)];
      backend.queue.Enqueue(newId, priority);
    }

    method CancelTask(taskId: Id) returns (outcome: CancelOutcome)
      modifies backend`tasks, backend.queue
      ensures outcome == CancelOutcomeOf(old(backend.View()), taskId)
      ensures backend.View() == Handlers.CancelTask(old(backend.View()), taskId)
    {
      if taskId !in backend.tasks {
        return TaskNotFound;
      }
      var current := backend.tasks[taskId].state;
      if current == Completed || current == Cancelled {
        return InvalidTransition;
      }
      var moved := TransitionTask(backend.tasks[taskId], Cancelled);
      if moved.None? {
        return InvalidTransition;
      }
      backend.tasks := backend.tasks[taskId := moved.value.(worker := None)];
      if current == Pending {
        var _ := backend.queue.Remove(taskId);
      }
      return Done;
    }
  }
}

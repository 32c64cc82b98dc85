// The endpoints workers report to (src/chronos/master/api/workers.py). An illegal transition raises
// before anything is written, so the transaction leaves no trace.
module WorkerTaskApi {
  import opened Types
  import opened Transitions
  import opened PriorityQueues
  import opened Handlers
  import opened Stores

  class InternalTasks {
    const backend: Backend

    constructor (backend: Backend)
      ensures this.backend == backend
    {
      this.backend := backend;
    }

    method UpdateTaskState(taskId: Id, state: TaskState)
      modifies backend`tasks
      ensures backend.View() == ReportState(old(backend.View()), taskId, state)
    {
      if taskId in backend.tasks {
        var moved := TransitionTask(backend.tasks[taskId], state);
        if moved.Some? {
          backend.tasks := backend.tasks[taskId := moved.value];
        }
      }
    }

    method CompleteTask(taskId: Id)
      modifies backend
      ensures backend.View() == Handlers.CompleteTask(old(backend.View()), taskId)
    {
      if taskId in backend.tasks {
        var moved := TransitionTask(backend.tasks[taskId], Completed);
        if moved.Some? {
          var task := moved.value;
          backend.tasks := backend.tasks[taskId := task];
          backend.AddCapacity(task.worker, task.request);
        }
      }
    }

    method FailTask(taskId: Id)
      modifies backend, backend.queue
      ensures backend.View() == Handlers.FailTask(old(backend.View()), taskId)
    {
      if taskId in backend.tasks {
        var moved := TransitionTask(backend.tasks[taskId], Failed);
        if moved.Some? {
          var task := moved.value;
          backend.tasks := backend.tasks[taskId := task];
          backend.AddCapacity(task.worker, task.request);
          if task.retries < task.maxRetries {
            var retried := TransitionTask(task.(retries := task.retries + 1), Pending);
            backend.tasks := backend.tasks[taskId := retried.value.(worker := None)];
            backend.queue.Enqueue(taskId, task.priority);
          }
        }
      }
    }
  }
}

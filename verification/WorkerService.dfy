// Worker registration (src/chronos/master/services/worker_service.py).
module WorkerServices {
  import opened Types
  import opened Handlers
  import opened Stores

  class WorkerService {
    const backend: Backend

    constructor (backend: Backend)
      ensures this.backend == backend
    {
      this.backend := backend;
    }

    /** The host name column is unique, so the query finds at most one row. */
    method RegisterWorker(newId: Id, hostname: string, total: Resources)
      requires HostnamesUnique(backend.workers) && newId !in backend.workers
      modifies backend`workers
      ensures backend.View() == Handlers.RegisterWorker(old(backend.View()), newId, hostname, total)
    {
      if existing :| existing in backend.workers && backend.workers[existing].hostname == hostname {
        assert IsRegistered(backend.workers, hostname, existing);
        var worker := backend.workers[existing];
        backend.workers :=
          backend.workers[existing := worker.(status := Active, total := total, available := total)];
      } else {
        backend.workers := backend.workers[newId := Worker(hostname, Active, total, total)];
      }
    }
  }
}

// Per-worker assignment and preemption lists in Redis (src/chronos/redis_client/task_assignment.py).
module TaskAssignment {
  import opened Types

  class TaskAssignmentQueue {
    var assignments: map<Id, seq<Id>>
    var preempts: map<Id, seq<Id>>

    constructor ()
      ensures assignments == map[] && preempts == map[]
    {
      assignments, preempts := map[], map[];
    }

    method AssignTask(workerId: Id, taskId: Id)
      modifies `assignments
      ensures assignments == PushTo(old(assignments), workerId, taskId)
      ensures workerId in assignments && assignments[workerId] ==
              (if workerId in old(assignments) then old(assignments)[workerId] else []) + [taskId]
      ensures forall w :: w != workerId ==> (w in assignments <==> w in old(assignments)) &&
                                            (w in assignments ==> assignments[w] == old(assignments)[w])
    {
      assignments := PushTo(assignments, workerId, taskId);
    }

    /** Redis BLPOP; None when the list stays empty until the timeout. */
    method PollAssignment(workerId: Id) returns (taskId: Option<Id>)
      modifies `assignments
      ensures taskId.Some? <==> workerId in old(assignments) && old(assignments)[workerId] != []
      ensures taskId.Some? ==> taskId.value == old(assignments)[workerId][0]
      ensures var list := ListOf(old(assignments), workerId);
              if list == [] then taskId == None && assignments == old(assignments)
              else taskId == Some(list[0]) && assignments == old(assignments)[workerId := list[1..]]
    {
      var list := ListOf(assignments, workerId);
      if list == [] {
        return None;
      }
      assignments := assignments[workerId := list[1..]];
      return Some(list[0]);
    }

    method SendPreemptSignal(workerId: Id, taskId: Id)
      modifies `preempts
      ensures preempts == PushTo(old(preempts), workerId, taskId)
      ensures workerId in preempts && preempts[workerId] ==
              (if workerId in old(preempts) then old(preempts)[workerId] else []) + [taskId]
      ensures forall w :: w != workerId ==> (w in preempts <==> w in old(preempts)) &&
                                            (w in preempts ==> preempts[w] == old(preempts)[w])
    {
      preempts := PushTo(preempts, workerId, taskId);
    }
  }
}

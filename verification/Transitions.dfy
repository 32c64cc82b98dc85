// The task state machine (src/chronos/state_machine/transitions.py).
module Transitions {
  import opened Types

  function ValidTransitions(state: TaskState): set<TaskState> {
    match state
    case Pending => {Scheduled, Cancelled}
    case Scheduled => {Running, Pending, Cancelled}
    case Running => {Completed, Failed, Preempted, Cancelled}
    case Completed => {}
    case Failed => {Pending}
    case Preempted => {Pending}
    case Cancelled => {}
  }

  predicate ValidateTransition(current: TaskState, next: TaskState) {
    next in ValidTransitions(current)
  }

  /** `transition_task`: None stands for InvalidStateTransitionError. */
  function TransitionTask(t: Task, next: TaskState): Option<Task> {
    if ValidateTransition(t.state, next) then Some(t.(state := next)) else None
  }

  /** What happens to a task that failed or was preempted: it is queued again while it has retries left. */
  function Retry(t: Task): Task {
    if t.retries < t.maxRetries
    then t.(state := Pending, retries := t.retries + 1, worker := None)
    else t
  }

  function Rank(state: TaskState): nat {
    match state
    case Pending => 3
    case Scheduled => 2
    case Running => 1
    case _ => 0
  }

  /** Retries left, plus one while the task waits: the dispatches still possible. */
  function DispatchBudget(t: Task): int {
    (t.maxRetries - t.retries) + (if t.state == Pending then 1 else 0)
  }

  // ---------- Paths through the table ----------

  predicate IsPath(states: seq<TaskState>) {
    forall k :: 0 <= k < |states| - 1 ==> ValidateTransition(states[k], states[k + 1])
  }

  /** Away from PENDING every transition lowers the rank, so a path that does not enter PENDING is no
      longer than the rank it starts from. */
  lemma {:induction false} PathDescends(states: seq<TaskState>)
    requires IsPath(states) && |states| >= 2
    requires forall k :: 1 <= k < |states| ==> states[k] != Pending
    ensures Rank(states[|states| - 1]) + |states| - 1 <= Rank(states[0])
  {
    var n := |states| - 1;
    assert ValidateTransition(states[n - 1], states[n]);
    if n > 1 {
      PathDescends(states[..n]);
    }
  }

  /** Every cycle of the table enters PENDING, and so does every path of more than three transitions. */
  lemma CyclesEnterPending(states: seq<TaskState>)
    requires IsPath(states) && |states| >= 2
    requires states[0] == states[|states| - 1] || |states| > 4
    ensures Pending in states[1..]
  {
    if Pending !in states[1..] {
      forall k | 1 <= k < |states| ensures states[k] != Pending {
        assert states[k] == states[1..][k - 1];
      }
      PathDescends(states);
    }
  }

  // ---------- Histories of a task row ----------

  /** How far a task can still go, counted in single transitions. */
  function Measure(t: Task): int {
    4 * (t.maxRetries - t.retries) + Rank(t.state)
  }

  /** One transition of a row: legal in the table, and a retry is charged exactly on the way into PENDING. */
  predicate IsMove(t: Task, after: Task) {
    && ValidateTransition(t.state, after.state)
    && after.priority == t.priority && after.request == t.request && after.maxRetries == t.maxRetries
    && after.retries == (if after.state == Pending then t.retries + 1 else t.retries)
    && after.retries <= after.maxRetries
  }

  ghost predicate IsHistory(rows: seq<Task>) {
    rows != [] && forall k :: 0 <= k < |rows| - 1 ==> IsMove(rows[k], rows[k + 1])
  }

  /** The row can have become the other one by transitions of the table. */
  ghost predicate LeadsTo(t: Task, after: Task) {
    exists rows :: IsHistory(rows) && rows[0] == t && rows[|rows| - 1] == after
  }

  /** Every transition uses up some of the measure. */
  lemma {:induction false} HistoryIsBounded(rows: seq<Task>)
    requires IsHistory(rows)
    ensures Measure(rows[|rows| - 1]) + |rows| - 1 <= Measure(rows[0])
  {
    var n := |rows| - 1;
    if n > 0 {
      assert IsMove(rows[n - 1], rows[n]);
      HistoryIsBounded(rows[..n]);
    }
  }

  lemma LeadsToItself(t: Task)
    ensures LeadsTo(t, t)
  {
    assert IsHistory([t]);
  }

  lemma MoveLeads(t: Task, after: Task)
    requires IsMove(t, after)
    ensures LeadsTo(t, after)
  {
    assert IsHistory([t, after]);
  }

  lemma LeadsOn(a: Task, b: Task, c: Task)
    requires LeadsTo(a, b) && LeadsTo(b, c)
    ensures LeadsTo(a, c)
  {
    var first :| IsHistory(first) && first[0] == a && first[|first| - 1] == b;
    var second :| IsHistory(second) && second[0] == b && second[|second| - 1] == c;
    var rows := first + second[1..];
    forall k | 0 <= k < |rows| - 1 ensures IsMove(rows[k], rows[k + 1]) {
      if k < |first| - 1 {
        assert IsMove(first[k], first[k + 1]);
      } else {
        var j := k - (|first| - 1);
        assert rows[k] == second[j] && rows[k + 1] == second[j + 1];
        assert IsMove(second[j], second[j + 1]);
      }
    }
    assert IsHistory(rows) && rows[0] == a && rows[|rows| - 1] == c;
  }
}

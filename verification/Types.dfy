// Rows of the two tables and the values passed between the components
// (src/chronos/models/task.py, src/chronos/models/worker.py, src/chronos/models/enums.py).
module Types {

  datatype Option<+T> = None | Some(value: T)

  /** Task and worker identifiers: totally ordered values, compared the way Redis compares members. */
  type Id = int

  /** A CPU and memory quantity: a request, an amount free, or a total. */
  datatype Resources = Resources(cpu: real, memory: real) {
    function Plus(r: Resources): Resources {
      Resources(cpu + r.cpu, memory + r.memory)
    }

    function Minus(r: Resources): Resources {
      Resources(cpu - r.cpu, memory - r.memory)
    }

    predicate Covers(r: Resources) {
      cpu >= r.cpu && memory >= r.memory
    }

    predicate NonNegative() {
      Covers(ZERO)
    }

    predicate Positive() {
      cpu > 0.0 && memory > 0.0
    }

    /** CPU plus memory in gigabytes: the single number placements are compared by. */
    function Score(): real {
      cpu + memory / 1024.0
    }
  }

  const ZERO: Resources := Resources(0.0, 0.0)

  datatype TaskState = Pending | Scheduled | Running | Completed | Failed | Preempted | Cancelled

  datatype WorkerStatus = Active | Draining | Dead | Deregistered

  datatype Task = Task(
    priority: int,
    state: TaskState,
    request: Resources,
    worker: Option<Id>,
    retries: nat,
    maxRetries: nat)
  {
    /** The task holds capacity on the worker it is assigned to. */
    predicate Live() {
      state == Scheduled || state == Running
    }

    predicate LiveOn(w: Id) {
      Live() && worker == Some(w)
    }
  }

  datatype Worker = Worker(hostname: string, status: WorkerStatus, total: Resources, available: Resources)

  /** The transactional store. */
  datatype Tables = Tables(tasks: map<Id, Task>, workers: map<Id, Worker>)

  /** The Redis keys the scheduler uses: the sorted set of queued tasks with their scores, and the
      per-worker lists of assignments and preemption signals. */
  datatype Redis = Redis(queue: map<Id, int>, assignments: map<Id, seq<Id>>, preempts: map<Id, seq<Id>>)

  datatype State = State(db: Tables, redis: Redis)

  /** The rows of a set, in some order: what a query without ORDER BY returns. */
  ghost predicate Lists(rows: seq<Id>, ids: set<Id>) {
    && Distinct(rows)
    && (forall k :: 0 <= k < |rows| ==> rows[k] in ids)
    && (forall id :: id in ids ==> id in rows)
  }

  ghost predicate Distinct(rows: seq<Id>) {
    forall i, j :: 0 <= i < j < |rows| ==> rows[i] != rows[j]
  }

  lemma EmptyOrInhabited(ids: set<Id>)
    ensures ids == {} || exists id :: id in ids
  {
    if forall id :: id !in ids {
      assert ids == {};
    }
  }

  lemma EmptyMapOrInhabited<V>(m: map<Id, V>)
    ensures m == map[] || exists id :: id in m.Keys
  {
    if forall id :: id !in m {
      assert m == map[];
    }
  }

  method AnyOf(ids: set<Id>) returns (id: Id)
    requires ids != {}
    ensures id in ids
  {
    EmptyOrInhabited(ids);
    id :| id in ids;
  }

  /** A query result: the rows of `ids`, in an order nobody chose. */
  method Rows(ids: set<Id>) returns (rows: seq<Id>)
    ensures Lists(rows, ids)
  {
    rows := [];
    var rest := ids;
    while rest != {}
      invariant Distinct(rows)
      invariant forall id :: id in ids <==> id in rest || id in rows
      invariant forall id :: id in rest ==> id !in rows
      decreases rest
    {
      var id := AnyOf(rest);
      rows := rows + [id];
      rest := rest - {id};
    }
  }

  /** Some order in which a query may return these rows. */
  lemma {:induction false} SomeOrder(ids: set<Id>) returns (rows: seq<Id>)
    ensures Lists(rows, ids)
    decreases |ids|
  {
    rows := [];
    if ids != {} {
      EmptyOrInhabited(ids);
      var id :| id in ids;
      rows := SomeOrder(ids - {id});
      rows := rows + [id];
    }
  }

  // ---------- The lists kept per worker ----------

  function ListOf(lists: map<Id, seq<Id>>, w: Id): seq<Id> {
    if w in lists then lists[w] else []
  }

  /** Redis RPUSH. */
  function PushTo(lists: map<Id, seq<Id>>, w: Id, id: Id): map<Id, seq<Id>> {
    lists[w := ListOf(lists, w) + [id]]
  }
}

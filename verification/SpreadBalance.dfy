// What repeated spread placement achieves (src/chronos/master/scheduler/bin_packing.py,
// docs/architecture.md "Spread Scheduling").
module SpreadBalance {
  import opened Types
  import opened BinPacking

  /** A worker list and how many of the tasks each worker took. */
  datatype Placement = Placement(workers: seq<WorkerCapacity>, counts: seq<nat>)

  function PlaceOne(request: Resources, p: Placement): (q: Placement)
    requires |p.counts| == |p.workers|
    ensures |q.counts| == |q.workers| == |p.workers|
  {
    match SpreadSelect(request, p.workers)
    case None => p
    case Some(k) => Placement(Reserve(request, p.workers, k), p.counts[k := p.counts[k] + 1])
  }

  /** Offering `n` tasks with the same request, one after the other. */
  function PlaceMany(request: Resources, p: Placement, n: nat): (q: Placement)
    requires |p.counts| == |p.workers|
    ensures |q.counts| == |q.workers| == |p.workers|
  {
    if n == 0 then p else PlaceOne(request, PlaceMany(request, p, n - 1))
  }

  function Fresh(workers: seq<WorkerCapacity>): Placement {
    Placement(workers, seq(|workers|, _ => 0))
  }

  function Times(c: nat, r: Resources): Resources {
    Resources(c as real * r.cpu, c as real * r.memory)
  }

  function Total(counts: seq<nat>): nat {
    if counts == [] then 0 else Total(counts[..|counts| - 1]) + counts[|counts| - 1]
  }

  /** Every worker has what it started with minus one request per task it took. */
  ghost predicate Accounts(request: Resources, start: seq<WorkerCapacity>, p: Placement) {
    && |start| == |p.workers| == |p.counts|
    && forall k :: 0 <= k < |start| ==>
         p.workers[k].available == start[k].available.Minus(Times(p.counts[k], request))
  }

  ghost predicate Balanced(counts: seq<nat>) {
    forall i, j :: 0 <= i < |counts| && 0 <= j < |counts| ==> counts[i] <= counts[j] + 1
  }

  ghost predicate Identical(workers: seq<WorkerCapacity>) {
    forall i, j :: 0 <= i < |workers| && 0 <= j < |workers| ==> workers[i].available == workers[j].available
  }

  lemma TimesGrows(c: nat, d: nat, r: Resources)
    requires r.Positive()
    ensures c < d ==> Times(c, r).cpu < Times(d, r).cpu && Times(c, r).memory < Times(d, r).memory
    ensures Times(c + 1, r) == Times(c, r).Plus(r)
  {
    if c < d {
      var k := (d - c) as real;
      assert k > 0.0 && d as real == c as real + k;
      assert k * r.cpu > 0.0 && k * r.memory > 0.0;
      assert d as real * r.cpu == c as real * r.cpu + k * r.cpu;
      assert d as real * r.memory == c as real * r.memory + k * r.memory;
    }
    assert (c + 1) as real == c as real + 1.0;
  }

  lemma PlaceOneAccounts(request: Resources, start: seq<WorkerCapacity>, p: Placement)
    requires request.Positive() && Accounts(request, start, p)
    ensures Accounts(request, start, PlaceOne(request, p))
  {
    var choice := SpreadSelect(request, p.workers);
    if choice.Some? {
      TimesGrows(p.counts[choice.value], 0, request);
    }
  }

  /** On workers that started alike, fewer tasks taken means more headroom and never less room. */
  lemma FewerTasksMoreRoom(request: Resources, start: seq<WorkerCapacity>, p: Placement, i: nat, j: nat)
    requires request.Positive() && Identical(start) && Accounts(request, start, p)
    requires i < |start| && j < |start| && p.counts[i] < p.counts[j]
    ensures Fits(request, p.workers[j]) ==> Fits(request, p.workers[i])
    ensures Remaining(request, p.workers[i]) > Remaining(request, p.workers[j])
  {
    TimesGrows(p.counts[i], p.counts[j], request);
    assert start[i].available == start[j].available;
  }

  lemma PlaceOneBalances(request: Resources, start: seq<WorkerCapacity>, p: Placement)
    requires request.Positive() && Identical(start) && Accounts(request, start, p) && Balanced(p.counts)
    ensures Balanced(PlaceOne(request, p).counts)
  {
    var choice := SpreadSelect(request, p.workers);
    if choice.Some? {
      var k := choice.value;
      forall j | 0 <= j < |start|
        ensures p.counts[k] <= p.counts[j]
      {
        if p.counts[j] < p.counts[k] {
          FewerTasksMoreRoom(request, start, p, j, k);
        }
      }
    }
  }

  /** Identical workers share any number of identical tasks evenly: after every placement the
      counts differ by at most one. */
  lemma {:induction false} SpreadBalances(request: Resources, start: seq<WorkerCapacity>, n: nat)
    requires request.Positive() && Identical(start)
    ensures Balanced(PlaceMany(request, Fresh(start), n).counts)
    ensures Accounts(request, start, PlaceMany(request, Fresh(start), n))
  {
    if n > 0 {
      SpreadBalances(request, start, n - 1);
      var p := PlaceMany(request, Fresh(start), n - 1);
      PlaceOneBalances(request, start, p);
      PlaceOneAccounts(request, start, p);
    }
  }

  // ---------- How many tasks are placed ----------

  /** A way to spread `Total(counts)` such tasks over the workers without exceeding any of them. */
  ghost predicate Feasible(request: Resources, start: seq<WorkerCapacity>, counts: seq<nat>) {
    && |counts| == |start|
    && forall k :: 0 <= k < |start| ==> start[k].available.Covers(Times(counts[k], request)) || counts[k] == 0
  }

  lemma {:induction false} TotalUpdate(counts: seq<nat>, k: nat, c: nat)
    requires k < |counts|
    ensures Total(counts[k := c]) == Total(counts) - counts[k] + c
  {
    var n := |counts| - 1;
    if k < n {
      TotalUpdate(counts[..n], k, c);
      assert counts[k := c][..n] == counts[..n][k := c];
    } else {
      assert counts[k := c][..n] == counts[..n];
    }
  }

  lemma {:induction false} TotalMonotone(a: seq<nat>, b: seq<nat>)
    requires |a| == |b| && forall k :: 0 <= k < |a| ==> a[k] <= b[k]
    ensures Total(a) <= Total(b)
  {
    if a != [] {
      TotalMonotone(a[..|a| - 1], b[..|b| - 1]);
    }
  }

  lemma {:induction false} TotalOfNone(n: nat)
    ensures Total(seq(n, _ => 0)) == 0
  {
    if n > 0 {
      TotalOfNone(n - 1);
      assert seq(n, _ => 0)[..n - 1] == seq(n - 1, _ => 0);
    }
  }

  lemma {:induction false} PlaceManyAccounts(request: Resources, start: seq<WorkerCapacity>, n: nat)
    requires request.Positive()
    ensures var p := PlaceMany(request, Fresh(start), n);
            Accounts(request, start, p) && Feasible(request, start, p.counts)
  {
    if n > 0 {
      PlaceManyAccounts(request, start, n - 1);
      var p := PlaceMany(request, Fresh(start), n - 1);
      PlaceOneAccounts(request, start, p);
      var choice := SpreadSelect(request, p.workers);
      if choice.Some? {
        TimesGrows(p.counts[choice.value], 0, request);
      }
    }
  }

  lemma PlaceOneTotal(request: Resources, p: Placement)
    requires |p.counts| == |p.workers|
    ensures var q := PlaceOne(request, p);
            if NothingFits(request, p.workers) then q == p else Total(q.counts) == Total(p.counts) + 1
  {
    var choice := SpreadSelect(request, p.workers);
    if choice.Some? {
      TotalUpdate(p.counts, choice.value, p.counts[choice.value] + 1);
    }
  }

  /** Once a task is refused, so is every later one. */
  lemma {:induction false} RefusalsLast(request: Resources, p: Placement, n: nat)
    requires |p.counts| == |p.workers|
    ensures var q := PlaceMany(request, p, n);
            Total(q.counts) <= Total(p.counts) + n &&
            (Total(q.counts) < Total(p.counts) + n ==> NothingFits(request, q.workers))
  {
    if n > 0 {
      RefusalsLast(request, p, n - 1);
      PlaceOneTotal(request, PlaceMany(request, p, n - 1));
    }
  }

  /** A worker that could take more tasks than it has still has room for one. */
  lemma RoomForOneMore(request: Resources, start: seq<WorkerCapacity>, p: Placement, counts: seq<nat>, k: nat)
    requires request.Positive() && Accounts(request, start, p) && Feasible(request, start, counts)
    requires k < |start| && p.counts[k] < counts[k]
    ensures Fits(request, p.workers[k])
  {
    TimesGrows(p.counts[k], 0, request);
    TimesGrows(p.counts[k] + 1, counts[k], request);
  }

  /** Spread refuses one of `n` identical tasks only if no placement of `n` tasks exists, whatever
      the workers' capacities. */
  lemma SpreadPlacesAllItCan(request: Resources, start: seq<WorkerCapacity>, n: nat)
    requires request.Positive()
    ensures Total(PlaceMany(request, Fresh(start), n).counts) == n
       <==> exists counts: seq<nat> :: Feasible(request, start, counts) && Total(counts) == n
  {
    var p := PlaceMany(request, Fresh(start), n);
    PlaceManyAccounts(request, start, n);
    RefusalsLast(request, Fresh(start), n);
    TotalOfNone(|start|);
    if counts: seq<nat> :| Feasible(request, start, counts) && Total(counts) == n {
      if Total(p.counts) < n {
        forall k | 0 <= k < |start|
          ensures counts[k] <= p.counts[k]
        {
          if p.counts[k] < counts[k] {
            RoomForOneMore(request, start, p, counts, k);
          }
        }
        TotalMonotone(counts, p.counts);
      }
    }
  }
}

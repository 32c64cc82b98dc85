// Choosing a worker for a request (src/chronos/master/scheduler/bin_packing.py).
module BinPacking {
  import opened Types
  import opened Sorting

  datatype WorkerCapacity = WorkerCapacity(workerId: Id, available: Resources)

  predicate Fits(request: Resources, w: WorkerCapacity) {
    w.available.Covers(request)
  }

  /** What the worker would have left, as one number: the headroom of spread, the waste of best fit. */
  function Remaining(request: Resources, w: WorkerCapacity): real {
    w.available.Minus(request).Score()
  }

  ghost predicate DistinctIds(workers: seq<WorkerCapacity>) {
    forall i, j :: 0 <= i < j < |workers| ==> workers[i].workerId != workers[j].workerId
  }

  /** Worker `k` fits and has the most headroom; among equals it has the least id. */
  ghost predicate IsSpreadChoice(request: Resources, workers: seq<WorkerCapacity>, k: nat) {
    && k < |workers| && Fits(request, workers[k])
    && forall j :: 0 <= j < |workers| && Fits(request, workers[j]) ==>
         || Remaining(request, workers[j]) < Remaining(request, workers[k])
         || (Remaining(request, workers[j]) == Remaining(request, workers[k]) &&
             workers[k].workerId <= workers[j].workerId)
  }

  /** Worker `k` fits and wastes the least; among equals it has the least id. */
  ghost predicate IsBestFit(request: Resources, workers: seq<WorkerCapacity>, k: nat) {
    && k < |workers| && Fits(request, workers[k])
    && forall j :: 0 <= j < |workers| && Fits(request, workers[j]) ==>
         || Remaining(request, workers[k]) < Remaining(request, workers[j])
         || (Remaining(request, workers[j]) == Remaining(request, workers[k]) &&
             workers[k].workerId <= workers[j].workerId)
  }

  ghost predicate NothingFits(request: Resources, workers: seq<WorkerCapacity>) {
    forall j :: 0 <= j < |workers| ==> !Fits(request, workers[j])
  }

  /** An entry of the `candidates` list: its score and the worker it refers to. */
  datatype Candidate = Candidate(score: real, id: Id, index: nat)

  predicate LeastWasteFirst(a: Candidate, b: Candidate) {
    a.score < b.score || (a.score == b.score && a.id <= b.id)
  }

  predicate MostHeadroomFirst(a: Candidate, b: Candidate) {
    a.score > b.score || (a.score == b.score && a.id <= b.id)
  }

  /** The candidates are exactly the first `n` workers that fit. */
  ghost predicate AreCandidates(cs: seq<Candidate>, request: Resources, workers: seq<WorkerCapacity>, n: nat)
    requires n <= |workers|
  {
    && (forall c :: c in cs ==>
          c.index < n && Fits(request, workers[c.index]) &&
          c == Candidate(Remaining(request, workers[c.index]), workers[c.index].workerId, c.index))
    && (forall j :: 0 <= j < n && Fits(request, workers[j]) ==>
          Candidate(Remaining(request, workers[j]), workers[j].workerId, j) in cs)
  }

  method CollectCandidates(request: Resources, workers: seq<WorkerCapacity>) returns (cs: seq<Candidate>)
    ensures AreCandidates(cs, request, workers, |workers|)
  {
    cs := [];
    for i := 0 to |workers|
      invariant AreCandidates(cs, request, workers, i)
    {
      var left := workers[i].available.Minus(request);
      if left.cpu >= 0.0 && left.memory >= 0.0 {
        cs := cs + [Candidate(left.cpu + left.memory / 1024.0, workers[i].workerId, i)];
      }
    }
  }

  /** The least waste, counted in CPUs and gigabytes, ties by worker id. */
  method BestFitSchedule(request: Resources, workers: seq<WorkerCapacity>) returns (selected: Option<nat>)
    ensures selected.None? <==> NothingFits(request, workers)
    ensures selected.Some? ==> IsBestFit(request, workers, selected.value)
    ensures selected.Some? ==>
              var free := workers[selected.value].available;
              && free.cpu - request.cpu >= 0.0 && free.memory - request.memory >= 0.0
              && forall j :: 0 <= j < |workers| ==>
                   var other := workers[j].available;
                   other.cpu - request.cpu >= 0.0 && other.memory - request.memory >= 0.0 ==>
                     var waste := (free.cpu - request.cpu) + (free.memory - request.memory) / 1024.0;
                     var more := (other.cpu - request.cpu) + (other.memory - request.memory) / 1024.0;
                     waste < more || (waste == more && workers[selected.value].workerId <= workers[j].workerId)
  {
    var candidates := CollectCandidates(request, workers);
    if candidates == [] {
      return None;
    }
    SortedHead(candidates, LeastWasteFirst);
    candidates := Sort(candidates, LeastWasteFirst);
    return Some(candidates[0].index);
  }

  /** The most headroom, counted in CPUs and gigabytes, ties by worker id. */
  method SpreadSchedule(request: Resources, workers: seq<WorkerCapacity>) returns (selected: Option<nat>)
    ensures selected.None? <==> NothingFits(request, workers)
    ensures selected.Some? ==> IsSpreadChoice(request, workers, selected.value)
    ensures selected.Some? ==>
              var free := workers[selected.value].available;
              && free.cpu - request.cpu >= 0.0 && free.memory - request.memory >= 0.0
              && forall j :: 0 <= j < |workers| ==>
                   var other := workers[j].available;
                   other.cpu - request.cpu >= 0.0 && other.memory - request.memory >= 0.0 ==>
                     var headroom := (free.cpu - request.cpu) + (free.memory - request.memory) / 1024.0;
                     var less := (other.cpu - request.cpu) + (other.memory - request.memory) / 1024.0;
                     less < headroom || (less == headroom && workers[selected.value].workerId <= workers[j].workerId)
  {
    var candidates := CollectCandidates(request, workers);
    if candidates == [] {
      return None;
    }
    SortedHead(candidates, MostHeadroomFirst);
    candidates := Sort(candidates, MostHeadroomFirst);
    return Some(candidates[0].index);
  }

  method FirstFitSchedule(request: Resources, workers: seq<WorkerCapacity>) returns (selected: Option<nat>)
    ensures selected.None? <==> NothingFits(request, workers)
    ensures selected.Some? ==> selected.value < |workers| && Fits(request, workers[selected.value])
    ensures selected.Some? ==> NothingFits(request, workers[..selected.value])
  {
    for i := 0 to |workers|
      invariant NothingFits(request, workers[..i])
    {
      if workers[i].available.cpu >= request.cpu && workers[i].available.memory >= request.memory {
        return Some(i);
      }
    }
    return None;
  }

  /** The list after worker `k` gave up the requested resources. */
  function Reserve(request: Resources, workers: seq<WorkerCapacity>, k: nat): seq<WorkerCapacity>
    requires k < |workers|
  {
    workers[k := workers[k].(available := workers[k].available.Minus(request))]
  }

  // ---------- The choice as a function, for use in specifications ----------

  /** The spread choice among the workers, computed by one pass. */
  function SpreadSelect(request: Resources, workers: seq<WorkerCapacity>): (k: Option<nat>)
    ensures k.None? <==> NothingFits(request, workers)
    ensures k.Some? ==> IsSpreadChoice(request, workers, k.value)
  {
    if workers == [] then None
    else
      var n := |workers| - 1;
      var front, last := workers[..n], workers[n];
      assert forall j :: 0 <= j < n ==> workers[j] == front[j];
      var best := SpreadSelect(request, front);
      if !Fits(request, last) then best
      else if best.None? then Some(n)
      else
        var b := front[best.value];
        if Remaining(request, b) < Remaining(request, last) then Some(n)
        else if Remaining(request, b) == Remaining(request, last) && last.workerId < b.workerId then Some(n)
        else best
  }

  /** Nothing fits exactly when every worker lacks CPU or memory. */
  lemma NothingFitsExactly(request: Resources, workers: seq<WorkerCapacity>)
    ensures NothingFits(request, workers) <==>
              forall j :: 0 <= j < |workers| ==>
                workers[j].available.cpu < request.cpu || workers[j].available.memory < request.memory
  {
    forall j | 0 <= j < |workers|
      ensures Fits(request, workers[j]) <==>
                workers[j].available.cpu >= request.cpu && workers[j].available.memory >= request.memory
    {
    }
  }

  /** The spread choice has room for the request and leaves most, CPUs and gigabytes added up; ties go to
      the least id. */
  lemma SpreadChoiceMaximises(request: Resources, workers: seq<WorkerCapacity>, k: nat)
    requires k < |workers|
    ensures IsSpreadChoice(request, workers, k) <==>
              var free := workers[k].available;
              && free.cpu - request.cpu >= 0.0 && free.memory - request.memory >= 0.0
              && forall j :: 0 <= j < |workers| ==>
                   var other := workers[j].available;
                   other.cpu - request.cpu >= 0.0 && other.memory - request.memory >= 0.0 ==>
                     var headroom := (free.cpu - request.cpu) + (free.memory - request.memory) / 1024.0;
                     var less := (other.cpu - request.cpu) + (other.memory - request.memory) / 1024.0;
                     less < headroom || (less == headroom && workers[k].workerId <= workers[j].workerId)
  {
    forall j | 0 <= j < |workers|
      ensures Remaining(request, workers[j]) ==
              (workers[j].available.cpu - request.cpu) + (workers[j].available.memory - request.memory) / 1024.0
      ensures Fits(request, workers[j]) <==>
                workers[j].available.cpu - request.cpu >= 0.0 && workers[j].available.memory - request.memory >= 0.0
    {
    }
  }

  lemma SpreadChoiceIsUnique(request: Resources, workers: seq<WorkerCapacity>, i: nat, j: nat)
    requires DistinctIds(workers)
    requires IsSpreadChoice(request, workers, i) && IsSpreadChoice(request, workers, j)
    ensures i == j
  {
    assert workers[i].workerId == workers[j].workerId;
  }

  ghost predicate SameMembers(a: seq<WorkerCapacity>, b: seq<WorkerCapacity>) {
    && (forall k :: 0 <= k < |a| ==> a[k] in b)
    && (forall k :: 0 <= k < |b| ==> b[k] in a)
  }

  lemma SpreadChoicesAgree(request: Resources, a: seq<WorkerCapacity>, b: seq<WorkerCapacity>, i: nat, j: nat)
    requires DistinctIds(a) && SameMembers(a, b)
    requires IsSpreadChoice(request, a, i) && IsSpreadChoice(request, b, j)
    ensures a[i] == b[j]
  {
    var i' :| 0 <= i' < |a| && a[i'] == b[j];
    var j' :| 0 <= j' < |b| && b[j'] == a[i];
    assert a[i].workerId == a[i'].workerId;
  }

  lemma BestFitsAgree(request: Resources, a: seq<WorkerCapacity>, b: seq<WorkerCapacity>, i: nat, j: nat)
    requires DistinctIds(a) && SameMembers(a, b)
    requires IsBestFit(request, a, i) && IsBestFit(request, b, j)
    ensures a[i] == b[j]
  {
    var i' :| 0 <= i' < |a| && a[i'] == b[j];
    var j' :| 0 <= j' < |b| && b[j'] == a[i];
    assert a[i].workerId == a[i'].workerId;
  }

  lemma PermutationSameMembers(a: seq<WorkerCapacity>, b: seq<WorkerCapacity>)
    requires multiset(a) == multiset(b)
    ensures SameMembers(a, b)
  {
    forall k | 0 <= k < |a| ensures a[k] in b {
      assert a[k] in multiset(a);
    }
    forall k | 0 <= k < |b| ensures b[k] in a {
      assert b[k] in multiset(b);
    }
  }

  /** With distinct ids, the order of the list plays no part: every permutation of the workers
      yields the same spread choice and the same best fit. */
  lemma ChoiceIgnoresOrder(request: Resources, a: seq<WorkerCapacity>, b: seq<WorkerCapacity>)
    requires DistinctIds(a) && multiset(a) == multiset(b)
    ensures SpreadSelect(request, a).Some? <==> SpreadSelect(request, b).Some?
    ensures forall i: nat, j: nat :: IsSpreadChoice(request, a, i) && IsSpreadChoice(request, b, j) ==> a[i] == b[j]
    ensures forall i: nat, j: nat :: IsBestFit(request, a, i) && IsBestFit(request, b, j) ==> a[i] == b[j]
  {
    PermutationSameMembers(a, b);
    SameMembersSameFit(request, a, b);
    forall i: nat, j: nat | IsSpreadChoice(request, a, i) && IsSpreadChoice(request, b, j)
      ensures a[i] == b[j]
    {
      SpreadChoicesAgree(request, a, b, i, j);
    }
    forall i: nat, j: nat | IsBestFit(request, a, i) && IsBestFit(request, b, j)
      ensures a[i] == b[j]
    {
      BestFitsAgree(request, a, b, i, j);
    }
  }

  lemma SameMembersSameFit(request: Resources, a: seq<WorkerCapacity>, b: seq<WorkerCapacity>)
    requires SameMembers(a, b)
    ensures NothingFits(request, a) <==> NothingFits(request, b)
  {
    if !NothingFits(request, a) {
      var i :| 0 <= i < |a| && Fits(request, a[i]);
      assert a[i] in b;
    }
    if !NothingFits(request, b) {
      var i :| 0 <= i < |b| && Fits(request, b[i]);
      assert b[i] in a;
    }
  }
}

// The preemption planner (`_find_preemption_candidates`, src/chronos/master/scheduler/preemption.py).
module Preemption {
  import opened Types
  import opened Sorting

  datatype RunningTask = RunningTask(id: Id, priority: int, request: Resources)

  datatype WorkerWithTasks = WorkerWithTasks(workerId: Id, available: Resources, running: seq<RunningTask>)

  datatype PreemptionPlan = PreemptionPlan(workerId: Id, victims: seq<RunningTask>, waste: real)

  predicate ByPriority(a: RunningTask, b: RunningTask) {
    a.priority <= b.priority
  }

  function Sum(tasks: seq<RunningTask>): Resources {
    if tasks == [] then ZERO else Sum(tasks[..|tasks| - 1]).Plus(tasks[|tasks| - 1].request)
  }

  function LowerPriority(running: seq<RunningTask>, priority: int): seq<RunningTask> {
    if running == [] then []
    else
      LowerPriority(running[..|running| - 1], priority) +
      (if running[|running| - 1].priority < priority then [running[|running| - 1]] else [])
  }

  function Evictable(running: seq<RunningTask>, priority: int): seq<RunningTask> {
    Sort(LowerPriority(running, priority), ByPriority)
  }

  /** How many victims, taken in order from the `k`-th on, the greedy loop evicts before it stops. */
  function Needed(available: Resources, request: Resources, evictable: seq<RunningTask>, k: nat): (n: nat)
    requires k <= |evictable|
    ensures k <= n <= |evictable|
    decreases |evictable| - k
  {
    if k == |evictable| || available.Plus(Sum(evictable[..k])).Covers(request) then k
    else Needed(available, request, evictable, k + 1)
  }

  /** The plan for one worker. */
  function GreedyPlan(request: Resources, priority: int, w: WorkerWithTasks): Option<PreemptionPlan> {
    var evictable := Evictable(w.running, priority);
    if evictable == [] then None
    else
      var victims := evictable[..Needed(w.available, request, evictable, 0)];
      var freed := w.available.Plus(Sum(victims));
      if freed.Covers(request)
      then Some(PreemptionPlan(w.workerId, victims, freed.Minus(request).Score()))
      else None
  }

  /** The first plan of least waste in a list. */
  function BestOf(plans: seq<Option<PreemptionPlan>>): Option<PreemptionPlan> {
    if plans == [] then None
    else
      var best := BestOf(plans[..|plans| - 1]);
      var plan := plans[|plans| - 1];
      if plan.Some? && (best.None? || plan.value.waste < best.value.waste) then plan else best
  }

  function PlansFor(request: Resources, priority: int, workers: seq<WorkerWithTasks>): seq<Option<PreemptionPlan>> {
    seq(|workers|, i requires 0 <= i < |workers| => GreedyPlan(request, priority, workers[i]))
  }

  function BestPlan(request: Resources, priority: int, workers: seq<WorkerWithTasks>): Option<PreemptionPlan> {
    BestOf(PlansFor(request, priority, workers))
  }

  /** The body of the planner's outer loop. */
  method PlanForWorker(request: Resources, priority: int, w: WorkerWithTasks) returns (plan: Option<PreemptionPlan>)
    ensures plan == GreedyPlan(request, priority, w)
  {
    var evictable := Sort(LowerPriority(w.running, priority), ByPriority);
    if evictable == [] {
      return None;
    }
    var freed := w.available;
    var victims: seq<RunningTask> := [];
    var k := 0;
    while k < |evictable| && !freed.Covers(request)
      invariant 0 <= k <= |evictable|
      invariant victims == evictable[..k]
      invariant freed == w.available.Plus(Sum(victims))
      invariant Needed(w.available, request, evictable, 0) == Needed(w.available, request, evictable, k)
    {
      assert evictable[..k + 1][..k] == evictable[..k];
      freed := freed.Plus(evictable[k].request);
      victims := victims + [evictable[k]];
      k := k + 1;
    }
    if freed.Covers(request) {
      var waste := (freed.cpu - request.cpu) + (freed.memory - request.memory) / 1024.0;
      return Some(PreemptionPlan(w.workerId, victims, waste));
    }
    return None;
  }

  method FindPreemptionCandidates(request: Resources, priority: int, workers: seq<WorkerWithTasks>)
    returns (bestPlan: Option<PreemptionPlan>)
    ensures bestPlan == BestPlan(request, priority, workers)
  {
    bestPlan := None;
    ghost var plans := PlansFor(request, priority, workers);
    for i := 0 to |workers|
      invariant bestPlan == BestOf(plans[..i])
    {
      assert plans[..i + 1][..i] == plans[..i];
      var plan := PlanForWorker(request, priority, workers[i]);
      if plan.Some? && (bestPlan.None? || plan.value.waste < bestPlan.value.waste) {
        bestPlan := plan;
      }
    }
    assert plans[..|workers|] == plans;
  }

  // ---------- Sums over selections of tasks ----------

  ghost predicate AllPositive(tasks: seq<RunningTask>) {
    forall k :: 0 <= k < |tasks| ==> tasks[k].request.Positive()
  }

  /** `some` is a selection of `all`: no task is used more often than it occurs. */
  ghost predicate SelectedFrom(some: seq<RunningTask>, all: seq<RunningTask>) {
    multiset(some) <= multiset(all)
  }

  lemma {:induction false} SumConcat(a: seq<RunningTask>, b: seq<RunningTask>)
    ensures Sum(a + b) == Sum(a).Plus(Sum(b))
  {
    if b == [] {
      assert a + b == a;
    } else {
      SumConcat(a, b[..|b| - 1]);
      assert (a + b)[..|a + b| - 1] == a + b[..|b| - 1];
    }
  }

  lemma SumSnoc(a: seq<RunningTask>, x: RunningTask)
    ensures Sum(a + [x]) == Sum(a).Plus(x.request)
  {
    assert (a + [x])[..|a|] == a;
  }

  lemma SumMiddle(a: seq<RunningTask>, x: RunningTask, b: seq<RunningTask>)
    ensures Sum(a + [x] + b) == Sum(a + b).Plus(x.request)
  {
    SumSnoc(a, x);
    SumConcat(a + [x], b);
    SumConcat(a, b);
    PlusShuffle(Sum(a), x.request, Sum(b));
  }

  lemma SplitAt(tasks: seq<RunningTask>, j: nat)
    requires j < |tasks|
    ensures tasks[..j] + [tasks[j]] + tasks[j + 1..] == tasks
  {
  }

  lemma SumWithout(tasks: seq<RunningTask>, j: nat)
    requires j < |tasks|
    ensures Sum(tasks) == Sum(tasks[..j] + tasks[j + 1..]).Plus(tasks[j].request)
  {
    SplitAt(tasks, j);
    SumMiddle(tasks[..j], tasks[j], tasks[j + 1..]);
  }

  lemma PlusShuffle(a: Resources, x: Resources, b: Resources)
    ensures a.Plus(x).Plus(b) == a.Plus(b).Plus(x)
  {
  }

  lemma MultisetWithout(tasks: seq<RunningTask>, j: nat)
    requires j < |tasks|
    ensures multiset(tasks) == multiset(tasks[..j] + tasks[j + 1..]) + multiset{tasks[j]}
  {
    SplitAt(tasks, j);
  }

  lemma {:induction false} SumNonNegative(tasks: seq<RunningTask>)
    requires AllPositive(tasks)
    ensures Sum(tasks).NonNegative()
    ensures tasks != [] ==> Sum(tasks).Positive()
  {
    if tasks != [] {
      SumNonNegative(tasks[..|tasks| - 1]);
    }
  }

  lemma {:induction false} SelectionFreesLess(some: seq<RunningTask>, all: seq<RunningTask>)
    requires SelectedFrom(some, all) && AllPositive(all)
    ensures Sum(all).Covers(Sum(some))
  {
    if some == [] {
      SumNonNegative(all);
    } else {
      var x := some[|some| - 1];
      assert x in multiset(some);
      assert x in multiset(all);
      var j :| 0 <= j < |all| && all[j] == x;
      var rest := all[..j] + all[j + 1..];
      SumWithout(all, j);
      MultisetWithout(all, j);
      assert some == some[..|some| - 1] + [x];
      forall t ensures multiset(some[..|some| - 1])[t] <= multiset(rest)[t] {
        assert multiset(some)[t] == multiset(some[..|some| - 1])[t] + multiset{x}[t];
        assert multiset(all)[t] == multiset(rest)[t] + multiset{x}[t];
      }
      SelectionFreesLess(some[..|some| - 1], rest);
    }
  }

  lemma PermutationSum(a: seq<RunningTask>, b: seq<RunningTask>)
    requires multiset(a) == multiset(b) && AllPositive(a)
    ensures Sum(a) == Sum(b) && AllPositive(b)
  {
    forall k | 0 <= k < |b| ensures b[k].request.Positive() {
      assert b[k] in multiset(b);
      assert b[k] in multiset(a);
    }
    SelectionFreesLess(a, b);
    SelectionFreesLess(b, a);
  }

  // ---------- The evictable tasks ----------

  lemma {:induction false} LowerPriorityMembers(running: seq<RunningTask>, priority: int)
    ensures forall t :: t in LowerPriority(running, priority) <==> t in running && t.priority < priority
    ensures multiset(LowerPriority(running, priority)) <= multiset(running)
  {
    if running != [] {
      LowerPriorityMembers(running[..|running| - 1], priority);
      assert running == running[..|running| - 1] + [running[|running| - 1]];
    }
  }

  lemma EvictableIsSorted(running: seq<RunningTask>, priority: int)
    ensures Ordered(Evictable(running, priority), ByPriority)
    ensures multiset(Evictable(running, priority)) == multiset(LowerPriority(running, priority))
    ensures |Evictable(running, priority)| == |LowerPriority(running, priority)|
    ensures forall t :: t in Evictable(running, priority) <==> t in running && t.priority < priority
  {
    var lower := LowerPriority(running, priority);
    SortOrders(lower, ByPriority);
    SortPermutes(lower, ByPriority);
    LowerPriorityMembers(running, priority);
    forall t ensures t in Evictable(running, priority) <==> t in lower {
      assert t in Evictable(running, priority) <==> t in multiset(Evictable(running, priority));
      assert t in lower <==> t in multiset(lower);
    }
  }

  lemma {:induction false} LowerPriorityKeepsTies(running: seq<RunningTask>, priority: int, t: RunningTask)
    requires t.priority < priority
    ensures Ties(t, LowerPriority(running, priority), ByPriority) == Ties(t, running, ByPriority)
  {
    if running != [] {
      var n := |running| - 1;
      LowerPriorityKeepsTies(running[..n], priority, t);
      TiesConcat(t, running[..n], [running[n]], ByPriority);
      TiesConcat(t, LowerPriority(running[..n], priority), [running[n]], ByPriority);
      assert running == running[..n] + [running[n]];
      assert [running[n]][1..] == [];
      assert LowerPriority(running[..n], priority) + [] == LowerPriority(running[..n], priority);
    }
  }

  /** Evictable tasks of equal priority are taken in the order the query returned them. */
  lemma EqualPrioritiesKeepQueryOrder(running: seq<RunningTask>, priority: int, t: RunningTask)
    requires t.priority < priority
    ensures Ties(t, Evictable(running, priority), ByPriority) == Ties(t, running, ByPriority)
  {
    SortIsStable(t, LowerPriority(running, priority), ByPriority);
    LowerPriorityKeepsTies(running, priority, t);
  }

  lemma {:induction false} NeededIsFirst(available: Resources, request: Resources, evictable: seq<RunningTask>, k: nat)
    requires k <= |evictable|
    ensures var n := Needed(available, request, evictable, k);
            && (forall m :: k <= m < n ==> !available.Plus(Sum(evictable[..m])).Covers(request))
            && (available.Plus(Sum(evictable[..n])).Covers(request) || n == |evictable|)
    decreases |evictable| - k
  {
    if k < |evictable| && !available.Plus(Sum(evictable[..k])).Covers(request) {
      NeededIsFirst(available, request, evictable, k + 1);
    }
  }

  // ---------- What a plan is ----------

  /** Evicting these tasks makes room for the request on the worker. */
  predicate MakesRoom(request: Resources, w: WorkerWithTasks, evicted: seq<RunningTask>) {
    w.available.Plus(Sum(evicted)).Covers(request)
  }

  /** The victims are the shortest prefix of the priority-sorted evictable tasks that makes room. */
  lemma GreedyTakesShortestPrefix(request: Resources, priority: int, w: WorkerWithTasks)
    ensures var plan := GreedyPlan(request, priority, w);
            plan.Some? ==>
              var evictable := Evictable(w.running, priority);
              var n := |plan.value.victims|;
              && plan.value.workerId == w.workerId
              && n <= |evictable| && plan.value.victims == evictable[..n]
              && MakesRoom(request, w, plan.value.victims)
              && (forall m :: 0 <= m < n ==> !MakesRoom(request, w, evictable[..m]))
              && plan.value.waste ==
                 (w.available.cpu + Sum(plan.value.victims).cpu - request.cpu) +
                 (w.available.memory + Sum(plan.value.victims).memory - request.memory) / 1024.0
              && plan.value.waste >= 0.0
  {
    NeededIsFirst(w.available, request, Evictable(w.running, priority), 0);
  }

  lemma PrefixIsSelected(tasks: seq<RunningTask>, n: nat)
    requires n <= |tasks|
    ensures SelectedFrom(tasks[..n], tasks)
    ensures forall t :: t in tasks[..n] ==> t in tasks
  {
    assert tasks == tasks[..n] + tasks[n..];
  }

  lemma EvictableIsSelected(running: seq<RunningTask>, priority: int)
    ensures SelectedFrom(Evictable(running, priority), running)
    ensures forall t :: t in Evictable(running, priority) <==> t in running && t.priority < priority
  {
    EvictableIsSorted(running, priority);
    LowerPriorityMembers(running, priority);
  }

  /** Victims are running tasks of strictly lower priority, none used twice. */
  lemma GreedyVictims(request: Resources, priority: int, w: WorkerWithTasks)
    ensures var plan := GreedyPlan(request, priority, w);
            plan.Some? ==>
              && SelectedFrom(plan.value.victims, w.running)
              && forall v :: v in plan.value.victims ==> v in w.running && v.priority < priority
  {
    var evictable := Evictable(w.running, priority);
    EvictableIsSelected(w.running, priority);
    PrefixIsSelected(evictable, Needed(w.available, request, evictable, 0));
  }

  /** The greedy prefix makes room exactly when evicting everything does. */
  lemma PrefixSuffices(available: Resources, request: Resources, evictable: seq<RunningTask>)
    requires AllPositive(evictable)
    ensures var n := Needed(available, request, evictable, 0);
            available.Plus(Sum(evictable[..n])).Covers(request) <==> available.Plus(Sum(evictable)).Covers(request)
  {
    var n := Needed(available, request, evictable, 0);
    NeededIsFirst(available, request, evictable, 0);
    assert evictable[..|evictable|] == evictable;
    assert evictable == evictable[..n] + evictable[n..];
    SelectionFreesLess(evictable[..n], evictable);
  }

  lemma EvictableSums(running: seq<RunningTask>, priority: int)
    requires AllPositive(running)
    ensures AllPositive(Evictable(running, priority))
    ensures Sum(Evictable(running, priority)) == Sum(LowerPriority(running, priority))
  {
    var evictable := Evictable(running, priority);
    EvictableIsSorted(running, priority);
    forall k | 0 <= k < |evictable| ensures evictable[k].request.Positive() {
      assert evictable[k] in evictable;
    }
    PermutationSum(evictable, LowerPriority(running, priority));
  }

  lemma NothingEvictable(running: seq<RunningTask>, priority: int)
    ensures Evictable(running, priority) == [] <==> forall t :: t in running ==> t.priority >= priority
  {
    var evictable := Evictable(running, priority);
    EvictableIsSorted(running, priority);
    if evictable != [] {
      assert evictable[0] in evictable;
    }
  }

  /** A worker has no plan exactly when it runs nothing of strictly lower priority, or evicting all
      of that still does not make room. */
  lemma GreedyIsComplete(request: Resources, priority: int, w: WorkerWithTasks)
    requires AllPositive(w.running)
    ensures GreedyPlan(request, priority, w).None? <==>
              || (forall t :: t in w.running ==> t.priority >= priority)
              || !MakesRoom(request, w, LowerPriority(w.running, priority))
  {
    NothingEvictable(w.running, priority);
    EvictableSums(w.running, priority);
    PrefixSuffices(w.available, request, Evictable(w.running, priority));
  }

  /** The exchange argument: whatever running tasks are evicted instead, making room takes one at
      least as important as the last victim the greedy loop chose. */
  lemma GreedyIsBottleneckOptimal(request: Resources, priority: int, w: WorkerWithTasks,
                                  other: seq<RunningTask>)
    requires AllPositive(w.running)
    requires GreedyPlan(request, priority, w).Some?
    requires GreedyPlan(request, priority, w).value.victims != []
    requires SelectedFrom(other, w.running)
    requires MakesRoom(request, w, other)
    ensures var victims := GreedyPlan(request, priority, w).value.victims;
            exists k :: 0 <= k < |other| && other[k].priority >= victims[|victims| - 1].priority
  {
    var victims := GreedyPlan(request, priority, w).value.victims;
    var evictable := Evictable(w.running, priority);
    var last := victims[|victims| - 1];
    GreedyTakesShortestPrefix(request, priority, w);
    assert !MakesRoom(request, w, evictable[..|victims| - 1]);
    if forall k :: 0 <= k < |other| ==> other[k].priority < last.priority {
      EvictableSums(w.running, priority);
      CheapTasksFreeTooLittle(w.running, priority, other, |victims| - 1);
      assert false;
    }
  }

  lemma CheapTasksFreeTooLittle(running: seq<RunningTask>, priority: int, some: seq<RunningTask>, n: nat)
    requires AllPositive(running)
    requires n < |Evictable(running, priority)|
    requires SelectedFrom(some, running)
    requires forall k :: 0 <= k < |some| ==> some[k].priority < Evictable(running, priority)[n].priority
    ensures Sum(Evictable(running, priority)[..n]).Covers(Sum(some))
  {
    EvictableSums(running, priority);
    CheaperTasksComeFirst(running, priority, some, n);
    SelectionFreesLess(some, Evictable(running, priority)[..n]);
  }

  /** Tasks of lower priority than the `n`-th evictable one all stand before it. */
  lemma CheaperTasksComeFirst(running: seq<RunningTask>, priority: int, some: seq<RunningTask>, n: nat)
    requires n < |Evictable(running, priority)|
    requires SelectedFrom(some, running)
    requires forall k :: 0 <= k < |some| ==> some[k].priority < Evictable(running, priority)[n].priority
    ensures SelectedFrom(some, Evictable(running, priority)[..n])
  {
    var evictable := Evictable(running, priority);
    EvictableIsSorted(running, priority);
    assert evictable[n] in evictable;
    forall t ensures multiset(some)[t] <= multiset(evictable[..n])[t] {
      if t in multiset(some) {
        var k :| 0 <= k < |some| && some[k] == t;
        LowerPriorityCounts(running, priority, t);
        AllBefore(evictable, n, t);
      }
    }
  }

  lemma AllBefore(evictable: seq<RunningTask>, n: nat, t: RunningTask)
    requires Ordered(evictable, ByPriority) && n < |evictable| && t.priority < evictable[n].priority
    ensures multiset(evictable[..n])[t] == multiset(evictable)[t]
  {
    forall j | n <= j < |evictable| ensures evictable[j] != t {
      assert j == n || ByPriority(evictable[n], evictable[j]);
    }
    assert t !in evictable[n..];
    assert t !in multiset(evictable[n..]);
    assert evictable == evictable[..n] + evictable[n..];
  }

  lemma {:induction false} LowerPriorityCounts(running: seq<RunningTask>, priority: int, t: RunningTask)
    requires t.priority < priority
    ensures multiset(LowerPriority(running, priority))[t] == multiset(running)[t]
  {
    if running != [] {
      LowerPriorityCounts(running[..|running| - 1], priority, t);
      assert running == running[..|running| - 1] + [running[|running| - 1]];
    }
  }

  // ---------- The choice among workers ----------

  /** The `i`-th plan wastes least, and strictly less than every plan before it. */
  ghost predicate IsFirstLeast(plans: seq<Option<PreemptionPlan>>, i: nat) {
    && i < |plans| && plans[i].Some?
    && forall j :: 0 <= j < |plans| && plans[j].Some? ==>
         plans[j].value.waste >= plans[i].value.waste && (j < i ==> plans[j].value.waste > plans[i].value.waste)
  }

  lemma LeastStays(plans: seq<Option<PreemptionPlan>>, i: nat)
    requires plans != [] && IsFirstLeast(plans[..|plans| - 1], i)
    requires var last := plans[|plans| - 1]; last.None? || last.value.waste >= plans[i].value.waste
    ensures IsFirstLeast(plans, i)
  {
    assert forall j :: 0 <= j < |plans| - 1 ==> plans[..|plans| - 1][j] == plans[j];
  }

  lemma LeastReplaced(plans: seq<Option<PreemptionPlan>>, i: nat)
    requires plans != [] && IsFirstLeast(plans[..|plans| - 1], i)
    requires var last := plans[|plans| - 1]; last.Some? && last.value.waste < plans[i].value.waste
    ensures IsFirstLeast(plans, |plans| - 1)
  {
    assert forall j :: 0 <= j < |plans| - 1 ==> plans[..|plans| - 1][j] == plans[j];
  }

  lemma {:induction false} BestOfIsFirstLeast(plans: seq<Option<PreemptionPlan>>) returns (i: nat)
    ensures BestOf(plans).None? <==> forall k :: 0 <= k < |plans| ==> plans[k].None?
    ensures BestOf(plans).Some? ==> IsFirstLeast(plans, i) && plans[i] == BestOf(plans)
  {
    i := 0;
    if plans != [] {
      var n := |plans| - 1;
      var front := plans[..n];
      i := BestOfIsFirstLeast(front);
      assert forall k :: 0 <= k < n ==> front[k] == plans[k];
      if BestOf(front).None? {
        i := n;
      } else if plans[n].Some? && plans[n].value.waste < plans[i].value.waste {
        LeastReplaced(plans, i);
        i := n;
      } else {
        LeastStays(plans, i);
      }
    }
  }

  /** The planner returns the plan of the first worker whose greedy plan wastes least. */
  lemma PlannerPicksFirstLeastWaste(request: Resources, priority: int, workers: seq<WorkerWithTasks>)
    ensures var best := BestPlan(request, priority, workers);
            best.Some? ==>
              exists i :: && 0 <= i < |workers| && GreedyPlan(request, priority, workers[i]) == best
                          && (forall j :: 0 <= j < |workers| && GreedyPlan(request, priority, workers[j]).Some? ==>
                                var waste := GreedyPlan(request, priority, workers[j]).value.waste;
                                waste >= best.value.waste && (j < i ==> waste > best.value.waste))
  {
    var plans := PlansFor(request, priority, workers);
    var i := BestOfIsFirstLeast(plans);
    if BestOf(plans).Some? {
      assert GreedyPlan(request, priority, workers[i]) == plans[i];
      assert forall j :: 0 <= j < |workers| ==> plans[j] == GreedyPlan(request, priority, workers[j]);
    }
  }

  /** The plan of this row wastes least, in CPUs and gigabytes left on its worker, and strictly less than
      the plan of every row before it. */
  ghost predicate WastesLeast(request: Resources, priority: int, workers: seq<WorkerWithTasks>, i: nat) {
    && i < |workers| && GreedyPlan(request, priority, workers[i]).Some?
    && forall j :: 0 <= j < |workers| && GreedyPlan(request, priority, workers[j]).Some? ==>
         var mine, other := workers[i].available, workers[j].available;
         var freed := Sum(GreedyPlan(request, priority, workers[i]).value.victims);
         var more := Sum(GreedyPlan(request, priority, workers[j]).value.victims);
         var least := (mine.cpu + freed.cpu - request.cpu) + (mine.memory + freed.memory - request.memory) / 1024.0;
         var waste := (other.cpu + more.cpu - request.cpu) + (other.memory + more.memory - request.memory) / 1024.0;
         waste >= least && (j < i ==> waste > least)
  }

  lemma PlannerMinimisesLeftover(request: Resources, priority: int, workers: seq<WorkerWithTasks>)
    ensures var best := BestPlan(request, priority, workers);
            best.Some? ==>
              exists i: nat :: && WastesLeast(request, priority, workers, i)
                               && GreedyPlan(request, priority, workers[i]) == best
  {
    PlannerPicksFirstLeastWaste(request, priority, workers);
    var best := BestPlan(request, priority, workers);
    if best.Some? {
      var i :| && 0 <= i < |workers| && GreedyPlan(request, priority, workers[i]) == best
               && forall j :: 0 <= j < |workers| && GreedyPlan(request, priority, workers[j]).Some? ==>
                    var waste := GreedyPlan(request, priority, workers[j]).value.waste;
                    waste >= best.value.waste && (j < i ==> waste > best.value.waste);
      forall j | 0 <= j < |workers| && GreedyPlan(request, priority, workers[j]).Some?
        ensures var plan := GreedyPlan(request, priority, workers[j]).value;
                plan.waste == (workers[j].available.cpu + Sum(plan.victims).cpu - request.cpu) +
                              (workers[j].available.memory + Sum(plan.victims).memory - request.memory) / 1024.0
      {
        GreedyTakesShortestPrefix(request, priority, workers[j]);
      }
      assert WastesLeast(request, priority, workers, i);
    }
  }

  /** No plan at all, stated on the inputs: on every worker there is nothing of strictly lower
      priority, or evicting all of it does not make room. */
  lemma PlannerIsComplete(request: Resources, priority: int, workers: seq<WorkerWithTasks>)
    requires forall i :: 0 <= i < |workers| ==> AllPositive(workers[i].running)
    ensures BestPlan(request, priority, workers).None? <==>
              forall i :: 0 <= i < |workers| ==>
                || (forall t :: t in workers[i].running ==> t.priority >= priority)
                || !MakesRoom(request, workers[i], LowerPriority(workers[i].running, priority))
  {
    var plans := PlansFor(request, priority, workers);
    var _ := BestOfIsFirstLeast(plans);
    forall i | 0 <= i < |workers|
      ensures plans[i].None? <==>
                || (forall t :: t in workers[i].running ==> t.priority >= priority)
                || !MakesRoom(request, workers[i], LowerPriority(workers[i].running, priority))
    {
      GreedyIsComplete(request, priority, workers[i]);
    }
  }

  /** A plan has no victims exactly when its worker has room as it stands. */
  lemma PlanEvictsUnlessRoom(request: Resources, priority: int, workers: seq<WorkerWithTasks>)
    ensures var plan := BestPlan(request, priority, workers);
            plan.Some? ==>
              exists i :: 0 <= i < |workers| && workers[i].workerId == plan.value.workerId &&
                          (plan.value.victims == [] <==> workers[i].available.Covers(request))
  {
    var plan := BestPlan(request, priority, workers);
    PlannerPicksFirstLeastWaste(request, priority, workers);
    if plan.Some? {
      var i :| 0 <= i < |workers| && GreedyPlan(request, priority, workers[i]) == plan;
      GreedyTakesShortestPrefix(request, priority, workers[i]);
      var evictable := Evictable(workers[i].running, priority);
      assert evictable[..0] == [];
      if plan.value.victims != [] {
        assert !MakesRoom(request, workers[i], evictable[..0]);
      }
    }
  }
}

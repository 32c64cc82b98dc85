// The failure check is all or nothing on the tables; when it commits, and what it leaves behind.
module FailureFacts {
  import opened Types
  import opened Batching
  import opened FailureChecks

  predicate HasRetriesLeft(t: Task) {
    t.retries < t.maxRetries
  }

  /** What a committed check makes of an orphan. */
  function Orphaned(t: Task): Task {
    if HasRetriesLeft(t) then t.(state := Pending, retries := t.retries + 1, worker := None)
    else t.(state := Failed)
  }

  /** The `i`-th orphan does not abort the check: it was scheduled and has retries left; or it was
      running, has none, and either was never retried or an earlier orphan of the same worker was
      queued again. */
  ghost predicate OrphanPasses(tasks: map<Id, Task>, orphans: seq<Id>, i: nat)
    requires i < |orphans| && forall k :: 0 <= k < |orphans| ==> orphans[k] in tasks
  {
    var t := tasks[orphans[i]];
    if HasRetriesLeft(t) then t.state == Scheduled
    else t.state == Running && (t.retries == 0 || exists j :: 0 <= j < i && HasRetriesLeft(tasks[orphans[j]]))
  }

  ghost predicate AllOrphansPass(tasks: map<Id, Task>, orphans: seq<Id>) {
    && (forall k :: 0 <= k < |orphans| ==> orphans[k] in tasks)
    && forall i :: 0 <= i < |orphans| ==> OrphanPasses(tasks, orphans, i)
  }

  ghost predicate AreOrphans(tasks: map<Id, Task>, orphans: seq<Id>) {
    && Distinct(orphans)
    && forall k :: 0 <= k < |orphans| ==> orphans[k] in tasks && tasks[orphans[k]].Live()
  }

  predicate OrphanOf(t: Task, dead: set<Id>) {
    t.Live() && t.worker.Some? && t.worker.value in dead
  }

  /** Redis after (part of) a check that finds these workers dead: nothing lost, the lists as they were,
      and what is new or rescored is the entry of a scheduled orphan with retries left, at its own
      priority. */
  ghost predicate QueueGrew(tasks: map<Id, Task>, dead: set<Id>, before: Redis, after: Redis) {
    && after.assignments == before.assignments && after.preempts == before.preempts
    && (forall id :: id in before.queue ==> id in after.queue)
    && (forall id :: id in after.queue ==>
          || (id in before.queue && after.queue[id] == before.queue[id])
          || (id in tasks && OrphanOf(tasks[id], dead) && tasks[id].state == Scheduled && HasRetriesLeft(tasks[id]) &&
              after.queue[id] == -tasks[id].priority))
  }

  // ---------- One worker's orphans ----------

  lemma PrefixOfOrphans(tasks: map<Id, Task>, orphans: seq<Id>)
    requires orphans != [] && AreOrphans(tasks, orphans)
    ensures var n := |orphans| - 1;
            && AreOrphans(tasks, orphans[..n])
            && (AllOrphansPass(tasks, orphans) <==>
                  AllOrphansPass(tasks, orphans[..n]) && OrphanPasses(tasks, orphans, n))
  {
    var n := |orphans| - 1;
    forall i | 0 <= i < n
      ensures OrphanPasses(tasks, orphans[..n], i) <==> OrphanPasses(tasks, orphans, i)
    {
      assert forall j :: 0 <= j < i ==> orphans[..n][j] == orphans[j];
    }
  }

  ghost predicate SomeRetried(tasks: map<Id, Task>, orphans: seq<Id>) {
    exists j :: 0 <= j < |orphans| && orphans[j] in tasks && HasRetriesLeft(tasks[orphans[j]])
  }

  /** The tables after all orphans were handled. */
  ghost predicate OrphansHandled(tasks: map<Id, Task>, after: map<Id, Task>, orphans: seq<Id>) {
    && after.Keys == tasks.Keys
    && forall id :: id in tasks ==> after[id] == if id in orphans then Orphaned(tasks[id]) else tasks[id]
  }

  lemma LastOrphan(c: Check, tasks: map<Id, Task>, orphans: seq<Id>)
    requires orphans != [] && AreOrphans(tasks, orphans)
    requires c.ok && OrphansHandled(tasks, c.s.db.tasks, orphans[..|orphans| - 1])
    requires c.bound <==> SomeRetried(tasks, orphans[..|orphans| - 1])
    ensures var n := |orphans| - 1;
            var after := HandleOrphan(c, orphans[n]);
            && (after.ok <==> OrphanPasses(tasks, orphans, n))
            && (after.ok ==> OrphansHandled(tasks, after.s.db.tasks, orphans))
            && (after.ok ==> after.s.db.workers == c.s.db.workers)
            && (after.ok ==> (after.bound <==> SomeRetried(tasks, orphans)))
  {
    var n := |orphans| - 1;
    var id := orphans[n];
    assert id !in orphans[..n];
    assert c.s.db.tasks[id] == tasks[id];
    var t := tasks[id];
    assert orphans == orphans[..n] + [id];
    assert SomeRetried(tasks, orphans) <==> SomeRetried(tasks, orphans[..n]) || HasRetriesLeft(t);
  }

  lemma {:induction false} HandleOrphansExactly(c: Check, orphans: seq<Id>)
    requires c.ok && !c.bound && AreOrphans(c.s.db.tasks, orphans)
    ensures var after := HandleOrphans(c, orphans);
            && (after.ok <==> AllOrphansPass(c.s.db.tasks, orphans))
            && (after.ok ==> OrphansHandled(c.s.db.tasks, after.s.db.tasks, orphans))
            && (after.ok ==> after.s.db.workers == c.s.db.workers)
            && (after.ok ==> (after.bound <==> SomeRetried(c.s.db.tasks, orphans)))
  {
    if orphans != [] {
      var n := |orphans| - 1;
      PrefixOfOrphans(c.s.db.tasks, orphans);
      HandleOrphansExactly(c, orphans[..n]);
      var before := HandleOrphans(c, orphans[..n]);
      if before.ok {
        LastOrphan(before, c.s.db.tasks, orphans);
      }
    }
  }

  /** Queue entries of one worker's orphans. */
  ghost predicate RetriedQueued(tasks: map<Id, Task>, queue: map<Id, int>, orphans: seq<Id>) {
    forall k :: 0 <= k < |orphans| && orphans[k] in tasks && HasRetriesLeft(tasks[orphans[k]]) ==>
      orphans[k] in queue && queue[orphans[k]] == -tasks[orphans[k]].priority
  }

  lemma QueueGrowsByOne(tasks: map<Id, Task>, dead: set<Id>, before: Redis, after: Redis, c: Check, id: Id)
    requires QueueGrew(tasks, dead, before, c.s.redis)
    requires id in tasks && OrphanOf(tasks[id], dead) && id in c.s.db.tasks && c.s.db.tasks[id] == tasks[id]
    requires after == HandleOrphan(c, id).s.redis
    ensures QueueGrew(tasks, dead, before, after)
  {
  }

  /** All of them live on these workers. */
  ghost predicate OrphansOf(tasks: map<Id, Task>, orphans: seq<Id>, dead: set<Id>) {
    forall k :: 0 <= k < |orphans| ==> orphans[k] in tasks && OrphanOf(tasks[orphans[k]], dead)
  }

  lemma LastOrphanQueue(c: Check, tasks: map<Id, Task>, dead: set<Id>, before: Redis, orphans: seq<Id>)
    requires c.ok && orphans != [] && AreOrphans(tasks, orphans) && OrphansOf(tasks, orphans, dead)
    requires var id := orphans[|orphans| - 1]; id in c.s.db.tasks && c.s.db.tasks[id] == tasks[id]
    requires QueueGrew(tasks, dead, before, c.s.redis)
    requires RetriedQueued(tasks, c.s.redis.queue, orphans[..|orphans| - 1])
    ensures var after := HandleOrphan(c, orphans[|orphans| - 1]);
            && QueueGrew(tasks, dead, before, after.s.redis)
            && (after.ok ==> RetriedQueued(tasks, after.s.redis.queue, orphans))
  {
    var n := |orphans| - 1;
    var after := HandleOrphan(c, orphans[n]);
    QueueGrowsByOne(tasks, dead, before, after.s.redis, c, orphans[n]);
    if after.ok {
      forall k | 0 <= k < |orphans| && HasRetriesLeft(tasks[orphans[k]])
        ensures orphans[k] in after.s.redis.queue && after.s.redis.queue[orphans[k]] == -tasks[orphans[k]].priority
      {
        if k < n {
          assert orphans[..n][k] == orphans[k];
        }
      }
    }
  }

  lemma {:induction false} HandleOrphansQueue(c: Check, orphans: seq<Id>, dead: set<Id>)
    requires c.ok && !c.bound && AreOrphans(c.s.db.tasks, orphans) && OrphansOf(c.s.db.tasks, orphans, dead)
    ensures var after := HandleOrphans(c, orphans);
            && QueueGrew(c.s.db.tasks, dead, c.s.redis, after.s.redis)
            && (after.ok ==> RetriedQueued(c.s.db.tasks, after.s.redis.queue, orphans))
  {
    if orphans != [] {
      var n := |orphans| - 1;
      PrefixOfOrphans(c.s.db.tasks, orphans);
      HandleOrphansQueue(c, orphans[..n], dead);
      HandleOrphansExactly(c, orphans[..n]);
      var before := HandleOrphans(c, orphans[..n]);
      if before.ok {
        assert orphans[n] !in orphans[..n];
        LastOrphanQueue(before, c.s.db.tasks, dead, c.s.redis, orphans);
      }
    }
  }

  // ---------- All workers ----------

  /** The workers among these rows that have no heartbeat. */
  function DeadAmong(rows: seq<Id>, alive: set<Id>): set<Id> {
    set w | w in rows && w !in alive
  }

  /** The tables with these workers buried and their live tasks handled. */
  ghost predicate Buried(db: Tables, after: Tables, dead: set<Id>) {
    && after.tasks.Keys == db.tasks.Keys
    && (forall id :: id in db.tasks ==>
          after.tasks[id] == if OrphanOf(db.tasks[id], dead) then Orphaned(db.tasks[id]) else db.tasks[id])
    && after.workers.Keys == db.workers.Keys
    && (forall w :: w in db.workers ==>
          after.workers[w] == if w in dead then db.workers[w].(status := Dead) else db.workers[w])
  }

  ghost predicate DeadRetriedQueued(tasks: map<Id, Task>, queue: map<Id, int>, dead: set<Id>) {
    forall id :: id in tasks && OrphanOf(tasks[id], dead) && HasRetriesLeft(tasks[id]) ==>
      id in queue && queue[id] == -tasks[id].priority
  }

  /** Workers not handled yet still have the live tasks they began with. */
  lemma LiveTasksUntouched(db: Tables, after: Tables, dead: set<Id>, w: Id)
    requires Buried(db, after, dead) && w !in dead
    ensures LiveTasksOn(after, w) == LiveTasksOn(db, w)
    ensures forall id :: id in LiveTasksOn(db, w) ==> after.tasks[id] == db.tasks[id]
  {
    forall id | id in db.tasks
      ensures db.tasks[id].LiveOn(w) <==> after.tasks[id].LiveOn(w)
      ensures db.tasks[id].LiveOn(w) ==> after.tasks[id] == db.tasks[id]
    {
      NotOrphanElsewhere(db.tasks[id], dead, w);
    }
  }

  lemma NotOrphanElsewhere(t: Task, dead: set<Id>, w: Id)
    requires w !in dead
    ensures t.LiveOn(w) ==> !OrphanOf(t, dead)
    ensures !Orphaned(t).Live()
  {
  }

  lemma OrphanSplit(t: Task, dead: set<Id>, w: Id)
    ensures OrphanOf(t, dead + {w}) <==> OrphanOf(t, dead) || t.LiveOn(w)
  {
  }

  lemma ListedAreOrphans(db: Tables, w: Id, orphans: seq<Id>)
    requires Lists(orphans, LiveTasksOn(db, w))
    ensures AreOrphans(db.tasks, orphans)
    ensures forall id :: id in orphans <==> id in db.tasks && db.tasks[id].LiveOn(w)
  {
    forall k | 0 <= k < |orphans| ensures orphans[k] in db.tasks && db.tasks[orphans[k]].LiveOn(w) {
      assert orphans[k] in LiveTasksOn(db, w);
    }
  }

  ghost predicate CheckInvariant(s: State, c: Check, dead: set<Id>) {
    && Buried(s.db, c.s.db, dead)
    && QueueGrew(s.db.tasks, dead, s.redis, c.s.redis)
    && DeadRetriedQueued(s.db.tasks, c.s.redis.queue, dead)
  }

  lemma QueueGrewTwice(tasks: map<Id, Task>, mid: map<Id, Task>, dead: set<Id>, w: Id, a: Redis, b: Redis, c: Redis)
    requires QueueGrew(tasks, dead, a, b) && QueueGrew(mid, {w}, b, c)
    requires forall id :: id in mid && mid[id].state == Scheduled ==> id in tasks && mid[id] == tasks[id]
    ensures QueueGrew(tasks, dead + {w}, a, c)
  {
  }

  lemma QueueGrewAmongMore(tasks: map<Id, Task>, dead: set<Id>, more: set<Id>, before: Redis, after: Redis)
    requires QueueGrew(tasks, dead, before, after) && dead <= more
    ensures QueueGrew(tasks, more, before, after)
  {
  }

  lemma BuryOne(s: State, c: Check, dead: set<Id>, w: Id, orphans: seq<Id>)
    requires c.ok && CheckInvariant(s, c, dead) && w !in dead && w in s.db.workers
    requires Lists(orphans, LiveTasksOn(c.s.db, w))
    ensures var after := HandleDeadWorker(c, w, orphans);
            && AreOrphans(s.db.tasks, orphans)
            && (after.ok <==> AllOrphansPass(s.db.tasks, orphans))
            && (after.ok ==> Buried(s.db, after.s.db, dead + {w}))
  {
    LiveTasksUntouched(s.db, c.s.db, dead, w);
    var begun := Check(c.s.(db := Bury(c.s.db, w)), true, false);
    ListedAreOrphans(c.s.db, w, orphans);
    ListedAreOrphans(s.db, w, orphans);
    assert forall k :: 0 <= k < |orphans| ==> begun.s.db.tasks[orphans[k]] == s.db.tasks[orphans[k]];
    HandleOrphansExactly(begun, orphans);
    SamePasses(begun.s.db.tasks, s.db.tasks, orphans);
    var after := HandleDeadWorker(c, w, orphans);
    if after.ok {
      forall id | id in s.db.tasks
        ensures after.s.db.tasks[id] ==
                if OrphanOf(s.db.tasks[id], dead + {w}) then Orphaned(s.db.tasks[id]) else s.db.tasks[id]
      {
        OrphanSplit(s.db.tasks[id], dead, w);
      }
    }
  }

  lemma SamePasses(a: map<Id, Task>, b: map<Id, Task>, orphans: seq<Id>)
    requires forall k :: 0 <= k < |orphans| ==> orphans[k] in a && orphans[k] in b && a[orphans[k]] == b[orphans[k]]
    ensures AllOrphansPass(a, orphans) <==> AllOrphansPass(b, orphans)
  {
    forall i | 0 <= i < |orphans| ensures OrphanPasses(a, orphans, i) <==> OrphanPasses(b, orphans, i) {
    }
  }

  lemma BuryOneQueue(s: State, c: Check, dead: set<Id>, w: Id, orphans: seq<Id>)
    requires c.ok && CheckInvariant(s, c, dead) && w !in dead && w in s.db.workers
    requires Lists(orphans, LiveTasksOn(c.s.db, w))
    ensures var after := HandleDeadWorker(c, w, orphans);
            && QueueGrew(s.db.tasks, dead + {w}, s.redis, after.s.redis)
            && (after.ok ==> DeadRetriedQueued(s.db.tasks, after.s.redis.queue, dead + {w}))
  {
    LiveTasksUntouched(s.db, c.s.db, dead, w);
    var begun := Check(c.s.(db := Bury(c.s.db, w)), true, false);
    ListedAreOrphans(c.s.db, w, orphans);
    ListedAreOrphans(s.db, w, orphans);
    HandleOrphansQueue(begun, orphans, {w});
    var after := HandleDeadWorker(c, w, orphans);
    QueueGrewTwice(s.db.tasks, begun.s.db.tasks, dead, w, s.redis, c.s.redis, after.s.redis);
    if after.ok {
      forall id | id in s.db.tasks && OrphanOf(s.db.tasks[id], dead + {w}) && HasRetriesLeft(s.db.tasks[id])
        ensures id in after.s.redis.queue && after.s.redis.queue[id] == -s.db.tasks[id].priority
      {
        OrphanSplit(s.db.tasks[id], dead, w);
        if s.db.tasks[id].LiveOn(w) {
          var k :| 0 <= k < |orphans| && orphans[k] == id;
        } else {
          assert id in c.s.redis.queue && c.s.redis.queue[id] == -s.db.tasks[id].priority;
          assert c.s.db.tasks[id] == Orphaned(s.db.tasks[id]);
        }
      }
    }
  }

  lemma DeadAmongPrefix(rows: seq<Id>, alive: set<Id>)
    requires rows != [] && Distinct(rows)
    ensures var n := |rows| - 1;
            && Distinct(rows[..n])
            && rows[n] !in DeadAmong(rows[..n], alive)
            && DeadAmong(rows, alive) ==
               DeadAmong(rows[..n], alive) + (if rows[n] in alive then {} else {rows[n]})
  {
    var n := |rows| - 1;
    assert rows == rows[..n] + [rows[n]];
  }

  /** Every worker found dead has orphans that all pass. */
  ghost predicate AllWorkersPass(tasks: map<Id, Task>, rows: seq<Id>, alive: set<Id>, orphans: seq<seq<Id>>)
    requires |orphans| == |rows|
  {
    forall k :: 0 <= k < |rows| && rows[k] !in alive ==> AllOrphansPass(tasks, orphans[k])
  }

  lemma {:induction false} CheckWorkersExactly(s: State, rows: seq<Id>, alive: set<Id>, orphans: seq<seq<Id>>)
    requires Distinct(rows) && forall k :: 0 <= k < |rows| ==> rows[k] in s.db.workers
    requires LegalOrphans(Begin(s), rows, alive, orphans)
    ensures var c := CheckWorkers(Begin(s), rows, alive, orphans);
            && (c.ok <==> AllWorkersPass(s.db.tasks, rows, alive, orphans))
            && (c.ok ==> CheckInvariant(s, c, DeadAmong(rows, alive)))
            && QueueGrew(s.db.tasks, DeadAmong(rows, alive), s.redis, c.s.redis)
  {
    if rows != [] {
      var n := |rows| - 1;
      DeadAmongPrefix(rows, alive);
      CheckWorkersExactly(s, rows[..n], alive, orphans[..n]);
      var before := CheckWorkers(Begin(s), rows[..n], alive, orphans[..n]);
      AllWorkersPassPrefix(s.db.tasks, rows, alive, orphans);
      QueueGrewAmongMore(s.db.tasks, DeadAmong(rows[..n], alive), DeadAmong(rows, alive), s.redis, before.s.redis);
      if before.ok && rows[n] !in alive {
        BuryOne(s, before, DeadAmong(rows[..n], alive), rows[n], orphans[n]);
        BuryOneQueue(s, before, DeadAmong(rows[..n], alive), rows[n], orphans[n]);
      }
    }
  }

  lemma AllWorkersPassPrefix(tasks: map<Id, Task>, rows: seq<Id>, alive: set<Id>, orphans: seq<seq<Id>>)
    requires |orphans| == |rows| && rows != []
    ensures var n := |rows| - 1;
            AllWorkersPass(tasks, rows, alive, orphans) <==>
              AllWorkersPass(tasks, rows[..n], alive, orphans[..n]) &&
              (rows[n] !in alive ==> AllOrphansPass(tasks, orphans[n]))
  {
    var n := |rows| - 1;
    assert forall k :: 0 <= k < n ==> rows[..n][k] == rows[k] && orphans[..n][k] == orphans[k];
  }

  // ---------- What a check does, as one step ----------

  /** A committed check: every silent worker is dead, and its live tasks are queued again with one
      retry charged, or failed. */
  ghost predicate Committed(s: State, after: State, dead: set<Id>) {
    && Buried(s.db, after.db, dead)
    && QueueGrew(s.db.tasks, dead, s.redis, after.redis)
    && DeadRetriedQueued(s.db.tasks, after.redis.queue, dead)
  }

  /** The check commits exactly when the orphans of every silent worker pass; otherwise the tables
      stay as they were, and Redis at most gained entries of scheduled tasks of those workers. */
  lemma CheckIsAllOrNothing(s: State, rows: seq<Id>, alive: set<Id>, orphans: seq<seq<Id>>)
    requires LegalCheck(s, rows, alive, orphans)
    ensures var after := CheckAllWorkers(s, rows, alive, orphans);
            if AllWorkersPass(s.db.tasks, rows, alive, orphans)
            then Committed(s, after, DeadAmong(rows, alive))
            else after.db == s.db && QueueGrew(s.db.tasks, DeadAmong(rows, alive), s.redis, after.redis)
  {
    forall k | 0 <= k < |rows| ensures rows[k] in s.db.workers {
      assert rows[k] in ActiveWorkers(s.db);
    }
    CheckWorkersExactly(s, rows, alive, orphans);
  }

  /** After a commit every worker that was active and silent is dead and owns no live task, and every
      other active worker is still active. */
  lemma CommitLeavesNoOrphans(s: State, after: State, rows: seq<Id>, alive: set<Id>, w: Id)
    requires Lists(rows, ActiveWorkers(s.db)) && Committed(s, after, DeadAmong(rows, alive))
    requires w in ActiveWorkers(s.db)
    ensures w in after.db.workers
    ensures w in alive ==> after.db.workers[w] == s.db.workers[w]
    ensures w !in alive ==> after.db.workers[w].status == Dead && LiveTasksOn(after.db, w) == {}
  {
    if w !in alive {
      forall id | id in after.db.tasks ensures !after.db.tasks[id].LiveOn(w) {
        var t := s.db.tasks[id];
        OrphanSplit(t, DeadAmong(rows, alive), w);
        assert DeadAmong(rows, alive) + {w} == DeadAmong(rows, alive);
      }
    }
  }
}

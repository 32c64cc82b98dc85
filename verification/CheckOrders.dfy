// Which failure checks commit, whatever order the database returns the rows in.
module CheckOrders {
  import opened Types
  import opened Batching
  import opened FailureChecks
  import opened FailureFacts

  // ---------- One worker ----------

  /** The orphan is in a state the check can move it out of: scheduled with retries left, or running without. */
  predicate CanBeHandled(t: Task) {
    if HasRetriesLeft(t) then t.state == Scheduled else t.state == Running
  }

  /** Failing this orphan reads `old_state`. */
  predicate ReadsOldState(t: Task) {
    !HasRetriesLeft(t) && t.retries > 0
  }

  ghost predicate AllCanBeHandled(tasks: map<Id, Task>, ids: set<Id>) {
    forall id :: id in ids ==> id in tasks && CanBeHandled(tasks[id])
  }

  ghost predicate SomeReadsOldState(tasks: map<Id, Task>, ids: set<Id>) {
    exists id :: id in ids && id in tasks && ReadsOldState(tasks[id])
  }

  ghost predicate SomeHasRetries(tasks: map<Id, Task>, ids: set<Id>) {
    exists id :: id in ids && id in tasks && HasRetriesLeft(tasks[id])
  }

  lemma FirstThen(ids: set<Id>, first: Id) returns (rows: seq<Id>)
    requires first in ids
    ensures Lists(rows, ids) && rows != [] && rows[0] == first
  {
    var rest := SomeOrder(ids - {first});
    rows := [first] + rest;
    forall id | id in ids ensures id in rows {
      assert id == first || id in rest;
    }
  }

  lemma PassingNeedsHandling(tasks: map<Id, Task>, ids: set<Id>, rows: seq<Id>)
    requires ids <= tasks.Keys && Lists(rows, ids) && AllOrphansPass(tasks, rows)
    ensures AllCanBeHandled(tasks, ids)
    ensures SomeReadsOldState(tasks, ids) ==> SomeHasRetries(tasks, ids)
  {
    forall id | id in ids
      ensures CanBeHandled(tasks[id])
      ensures ReadsOldState(tasks[id]) ==> SomeHasRetries(tasks, ids)
    {
      var i :| 0 <= i < |rows| && rows[i] == id;
      assert OrphanPasses(tasks, rows, i);
      if ReadsOldState(tasks[id]) {
        var j :| 0 <= j < i && HasRetriesLeft(tasks[rows[j]]);
        assert rows[j] in ids;
      }
    }
  }

  /** Some order of the rows lets the check of this worker commit exactly when every orphan can be
      handled and, if failing one of them reads `old_state`, some orphan assigns it. */
  lemma SomeOrderCommits(tasks: map<Id, Task>, ids: set<Id>)
    requires ids <= tasks.Keys
    ensures (exists rows :: Lists(rows, ids) && AllOrphansPass(tasks, rows)) <==>
              AllCanBeHandled(tasks, ids) && (SomeReadsOldState(tasks, ids) ==> SomeHasRetries(tasks, ids))
  {
    if rows :| Lists(rows, ids) && AllOrphansPass(tasks, rows) {
      PassingNeedsHandling(tasks, ids, rows);
    }
    if AllCanBeHandled(tasks, ids) && (SomeReadsOldState(tasks, ids) ==> SomeHasRetries(tasks, ids)) {
      if first :| first in ids && first in tasks && HasRetriesLeft(tasks[first]) {
        var rows := FirstThen(ids, first);
        RetriedFirstPasses(tasks, ids, rows);
      } else {
        assert !SomeHasRetries(tasks, ids);
        var rows := SomeOrder(ids);
        NoOldStatePasses(tasks, ids, rows);
      }
    }
  }

  lemma HandledAt(tasks: map<Id, Task>, ids: set<Id>, rows: seq<Id>, i: nat)
    requires Lists(rows, ids) && AllCanBeHandled(tasks, ids) && i < |rows|
    ensures rows[i] in tasks && CanBeHandled(tasks[rows[i]])
    ensures ReadsOldState(tasks[rows[i]]) ==> SomeReadsOldState(tasks, ids)
  {
    var id := rows[i];
    assert id in ids;
  }

  lemma RetriedFirstPasses(tasks: map<Id, Task>, ids: set<Id>, rows: seq<Id>)
    requires Lists(rows, ids) && AllCanBeHandled(tasks, ids)
    requires rows != [] && rows[0] in tasks && HasRetriesLeft(tasks[rows[0]])
    ensures AllOrphansPass(tasks, rows)
  {
    forall i | 0 <= i < |rows| ensures rows[i] in tasks && CanBeHandled(tasks[rows[i]]) {
      HandledAt(tasks, ids, rows, i);
    }
  }

  lemma NoOldStatePasses(tasks: map<Id, Task>, ids: set<Id>, rows: seq<Id>)
    requires Lists(rows, ids) && AllCanBeHandled(tasks, ids) && !SomeReadsOldState(tasks, ids)
    ensures AllOrphansPass(tasks, rows)
  {
    forall i | 0 <= i < |rows|
      ensures rows[i] in tasks && CanBeHandled(tasks[rows[i]]) && !ReadsOldState(tasks[rows[i]])
    {
      HandledAt(tasks, ids, rows, i);
    }
  }

  /** Every order does exactly when, besides, failing none of them reads `old_state`; otherwise the
      row order the database happens to choose decides between commit and abort. */
  lemma EveryOrderCommits(tasks: map<Id, Task>, ids: set<Id>)
    requires ids <= tasks.Keys
    ensures (forall rows :: Lists(rows, ids) ==> AllOrphansPass(tasks, rows)) <==>
              AllCanBeHandled(tasks, ids) && !SomeReadsOldState(tasks, ids)
  {
    if AllCanBeHandled(tasks, ids) && !SomeReadsOldState(tasks, ids) {
      forall rows | Lists(rows, ids) ensures AllOrphansPass(tasks, rows) {
        NoOldStatePasses(tasks, ids, rows);
      }
    }
    if forall rows :: Lists(rows, ids) ==> AllOrphansPass(tasks, rows) {
      var some := SomeOrder(ids);
      PassingNeedsHandling(tasks, ids, some);
      forall id | id in ids ensures !ReadsOldState(tasks[id]) {
        var rows := FirstThen(ids, id);
        assert OrphanPasses(tasks, rows, 0);
      }
    }
  }

  // ---------- The whole check ----------

  /** The transaction is still running after the last worker, so it commits. */
  ghost predicate Commits(s: State, rows: seq<Id>, alive: set<Id>, orphans: seq<seq<Id>>) {
    |orphans| == |rows| && CheckWorkers(Begin(s), rows, alive, orphans).ok
  }

  ghost predicate SilentWorker(db: Tables, alive: set<Id>, w: Id) {
    w in ActiveWorkers(db) && w !in alive
  }

  /** Each row is a worker of the table and comes with all its live tasks, in some order. */
  ghost predicate OrphansListed(db: Tables, rows: seq<Id>, orphans: seq<seq<Id>>) {
    && |orphans| == |rows|
    && forall k :: 0 <= k < |rows| ==> rows[k] in db.workers && Lists(orphans[k], LiveTasksOn(db, rows[k]))
  }

  lemma LegalRows(s: State, rows: seq<Id>, alive: set<Id>, orphans: seq<seq<Id>>)
    requires LegalCheck(s, rows, alive, orphans)
    ensures Distinct(rows) && forall k :: 0 <= k < |rows| ==> rows[k] in s.db.workers
  {
    forall k | 0 <= k < |rows| ensures rows[k] in s.db.workers {
      assert rows[k] in ActiveWorkers(s.db);
    }
  }

  lemma CommitsExactly(s: State, rows: seq<Id>, alive: set<Id>, orphans: seq<seq<Id>>)
    requires LegalCheck(s, rows, alive, orphans)
    ensures Commits(s, rows, alive, orphans) <==> AllWorkersPass(s.db.tasks, rows, alive, orphans)
  {
    LegalRows(s, rows, alive, orphans);
    CheckWorkersExactly(s, rows, alive, orphans);
  }

  /** As long as the check goes on, the orphans read for a worker are the live tasks it began with. */
  lemma NextOrphans(s: State, rows: seq<Id>, alive: set<Id>, orphans: seq<seq<Id>>)
    requires rows != [] && Distinct(rows) && forall k :: 0 <= k < |rows| ==> rows[k] in s.db.workers
    requires |orphans| == |rows|
    requires LegalOrphans(Begin(s), rows[..|rows| - 1], alive, orphans[..|rows| - 1])
    ensures var n := |rows| - 1;
            var before := CheckWorkers(Begin(s), rows[..n], alive, orphans[..n]);
            before.ok ==> LiveTasksOn(before.s.db, rows[n]) == LiveTasksOn(s.db, rows[n])
  {
    var n := |rows| - 1;
    DeadAmongPrefix(rows, alive);
    CheckWorkersExactly(s, rows[..n], alive, orphans[..n]);
    var before := CheckWorkers(Begin(s), rows[..n], alive, orphans[..n]);
    if before.ok {
      LiveTasksUntouched(s.db, before.s.db, DeadAmong(rows[..n], alive), rows[n]);
    }
  }

  lemma {:induction false} ListedIsLegal(s: State, rows: seq<Id>, alive: set<Id>, orphans: seq<seq<Id>>)
    requires Distinct(rows) && OrphansListed(s.db, rows, orphans)
    ensures LegalOrphans(Begin(s), rows, alive, orphans)
  {
    if rows != [] {
      ListedIsLegal(s, rows[..|rows| - 1], alive, orphans[..|rows| - 1]);
      NextOrphans(s, rows, alive, orphans);
    }
  }

  /** In a check that commits, every silent worker was handled with exactly the live tasks it had. */
  lemma {:induction false} CommittedIsListed(s: State, rows: seq<Id>, alive: set<Id>, orphans: seq<seq<Id>>, k: nat)
    requires Distinct(rows) && forall j :: 0 <= j < |rows| ==> rows[j] in s.db.workers
    requires LegalOrphans(Begin(s), rows, alive, orphans) && AllWorkersPass(s.db.tasks, rows, alive, orphans)
    requires k < |rows| && rows[k] !in alive
    ensures Lists(orphans[k], LiveTasksOn(s.db, rows[k]))
  {
    var n := |rows| - 1;
    AllWorkersPassPrefix(s.db.tasks, rows, alive, orphans);
    if k < n {
      CommittedIsListed(s, rows[..n], alive, orphans[..n], k);
    } else {
      CheckWorkersExactly(s, rows[..n], alive, orphans[..n]);
      NextOrphans(s, rows, alive, orphans);
    }
  }

  /** Every orphan of the worker can be handled and, if failing one reads `old_state`, some orphan assigns it. */
  ghost predicate SomeOrderPasses(db: Tables, w: Id) {
    var ids := LiveTasksOn(db, w);
    AllCanBeHandled(db.tasks, ids) && (SomeReadsOldState(db.tasks, ids) ==> SomeHasRetries(db.tasks, ids))
  }

  /** Every orphan of the worker can be handled, and failing none of them reads `old_state`. */
  ghost predicate EveryOrderPasses(db: Tables, w: Id) {
    AllCanBeHandled(db.tasks, LiveTasksOn(db, w)) && !SomeReadsOldState(db.tasks, LiveTasksOn(db, w))
  }

  /** Orphan lists for the rows: all in passing orders where there is one. */
  lemma {:induction false} PassingOrphans(db: Tables, rows: seq<Id>, alive: set<Id>) returns (orphans: seq<seq<Id>>)
    requires forall k :: 0 <= k < |rows| ==> rows[k] in db.workers
    requires forall k :: 0 <= k < |rows| && rows[k] !in alive ==> SomeOrderPasses(db, rows[k])
    ensures OrphansListed(db, rows, orphans) && AllWorkersPass(db.tasks, rows, alive, orphans)
  {
    orphans := [];
    if rows != [] {
      var n := |rows| - 1;
      orphans := PassingOrphans(db, rows[..n], alive);
      var last := SomeOrder(LiveTasksOn(db, rows[n]));
      if rows[n] !in alive {
        SomeOrderCommits(db.tasks, LiveTasksOn(db, rows[n]));
        last :| Lists(last, LiveTasksOn(db, rows[n])) && AllOrphansPass(db.tasks, last);
      }
      var front := orphans;
      orphans := front + [last];
      assert orphans[..n] == front;
      AllWorkersPassPrefix(db.tasks, rows, alive, orphans);
      forall k | 0 <= k < |rows| ensures rows[k] in db.workers && Lists(orphans[k], LiveTasksOn(db, rows[k])) {
        if k < n {
          assert rows[..n][k] == rows[k] && front[k] == orphans[k];
        }
      }
    }
  }

  /** Orphan lists for the rows, with a chosen order for one worker. */
  lemma {:induction false} OrphansWith(db: Tables, rows: seq<Id>, w: Id, chosen: seq<Id>)
    returns (orphans: seq<seq<Id>>)
    requires forall k :: 0 <= k < |rows| ==> rows[k] in db.workers
    requires Lists(chosen, LiveTasksOn(db, w))
    ensures OrphansListed(db, rows, orphans)
    ensures forall k :: 0 <= k < |rows| && rows[k] == w ==> orphans[k] == chosen
  {
    orphans := [];
    if rows != [] {
      var n := |rows| - 1;
      var front := OrphansWith(db, rows[..n], w, chosen);
      var last := SomeOrder(LiveTasksOn(db, rows[n]));
      if rows[n] == w {
        last := chosen;
      }
      orphans := front + [last];
      forall k | 0 <= k < |rows|
        ensures rows[k] in db.workers && Lists(orphans[k], LiveTasksOn(db, rows[k]))
        ensures rows[k] == w ==> orphans[k] == chosen
      {
        if k < n {
          assert rows[..n][k] == rows[k] && front[k] == orphans[k];
        }
      }
    }
  }

  lemma ActiveRows(db: Tables) returns (rows: seq<Id>)
    ensures Lists(rows, ActiveWorkers(db)) && forall k :: 0 <= k < |rows| ==> rows[k] in db.workers
  {
    rows := SomeOrder(ActiveWorkers(db));
    forall k | 0 <= k < |rows| ensures rows[k] in db.workers {
      assert rows[k] in ActiveWorkers(db);
    }
  }

  lemma CommitNeedsSomeOrder(s: State, rows: seq<Id>, alive: set<Id>, orphans: seq<seq<Id>>, w: Id)
    requires LegalCheck(s, rows, alive, orphans) && Commits(s, rows, alive, orphans)
    requires SilentWorker(s.db, alive, w)
    ensures SomeOrderPasses(s.db, w)
  {
    LegalRows(s, rows, alive, orphans);
    CommitsExactly(s, rows, alive, orphans);
    var k :| 0 <= k < |rows| && rows[k] == w;
    CommittedIsListed(s, rows, alive, orphans, k);
    PassingNeedsHandling(s.db.tasks, LiveTasksOn(s.db, w), orphans[k]);
  }

  /** The rows can come in an order in which the whole check commits exactly when for every silent
      worker all orphans can be handled and, if failing one of them reads `old_state`, some orphan of the
      same worker assigns it. */
  lemma SomeCheckCommits(s: State, alive: set<Id>)
    ensures (exists rows, orphans :: LegalCheck(s, rows, alive, orphans) && Commits(s, rows, alive, orphans)) <==>
              forall w :: SilentWorker(s.db, alive, w) ==> SomeOrderPasses(s.db, w)
  {
    if rows, orphans :| LegalCheck(s, rows, alive, orphans) && Commits(s, rows, alive, orphans) {
      forall w | SilentWorker(s.db, alive, w) ensures SomeOrderPasses(s.db, w) {
        CommitNeedsSomeOrder(s, rows, alive, orphans, w);
      }
    }
    if forall w :: SilentWorker(s.db, alive, w) ==> SomeOrderPasses(s.db, w) {
      var rows := ActiveRows(s.db);
      forall k | 0 <= k < |rows| && rows[k] !in alive ensures SomeOrderPasses(s.db, rows[k]) {
        assert rows[k] in ActiveWorkers(s.db);
        assert SilentWorker(s.db, alive, rows[k]);
      }
      var orphans := PassingOrphans(s.db, rows, alive);
      ListedIsLegal(s, rows, alive, orphans);
      CommitsExactly(s, rows, alive, orphans);
    }
  }

  lemma {:induction false} EveryOrderIsEnough(s: State, rows: seq<Id>, alive: set<Id>, orphans: seq<seq<Id>>)
    requires Distinct(rows) && forall k :: 0 <= k < |rows| ==> rows[k] in s.db.workers
    requires LegalOrphans(Begin(s), rows, alive, orphans)
    requires forall k :: 0 <= k < |rows| && rows[k] !in alive ==> EveryOrderPasses(s.db, rows[k])
    ensures AllWorkersPass(s.db.tasks, rows, alive, orphans)
  {
    if rows != [] {
      var n := |rows| - 1;
      EveryOrderIsEnough(s, rows[..n], alive, orphans[..n]);
      CheckWorkersExactly(s, rows[..n], alive, orphans[..n]);
      NextOrphans(s, rows, alive, orphans);
      AllWorkersPassPrefix(s.db.tasks, rows, alive, orphans);
      if rows[n] !in alive {
        NoOldStatePasses(s.db.tasks, LiveTasksOn(s.db, rows[n]), orphans[n]);
      }
    }
  }

  lemma ChosenOrderPasses(s: State, alive: set<Id>, w: Id, chosen: seq<Id>)
    requires forall rows, orphans :: LegalCheck(s, rows, alive, orphans) ==> Commits(s, rows, alive, orphans)
    requires SilentWorker(s.db, alive, w) && Lists(chosen, LiveTasksOn(s.db, w))
    ensures AllOrphansPass(s.db.tasks, chosen)
  {
    var rows := ActiveRows(s.db);
    var orphans := OrphansWith(s.db, rows, w, chosen);
    ListedIsLegal(s, rows, alive, orphans);
    assert Commits(s, rows, alive, orphans);
    CommitsExactly(s, rows, alive, orphans);
    var k :| 0 <= k < |rows| && rows[k] == w;
    assert AllOrphansPass(s.db.tasks, orphans[k]);
  }

  /** The whole check commits in whatever order the rows come exactly when for every silent worker all
      orphans can be handled and failing none of them reads `old_state`. */
  lemma EveryCheckCommits(s: State, alive: set<Id>)
    ensures (forall rows, orphans :: LegalCheck(s, rows, alive, orphans) ==> Commits(s, rows, alive, orphans)) <==>
              forall w :: SilentWorker(s.db, alive, w) ==> EveryOrderPasses(s.db, w)
  {
    if forall w :: SilentWorker(s.db, alive, w) ==> EveryOrderPasses(s.db, w) {
      forall rows, orphans | LegalCheck(s, rows, alive, orphans) ensures Commits(s, rows, alive, orphans) {
        LegalRows(s, rows, alive, orphans);
        forall k | 0 <= k < |rows| && rows[k] !in alive ensures EveryOrderPasses(s.db, rows[k]) {
          assert rows[k] in ActiveWorkers(s.db);
          assert SilentWorker(s.db, alive, rows[k]);
        }
        EveryOrderIsEnough(s, rows, alive, orphans);
        CommitsExactly(s, rows, alive, orphans);
      }
    }
    if forall rows, orphans :: LegalCheck(s, rows, alive, orphans) ==> Commits(s, rows, alive, orphans) {
      forall w | SilentWorker(s.db, alive, w) ensures EveryOrderPasses(s.db, w) {
        forall chosen | Lists(chosen, LiveTasksOn(s.db, w)) ensures AllOrphansPass(s.db.tasks, chosen) {
          ChosenOrderPasses(s, alive, w, chosen);
        }
        EveryOrderCommits(s.db.tasks, LiveTasksOn(s.db, w));
      }
    }
  }

  /** One live task of a silent worker that the check cannot move, such as a RUNNING one with retries
      left, keeps every worker from being declared dead, in every order of the rows. */
  lemma OneTaskBlocksEveryCheck(s: State, rows: seq<Id>, alive: set<Id>, orphans: seq<seq<Id>>, id: Id)
    requires LegalCheck(s, rows, alive, orphans)
    requires id in s.db.tasks && s.db.tasks[id].Live() && s.db.tasks[id].worker.Some?
    requires SilentWorker(s.db, alive, s.db.tasks[id].worker.value) && !CanBeHandled(s.db.tasks[id])
    ensures !Commits(s, rows, alive, orphans)
    ensures CheckAllWorkers(s, rows, alive, orphans).db == s.db
  {
    var w := s.db.tasks[id].worker.value;
    assert id in LiveTasksOn(s.db, w);
    if Commits(s, rows, alive, orphans) {
      CommitNeedsSomeOrder(s, rows, alive, orphans, w);
    }
  }
}

// The task queue over a Redis sorted set (src/chronos/redis_client/priority_queue.py).
module PriorityQueues {
  import opened Types

  /** Member order of the sorted set: by score, ties by member. */
  predicate Ahead(q: map<Id, int>, a: Id, b: Id)
    requires a in q && b in q
  {
    q[a] < q[b] || (q[a] == q[b] && a <= b)
  }

  predicate IsFirst(q: map<Id, int>, id: Id) {
    id in q && forall other :: other in q ==> Ahead(q, id, other)
  }

  function Without(q: map<Id, int>, ids: seq<Id>): map<Id, int> {
    map id | id in q && id !in ids :: q[id]
  }

  lemma {:induction false} FirstExists(q: map<Id, int>)
    requires q != map[]
    ensures exists id :: IsFirst(q, id)
    decreases |q|
  {
    EmptyMapOrInhabited(q);
    var id :| id in q.Keys;
    var rest := q - {id};
    if rest == map[] {
      assert IsFirst(q, id) by {
        forall other | other in q ensures other == id {
          assert other in rest <==> other != id;
        }
      }
    } else {
      assert rest.Keys == q.Keys - {id};
      assert |rest| < |q| by { assert |rest.Keys| < |q.Keys|; }
      FirstExists(rest);
      var next :| IsFirst(rest, next);
      var first := if Ahead(q, id, next) then id else next;
      forall other | other in q ensures Ahead(q, first, other) {
        if other != id { assert other in rest && Ahead(rest, next, other); }
      }
      assert IsFirst(q, first);
    }
  }

  lemma FirstIsUnique(q: map<Id, int>, a: Id, b: Id)
    requires IsFirst(q, a) && IsFirst(q, b)
    ensures a == b
  {
    assert Ahead(q, a, b) && Ahead(q, b, a);
  }

  ghost function First(q: map<Id, int>): (id: Id)
    requires q != map[]
    ensures IsFirst(q, id)
  {
    FirstExists(q);
    var id :| IsFirst(q, id);
    id
  }

  /** What ZPOPMIN with a count returns. */
  ghost function PopBatch(q: map<Id, int>, count: nat): seq<Id>
    decreases count
  {
    if count == 0 || q == map[] then []
    else [First(q)] + PopBatch(Without(q, [First(q)]), count - 1)
  }

  /** A popped batch comes in queue order, without duplicates, and nothing left behind was ahead of
      anything popped; it is as long as the count and the queue allow. */
  lemma {:induction false} PopBatchTakesTheFirst(q: map<Id, int>, count: nat)
    ensures var ids := PopBatch(q, count);
            && Distinct(ids)
            && (forall k :: 0 <= k < |ids| ==> ids[k] in q)
            && (forall i, j :: 0 <= i < j < |ids| ==> Ahead(q, ids[i], ids[j]))
            && (forall k, id :: 0 <= k < |ids| && id in Without(q, ids) ==> Ahead(q, ids[k], id))
            && |ids| == if count <= |q| then count else |q|
    decreases count
  {
    if count > 0 && q != map[] {
      var first := First(q);
      var rest := Without(q, [first]);
      assert rest.Keys == q.Keys - {first};
      assert |rest| == |q| - 1 by { assert |rest.Keys| == |q.Keys| - 1; }
      PopBatchTakesTheFirst(rest, count - 1);
      var ids := PopBatch(q, count);
      assert ids == [first] + PopBatch(rest, count - 1);
      forall k, id | 0 <= k < |ids| && id in Without(q, ids) ensures Ahead(q, ids[k], id) {
        if k > 0 {
          assert ids[k] == PopBatch(rest, count - 1)[k - 1];
          assert id in Without(rest, PopBatch(rest, count - 1));
        }
      }
    } else if q == map[] {
      assert |q| == 0;
    }
  }

  class PriorityQueue {
    var scores: map<Id, int>

    constructor ()
      ensures scores == map[]
    {
      scores := map[];
    }

    method Enqueue(taskId: Id, priority: int)
      modifies this
      ensures scores == old(scores)[taskId := -priority]
    {
      scores := scores[taskId := -priority];
    }

    method Dequeue() returns (taskId: Option<Id>)
      modifies this
      ensures taskId.None? <==> old(scores) == map[]
      ensures taskId.Some? ==> taskId.value == First(old(scores)) && scores == Without(old(scores), [taskId.value])
      ensures taskId.None? ==> scores == old(scores)
    {
      if scores == map[] {
        return None;
      }
      assert IsFirst(scores, First(scores));
      var id :| id in scores && IsFirst(scores, id);
      FirstIsUnique(scores, id, First(scores));
      scores := Without(scores, [id]);
      return Some(id);
    }

    method DequeueBatch(count: nat) returns (taskIds: seq<Id>)
      modifies this
      ensures taskIds == PopBatch(old(scores), count)
      ensures scores == Without(old(scores), taskIds)
    {
      taskIds := [];
      while |taskIds| < count && scores != map[]
        invariant |taskIds| <= count
        invariant PopBatch(old(scores), count) == taskIds + PopBatch(scores, count - |taskIds|)
        invariant scores == Without(old(scores), taskIds)
        decreases count - |taskIds|
      {
        var next := Dequeue();
        taskIds := taskIds + [next.value];
      }
    }

    method Remove(taskId: Id) returns (removed: bool)
      modifies this
      ensures removed <==> taskId in old(scores)
      ensures scores == Without(old(scores), [taskId])
    {
      removed := taskId in scores;
      scores := Without(scores, [taskId]);
    }

    method Contains(taskId: Id) returns (found: bool)
      ensures found <==> taskId in scores
    {
      found := taskId in scores;
    }
  }
}

// Python's `list.sort`: a stable sort, here by insertion.
module Sorting {

  ghost predicate TotalPreorder<T(!new)>(le: (T, T) -> bool) {
    && (forall a, b :: le(a, b) || le(b, a))
    && (forall a, b, c :: le(a, b) && le(b, c) ==> le(a, c))
  }

  function Insert<T>(x: T, ys: seq<T>, le: (T, T) -> bool): seq<T> {
    if ys == [] then [x]
    else if le(x, ys[0]) then [x] + ys
    else [ys[0]] + Insert(x, ys[1..], le)
  }

  function Sort<T>(xs: seq<T>, le: (T, T) -> bool): seq<T> {
    if xs == [] then [] else Insert(xs[0], Sort(xs[1..], le), le)
  }

  ghost predicate Ordered<T>(xs: seq<T>, le: (T, T) -> bool) {
    forall i, j :: 0 <= i < j < |xs| ==> le(xs[i], xs[j])
  }

  lemma {:induction false} InsertPermutes<T>(x: T, ys: seq<T>, le: (T, T) -> bool)
    ensures multiset(Insert(x, ys, le)) == multiset{x} + multiset(ys)
  {
    if ys != [] && !le(x, ys[0]) {
      InsertPermutes(x, ys[1..], le);
      assert ys == [ys[0]] + ys[1..];
    }
  }

  lemma {:induction false} SortPermutes<T>(xs: seq<T>, le: (T, T) -> bool)
    ensures multiset(Sort(xs, le)) == multiset(xs)
    ensures |Sort(xs, le)| == |xs|
  {
    if xs != [] {
      SortPermutes(xs[1..], le);
      InsertPermutes(xs[0], Sort(xs[1..], le), le);
      assert xs == [xs[0]] + xs[1..];
    }
    assert |Sort(xs, le)| == |multiset(Sort(xs, le))|;
    assert |xs| == |multiset(xs)|;
  }

  lemma {:induction false} InsertOrders<T(!new)>(x: T, ys: seq<T>, le: (T, T) -> bool)
    requires TotalPreorder(le) && Ordered(ys, le)
    ensures Ordered(Insert(x, ys, le), le)
  {
    if ys != [] {
      if le(x, ys[0]) {
        forall j | 0 <= j < |ys| ensures le(x, ys[j]) {
          if j > 0 { assert le(ys[0], ys[j]); }
        }
      } else {
        var rest := Insert(x, ys[1..], le);
        InsertOrders(x, ys[1..], le);
        InsertPermutes(x, ys[1..], le);
        forall j | 0 <= j < |rest| ensures le(ys[0], rest[j]) {
          assert rest[j] in multiset(rest);
          if rest[j] != x { assert rest[j] in ys[1..]; }
        }
      }
    }
  }

  lemma {:induction false} SortOrders<T(!new)>(xs: seq<T>, le: (T, T) -> bool)
    requires TotalPreorder(le)
    ensures Ordered(Sort(xs, le), le)
  {
    if xs != [] {
      SortOrders(xs[1..], le);
      InsertOrders(xs[0], Sort(xs[1..], le), le);
    }
  }

  /** The head of a sorted list is one of its elements and comes before all of them. */
  lemma SortedHead<T(!new)>(xs: seq<T>, le: (T, T) -> bool)
    requires TotalPreorder(le) && xs != []
    ensures Sort(xs, le) != [] && Sort(xs, le)[0] in xs
    ensures forall x :: x in xs ==> le(Sort(xs, le)[0], x)
  {
    SortOrders(xs, le);
    SortPermutes(xs, le);
    var s := Sort(xs, le);
    assert s[0] in multiset(s);
    forall x | x in xs ensures le(s[0], x) {
      assert x in multiset(s);
      var j :| 0 <= j < |s| && s[j] == x;
      assert le(s[0], s[0]);
    }
  }

  // ---------- Stability ----------

  /** The elements the order does not tell apart from `x`, as they stand in the list. */
  function Ties<T>(x: T, xs: seq<T>, le: (T, T) -> bool): seq<T> {
    if xs == [] then []
    else (if le(x, xs[0]) && le(xs[0], x) then [xs[0]] else []) + Ties(x, xs[1..], le)
  }

  lemma {:induction false} TiesConcat<T>(x: T, a: seq<T>, b: seq<T>, le: (T, T) -> bool)
    ensures Ties(x, a + b, le) == Ties(x, a, le) + Ties(x, b, le)
  {
    if a == [] {
      assert a + b == b;
    } else {
      TiesConcat(x, a[1..], b, le);
      assert (a + b)[1..] == a[1..] + b;
    }
  }

  lemma {:induction false} InsertKeepsTies<T(!new)>(x: T, y: T, ys: seq<T>, le: (T, T) -> bool)
    requires TotalPreorder(le)
    ensures Ties(x, Insert(y, ys, le), le) == Ties(x, [y] + ys, le)
  {
    assert ([y] + ys)[1..] == ys;
    if ys != [] && !le(y, ys[0]) {
      InsertKeepsTies(x, y, ys[1..], le);
      assert ([y] + ys[1..])[1..] == ys[1..];
      assert ([ys[0]] + Insert(y, ys[1..], le))[1..] == Insert(y, ys[1..], le);
    }
  }

  /** Elements that the order does not tell apart keep their places relative to each other. */
  lemma {:induction false} SortIsStable<T(!new)>(x: T, xs: seq<T>, le: (T, T) -> bool)
    requires TotalPreorder(le)
    ensures Ties(x, Sort(xs, le), le) == Ties(x, xs, le)
  {
    if xs != [] {
      var sorted := Sort(xs[1..], le);
      SortIsStable(x, xs[1..], le);
      InsertKeepsTies(x, xs[0], sorted, le);
      assert ([xs[0]] + sorted)[1..] == sorted;
    }
  }
}

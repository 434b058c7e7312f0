/**
  Least-connections selection: `Manager.pickLeastConn` sorts the shared
  instance list by `ConnCount` (ascending, `sort.Slice`, not stable) and
  returns the head. The sort is modelled by an insertion sort whose contract
  promises only what `sort.Slice` promises: a permutation ordered by the key.
  No tie-break among equal counts is promised.
 */
module Balancer {
  import opened Tor

  predicate SortedByConn(s: seq<TorInstance>) {
    forall i, j :: 0 <= i < j < |s| ==> s[i].connCount <= s[j].connCount
  }

  /** `x` is in the pool and no instance of the pool carries fewer connections. */
  predicate IsLeastLoaded(pool: seq<TorInstance>, x: TorInstance) {
    x in pool && forall y :: y in pool ==> x.connCount <= y.connCount
  }

  function Insert(x: TorInstance, s: seq<TorInstance>): (r: seq<TorInstance>)
    requires SortedByConn(s)
    ensures SortedByConn(r)
    ensures multiset(r) == multiset(s) + multiset{x}
    decreases |s|
  {
    if |s| == 0 then [x]
    else if x.connCount <= s[0].connCount then [x] + s
    else
      var rest := Insert(x, s[1..]);
      assert s == [s[0]] + s[1..];
      assert forall i :: 0 <= i < |rest| ==> s[0].connCount <= rest[i].connCount by {
        forall i | 0 <= i < |rest|
          ensures s[0].connCount <= rest[i].connCount
        {
          assert rest[i] in multiset(rest);
          assert rest[i] == x || rest[i] in multiset(s[1..]);
        }
      }
      [s[0]] + rest
  }

  /** The reordering `sort.Slice` performs on the instance list. */
  function SortByConn(s: seq<TorInstance>): (r: seq<TorInstance>)
    ensures SortedByConn(r)
    ensures multiset(r) == multiset(s)
    decreases |s|
  {
    if |s| == 0 then []
    else
      assert s == [s[0]] + s[1..];
      Insert(s[0], SortByConn(s[1..]))
  }

  datatype Pick = Pick(instances: seq<TorInstance>, chosen: TorInstance)

  /**
    `pickLeastConn`: the list after the sort and the instance at its head.
    The source indexes `[0]`, so the pool must not be empty.
   */
  function PickLeastConn(pool: seq<TorInstance>): (p: Pick)
    requires |pool| > 0
    ensures multiset(p.instances) == multiset(pool)
    ensures SortedByConn(p.instances)
    ensures |p.instances| == |pool| && p.chosen == p.instances[0]
    ensures IsLeastLoaded(pool, p.chosen)
  {
    var sorted := SortByConn(pool);
    assert |sorted| == |multiset(sorted)| == |multiset(pool)| == |pool|;
    assert sorted[0] in multiset(pool);
    assert forall y :: y in pool ==> sorted[0].connCount <= y.connCount by {
      forall y | y in pool
        ensures sorted[0].connCount <= y.connCount
      {
        assert y in multiset(sorted);
        var k :| 0 <= k < |sorted| && sorted[k] == y;
      }
    }
    Pick(sorted, sorted[0])
  }

  /** Smallest `ConnCount` in a non-empty pool: an independent reference for the selection. */
  function MinConn(pool: seq<TorInstance>): int
    requires |pool| > 0
    decreases |pool|
  {
    if |pool| == 1 then pool[0].connCount
    else
      var m := MinConn(pool[1..]);
      if pool[0].connCount <= m then pool[0].connCount else m
  }

  lemma {:induction false} MinConnIsLeast(pool: seq<TorInstance>)
    requires |pool| > 0
    ensures exists x :: x in pool && x.connCount == MinConn(pool)
    ensures forall y :: y in pool ==> MinConn(pool) <= y.connCount
    decreases |pool|
  {
    if |pool| > 1 {
      MinConnIsLeast(pool[1..]);
      assert pool == [pool[0]] + pool[1..];
      var w :| w in pool[1..] && w.connCount == MinConn(pool[1..]);
      assert w in pool;
    } else {
      assert pool[0] in pool;
    }
  }

  /**
    Any least-loaded instance has the same count as the reference minimum, and
    the picked one is least-loaded: the selection is right up to ties, and the
    set of acceptable answers is exactly the instances with count `MinConn`.
   */
  lemma PickIsMinimal(pool: seq<TorInstance>, x: TorInstance)
    requires |pool| > 0
    ensures PickLeastConn(pool).chosen.connCount == MinConn(pool)
    ensures IsLeastLoaded(pool, x) <==> x in pool && x.connCount == MinConn(pool)
  {
    MinConnIsLeast(pool);
  }
}

/**
  Load accounting of the balancer's per-connection handler.

  One handler does, in order: `pickLeastConn` (sorts the shared list and takes
  the head), `ConnCount++` under the instance's mutex, dial of the instance's
  SOCKS port, and on return the deferred `ConnCount--`. The handler returns
  right after launching the two copy goroutines, so the decrement follows the
  dial whatever its outcome, and the counter tracks running handlers rather
  than open proxy sessions.

  Handlers run concurrently, so the three steps are separate events of a
  `Router` state: a handler may pick an instance and be overtaken by others
  before it increments. Each mutex-guarded update is one atomic step.
 */
module Router {
  import opened Tor
  import Balancer

  /**
    The shared instance list, the instances picked by handlers that have not
    yet incremented (`picked`, by id) and the instances whose handlers have
    incremented and not yet returned (`counted`, by id).
   */
  datatype Router = Router(pool: seq<TorInstance>, picked: multiset<int>, counted: multiset<int>)

  datatype DialOutcome = ClientClosed | Relaying(socksPort: int)

  /** Adds `delta` to the `ConnCount` of the instance(s) with id `id`; nothing else changes. */
  function AdjustConn(pool: seq<TorInstance>, id: int, delta: int): (r: seq<TorInstance>)
    ensures |r| == |pool|
    ensures forall i :: 0 <= i < |r| ==> SameIdentity(r[i], pool[i]) && r[i].alive == pool[i].alive
    ensures forall i :: 0 <= i < |r| ==>
      r[i].connCount == pool[i].connCount + (if pool[i].id == id then delta else 0)
    decreases |pool|
  {
    if |pool| == 0 then []
    else
      var t := pool[0];
      var t' := if t.id == id then t.(connCount := t.connCount + delta) else t;
      [t'] + AdjustConn(pool[1..], id, delta)
  }

  /** The handler's first step: sort the list and pick its head. */
  function PickStep(r: Router): (res: (Router, int))
    requires |r.pool| > 0
    ensures multiset(res.0.pool) == multiset(r.pool)
    ensures Balancer.SortedByConn(res.0.pool)
    ensures exists x :: Balancer.IsLeastLoaded(r.pool, x) && x.id == res.1
    ensures res.0.picked == r.picked + multiset{res.1} && res.0.counted == r.counted
  {
    var p := Balancer.PickLeastConn(r.pool);
    (Router(p.instances, r.picked + multiset{p.chosen.id}, r.counted), p.chosen.id)
  }

  /** `inst.ConnCount++` for a handler that picked `id`; its deferred decrement is now armed. */
  function IncrementStep(r: Router, id: int): (r': Router)
    requires id in r.picked
    ensures |r'.pool| == |r.pool|
    ensures forall i :: 0 <= i < |r.pool| ==>
      SameIdentity(r'.pool[i], r.pool[i]) && r'.pool[i].alive == r.pool[i].alive
    ensures forall i :: 0 <= i < |r.pool| && r.pool[i].id == id ==>
      r'.pool[i].connCount == r.pool[i].connCount + 1
    ensures forall i :: 0 <= i < |r.pool| && r.pool[i].id != id ==>
      r'.pool[i].connCount == r.pool[i].connCount
    ensures r'.picked == r.picked - multiset{id} && r'.counted == r.counted + multiset{id}
  {
    Router(AdjustConn(r.pool, id, 1), r.picked - multiset{id}, r.counted + multiset{id})
  }

  /** SOCKS port of the first instance with id `id`, if any. */
  function SocksPortOf(pool: seq<TorInstance>, id: int): (port: int)
    ensures (exists i :: 0 <= i < |pool| && pool[i].id == id) ==> exists i :: 0 <= i < |pool| && pool[i].id == id && pool[i].socksPort == port
    decreases |pool|
  {
    if |pool| == 0 then 0
    else if pool[0].id == id then pool[0].socksPort
    else
      var p := SocksPortOf(pool[1..], id);
      assert forall i :: 1 <= i < |pool| ==> pool[i] == pool[1..][i - 1];
      p
  }

  /**
    The rest of the handler for `id`: dial the instance's SOCKS port (the
    outcome is an input), close the client on failure, then return, which
    runs the deferred `ConnCount--` on either path.
   */
  function FinishStep(r: Router, id: int, dialOk: bool): (res: (Router, DialOutcome))
    requires id in r.counted
    ensures dialOk <==> res.1.Relaying?
    ensures dialOk ==> res.1.socksPort == SocksPortOf(r.pool, id)
    ensures |res.0.pool| == |r.pool|
    ensures forall i :: 0 <= i < |r.pool| ==>
      SameIdentity(res.0.pool[i], r.pool[i]) && res.0.pool[i].alive == r.pool[i].alive
    ensures forall i :: 0 <= i < |r.pool| && r.pool[i].id == id ==>
      res.0.pool[i].connCount == r.pool[i].connCount - 1
    ensures forall i :: 0 <= i < |r.pool| && r.pool[i].id != id ==>
      res.0.pool[i].connCount == r.pool[i].connCount
    ensures res.0.picked == r.picked && res.0.counted == r.counted - multiset{id}
  {
    var outcome := if dialOk then Relaying(SocksPortOf(r.pool, id)) else ClientClosed;
    (Router(AdjustConn(r.pool, id, -1), r.picked, r.counted - multiset{id}), outcome)
  }

  /** Every instance's `ConnCount` is the number of handlers past their increment for it. */
  predicate Inv(r: Router) {
    forall x :: x in r.pool ==> x.connCount == r.counted[x.id]
  }

  /** The list built by `InitInstances`, with no handler running, satisfies the invariant. */
  lemma InvInitial(pool: seq<TorInstance>)
    requires forall x :: x in pool ==> x.connCount == 0
    ensures Inv(Router(pool, multiset{}, multiset{}))
  {
  }

  lemma InvPick(r: Router)
    requires Inv(r) && |r.pool| > 0
    ensures Inv(PickStep(r).0)
  {
    var r' := PickStep(r).0;
    forall x | x in r'.pool
      ensures x.connCount == r'.counted[x.id]
    {
      assert x in multiset(r'.pool);
    }
  }

  lemma InvIncrement(r: Router, id: int)
    requires Inv(r) && id in r.picked
    ensures Inv(IncrementStep(r, id))
  {
  }

  lemma InvFinish(r: Router, id: int, dialOk: bool)
    requires Inv(r) && id in r.counted
    ensures Inv(FinishStep(r, id, dialOk).0)
  {
  }

  /** One step of some handler: its pick, its increment, or its dial and return. */
  datatype Event = Accept | Increment(id: int) | Finish(id: int, dialOk: bool)

  /**
    Whether `e` can happen in `r`: only a handler that picked can increment,
    only one that incremented can return. A pick on an empty list would index
    out of range and panic; it cannot occur, since the list holds one instance
    per CPU core and there is at least one core.
   */
  predicate Enabled(r: Router, e: Event) {
    match e
    case Accept => |r.pool| > 0
    case Increment(id) => id in r.picked
    case Finish(id, _) => id in r.counted
  }

  /** The state after `e`; an event that cannot happen in `r` is dropped. */
  function Apply(r: Router, e: Event): (r': Router)
    ensures |r'.pool| == |r.pool|
  {
    if !Enabled(r, e) then r
    else match e
      case Accept => PickStep(r).0
      case Increment(id) => IncrementStep(r, id)
      case Finish(id, dialOk) => FinishStep(r, id, dialOk).0
  }

  /** The state after the events of `events`, in order. */
  function Run(r: Router, events: seq<Event>): (r': Router)
    ensures |r'.pool| == |r.pool|
    decreases |events|
  {
    if |events| == 0 then r else Run(Apply(r, events[0]), events[1..])
  }

  /**
    Starting from freshly built instances, under every interleaving of handler
    steps each `ConnCount` equals the number of handlers that incremented it
    and have not returned, so no counter is ever negative.
   */
  lemma {:induction false} RunKeepsAccounting(r: Router, events: seq<Event>)
    requires Inv(r)
    ensures Inv(Run(r, events))
    ensures forall x :: x in Run(r, events).pool ==> x.connCount >= 0
    decreases |events|
  {
    if |events| > 0 {
      var e := events[0];
      if Enabled(r, e) {
        match e
        case Accept => InvPick(r);
        case Increment(id) => InvIncrement(r, id);
        case Finish(id, dialOk) => InvFinish(r, id, dialOk);
      }
      RunKeepsAccounting(Apply(r, e), events[1..]);
    }
  }

  /** Adding `delta` and then `-delta` to the same id restores the list. */
  lemma {:induction false} AdjustConnInverse(pool: seq<TorInstance>, id: int, delta: int)
    ensures AdjustConn(AdjustConn(pool, id, delta), id, -delta) == pool
    decreases |pool|
  {
    if |pool| > 0 {
      AdjustConnInverse(pool[1..], id, delta);
      assert AdjustConn(pool, id, delta)[1..] == AdjustConn(pool[1..], id, delta);
    }
  }

  /**
    One handler run without interleaving: the chosen instance's count rises by
    exactly one, and after the dial, failed or successful, the deferred
    decrement brings every counter back to its value right after the sort.
    So, even with a live relay, the handler leaves no trace in `ConnCount`.
   */
  lemma HandlerNetZero(r: Router, dialOk: bool)
    requires |r.pool| > 0
    ensures
      var r1 := PickStep(r).0;
      var id := PickStep(r).1;
      var r2 := IncrementStep(r1, id);
      var fin := FinishStep(r2, id, dialOk);
      && (forall i :: 0 <= i < |r1.pool| ==> r2.pool[i].connCount >= r1.pool[i].connCount)
      && fin.0 == Router(r1.pool, r.picked, r.counted)
      && (dialOk <==> fin.1.Relaying?)
  {
    var r1 := PickStep(r).0;
    var id := PickStep(r).1;
    var r2 := IncrementStep(r1, id);
    AdjustConnInverse(r1.pool, id, 1);
    assert r1.picked == r.picked + multiset{id};
    assert r2.picked == r.picked + multiset{id} - multiset{id} == r.picked;
    assert r2.counted == r.counted + multiset{id};
    assert r2.counted - multiset{id} == r.counted;
  }

  /**
    The balanced-routing scenario: counts [2, 0, 1] route to the instance with
    0, which then holds 1; when its handler returns it holds 0 again.
   */
  lemma BalancedRoutingScenario(a: TorInstance, b: TorInstance, c: TorInstance)
    requires a.connCount == 2 && b.connCount == 0 && c.connCount == 1
    requires a.id == 1 && b.id == 2 && c.id == 3
    ensures
      var r1 := PickStep(Router([a, b, c], multiset{}, multiset{})).0;
      var id := PickStep(Router([a, b, c], multiset{}, multiset{})).1;
      && id == 2
      && IncrementStep(r1, id).pool == [b.(connCount := 1), c, a]
      && FinishStep(IncrementStep(r1, id), id, true).0.pool == [b, c, a]
  {
    var r := Router([a, b, c], multiset{}, multiset{});
    var r1 := PickStep(r).0;
    var id := PickStep(r).1;
    PickOfThree(a, b, c);
    assert r1.pool == [b, c, a] && id == 2;
    IncrementOfThree(a, b, c);
    AdjustConnInverse(r1.pool, id, 1);
  }

  lemma PickOfThree(a: TorInstance, b: TorInstance, c: TorInstance)
    requires a.connCount == 2 && b.connCount == 0 && c.connCount == 1
    requires a.id == 1 && b.id == 2 && c.id == 3
    ensures PickStep(Router([a, b, c], multiset{}, multiset{})).1 == 2
    ensures PickStep(Router([a, b, c], multiset{}, multiset{})).0.pool == [b, c, a]
  {
    var r := Router([a, b, c], multiset{}, multiset{});
    var res := PickStep(r);
    var x :| Balancer.IsLeastLoaded([a, b, c], x) && x.id == res.1;
    assert x in [a, b, c];
    assert b in [a, b, c];
    assert x.connCount <= b.connCount;
    assert x == b;
    SortedOfThree(res.0.pool, a, b, c);
  }

  lemma IncrementOfThree(a: TorInstance, b: TorInstance, c: TorInstance)
    requires a.id == 1 && b.id == 2 && c.id == 3
    ensures AdjustConn([b, c, a], 2, 1) == [b.(connCount := b.connCount + 1), c, a]
  {
  }

  /** The only ordering of three instances with counts 2, 0, 1 that is sorted by count. */
  lemma SortedOfThree(s: seq<TorInstance>, a: TorInstance, b: TorInstance, c: TorInstance)
    requires a.connCount == 2 && b.connCount == 0 && c.connCount == 1
    requires multiset(s) == multiset([a, b, c]) && Balancer.SortedByConn(s)
    ensures s == [b, c, a]
  {
  }
}

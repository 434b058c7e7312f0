/**
  Pool construction: `Manager.InitInstances` appends one descriptor per CPU
  core to the manager's instance list. The core count is an input.
 */
module Pool {
  import opened Tor

  /** The layout of the `i`-th appended instance (0-based): numbered from 1. */
  predicate IsSlot(t: TorInstance, i: nat) {
    && t.id == i + 1
    && t.socksPort == BaseSocksPort + i + 1
    && t.controlPort == BaseControlPort + i + 1
    && t.dataDir == DataDir(i + 1)
    && !t.alive
    && t.connCount == 0
  }

  /** `r[from..from + count]` holds the slots 0 .. count - 1 in order. */
  predicate LaidOut(r: seq<TorInstance>, from: nat, count: nat) {
    from + count <= |r| && forall j :: from <= j < from + count ==> IsSlot(r[j], j - from)
  }

  /** Appends `count` fresh descriptors to `pool`; the old ones are kept as they were. */
  method InitInstances(pool: seq<TorInstance>, count: nat) returns (r: seq<TorInstance>)
    ensures |r| == |pool| + count
    ensures r[..|pool|] == pool
    ensures LaidOut(r, |pool|, count)
  {
    r := pool;
    var i := 0;
    while i < count
      invariant 0 <= i <= count
      invariant |r| == |pool| + i
      invariant r[..|pool|] == pool
      invariant LaidOut(r, |pool|, i)
    {
      var inst := TorInstance(i + 1, BaseSocksPort + i + 1, BaseControlPort + i + 1, DataDir(i + 1), false, 0);
      r := r + [inst];
      i := i + 1;
    }
  }

  /** The appended descriptors have pairwise-distinct ids, ports and data directories. */
  lemma AppendedDistinct(r: seq<TorInstance>, from: nat, count: nat)
    requires LaidOut(r, from, count)
    ensures forall j, k :: from <= j < k < from + count ==>
      && r[j].id != r[k].id
      && r[j].socksPort != r[k].socksPort
      && r[j].controlPort != r[k].controlPort
      && r[j].dataDir != r[k].dataDir
  {
    forall j, k | from <= j < k < from + count
      ensures r[j].dataDir != r[k].dataDir
    {
      DataDirInjective(j - from + 1, k - from + 1);
    }
  }

  /**
    No appended SOCKS port equals an appended control port exactly when at most
    100 instances are appended: the 101st SOCKS port is the first control port.
   */
  lemma PortRangesDisjoint(r: seq<TorInstance>, from: nat, count: nat)
    requires LaidOut(r, from, count)
    ensures (forall j, k :: from <= j < from + count && from <= k < from + count ==>
               r[j].socksPort != r[k].controlPort)
            <==> count <= 100
  {
    if count > 100 {
      assert IsSlot(r[from + 100], 100) && IsSlot(r[from], 0);
      assert r[from + 100].socksPort == r[from].controlPort;
    } else {
      forall j, k | from <= j < from + count && from <= k < from + count
        ensures r[j].socksPort != r[k].controlPort
      {
        assert IsSlot(r[j], j - from) && IsSlot(r[k], k - from);
      }
    }
  }

  /**
    No appended port collides with the balancer's listening port exactly when
    fewer than 800 instances are appended: the 800th control port is 10000.
   */
  lemma BalancerPortFree(r: seq<TorInstance>, from: nat, count: nat)
    requires LaidOut(r, from, count)
    ensures (forall j :: from <= j < from + count ==>
               r[j].socksPort != BalancerPort && r[j].controlPort != BalancerPort)
            <==> count < 800
  {
    if count >= 800 {
      assert IsSlot(r[from + 799], 799);
    } else {
      forall j | from <= j < from + count
        ensures r[j].socksPort != BalancerPort && r[j].controlPort != BalancerPort
      {
        assert IsSlot(r[j], j - from);
      }
    }
  }
}

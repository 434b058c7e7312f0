/**
  The Tor instance descriptor and the manager's constants.

  A `TorInstance` keeps the fields of the Go record that carry behaviour:
  identity and ports, the data directory, the `Alive` flag written by the
  supervisor and the `ConnCount` load counter written by the balancer.
  The process handle and the per-instance mutex are not values here: launches
  and exits are inputs of the supervisor model, and every mutex-guarded update
  is one atomic step.
 */
module Tor {
  import Decimal

  const BaseSocksPort: int := 9100
  const BaseControlPort: int := 9200
  const BalancerPort: int := 10000
  const DataDirBase: string := "/var/lib/mojenx-tor"
  // The rotation period (5 minutes) and the restart pause (2 seconds) are
  // timings; the model orders events and does not measure time.

  datatype TorInstance = TorInstance(
    id: int,
    socksPort: int,
    controlPort: int,
    dataDir: string,
    alive: bool,
    connCount: int
  )

  /** Two descriptors agree on everything but the mutable `alive` and `connCount`. */
  predicate SameIdentity(a: TorInstance, b: TorInstance) {
    a.id == b.id && a.socksPort == b.socksPort && a.controlPort == b.controlPort && a.dataDir == b.dataDir
  }

  /** The data directory of instance `id`: the base, a slash, then `id` in decimal. */
  function DataDir(id: nat): (d: string)
    ensures |d| > |DataDirBase| + 1
    ensures d[..|DataDirBase| + 1] == DataDirBase + "/"
    ensures d[|DataDirBase| + 1..] == Decimal.NatToDecimal(id)
  {
    DataDirBase + "/" + Decimal.NatToDecimal(id)
  }

  /** Data directories of distinct ids are distinct paths. */
  lemma DataDirInjective(a: nat, b: nat)
    ensures DataDir(a) == DataDir(b) <==> a == b
  {
    Decimal.RenderInjective(a, b);
    if DataDir(a) == DataDir(b) {
      assert DataDir(a)[|DataDirBase| + 1..] == DataDir(b)[|DataDirBase| + 1..];
    }
  }
}

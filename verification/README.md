# MojenX Tor multi-instance manager — Dafny model

This project models the bookkeeping core of the MojenX Tor manager (`main.go`).
The manager runs one Tor client per CPU core and puts a least-connections
TCP balancer in front of them. It also restarts crashed Tor processes and, on
a five-minute ticker, asks every instance for a new circuit with `SIGNAL NEWNYM`.

Modules, one per component of `main.go`:

- `Decimal` (`decimal.dfy`): the `%d` rendering of a natural number, its parser, and both round trips. These give injectivity of the rendering.
- `Tor` (`tor.dfy`): the `TorInstance` record, the constants (`BaseSocksPort` 9100, `BaseControlPort` 9200, `BalancerPort` 10000, `DataDirBase`) and the data directory path.
- `Pool` (`pool.dfy`): `InitInstances`. It appends `count` descriptors, numbered from 1. The layout is proved, and so is the pairwise distinctness of ids, ports and directories. Also proved: exactly when the SOCKS and control port ranges stay disjoint, and exactly when the balancer port stays free.
- `Balancer` (`balancer.dfy`): `pickLeastConn`. The sort is a permutation ordered by `ConnCount`, and its head is least-loaded. A reference minimum `MinConn` is given. No tie-break is promised, because `sort.Slice` is not stable.
- `Router` (`router.dfy`): load accounting of the per-connection handler. A handler has three events: pick, `ConnCount++`, and dial-then-return. The return runs the deferred `ConnCount--`. These events can interleave with other handlers. The invariant is that every `ConnCount` equals the number of handlers that have incremented it and not yet returned. So counts are never negative, and one handler has net effect zero.
- `Supervisor` (`supervisor.dfy`): the `Alive` state machine of `Start`, `StartAll` and the `Watch` goroutine. Each watched instance is either blocked in `Wait` on a running process or in the pause before the next `Start`. Launch outcomes and exits of running processes are inputs. `Start` replaces the command handle before launching it. So after a failed launch, the watcher's `Wait` returns at once on a command that never started, and the next round needs no process exit: the watcher retries without bound.
- `Control` (`control.dfy`): the `AUTHENTICATE ""` / `SIGNAL NEWNYM` directive of the Tor control protocol (sections 3.5 and 3.7 of the Tor control-spec), with a CRLF line splitter and its round trips in both directions. It also holds `Rotate`, and `AutoRotate` over a sequence of ticks and a cancellation.

Inputs stand in for everything outside the process:
- whether `Cmd.Start` succeeds, and when a running process exits;
- whether the dial of a SOCKS port succeeds;
- which control ports accept a connection at a given tick;
- the CPU count.

Behaviour of the code that the model keeps as it is:
- `sort.Slice` is not stable, so no tie-break among equal counts is modelled.
- `pickLeastConn` ignores `Alive`: an instance that is down can be picked.
- The deferred decrement runs when the handler returns, right after the two copy goroutines start. So `ConnCount` counts running handlers, not open proxy sessions. `Router.HandlerNetZero` states this: after a successful dial, the count is already back to its value from before the pick.
- There is no latency health monitor and no latency-triggered rotation.

## Model

| member | source | states |
|---|---|---|
| Decimal.NatToDecimal | main.go:143 | the `%d` rendering is non-empty, all digits, and has no leading zero unless the number is 0 |
| Decimal.ParseOfRender | main.go:143 | parsing the `%d` rendering of any natural number gives the number back |
| Decimal.RenderOfParse | main.go:143 | every canonical digit string (no leading zero) is the rendering of its own value |
| Decimal.RenderInjective | main.go:143 | two numbers have the same decimal rendering if and only if they are equal |
| Tor.DataDir | main.go:143 | the data directory of an id is `DataDirBase`, then a slash, then the decimal rendering of the id |
| Tor.DataDirInjective | main.go:143 | the data directories `DataDirBase/<id>` of two ids coincide if and only if the ids are equal |
| Pool.InitInstances | main.go:134-148 | appends exactly `count` instances and keeps the previous list as its prefix; the i-th new one has id i+1, SOCKS port 9100+i+1, control port 9200+i+1, directory `DataDirBase/(i+1)`, not alive, zero connections |
| Pool.AppendedDistinct | main.go:138-147 | the appended instances have pairwise-distinct ids, SOCKS ports, control ports and data directories |
| Pool.PortRangesDisjoint | main.go:28-30 | no appended SOCKS port equals an appended control port if and only if at most 100 instances are appended |
| Pool.BalancerPortFree | main.go:28-31 | no appended SOCKS or control port equals the balancer port 10000 if and only if fewer than 800 instances are appended |
| Balancer.SortByConn | main.go:182-184 | the reordered list is a permutation of the input (same multiset of records, so no field changes) and is non-decreasing in `ConnCount` |
| Balancer.PickLeastConn | main.go:181-186 | for a non-empty list: the list after the sort is a sorted permutation of the list before, and the returned instance is its head, belongs to the pool and has a `ConnCount` no larger than any instance's |
| Balancer.PickIsMinimal | main.go:181-186 | the picked count equals the independent minimum `MinConn`, and an instance is an acceptable pick if and only if it is in the pool with count `MinConn` (no tie-break) |
| Router.AdjustConn | main.go:204-209 | adding to the count of one id changes that id's `ConnCount` by exactly the amount and nothing else in the list |
| Router.PickStep | main.go:202 | a handler's pick leaves the shared list a sorted permutation of itself and chooses a least-loaded instance; no counter changes yet |
| Router.IncrementStep | main.go:203-205 | the increment adds exactly one to the chosen instance's `ConnCount` and changes nothing else |
| Router.FinishStep | main.go:207-218 | after a dial, failed or successful, the deferred decrement subtracts exactly one from the chosen instance's count; the client is closed exactly when the dial fails, and a successful dial relays to that instance's SOCKS port |
| Router.InvPick | main.go:182-184 | the shared sort preserves the invariant that each `ConnCount` equals the number of incremented, unreturned handlers for that instance |
| Router.InvIncrement | main.go:203-205 | the increment preserves the accounting invariant |
| Router.InvFinish | main.go:207-218 | the deferred decrement preserves the accounting invariant on both dial outcomes |
| Router.Run | main.go:195-222 | any interleaving of handler steps keeps the number of instances; `RunKeepsAccounting` states the accounting it keeps |
| Router.RunKeepsAccounting | main.go:201-222 | under every interleaving of handler steps (pick, increment, dial and return), each `ConnCount` stays equal to the number of handlers that incremented it and have not returned, so none is ever negative |
| Router.AdjustConnInverse | main.go:204-209 | the deferred decrement undoes the increment exactly: the list is restored |
| Router.HandlerNetZero | main.go:201-222 | one handler run alone never lowers a count below its post-sort value, and on either dial outcome leaves every counter as it was after the sort |
| Router.BalancedRoutingScenario | main.go:181-211 | counts [2, 0, 1] route to the instance with 0, which then holds 1, and holds 0 again when its handler returns |
| Supervisor.Start | main.go:72-91 | a successful launch sets `Alive` and returns nil; a failed launch returns the error and leaves `Alive` unchanged (the `Cmd` handle it overwrites is not modelled) |
| Supervisor.StartAll | main.go:150-156 | a watcher is installed on exactly those instances whose `Start` returned nil; an instance is alive afterwards exactly when its launch succeeded or it already was; ids, ports, directories and counts are unchanged |
| Supervisor.Step | main.go:93-104 | a process exit is possible only while the watcher waits on a running process, and clears `Alive` and starts the pause; a relaunch is possible only in the pause, and sets `Alive` to the launch outcome, after which the watcher waits on the new process or, on failure, is at once back in the pause |
| Supervisor.Run | main.go:93-104 | a sequence of exits and relaunches never adds or removes an instance |
| Supervisor.StartAllEstablishesInv | main.go:150-156 | after `StartAll` on freshly built instances, an instance is alive exactly when a watcher waits on its running process |
| Supervisor.RunKeepsInv | main.go:93-104 | under every sequence of exits and relaunches an instance is alive exactly when its watcher waits on a running process; ids, ports, directories and counts never change; an instance without a watcher never changes |
| Supervisor.WatchRound | main.go:95-102 | when a running process exits, `Alive` is false during the pause, and after `Start` it equals the launch outcome; no other instance changes |
| Supervisor.FailedRelaunchRetries | main.go:72-102 | after a failed relaunch `Alive` stays false, no process exit can happen (nothing runs, so `Wait` returns at once), and another relaunch is the enabled next step |
| Supervisor.RetryWithoutBound | main.go:95-102 | after any number of failed relaunches in a row the watcher is still in its pause, not alive, and can relaunch again: there is no retry bound |
| Supervisor.Supervise | main.go:93-104 | one watcher makes one round per launch outcome and re-arms after every round; a round waits for a process exit exactly when the launch before it succeeded, `Alive` is false in each pause and then equals that round's launch outcome, and the identity never changes |
| Supervisor.UnwatchedStaysDown | main.go:150-156 | an instance whose first launch failed is never watched and stays not alive under any sequence of exits and relaunches |
| Control.SplitJoin | main.go:118 | splitting CRLF-joined protocol lines gives the lines back |
| Control.JoinSplit | main.go:118 | joining the lines of any message that splits into CRLF-terminated lines gives the message back |
| Control.DirectiveLines | main.go:118 | the directive is exactly `AUTHENTICATE ""` then `SIGNAL NEWNYM`, each CRLF-terminated, and nothing else |
| Control.Rotate | main.go:110-120 | a message is sent if and only if the control port accepts the connection; it goes to that control port, its bytes are exactly `AUTHENTICATE ""\r\nSIGNAL NEWNYM\r\n`, and it splits into exactly the two directive lines; no descriptor field is written on either path |
| Control.RotateAll | main.go:167-169 | one tick makes exactly one rotation attempt per instance, in list order |
| Control.AutoRotate | main.go:158-175 | the loop makes exactly one attempt per instance for every tick before the first cancellation; `AutoRotatePerTick`, `CancelStops` and `AutoRotateSendsOnlyDirective` state its order, its stop and its messages |
| Control.AutoRotatePerTick | main.go:164-172 | the loop makes exactly one attempt per instance per tick before cancellation, and the instance order inside each tick is the list order |
| Control.CancelStops | main.go:170-171 | cancellation ends the loop with no rotation: nothing after it ever produces an attempt |
| Control.AutoRotateSendsOnlyDirective | main.go:164-169 | every message the loop sends is the NEWNYM directive and goes to the control port of an instance of the pool |

## Left out

- Process execution (`exec.Command`, `Cmd.Start`, `Cmd.Wait`, stdout/stderr inheritance) and `os.MkdirAll`: foreign OS calls. Launch outcomes and exits of running processes are inputs of `Supervisor`. The `Cmd` handle is not a field of the record. Its one effect on the watcher, that `Wait` returns at once after a failed launch, is the `Pausing` phase that a failed relaunch leads to.
- Supervisor.RetryWithoutBound: a finite run can stop after any event, so the model shows that another relaunch is always possible after a failure, not that it eventually happens. The program's endless 2-second retry loop is a liveness fact.
- Networking (`net.Dial`, `net.Listen`, `Accept`) and the `ioCopy` relay: I/O plumbing. Dial and connect outcomes are inputs. A relay is only the outcome `Relaying(port)`.
- `StartBalancer`'s listen failure (`log.Fatalf`) and its retry after a failed `Accept`: process exit and network I/O, with no bookkeeping.
- Goroutines, `sync.Mutex`, `time.Sleep`, the ticker and `context` timing: every mutex-guarded update is one atomic step. Ticks and cancellation are events. The race in which `pickLeastConn` sorts the shared slice while other handlers read it is not modelled: each `Router.PickStep` is atomic.
- Control.AutoRotate: rotates one fixed list snapshot on every tick. In the program, the balancer may re-sort the list between ticks, which changes the order of the next tick.
- Router.Enabled: a pick on an empty list is never enabled. The program would panic on the `[0]` index, but its list holds one instance per CPU core and there is at least one core.
- Router.PickStep: identifies the chosen instance by its id, where the program holds a `*TorInstance` reference. Ids are pairwise distinct by `Pool.AppendedDistinct`, so the two agree when the list comes from `InitInstances`.
- Logging, colors, `printLogo`, `NewManager`, signal handling in `main`, and the one-second shutdown pause: presentation and OS plumbing.
- Latency probing and health thresholds: the program has none.
- Go's fixed-width `int`: ids, ports and counters are unbounded integers. No value reached by the modelled operations comes near 64-bit limits.

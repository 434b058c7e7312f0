/**
  The supervisor's `Alive` transitions: `TorInstance.Start`, `Manager.StartAll`
  and the `Watch` goroutine, as an abstract state machine. Whether a launch
  succeeds and when a running process exits are inputs; the 2-second pause is
  the state between the return of `Wait` and the next `Start`.

  `Start` replaces the command handle before launching it, so after a failed
  launch the watcher's `Wait` is on a command that never started and returns
  at once. The next round then needs no process exit: a watcher whose last
  launch failed goes straight back to the pause and tries again, without bound.
 */
module Supervisor {
  import opened Tor

  datatype StartResult = Started | LaunchFailed

  datatype Launch = Launch(inst: TorInstance, result: StartResult)

  /**
    `Start`: on a successful launch `Alive` becomes true and nil is returned;
    on failure the error is returned and `Alive` is left as it was. (The
    command handle it overwrites is not a field of the model.)
   */
  function Start(t: TorInstance, launchOk: bool): (l: Launch)
    ensures l.result.Started? <==> launchOk
    ensures launchOk ==> l.inst == t.(alive := true)
    ensures !launchOk ==> l.inst == t
  {
    if launchOk then Launch(t.(alive := true), Started) else Launch(t, LaunchFailed)
  }

  /**
    Where an instance's supervision stands: no watcher (its first launch
    failed), a watcher blocked in `Wait` on a running process, or a watcher in
    the pause after `Wait` returned, about to call `Start` again.
   */
  datatype Phase = Unwatched | Waiting | Pausing

  datatype Supervision = Supervision(instances: seq<TorInstance>, phases: seq<Phase>)

  /**
    `StartAll`: starts the instances in list order and installs a watcher
    exactly on those whose `Start` returned nil. `outcomes[i]` says whether the
    launch of the `i`-th instance succeeds.
   */
  function StartAll(pool: seq<TorInstance>, outcomes: seq<bool>): (s: Supervision)
    requires |outcomes| == |pool|
    ensures |s.instances| == |pool| && |s.phases| == |pool|
    ensures forall i :: 0 <= i < |pool| ==>
      (s.phases[i] == Waiting <==> Start(pool[i], outcomes[i]).result.Started?) && s.phases[i] != Pausing
    ensures forall i :: 0 <= i < |pool| ==> s.instances[i].alive == (outcomes[i] || pool[i].alive)
    ensures forall i :: 0 <= i < |pool| ==>
      SameIdentity(s.instances[i], pool[i]) && s.instances[i].connCount == pool[i].connCount
    decreases |pool|
  {
    if |pool| == 0 then Supervision([], [])
    else
      var l := Start(pool[0], outcomes[0]);
      var rest := StartAll(pool[1..], outcomes[1..]);
      Supervision([l.inst] + rest.instances, [if l.result.Started? then Waiting else Unwatched] + rest.phases)
  }

  /**
    What drives a watcher: the exit of the running process of the `index`-th
    instance, or the end of its pause, when `Start` runs with outcome `launchOk`.
   */
  datatype Event = ProcessExit(index: nat) | Relaunch(index: nat, launchOk: bool)

  /** A process exit needs a watcher blocked on a running process; a relaunch needs a watcher in its pause. */
  predicate Enabled(s: Supervision, e: Event) {
    e.index < |s.instances| && e.index < |s.phases| &&
    s.phases[e.index] == (if e.ProcessExit? then Waiting else Pausing)
  }

  /**
    One watcher step; an event that cannot happen is dropped. On an exit,
    `Alive` is cleared and the pause begins. After the pause `Start` runs: on
    success the watcher blocks on the new process; on failure `Wait` returns
    at once and the watcher is back in the pause.
   */
  function Step(s: Supervision, e: Event): (s': Supervision)
    ensures |s'.instances| == |s.instances| && |s'.phases| == |s.phases|
    ensures !Enabled(s, e) ==> s' == s
    ensures Enabled(s, e) && e.ProcessExit? ==>
      s'.instances == s.instances[e.index := s.instances[e.index].(alive := false)] &&
      s'.phases == s.phases[e.index := Pausing]
    ensures Enabled(s, e) && e.Relaunch? ==>
      s'.instances == s.instances[e.index := Start(s.instances[e.index], e.launchOk).inst] &&
      s'.phases == s.phases[e.index := if e.launchOk then Waiting else Pausing]
  {
    if !Enabled(s, e) then s
    else match e
      case ProcessExit(i) =>
        Supervision(s.instances[i := s.instances[i].(alive := false)], s.phases[i := Pausing])
      case Relaunch(i, ok) =>
        var l := Start(s.instances[i], ok);
        Supervision(s.instances[i := l.inst], s.phases[i := if l.result.Started? then Waiting else Pausing])
  }

  /** The supervision after the events of `events`, in order; the pool never grows or shrinks. */
  function Run(s: Supervision, events: seq<Event>): (s': Supervision)
    ensures |s'.instances| == |s.instances| && |s'.phases| == |s.phases|
    decreases |events|
  {
    if |events| == 0 then s else Run(Step(s, events[0]), events[1..])
  }

  /** `Alive` is true exactly for instances whose watcher is blocked on a running process. */
  predicate Inv(s: Supervision) {
    |s.phases| == |s.instances| &&
    forall i :: 0 <= i < |s.instances| ==> (s.instances[i].alive <==> s.phases[i] == Waiting)
  }

  /** `StartAll` on freshly built (not alive) instances establishes the invariant. */
  lemma {:induction false} StartAllEstablishesInv(pool: seq<TorInstance>, outcomes: seq<bool>)
    requires |outcomes| == |pool|
    requires forall i :: 0 <= i < |pool| ==> !pool[i].alive
    ensures Inv(StartAll(pool, outcomes))
  {
    var s := StartAll(pool, outcomes);
    forall i | 0 <= i < |pool|
      ensures s.instances[i].alive <==> s.phases[i] == Waiting
    {
      assert Start(pool[i], outcomes[i]).result.Started? <==> outcomes[i];
    }
  }

  /**
    Under every sequence of exits and relaunches the invariant holds, no
    identity or counter changes, and an instance without a watcher keeps its
    phase and its descriptor.
   */
  lemma {:induction false} RunKeepsInv(s: Supervision, events: seq<Event>)
    requires Inv(s)
    ensures Inv(Run(s, events))
    ensures forall i :: 0 <= i < |s.instances| ==>
      SameIdentity(Run(s, events).instances[i], s.instances[i]) &&
      Run(s, events).instances[i].connCount == s.instances[i].connCount
    ensures forall i :: 0 <= i < |s.instances| && s.phases[i] == Unwatched ==>
      Run(s, events).phases[i] == Unwatched && Run(s, events).instances[i] == s.instances[i]
    decreases |events|
  {
    if |events| > 0 {
      var s1 := Step(s, events[0]);
      assert Inv(s1);
      RunKeepsInv(s1, events[1..]);
    }
  }

  /** An instance whose first launch failed is never watched, so it stays down for good. */
  lemma UnwatchedStaysDown(pool: seq<TorInstance>, outcomes: seq<bool>, events: seq<Event>, i: nat)
    requires |outcomes| == |pool| && i < |pool| && !outcomes[i]
    requires forall j :: 0 <= j < |pool| ==> !pool[j].alive
    ensures Run(StartAll(pool, outcomes), events).phases[i] == Unwatched
    ensures !Run(StartAll(pool, outcomes), events).instances[i].alive
  {
    StartAllEstablishesInv(pool, outcomes);
    RunKeepsInv(StartAll(pool, outcomes), events);
  }

  /**
    One round of a watcher blocked on a running process: when the process
    exits `Alive` is false for the pause, and after `Start` it is the launch
    outcome; the watcher then blocks on the new process or, on failure, is
    back in the pause. No other instance changes.
   */
  lemma WatchRound(s: Supervision, i: nat, launchOk: bool)
    requires Inv(s) && i < |s.instances| && s.phases[i] == Waiting
    ensures var gap := Step(s, ProcessExit(i));
      var after := Step(gap, Relaunch(i, launchOk));
      && !gap.instances[i].alive && gap.phases[i] == Pausing
      && after.instances[i].alive == launchOk
      && after.phases[i] == (if launchOk then Waiting else Pausing)
      && (forall j :: 0 <= j < |s.instances| && j != i ==>
            after.instances[j] == s.instances[j] && after.phases[j] == s.phases[j])
  {
  }

  /**
    After a failed relaunch the watcher needs no process exit to go on: an exit
    cannot happen (nothing is running), `Alive` stays false, and the only next
    step, another relaunch, is enabled again.
   */
  lemma FailedRelaunchRetries(s: Supervision, i: nat, launchOk: bool)
    requires Inv(s) && i < |s.instances| && s.phases[i] == Pausing
    ensures var s' := Step(s, Relaunch(i, false));
      && !s'.instances[i].alive
      && !Enabled(s', ProcessExit(i))
      && Enabled(s', Relaunch(i, launchOk))
  {
  }

  /** `n` failed relaunches in a row, one per pause. */
  function Failures(i: nat, n: nat): (evs: seq<Event>)
    ensures |evs| == n && forall k :: 0 <= k < n ==> evs[k] == Relaunch(i, false)
  {
    seq(n, _ => Relaunch(i, false))
  }

  /**
    There is no retry bound: after any number of failed relaunches the watcher
    is still in its pause, not alive, with a relaunch enabled.
   */
  lemma {:induction false} RetryWithoutBound(s: Supervision, i: nat, n: nat)
    requires Inv(s) && i < |s.instances| && s.phases[i] == Pausing
    ensures Run(s, Failures(i, n)).phases[i] == Pausing
    ensures !Run(s, Failures(i, n)).instances[i].alive
    ensures Enabled(Run(s, Failures(i, n)), Relaunch(i, true))
    decreases n
  {
    if n > 0 {
      var s1 := Step(s, Relaunch(i, false));
      assert Failures(i, n)[1..] == Failures(i, n - 1);
      RetryWithoutBound(s1, i, n - 1);
    }
  }

  /** What one round of a watcher shows: why `Wait` returned, the descriptor during the pause, then after `Start`. */
  datatype WakeCause = ProcessExited | NotStarted

  datatype Round = Round(cause: WakeCause, gap: TorInstance, restarted: TorInstance)

  /**
    The rounds of one watcher, one per launch outcome in `launches`, starting
    from a descriptor whose last launch succeeded (`running`) or failed.
    A round waits for a process exit only when the launch before it succeeded;
    after a failed launch `Wait` returns at once. Every round clears `Alive`
    for the pause and then sets it to its launch outcome, and the watcher
    re-arms after every round, so the run is as long as the launches given.
   */
  function Supervise(t: TorInstance, running: bool, launches: seq<bool>): (trace: seq<Round>)
    ensures |trace| == |launches|
    ensures |trace| > 0 ==> trace[0].cause == (if running then ProcessExited else NotStarted)
    ensures forall k :: 0 < k < |trace| ==>
      trace[k].cause == (if launches[k - 1] then ProcessExited else NotStarted)
    ensures forall k :: 0 <= k < |trace| ==> !trace[k].gap.alive && trace[k].restarted.alive == launches[k]
    ensures forall k :: 0 <= k < |trace| ==>
      SameIdentity(trace[k].gap, t) && SameIdentity(trace[k].restarted, t) &&
      trace[k].restarted.connCount == t.connCount
    decreases |launches|
  {
    if |launches| == 0 then []
    else
      var gap := t.(alive := false);
      var l := Start(gap, launches[0]);
      var rest := Supervise(l.inst, launches[0], launches[1..]);
      [Round(if running then ProcessExited else NotStarted, gap, l.inst)] + rest
  }
}

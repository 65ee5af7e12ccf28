/** The managed-engine supervisor (crates/espanso-adapter/src/lifecycle.rs): deliberate starts and stops race
    against one monitor thread per started child. Every critical section is one atomic step, runs
    interleave them arbitrarily, and the generation counter is what keeps them apart. */
module Supervisor {
  import opened Wrappers

  datatype EngineState = Idle | Running(pid: nat) | Retrying(attempt: nat) | Failed | Stopped

  /** What the mutex guards. */
  datatype Inner = Inner(state: EngineState, generation: nat, childPid: Option<nat>)

  /** Where a monitor thread stands between critical sections. */
  datatype Phase = Waiting(pid: nat) | Sleeping | Done

  datatype Monitor = Monitor(generation: nat, attempt: nat, phase: Phase)

  // ----- the critical sections -----

  /** A deliberate start under the lock. A failed spawn has already moved the generation on. */
  function Started(inner: Inner, spawned: Option<nat>): Inner {
    var next := inner.(generation := inner.generation + 1);
    if spawned.None? then next else next.(state := Running(spawned.value), childPid := spawned)
  }

  function Halted(inner: Inner): Inner {
    Inner(Stopped, inner.generation + 1, None)
  }

  /** A monitor wakes because its child exited. */
  function Exited(inner: Inner, m: Monitor, budget: nat): (Inner, Monitor) {
    if inner.generation != m.generation then (inner, m.(phase := Done))
    else if m.attempt >= budget then (inner.(childPid := None, state := Failed), m.(phase := Done))
    else (inner.(childPid := None, state := Retrying(m.attempt + 1)), m.(phase := Sleeping))
  }

  /** A monitor wakes because its backoff delay is over. */
  function Retried(inner: Inner, m: Monitor, spawned: Option<nat>): (Inner, Monitor) {
    var tried := m.(attempt := m.attempt + 1);
    if inner.generation != m.generation then (inner, tried.(phase := Done))
    else if spawned.Some? then
      (inner.(state := Running(spawned.value), childPid := spawned), tried.(phase := Waiting(spawned.value)))
    else (inner.(state := Failed), tried.(phase := Done))
  }

  /** The supervisor object behind its mutex. */
  class EngineSupervisor {
    const budget: nat
    var state: EngineState
    var generation: nat
    var childPid: Option<nat>

    constructor (budget: nat)
      ensures this.budget == budget && Guarded() == Inner(Idle, 0, None)
    {
      this.budget := budget;
      state, generation, childPid := Idle, 0, None;
    }

    function Guarded(): Inner
      reads this
    {
      Inner(state, generation, childPid)
    }

    /** The child the spawn gave, if any, is watched by a monitor of the new generation. */
    method Start(spawned: Option<nat>) returns (monitor: Option<MonitorThread>)
      modifies this
      ensures Guarded() == Started(old(Guarded()), spawned)
      ensures monitor.Some? <==> spawned.Some?
      ensures monitor.Some? ==> fresh(monitor.value) && monitor.value.supervisor == this
                                && monitor.value.Value() == Monitor(generation, 0, Waiting(spawned.value))
    {
      generation := generation + 1;
      if spawned.None? {
        return None;
      }
      state := Running(spawned.value);
      childPid := spawned;
      var watcher := new MonitorThread(this, generation, spawned.value);
      monitor := Some(watcher);
    }

    /** The pid to terminate is the recorded child's. */
    method Stop() returns (terminate: Option<nat>)
      modifies this
      ensures Guarded() == Halted(old(Guarded())) && terminate == old(childPid)
    {
      generation := generation + 1;
      terminate := childPid;
      childPid := None;
      state := Stopped;
    }

    /** Whether `ensure_running` goes on to start. */
    method NeedsStart() returns (needed: bool)
      ensures needed <==> !state.Running? && !state.Retrying?
    {
      needed := state in {Idle, Failed, Stopped};
    }
  }

  class MonitorThread {
    const supervisor: EngineSupervisor
    const generation: nat
    var attempt: nat
    var phase: Phase

    constructor (supervisor: EngineSupervisor, generation: nat, pid: nat)
      ensures this.supervisor == supervisor && Value() == Monitor(generation, 0, Waiting(pid))
    {
      this.supervisor, this.generation := supervisor, generation;
      attempt, phase := 0, Waiting(pid);
    }

    function Value(): Monitor
      reads this
    {
      Monitor(generation, attempt, phase)
    }

    method ChildExited()
      modifies this, supervisor
      ensures (supervisor.Guarded(), Value()) == Exited(old(supervisor.Guarded()), old(Value()), supervisor.budget)
    {
      if supervisor.generation != generation {
        phase := Done;
        return;
      }
      supervisor.childPid := None;
      if attempt >= supervisor.budget {
        supervisor.state := Failed;
        phase := Done;
        return;
      }
      supervisor.state := Retrying(attempt + 1);
      phase := Sleeping;
    }

    method DelayOver(spawned: Option<nat>)
      modifies this, supervisor
      ensures (supervisor.Guarded(), Value()) == Retried(old(supervisor.Guarded()), old(Value()), spawned)
    {
      attempt := attempt + 1;
      if supervisor.generation != generation {
        phase := Done;
        return;
      }
      match spawned
      case Some(pid) =>
        supervisor.state := Running(pid);
        supervisor.childPid := Some(pid);
        phase := Waiting(pid);
      case None =>
        supervisor.state := Failed;
        phase := Done;
    }
  }

  // ----- runs -----

  datatype World = World(inner: Inner, monitors: seq<Monitor>)

  datatype Event = Start(spawned: Option<nat>) | Stop | Exit(i: nat) | Retry(i: nat, respawned: Option<nat>)

  const BOOT: World := World(Inner(Idle, 0, None), [])

  predicate Enabled(w: World, e: Event) {
    match e
    case Exit(i) => i < |w.monitors| && w.monitors[i].phase.Waiting?
    case Retry(i, _) => i < |w.monitors| && w.monitors[i].phase.Sleeping?
    case _ => true
  }

  function Step(w: World, e: Event, budget: nat): World
    requires Enabled(w, e)
  {
    match e
    case Start(spawned) =>
      var next := Started(w.inner, spawned);
      World(next, if spawned.None? then w.monitors
            else w.monitors + [Monitor(next.generation, 0, Waiting(spawned.value))])
    case Stop => World(Halted(w.inner), w.monitors)
    case Exit(i) =>
      var r := Exited(w.inner, w.monitors[i], budget);
      World(r.0, w.monitors[i := r.1])
    case Retry(i, respawned) =>
      var r := Retried(w.inner, w.monitors[i], respawned);
      World(r.0, w.monitors[i := r.1])
  }

  /** The worlds of a run, one after each event. */
  ghost predicate Run(worlds: seq<World>, events: seq<Event>, budget: nat) {
    && |worlds| == |events| + 1 && worlds[0] == BOOT
    && forall n :: 0 <= n < |events|
                   ==> Enabled(worlds[n], events[n]) && worlds[n + 1] == Step(worlds[n], events[n], budget)
  }

  predicate Live(m: Monitor) {
    !m.phase.Done?
  }

  predicate Current(w: World, i: nat) {
    i < |w.monitors| && Live(w.monitors[i]) && w.monitors[i].generation == w.inner.generation
  }

  // ----- what every step keeps -----

  predicate ByMonitor(e: Event) {
    e.Exit? || e.Retry?
  }

  /** The current monitor's phase is the state the supervisor shows. */
  ghost predicate CurrentShown(w: World, i: nat)
    requires Current(w, i)
  {
    match w.monitors[i].phase
    case Waiting(pid) => w.inner.state == Running(pid)
    case _ => w.inner.state == Retrying(w.monitors[i].attempt + 1)
  }

  /** The recorded child is the running one, generations have one monitor each, and attempts stay within
      the budget. */
  ghost predicate Inv(w: World, budget: nat) {
    && (forall pid: nat :: w.inner.state == Running(pid) <==> w.inner.childPid == Some(pid))
    && (forall i, j :: 0 <= i < j < |w.monitors| ==> w.monitors[i].generation < w.monitors[j].generation)
    && (forall i :: 0 <= i < |w.monitors|
                    ==> w.monitors[i].generation <= w.inner.generation && w.monitors[i].attempt <= budget)
    && (forall i :: 0 <= i < |w.monitors| && w.monitors[i].phase.Sleeping? ==> w.monitors[i].attempt < budget)
    && (forall i: nat :: Current(w, i) ==> CurrentShown(w, i))
    && (w.inner.state.Retrying? ==> 1 <= w.inner.state.attempt <= budget)
  }

  lemma StepKeepsInv(w: World, e: Event, budget: nat)
    requires Inv(w, budget) && Enabled(w, e)
    ensures Inv(Step(w, e, budget), budget)
  {
    var next := Step(w, e, budget);
    if ByMonitor(e) {
      assert w.inner.generation == w.monitors[e.i].generation ==> Current(w, e.i);
      forall j: nat | Current(next, j) ensures CurrentShown(next, j) {
        assert j != e.i ==> Current(w, j);
      }
    } else {
      assert forall j: nat :: j < |w.monitors| ==> w.monitors[j].generation < next.inner.generation;
      forall j: nat | Current(next, j) ensures CurrentShown(next, j) {
      }
    }
  }

  lemma {:induction false} RunKeepsInv(worlds: seq<World>, events: seq<Event>, budget: nat, n: nat)
    requires Run(worlds, events, budget) && n <= |events|
    ensures Inv(worlds[n], budget)
  {
    if n > 0 {
      RunKeepsInv(worlds, events, budget, n - 1);
      StepKeepsInv(worlds[n - 1], events[n - 1], budget);
    }
  }

  /** In every run: the state is running with a pid exactly when that pid is the recorded child, an
      announced retry is within the budget, and at most one live monitor is current. */
  lemma EveryRun(worlds: seq<World>, events: seq<Event>, budget: nat, n: nat, i: nat, j: nat)
    requires Run(worlds, events, budget) && n <= |events|
    ensures forall pid: nat :: worlds[n].inner.state == Running(pid) <==> worlds[n].inner.childPid == Some(pid)
    ensures worlds[n].inner.state.Retrying? ==> 1 <= worlds[n].inner.state.attempt <= budget
    ensures Current(worlds[n], i) && Current(worlds[n], j) ==> i == j
  {
    RunKeepsInv(worlds, events, budget, n);
  }

  // ----- stale monitors -----

  /** A monitor changes what the mutex guards exactly when it is of the current generation; then it
      always does. */
  lemma OnlyCurrentActs(w: World, e: Event, budget: nat)
    requires Inv(w, budget) && ByMonitor(e) && Enabled(w, e)
    ensures Step(w, e, budget).inner == w.inner <==> !Current(w, e.i)
    ensures Step(w, e, budget).inner.generation == w.inner.generation
  {
    assert Current(w, e.i) ==> Live(w.monitors[e.i]);
  }

  /** Nobody watches over the engine: no live monitor is current. */
  predicate Unwatched(w: World) {
    forall i :: 0 <= i < |w.monitors| ==> !Current(w, i)
  }

  predicate Deliberate(e: Event) {
    e.Stop? || (e.Start? && e.spawned.Some?)
  }

  /** From there only a deliberate stop or a start that spawns moves the state. */
  lemma {:induction false} UnwatchedIsFrozen(worlds: seq<World>, events: seq<Event>, budget: nat, from: nat, to: nat)
    requires Run(worlds, events, budget) && from <= to <= |events| && Unwatched(worlds[from])
    requires forall k :: from <= k < to ==> !Deliberate(events[k])
    ensures Unwatched(worlds[to]) && worlds[to].inner.state == worlds[from].inner.state
  {
    if from < to {
      UnwatchedIsFrozen(worlds, events, budget, from, to - 1);
      var w, e := worlds[to - 1], events[to - 1];
      RunKeepsInv(worlds, events, budget, to - 1);
      var next := worlds[to];
      if ByMonitor(e) {
        OnlyCurrentActs(w, e, budget);
      }
      forall i | 0 <= i < |next.monitors| ensures !Current(next, i) {
        assert !Current(w, i);
      }
    }
  }

  /** Once stopped, whatever exits, retries and failed starts follow, the engine stays stopped until a
      start spawns a child. */
  lemma {:induction false} StoppedPersists(worlds: seq<World>, events: seq<Event>, budget: nat, from: nat, to: nat)
    requires Run(worlds, events, budget) && from <= to <= |events| && worlds[from].inner.state == Stopped
    requires forall k :: from <= k < to ==> !(events[k].Start? && events[k].spawned.Some?)
    ensures worlds[to].inner.state == Stopped
  {
    if from < to {
      StoppedPersists(worlds, events, budget, from, to - 1);
      RunKeepsInv(worlds, events, budget, to - 1);
      var w, e := worlds[to - 1], events[to - 1];
      if ByMonitor(e) {
        assert Current(w, e.i) ==> CurrentShown(w, e.i);
        OnlyCurrentActs(w, e, budget);
      }
    }
  }

  // ----- is the engine that is shown running watched? -----

  /** The state claims a child or a pending restart. */
  predicate Claims(w: World) {
    w.inner.state.Running? || w.inner.state.Retrying?
  }

  ghost predicate Watched(w: World) {
    Claims(w) ==> exists i: nat :: Current(w, i)
  }

  /** Every step keeps a claimed engine watched, except one: a start whose spawn fails while an engine is
      claimed. It moves the generation on and leaves the claim, so the monitor that would have noticed
      the exit stands down. */
  lemma WatchedExactly(w: World, e: Event, budget: nat)
    requires Inv(w, budget) && Enabled(w, e) && Watched(w)
    ensures Watched(Step(w, e, budget)) <==> !(e == Start(None) && Claims(w))
  {
    var next := Step(w, e, budget);
    match e
    case Start(spawned) =>
      if spawned.Some? {
        assert Current(next, |w.monitors|);
      } else {
        assert Unwatched(next);
      }
    case Stop =>
    case _ =>
      OnlyCurrentActs(w, e, budget);
      if Current(w, e.i) {
        assert CurrentShown(w, e.i);
        assert Claims(next) ==> Current(next, e.i);
      } else if Claims(w) {
        var i :| Current(w, i);
        assert Current(next, i);
      }
  }

  /** Such a run: the engine runs, a second start fails to spawn, the engine exits, and the supervisor
      goes on showing it as running. */
  lemma ExitGoesUnnoticed()
    ensures exists worlds: seq<World>, events: seq<Event> ::
              Run(worlds, events, 3) && |events| == 3 && events[2] == Exit(0)
              && worlds[3].inner.state == Running(7) && worlds[3].monitors == [Monitor(1, 0, Done)]
  {
    var events := [Start(Some(7)), Start(None), Exit(0)];
    var w1 := Step(BOOT, events[0], 3);
    var w2 := Step(w1, events[1], 3);
    var w3 := Step(w2, events[2], 3);
    var worlds := [BOOT, w1, w2, w3];
    assert w1 == World(Inner(Running(7), 1, Some(7)), [Monitor(1, 0, Waiting(7))]);
    assert w2 == World(Inner(Running(7), 2, Some(7)), [Monitor(1, 0, Waiting(7))]);
    assert Run(worlds, events, 3);
  }

  // ----- the restart budget -----

  /** Children spawned on behalf of the i-th start that succeeded, over the first n events. */
  ghost function Spawns(worlds: seq<World>, events: seq<Event>, budget: nat, i: nat, n: nat): nat
    requires Run(worlds, events, budget) && n <= |events|
  {
    if n == 0 then 0
    else
      Spawns(worlds, events, budget, i, n - 1) +
      match events[n - 1]
      case Start(Some(_)) => if i == |worlds[n - 1].monitors| then 1 else 0
      case Retry(k, Some(_)) => if k == i && Current(worlds[n - 1], i) then 1 else 0
      case _ => 0
  }

  lemma {:induction false} SpawnsByAttempt(worlds: seq<World>, events: seq<Event>, budget: nat, i: nat, n: nat)
    requires Run(worlds, events, budget) && n <= |events|
    ensures Spawns(worlds, events, budget, i, n)
         <= if i < |worlds[n].monitors| then worlds[n].monitors[i].attempt + 1 else 0
  {
    if n > 0 {
      SpawnsByAttempt(worlds, events, budget, i, n - 1);
    }
  }

  /** However often its child crashes, one start spawns at most one child more than there are delays. */
  lemma SpawnsBounded(worlds: seq<World>, events: seq<Event>, budget: nat, i: nat)
    requires Run(worlds, events, budget)
    ensures Spawns(worlds, events, budget, i, |events|) <= budget + 1
  {
    SpawnsByAttempt(worlds, events, budget, i, |events|);
    RunKeepsInv(worlds, events, budget, |events|);
  }

  // ----- what an exit and a delay lead to -----

  lemma {:induction false} CurrentCounts(worlds: seq<World>, events: seq<Event>, budget: nat, i: nat, n: nat)
    requires Run(worlds, events, budget) && n <= |events|
    ensures Current(worlds[n], i) ==> Spawns(worlds, events, budget, i, n) == worlds[n].monitors[i].attempt + 1
    ensures i >= |worlds[n].monitors| ==> Spawns(worlds, events, budget, i, n) == 0
  {
    if n > 0 {
      CurrentCounts(worlds, events, budget, i, n - 1);
      RunKeepsInv(worlds, events, budget, n - 1);
      assert worlds[n] == Step(worlds[n - 1], events[n - 1], budget);
    }
  }

  /** The exit of the child that runs: as long as the budget lasts the supervisor shows the restart it waits
      for, counted by the children it has already spawned for this start, and the monitor sleeps. When the
      budget is used up it gives up. */
  lemma ExitAnswered(worlds: seq<World>, events: seq<Event>, budget: nat, n: nat, i: nat)
    requires Run(worlds, events, budget) && n < |events| && events[n] == Exit(i) && Current(worlds[n], i)
    ensures var (spawned, next) := (Spawns(worlds, events, budget, i, n), worlds[n + 1]);
            && 1 <= spawned <= budget + 1 && next.inner.childPid == None
            && (spawned <= budget ==> next.inner.state == Retrying(spawned)
                                      && Current(next, i) && next.monitors[i].phase == Sleeping)
            && (spawned == budget + 1 ==> next.inner.state == Failed && Unwatched(next))
  {
    CurrentCounts(worlds, events, budget, i, n);
    RunKeepsInv(worlds, events, budget, n);
    StepKeepsInv(worlds[n], events[n], budget);
  }

  /** The end of the delay: a spawned child runs under the same monitor, a failed spawn gives up. */
  lemma DelayAnswered(worlds: seq<World>, events: seq<Event>, budget: nat, n: nat, i: nat)
    requires Run(worlds, events, budget) && n < |events| && events[n].Retry? && events[n].i == i
    requires Current(worlds[n], i)
    ensures var (pid, next) := (events[n].respawned, worlds[n + 1]);
            && next.inner.childPid == pid
            && (pid.Some? ==> next.inner.state == Running(pid.value)
                              && Current(next, i) && next.monitors[i].phase == Waiting(pid.value))
            && (pid.None? ==> next.inner.state == Failed && Unwatched(next))
  {
    RunKeepsInv(worlds, events, budget, n);
    StepKeepsInv(worlds[n], events[n], budget);
    assert CurrentShown(worlds[n], i);
  }

  /** A running or waiting engine is given up in two ways only: the last child the budget allows exits, or a
      restart cannot be spawned. */
  lemma GivenUpExactly(worlds: seq<World>, events: seq<Event>, budget: nat, n: nat)
    requires Run(worlds, events, budget) && n < |events| && worlds[n].inner.state != Failed
    ensures worlds[n + 1].inner.state == Failed
       <==> match events[n]
            case Exit(i) => Current(worlds[n], i) && Spawns(worlds, events, budget, i, n) == budget + 1
            case Retry(i, respawned) => Current(worlds[n], i) && respawned.None?
            case _ => false
  {
    RunKeepsInv(worlds, events, budget, n);
    match events[n]
    case Exit(i) =>
      OnlyCurrentActs(worlds[n], events[n], budget);
      if Current(worlds[n], i) {
        ExitAnswered(worlds, events, budget, n, i);
      }
    case Retry(i, respawned) =>
      OnlyCurrentActs(worlds[n], events[n], budget);
      if Current(worlds[n], i) {
        DelayAnswered(worlds, events, budget, n, i);
      }
    case _ =>
  }

  // ----- the budget is used to the end -----

  /** A start whose children all crash: the k-th child runs after event 2 * k. */
  function CrashEvent(pids: seq<nat>, n: nat): Event
    requires n < 2 * |pids|
  {
    if n == 0 then Start(Some(pids[0])) else if n % 2 == 1 then Exit(0) else Retry(0, Some(pids[n / 2]))
  }

  function CrashWorld(pids: seq<nat>, n: nat): World
    requires n <= 2 * |pids|
  {
    if n == 0 then BOOT
    else if n % 2 == 1 then
      World(Inner(Running(pids[n / 2]), 1, Some(pids[n / 2])), [Monitor(1, n / 2, Waiting(pids[n / 2]))])
    else if n < 2 * |pids| then World(Inner(Retrying(n / 2), 1, None), [Monitor(1, n / 2 - 1, Sleeping)])
    else World(Inner(Failed, 1, None), [Monitor(1, n / 2 - 1, Done)])
  }

  lemma CrashStep(pids: seq<nat>, n: nat)
    requires n < 2 * |pids|
    ensures Enabled(CrashWorld(pids, n), CrashEvent(pids, n))
    ensures CrashWorld(pids, n + 1) == Step(CrashWorld(pids, n), CrashEvent(pids, n), |pids| - 1)
  {
    if n % 2 == 1 {
      assert (n + 1) / 2 == n / 2 + 1;
    } else {
      assert (n + 1) / 2 == n / 2;
    }
  }

  lemma CrashShows(pids: seq<nat>, n: nat)
    requires n <= 2 * |pids| && pids != []
    ensures CrashWorld(pids, n).inner.state == Failed <==> n == 2 * |pids|
    ensures n % 2 == 1 ==> CrashWorld(pids, n).inner.state == Running(pids[n / 2])
    ensures n == 0 ==> CrashWorld(pids, n) == BOOT
  {
  }

  /** The whole run, from boot to the exit of the last child. */
  ghost predicate Crashes(worlds: seq<World>, events: seq<Event>, pids: seq<nat>) {
    && |events| == 2 * |pids| && |worlds| == |events| + 1
    && (forall n :: 0 <= n <= |events| ==> worlds[n] == CrashWorld(pids, n))
    && (forall n :: 0 <= n < |events| ==> events[n] == CrashEvent(pids, n))
  }

  lemma CrashesRun(worlds: seq<World>, events: seq<Event>, pids: seq<nat>)
    requires pids != [] && Crashes(worlds, events, pids)
    ensures Run(worlds, events, |pids| - 1)
  {
    hide CrashWorld, CrashEvent, Step, Enabled;
    CrashShows(pids, 0);
    forall n | 0 <= n < |events|
      ensures Enabled(worlds[n], events[n]) && worlds[n + 1] == Step(worlds[n], events[n], |pids| - 1)
    {
      CrashStep(pids, n);
    }
  }

  lemma {:induction false} CrashSpawns(worlds: seq<World>, events: seq<Event>, pids: seq<nat>, n: nat)
    requires pids != [] && Run(worlds, events, |pids| - 1) && Crashes(worlds, events, pids) && n <= |events|
    ensures Spawns(worlds, events, |pids| - 1, 0, n) == (n + 1) / 2
  {
    if n > 0 {
      CrashSpawns(worlds, events, pids, n - 1);
      assert worlds[n - 1] == CrashWorld(pids, n - 1) && events[n - 1] == CrashEvent(pids, n - 1);
    }
  }

  /** The bound is met: whatever the budget and whichever pids the system hands out, there is a run in which one
      start spawns one child more than there are delays, each of them running in its turn, before the state
      is failed. */
  lemma BudgetUsedUp(budget: nat, pids: seq<nat>)
    requires |pids| == budget + 1
    ensures exists worlds: seq<World>, events: seq<Event> ::
              && Run(worlds, events, budget) && |events| == 2 * budget + 2
              && Spawns(worlds, events, budget, 0, |events|) == budget + 1
              && (forall n :: 0 <= n < |events| ==> worlds[n].inner.state != Failed)
              && (forall k :: 0 <= k <= budget ==> worlds[2 * k + 1].inner.state == Running(pids[k]))
              && worlds[|events|].inner.state == Failed
  {
    hide CrashWorld, CrashEvent, Run, Spawns;
    var events := seq(2 * |pids|, n requires 0 <= n < 2 * |pids| => CrashEvent(pids, n));
    var worlds := seq(2 * |pids| + 1, n requires 0 <= n <= 2 * |pids| => CrashWorld(pids, n));
    CrashesRun(worlds, events, pids);
    CrashSpawns(worlds, events, pids, |events|);
    forall n | 0 <= n <= |events| ensures worlds[n].inner.state == Failed <==> n == |events| {
      CrashShows(pids, n);
    }
    forall k | 0 <= k <= budget ensures worlds[2 * k + 1].inner.state == Running(pids[k]) {
      CrashShows(pids, 2 * k + 1);
    }
  }
}

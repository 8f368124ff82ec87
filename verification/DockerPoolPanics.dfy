/** Which threads can panic, on what, and exactly when. */
module DockerPoolPanics {
  import opened Common
  import opened DockerPools
  import opened DockerPoolPlaces
  import opened DockerPoolSafety
  import opened DockerPoolClose
  import opened DockerPoolRoom
  import opened DockerPoolRuns
  import opened DockerPoolAlone

  /** On the closed channel: an execution whose container outlives its first use, a CreateNew, and
      only if Start overlaps Shutdown a Start with something to fill and the lifecycle goroutine.
      On the WaitGroup: an execution that starts a worker, Shutdown in its Wait, and only with an
      overlap a Start. Registered workers never. */
  predicate MayPanic(cfg: Config, c: Crash, inTime: bool)
  {
    match c.role
    case Execution => c.cause.WaitGroup? || cfg.maxUse != 1
    case Maker => c.cause.ClosedChannel?
    case Starter => !inTime && (c.cause.WaitGroup? || cfg.minSize > 0)
    case Lifecycle => !inTime && c.cause.ClosedChannel?
    case Stopper => c.cause.WaitGroup?
    case Worker => false
  }

  // ---------------------------------------------------------------------
  // Only these panic
  // ---------------------------------------------------------------------

  /** A container at its last use is stopped by Release, not sent. */
  lemma SenderHasUsesLeft(cfg: Config, s: Pool, t: Tid)
    requires Shaped(s) && AllFit(cfg, s) && t in s.threads && s.threads[t].at == Run(Sending)
    ensures cfg.maxUse != 1
  {
    assert Shape(s.threads[t]);
    assert In(s, Keep(t), s.threads[t].keep[0]);
    assert Fits(cfg, s.vars, SpotOf(s, Keep(t)), s.threads[t].keep[0]);
  }

  lemma PanicNeeds(cfg: Config, s: Pool, ev: Event)
    requires Sound(cfg, s) && Enabled(s, ev) && Apply(cfg, s, ev).vars.crash.Some?
    ensures var v := Apply(cfg, s, ev).vars; MayPanic(cfg, v.crash.value, !v.startRaced)
  {
    var t := Actor(ev);
    StepApt(cfg, s, ev);
    StepKeepsCalm(cfg, s, ev);
    assert Shape(s.threads[t]) && ThreadApt(cfg, s.threads[t]);
    if s.threads[t].at == Run(Sending) {
      SenderHasUsesLeft(cfg, s, t);
    }
    hide Enabled, EffectOf, Sound, Actor, HoldsOne, HoldsKept, HoldsStale, IdleAfter, StoppedAfter, Continue, Hands;
  }

  lemma RunPanicNeeds(cfg: Config, events: seq<Event>)
    requires Legal(cfg, events) && Final(cfg, events).vars.crash.Some?
    ensures var v := Final(cfg, events).vars; MayPanic(cfg, v.crash.value, !v.startRaced)
  {
    var n := |events| - 1;
    RunIsSound(cfg, events[..n]);
    hide Sound, Enabled, Apply;
    PanicNeeds(cfg, Final(cfg, events[..n]), events[n]);
  }

  // ---------------------------------------------------------------------
  // And these do
  // ---------------------------------------------------------------------

  /** A continuation of a run is a run. */
  lemma {:induction false} LeadsIsRun(cfg: Config, before: seq<Event>, events: seq<Event>, s': Pool)
    requires Legal(cfg, before) && Leads(cfg, Final(cfg, before), events, s')
    ensures Legal(cfg, before + events) && Final(cfg, before + events) == s'
    decreases |events|
  {
    hide Enabled, Apply;
    if events == [] {
      assert before + events == before;
    } else {
      var next := before + [events[0]];
      assert next[..|next| - 1] == before;
      LeadsIsRun(cfg, next, events[1..], s');
      assert before + events == next + events[1..];
    }
  }

  /** A step a goroutine of the pool takes by itself. */
  predicate Quiet(ev: Event)
  {
    match ev
    case X(_) => false
    case M(m) => !m.BeginStart? && !m.BeginCreateNew? && !m.Create?
    case T(_) => true
    case S(x) => !x.BeginShutdown?
  }

  /** A panic to reach: with Start and Shutdown apart, or without any further call of the pool. */
  datatype Goal = Goal(crash: Crash, inTime: bool, quiet: bool)

  predicate Met(v: Vars, g: Goal) { v.crash == Some(g.crash) && (g.inTime ==> !v.startRaced) }

  predicate Keeps(g: Goal, events: seq<Event>)
  {
    g.quiet ==> forall i :: 0 <= i < |events| ==> Quiet(events[i])
  }

  /** Some continuation from s reaches it. */
  ghost predicate CanPanic(cfg: Config, s: Pool, g: Goal)
  {
    exists events, s' :: Leads(cfg, s, events, s') && Met(s'.vars, g) && Keeps(g, events)
  }

  lemma PanicsAfter(cfg: Config, s: Pool, events: seq<Event>, s1: Pool, g: Goal)
    requires Leads(cfg, s, events, s1) && Keeps(g, events) && (Met(s1.vars, g) || CanPanic(cfg, s1, g))
    ensures CanPanic(cfg, s, g)
  {
    if !Met(s1.vars, g) {
      var more, s' :| Leads(cfg, s1, more, s') && Met(s'.vars, g) && Keeps(g, more);
      hide Leads, Met, Quiet;
      Chain(cfg, s, events, s1, more, s');
      assert Keeps(g, events + more);
    }
  }

  lemma Panics(cfg: Config, s: Pool, ev: Event, s1: Pool, g: Goal)
    requires Enabled(s, ev) && Apply(cfg, s, ev) == s1 && (g.quiet ==> Quiet(ev))
    requires Met(s1.vars, g) || CanPanic(cfg, s1, g)
    ensures CanPanic(cfg, s, g)
  {
    hide Enabled, Apply, CanPanic, Met, Quiet;
    OneStep(cfg, s, ev, s1);
    PanicsAfter(cfg, s, [ev], s1, g);
  }

  lemma PanicRun(cfg: Config, g: Goal) returns (events: seq<Event>)
    requires CanPanic(cfg, New(), g)
    ensures Legal(cfg, events) && Met(Final(cfg, events).vars, g)
  {
    var found, s' :| Leads(cfg, New(), found, s') && Met(s'.vars, g) && Keeps(g, found);
    hide Leads, Enabled, Apply, Met, Keeps;
    LeadsIsRun(cfg, [], found, s');
    assert [] + found == found;
    events := found;
  }

  /** No part of Shutdown has happened. */
  predicate Open(v: Vars)
  {
    v.crash.None? && !v.closed && !v.stopClosed && !v.waiters && !v.waited && !v.idleClosed
  }

  // ---------------------------------------------------------------------
  // On the closed channel
  // ---------------------------------------------------------------------

  /** With nothing registered, a Shutdown that has begun closes the channel without waiting. */
  lemma ShutdownGoesOn(cfg: Config, s: Pool, t: Tid, g: Goal)
    requires s.vars.crash.None? && s.vars.closed && !s.vars.stopClosed && !s.vars.idleClosed && NoneTracked(s)
    requires CanPanic(cfg, InShutdown(Closed(s), t, DrainIdle), g)
    ensures CanPanic(cfg, InShutdown(s, t, CloseStop), g)
  {
    CloseSteps(cfg, s, t);
    hide CanPanic, Leads, InShutdown, Closed;
    PanicsAfter(cfg, InShutdown(s, t, CloseStop), [S(CloseStopCh(t))] + [S(WaitReturns(t)), S(CloseIdleCh(t))],
                InShutdown(Closed(s), t, DrainIdle), g);
  }

  function Begun(s: Pool): Pool
  {
    s.(vars := s.vars.(closed := true, startRaced := s.vars.startRaced || SomeRole(s, Starter)))
  }

  lemma ShutdownBegins(cfg: Config, s: Pool, t: Tid, g: Goal)
    requires Open(s.vars) && t !in s.threads && !g.quiet && CanPanic(cfg, InShutdown(Begun(s), t, CloseStop), g)
    ensures CanPanic(cfg, s, g)
  {
    hide CanPanic, SomeRole;
    Panics(cfg, s, S(BeginShutdown(t)), InShutdown(Begun(s), t, CloseStop), g);
  }

  /** A thread between its check of the closed flag and its send. */
  predicate AtSend(at: Point) { at == Run(Sending) || at == Make(Pushing) }

  lemma SendPastShutdownPanics(cfg: Config, s: Pool, u: Tid, g: Goal)
    requires s.vars.crash.None? && s.vars.idleClosed && !g.quiet && (g.inTime ==> !s.vars.startRaced)
    requires u in s.threads && AtSend(s.threads[u].at) && g.crash == Crash(s.threads[u].role, ClosedChannel)
    ensures CanPanic(cfg, s, g)
  {
    hide CanPanic;
    var s1 := s.(vars := s.vars.(crash := Some(g.crash)));
    if s.threads[u].at == Run(Sending) {
      Panics(cfg, s, X(Push(u, false)), s1, g);
    } else {
      Panics(cfg, s, M(PushNew(u, false)), s1, g);
    }
  }

  /** Release, and enqueueNew for the callers of CreateNew and Start, check the closed flag and
      send in two steps; whenever such a thread stands between them and no goroutine is
      registered, Shutdown can make its send panic. */
  lemma SendCanRaceShutdown(cfg: Config, s: Pool, u: Tid, t: Tid, g: Goal)
    requires Open(s.vars) && NoneTracked(s) && t !in s.threads && u in s.threads && AtSend(s.threads[u].at)
    requires g.crash == Crash(s.threads[u].role, ClosedChannel) && !g.quiet
    requires g.inTime ==> !s.vars.startRaced && !SomeRole(s, Starter)
    ensures CanPanic(cfg, s, g)
  {
    hide CanPanic, SomeRole;
    var s1 := Begun(s);
    SendPastShutdownPanics(cfg, InShutdown(Closed(s1), t, DrainIdle), u, g);
    assert NoneTracked(s1);
    hide NoneTracked, Closed, InShutdown;
    ShutdownGoesOn(cfg, s1, t, g);
    ShutdownBegins(cfg, s, t, g);
  }

  function LifecyclePanic(quiet: bool): Goal { Goal(Crash(Lifecycle, ClosedChannel), false, quiet) }

  /** Wherever the channel is closed and empty and a Start is still filling, the lifecycle
      goroutine it launches can panic at its first tick. */
  lemma StartPastShutdownPanics(cfg: Config, s: Pool, t: Tid, quiet: bool)
    requires s.vars.crash.None? && s.vars.idleClosed && s.vars.closed && !s.vars.waiters && s.idle == []
    requires t in s.threads && s.threads[t] == Thread(Starter, Make(Fill), [], [])
    ensures CanPanic(cfg, s, LifecyclePanic(quiet))
  {
    hide CanPanic;
    var s1 := With(s, t, Thread(Starter, Make(Launch), [], []));
    LaunchPastShutdownPanics(cfg, s1, t, quiet);
    if 0 < cfg.minSize {
      var s0 := With(s, t, Thread(Starter, Make(Enqueue), [], []));
      Panics(cfg, s0, M(CheckClosed(t)), s1, LifecyclePanic(quiet));
      Panics(cfg, s, M(FillOne(t)), s0, LifecyclePanic(quiet));
    } else {
      Panics(cfg, s, M(FillOne(t)), s1, LifecyclePanic(quiet));
    }
  }

  lemma LaunchPastShutdownPanics(cfg: Config, s: Pool, t: Tid, quiet: bool)
    requires s.vars.crash.None? && s.vars.idleClosed && !s.vars.waiters && s.idle == []
    requires t in s.threads && s.threads[t] == Thread(Starter, Make(Launch), [], [])
    ensures CanPanic(cfg, s, LifecyclePanic(quiet))
  {
    hide CanPanic, NoneTracked;
    var s1 := With(s, t, Thread(Lifecycle, Tick(Select), [], []));
    var s2 := With(s, t, Thread(Lifecycle, Tick(Draining), [], []));
    Panics(cfg, s2, T(DrainOne(t, 0)), s2.(vars := s2.vars.(crash := Some(Crash(Lifecycle, ClosedChannel)))),
           LifecyclePanic(quiet));
    Panics(cfg, s1, T(BeginTick(t)), s2, LifecyclePanic(quiet));
    Panics(cfg, s, M(LaunchLifecycle(t)), s1, LifecyclePanic(quiet));
  }

  lemma StartCanRaceShutdown(cfg: Config)
    ensures CanPanic(cfg, New(), LifecyclePanic(false))
  {
    hide CanPanic;
    var s := New().(threads := map[0 := Thread(Starter, Make(Fill), [], [])]);
    StartingCanPanic(cfg, s);
    Panics(cfg, New(), M(BeginStart(0)), s, LifecyclePanic(false));
  }

  lemma StartingCanPanic(cfg: Config, s: Pool)
    requires Open(s.vars) && s.idle == [] && s.threads == map[0 := Thread(Starter, Make(Fill), [], [])]
    ensures CanPanic(cfg, s, LifecyclePanic(false))
  {
    hide CanPanic, SomeRole;
    var s1 := Begun(s);
    StartPastShutdownPanics(cfg, InShutdown(Closed(s1), 1, DrainIdle), 0, false);
    assert NoneTracked(s1);
    hide NoneTracked, Closed, InShutdown;
    ShutdownGoesOn(cfg, s1, 1, LifecyclePanic(false));
    ShutdownBegins(cfg, s, 1, LifecyclePanic(false));
  }

  // ---------------------------------------------------------------------
  // On the WaitGroup
  // ---------------------------------------------------------------------

  /** Only the lifecycle goroutine l is registered, and it is between ticks. */
  predicate OnlyLifecycle(s: Pool, l: Tid)
  {
    && l in s.threads && s.threads[l] == Thread(Lifecycle, Tick(Select), [], [])
    && forall h :: h in s.threads && h != l ==> !Tracked(s.threads[h].role)
  }

  /** Shutdown on t sleeps in Wait and the lifecycle goroutine has just gone. */
  function Slept(s: Pool, l: Tid, t: Tid): Pool
  {
    var b := Begun(s);
    InShutdown(Without(b, l).(vars := b.vars.(stopClosed := true, waiters := true)), t, Asleep)
  }

  lemma QuitWhileAsleep(cfg: Config, s: Pool, l: Tid, t: Tid, g: Goal)
    requires l in s.threads && s.threads[l] == Thread(Lifecycle, Tick(Select), [], []) && l != t
    requires s.vars.crash.None? && CanPanic(cfg, InShutdown(Without(s, l), t, Asleep), g)
    ensures CanPanic(cfg, InShutdown(s, t, Asleep), g)
  {
    hide CanPanic;
    assert InShutdown(s, t, Asleep).threads - {l} == InShutdown(Without(s, l), t, Asleep).threads;
    Panics(cfg, InShutdown(s, t, Asleep), T(Quit(l)), InShutdown(Without(s, l), t, Asleep), g);
  }

  lemma FallsAsleep(cfg: Config, s: Pool, l: Tid, t: Tid, g: Goal)
    requires l in s.threads && Tracked(s.threads[l].role) && l != t && s.vars.crash.None? && !g.quiet
    requires CanPanic(cfg, InShutdown(s.(vars := s.vars.(waiters := true)), t, Asleep), g)
    ensures CanPanic(cfg, InShutdown(s, t, AwaitGroup), g)
  {
    hide CanPanic;
    assert !NoneTracked(InShutdown(s, t, AwaitGroup)) by {
      assert InShutdown(s, t, AwaitGroup).threads[l] == s.threads[l];
    }
    hide NoneTracked;
    Panics(cfg, InShutdown(s, t, AwaitGroup), S(FallAsleep(t)),
           InShutdown(s.(vars := s.vars.(waiters := true)), t, Asleep), g);
  }

  lemma LifecycleQuits(cfg: Config, s: Pool, l: Tid, t: Tid, g: Goal)
    requires OnlyLifecycle(s, l) && l != t && s.vars.crash.None? && !s.vars.stopClosed && !g.quiet
    requires var v := s.vars.(stopClosed := true, waiters := true);
             CanPanic(cfg, InShutdown(Without(s, l).(vars := v), t, Asleep), g)
    ensures CanPanic(cfg, InShutdown(s, t, CloseStop), g)
  {
    var s1 := s.(vars := s.vars.(stopClosed := true));
    var s2 := s.(vars := s1.vars.(waiters := true));
    assert Without(s2, l) == Without(s, l).(vars := s2.vars);
    CloseStopStep(cfg, s, t);
    hide CanPanic, OnlyLifecycle, InShutdown, Enabled, Apply;
    QuitWhileAsleep(cfg, s2, l, t, g);
    FallsAsleep(cfg, s1, l, t, g);
    Panics(cfg, InShutdown(s, t, CloseStop), S(CloseStopCh(t)), InShutdown(s1, t, AwaitGroup), g);
  }

  lemma ShutdownSleeps(cfg: Config, s: Pool, l: Tid, t: Tid, g: Goal)
    requires Open(s.vars) && OnlyLifecycle(s, l) && t !in s.threads && !g.quiet && CanPanic(cfg, Slept(s, l, t), g)
    ensures CanPanic(cfg, s, g)
  {
    hide CanPanic, SomeRole;
    LifecycleQuits(cfg, Begun(s), l, t, g);
    ShutdownBegins(cfg, s, t, g);
  }

  /** The counter is zero and the waiter not let go: an Add panics. */
  lemma AddCollides(cfg: Config, s: Pool, u: Tid, g: Goal)
    requires s.vars.crash.None? && s.vars.waiters && NoneTracked(s) && !g.quiet && (g.inTime ==> !s.vars.startRaced)
    requires u in s.threads && g.crash == Crash(s.threads[u].role, WaitGroup)
    requires s.threads[u].at == Run(Discarding) || s.threads[u].at == Make(Launch)
    ensures CanPanic(cfg, s, g)
  {
    hide CanPanic, NoneTracked;
    var s1 := s.(vars := s.vars.(crash := Some(g.crash)));
    if s.threads[u].at == Run(Discarding) {
      Panics(cfg, s, X(SpawnDiscard(u)), s1, g);
    } else {
      Panics(cfg, s, M(LaunchLifecycle(u)), s1, g);
    }
  }

  lemma BeginsDiscard(cfg: Config, s: Pool, u: Tid, id: Id, g: Goal)
    requires s.vars.crash.None? && !g.quiet && u in s.threads
    requires s.threads[u] == Thread(Execution, Run(Holding), [id], [])
    requires var v := s.vars.(inUse := s.vars.inUse - {id});
             CanPanic(cfg, With(s, u, Thread(Execution, Run(Discarding), [id], [])).(vars := v), g)
    ensures CanPanic(cfg, s, g)
  {
    hide CanPanic;
    var v := s.vars.(inUse := s.vars.inUse - {id});
    Panics(cfg, s, X(BeginDiscard(u)), With(s, u, Thread(Execution, Run(Discarding), [id], [])).(vars := v), g);
  }

  /** The waiter was let go, but a worker has registered before it looks again: Wait panics. */
  lemma WaitFindsWorker(cfg: Config, s: Pool, t: Tid, u: Tid, id: Id, g: Goal)
    requires s.vars.crash.None? && s.vars.waiters && NoneTracked(s) && !g.quiet && (g.inTime ==> !s.vars.startRaced)
    requires t in s.threads && s.threads[t] == Thread(Stopper, Close(Asleep), [], []) && t != u
    requires u in s.threads && s.threads[u] == Thread(Execution, Run(Discarding), [id], [])
    requires g.crash == Crash(Stopper, WaitGroup)
    ensures CanPanic(cfg, s, g)
  {
    hide CanPanic;
    var s1 := InShutdown(s, t, Woken).(vars := s.vars.(waiters := false));
    var s2 := With(s1, u, Thread(Worker, Make(Stopping), [id], []));
    assert !NoneTracked(s2) by { assert s2.threads[u].role == Worker; }
    hide NoneTracked;
    Panics(cfg, s2, S(Reread(t)), s2.(vars := s2.vars.(crash := Some(g.crash))), g);
    Panics(cfg, s1, X(SpawnDiscard(u)), s2, g);
    Panics(cfg, s, S(WakeUp(t)), s1, g);
  }

  /** Wherever only the lifecycle goroutine is registered and an execution holds a container, a
      Shutdown and a timeout of the execution can panic, in the one or in the other. */
  lemma DiscardCanRaceWait(cfg: Config, s: Pool, l: Tid, u: Tid, id: Id, t: Tid, g: Goal)
    requires Open(s.vars) && OnlyLifecycle(s, l) && t !in s.threads && u in s.threads
    requires s.threads[u] == Thread(Execution, Run(Holding), [id], [])
    requires !g.quiet && g.crash.cause == WaitGroup && (g.crash.role == Execution || g.crash.role == Stopper)
    requires g.inTime ==> !s.vars.startRaced && !SomeRole(s, Starter)
    ensures CanPanic(cfg, s, g)
  {
    hide CanPanic, SomeRole;
    var s1 := Slept(s, l, t);
    var v := s1.vars.(inUse := s1.vars.inUse - {id});
    var s2 := With(s1, u, Thread(Execution, Run(Discarding), [id], [])).(vars := v);
    assert NoneTracked(s2);
    if g.crash.role == Execution {
      AddCollides(cfg, s2, u, g);
    } else {
      WaitFindsWorker(cfg, s2, t, u, id, g);
    }
    hide NoneTracked, OnlyLifecycle;
    BeginsDiscard(cfg, s1, u, id, g);
    ShutdownSleeps(cfg, s, l, t, g);
  }

  /** A second Start that overlaps Shutdown can collide with its Wait. */
  lemma LaunchCanRaceWait(cfg: Config, s: Pool, l: Tid, u: Tid, t: Tid, g: Goal)
    requires Open(s.vars) && OnlyLifecycle(s, l) && t !in s.threads
    requires u in s.threads && s.threads[u] == Thread(Starter, Make(Launch), [], [])
    requires g == Goal(Crash(Starter, WaitGroup), false, false)
    ensures CanPanic(cfg, s, g)
  {
    hide CanPanic, SomeRole;
    var s1 := Slept(s, l, t);
    assert NoneTracked(s1);
    AddCollides(cfg, s1, u, g);
    hide NoneTracked;
    ShutdownSleeps(cfg, s, l, t, g);
  }

  // ---------------------------------------------------------------------
  // From a new pool
  // ---------------------------------------------------------------------

  /** A Start whose first container fails, or that needs none, comes to its launch. */
  lemma StartToLaunch(cfg: Config, s: Pool, t: Tid, id: Id, g: Goal)
    requires Open(s.vars) && t !in s.threads && s.idle == [] && id !in s.vars.boxes && !g.quiet
    requires CanPanic(cfg, With(s, t, Thread(Starter, Make(Launch), [], [])), g)
    ensures CanPanic(cfg, s, g)
  {
    hide CanPanic;
    var fill := With(s, t, Thread(Starter, Make(Fill), [], []));
    var launch := With(s, t, Thread(Starter, Make(Launch), [], []));
    if 0 < cfg.minSize {
      FirstContainerFails(cfg, s, t, id, g);
      Panics(cfg, fill, M(FillOne(t)), With(s, t, Thread(Starter, Make(Enqueue), [], [])), g);
    } else {
      Panics(cfg, fill, M(FillOne(t)), launch, g);
    }
    Panics(cfg, s, M(BeginStart(t)), fill, g);
  }

  lemma FirstContainerFails(cfg: Config, s: Pool, t: Tid, id: Id, g: Goal)
    requires Open(s.vars) && id !in s.vars.boxes && !g.quiet
    requires CanPanic(cfg, With(s, t, Thread(Starter, Make(Launch), [], [])), g)
    ensures CanPanic(cfg, With(s, t, Thread(Starter, Make(Enqueue), [], [])), g)
  {
    hide CanPanic;
    var creating := With(s, t, Thread(Starter, Make(Creating), [], []));
    Panics(cfg, creating, M(Create(t, id, false)), With(s, t, Thread(Starter, Make(Launch), [], [])), g);
    Panics(cfg, With(s, t, Thread(Starter, Make(Enqueue), [], [])), M(CheckClosed(t)), creating, g);
  }

  lemma StartFirst(cfg: Config, s: Pool, t: Tid, id: Id, g: Goal)
    requires Open(s.vars) && t !in s.threads && s.idle == [] && id !in s.vars.boxes && !g.quiet
    requires CanPanic(cfg, With(s, t, Thread(Lifecycle, Tick(Select), [], [])), g)
    ensures CanPanic(cfg, s, g)
  {
    hide CanPanic;
    var launch := With(s, t, Thread(Starter, Make(Launch), [], []));
    Panics(cfg, launch, M(LaunchLifecycle(t)), With(s, t, Thread(Lifecycle, Tick(Select), [], [])), g);
    StartToLaunch(cfg, s, t, id, g);
  }

  /** The pool with container 0 made and idle. */
  function MadeIdle(cfg: Config, s: Pool): Pool
  {
    s.(idle := [0], vars := s.vars.(boxes := map[0 := Box(0, 0, cfg.codeKey)]))
  }

  lemma CreateFirst(cfg: Config, s: Pool, g: Goal)
    requires Open(s.vars) && 0 !in s.threads && s.idle == [] && s.vars.boxes == map[] && !g.quiet
    requires CanPanic(cfg, MadeIdle(cfg, s), g)
    ensures CanPanic(cfg, s, g)
  {
    hide CanPanic;
    var a := Answer(true, 0, true, 0);
    var s1 := With(s, 0, Thread(Maker, Make(Enqueue), [], []));
    assert Enqueued(cfg, s1, 0, Maker, a, true) == MadeIdle(cfg, s) by {
      assert s1.threads - {0} == s.threads;
      assert s.vars.boxes[0 := Box(0, 0, cfg.codeKey)] == map[0 := Box(0, 0, cfg.codeKey)];
    }
    EnqueueRunsAlone(cfg, s1, 0, Maker, a, true);
    hide Leads, EnqueueEvents, Enqueued, MadeIdle;
    PanicsAfter(cfg, s1, EnqueueEvents(s1, 0, a, true), MadeIdle(cfg, s), g);
    Panics(cfg, s, M(BeginCreateNew(0)), s1, g);
  }

  lemma AcquireFirst(cfg: Config, s: Pool, g: Goal)
    requires Open(s.vars) && 1 !in s.threads && !g.quiet && CanPanic(cfg, HeldBy(cfg, s), g)
    ensures CanPanic(cfg, MadeIdle(cfg, s), g)
  {
    hide CanPanic;
    var idle := MadeIdle(cfg, s);
    assert Acquired(idle, 1, 0) == HeldBy(cfg, s) by {
      assert idle.vars.boxes[0 := Box(1, 0, cfg.codeKey)] == map[0 := Box(1, 0, cfg.codeKey)];
      assert idle.idle[1..] == [];
    }
    AcquireRunsAlone(cfg, idle, 1, 0);
    hide Leads, Acquired, HeldBy, MadeIdle;
    PanicsAfter(cfg, idle, [X(Receive(1))] + [X(Mark(1, 0)), X(CountWarm(1))], HeldBy(cfg, s), g);
  }

  /** CreateNew makes container 0 for a waiting Acquire of thread 1. */
  lemma CreateThenAcquire(cfg: Config, s: Pool, g: Goal)
    requires Open(s.vars) && 0 !in s.threads && 1 !in s.threads && s.idle == [] && s.vars.boxes == map[] && !g.quiet
    requires CanPanic(cfg, HeldBy(cfg, s), g)
    ensures CanPanic(cfg, s, g)
  {
    hide CanPanic, HeldBy, MadeIdle;
    AcquireFirst(cfg, s, g);
    CreateFirst(cfg, s, g);
  }

  function HeldBy(cfg: Config, s: Pool): Pool
  {
    With(s, 1, Thread(Execution, Run(Holding), [0], [])).(
      idle := [],
      vars := s.vars.(boxes := map[0 := Box(1, 0, cfg.codeKey)], inUse := s.vars.inUse + {0},
                      warmStarts := s.vars.warmStarts + 1))
  }

  lemma ExecutionOnClosed(cfg: Config, g: Goal)
    requires g.crash == Crash(Execution, ClosedChannel) && !g.quiet && cfg.maxUse != 1
    ensures CanPanic(cfg, New(), g)
  {
    hide CanPanic;
    var s := HeldBy(cfg, New());
    var s1 := With(s, 1, Thread(Execution, Run(Releasing), [0], [])).(vars := s.vars.(inUse := s.vars.inUse - {0}));
    var s2 := With(s1, 1, Thread(Execution, Run(Sending), [0], []));
    assert NoneTracked(s2) && !SomeRole(s2, Starter);
    SendCanRaceShutdown(cfg, s2, 1, 2, g);
    ReleaseSends(cfg, s1, g);
    BeginReleaseStep(cfg, s, 1, 0);
    hide Enabled, Apply;
    Panics(cfg, s, X(BeginRelease(1)), s1, g);
    CreateThenAcquire(cfg, New(), g);
  }

  lemma ReleaseSends(cfg: Config, s: Pool, g: Goal)
    requires Open(s.vars) && cfg.maxUse != 1 && s.vars.boxes == map[0 := Box(1, 0, cfg.codeKey)] && !g.quiet
    requires 1 in s.threads && s.threads[1] == Thread(Execution, Run(Releasing), [0], [])
    requires CanPanic(cfg, With(s, 1, Thread(Execution, Run(Sending), [0], [])), g)
    ensures CanPanic(cfg, s, g)
  {
    hide CanPanic;
    assert s.vars.boxes[0 := Box(1, 0, cfg.codeKey)] == s.vars.boxes;
    Panics(cfg, s, X(Decide(1, 0, true)), With(s, 1, Thread(Execution, Run(Sending), [0], [])), g);
  }

  lemma OnWaitGroup(cfg: Config, g: Goal)
    requires g.crash.cause == WaitGroup && (g.crash.role == Execution || g.crash.role == Stopper) && !g.quiet
    ensures CanPanic(cfg, New(), g)
  {
    hide CanPanic;
    var s := With(New(), 9, Thread(Lifecycle, Tick(Select), [], []));
    var held := HeldBy(cfg, s);
    assert OnlyLifecycle(held, 9) && !SomeRole(held, Starter);
    DiscardCanRaceWait(cfg, held, 9, 1, 0, 2, g);
    hide OnlyLifecycle;
    CreateThenAcquire(cfg, s, g);
    StartFirst(cfg, New(), 9, 0, g);
  }

  lemma SecondStartOnWaitGroup(cfg: Config, g: Goal)
    requires g == Goal(Crash(Starter, WaitGroup), false, false)
    ensures CanPanic(cfg, New(), g)
  {
    hide CanPanic;
    var s := With(New(), 9, Thread(Lifecycle, Tick(Select), [], []));
    var launch := With(s, 3, Thread(Starter, Make(Launch), [], []));
    assert OnlyLifecycle(launch, 9);
    LaunchCanRaceWait(cfg, launch, 9, 3, 2, g);
    hide OnlyLifecycle;
    StartToLaunch(cfg, s, 3, 0, g);
    StartFirst(cfg, New(), 9, 0, g);
  }

  /** A pool whose one container is in the hands of thread 0, which makes it. */
  function Making(maker: Role, m: MakePoint, key: string): Pool
  {
    New().(threads := map[0 := Thread(maker, Make(m), [0], [])],
           vars := New().vars.(boxes := map[0 := Box(0, 0, key)]))
  }

  lemma MakerOnClosed(cfg: Config, maker: Role, g: Goal)
    requires g.crash == Crash(maker, ClosedChannel) && !g.quiet
    requires maker == Maker || (maker == Starter && !g.inTime)
    ensures CanPanic(cfg, New().(threads := map[0 := Thread(maker, Make(Enqueue), [], [])]), g)
  {
    hide CanPanic;
    var pushing := Making(maker, Pushing, cfg.codeKey);
    assert NoneTracked(pushing) && (maker == Maker ==> !SomeRole(pushing, Starter));
    SendCanRaceShutdown(cfg, pushing, 0, 1, g);
    hide NoneTracked, SomeRole, Making;
    SeedsThenPanics(cfg, maker, g);
    CreatesThenPanics(cfg, maker, g);
  }

  lemma CreatesThenPanics(cfg: Config, maker: Role, g: Goal)
    requires CanPanic(cfg, Making(maker, Seeding, ""), g) && !g.quiet
    ensures CanPanic(cfg, New().(threads := map[0 := Thread(maker, Make(Enqueue), [], [])]), g)
  {
    hide CanPanic;
    var s1 := New().(threads := map[0 := Thread(maker, Make(Enqueue), [], [])]);
    var s2 := New().(threads := map[0 := Thread(maker, Make(Creating), [], [])]);
    var s3 := Making(maker, Seeding, "");
    assert New().vars.boxes[0 := Box(0, 0, "")] == s3.vars.boxes && s2.threads[0].keep + [0] == [0];
    assert s2.threads[0 := s3.threads[0]] == s3.threads;
    Panics(cfg, s2, M(Create(0, 0, true)), s3, g);
    Panics(cfg, s1, M(CheckClosed(0)), s2, g);
  }

  lemma SeedsThenPanics(cfg: Config, maker: Role, g: Goal)
    requires CanPanic(cfg, Making(maker, Pushing, cfg.codeKey), g) && !g.quiet
    ensures CanPanic(cfg, Making(maker, Seeding, ""), g)
  {
    hide CanPanic;
    var s, s1 := Making(maker, Seeding, ""), Making(maker, Checking, cfg.codeKey);
    Panics(cfg, s1, M(Recheck(0)), Making(maker, Pushing, cfg.codeKey), g);
    assert s.vars.boxes[0 := Box(0, 0, cfg.codeKey)] == s1.vars.boxes;
    Panics(cfg, s, M(Seed(0, 0, true)), s1, g);
  }

  lemma CallerOnClosed(cfg: Config, g: Goal)
    requires g.crash == Crash(Maker, ClosedChannel)
        || (g.crash == Crash(Starter, ClosedChannel) && cfg.minSize > 0 && !g.inTime)
    requires !g.quiet
    ensures CanPanic(cfg, New(), g)
  {
    hide CanPanic;
    var s := New().(threads := map[0 := Thread(g.crash.role, Make(Enqueue), [], [])]);
    MakerOnClosed(cfg, g.crash.role, g);
    if g.crash.role == Maker {
      Panics(cfg, New(), M(BeginCreateNew(0)), s, g);
    } else {
      var fill := New().(threads := map[0 := Thread(Starter, Make(Fill), [], [])]);
      Panics(cfg, fill, M(FillOne(0)), s, g);
      Panics(cfg, New(), M(BeginStart(0)), fill, g);
    }
  }

  lemma AllowedPanicHappens(cfg: Config, c: Crash, inTime: bool)
    requires MayPanic(cfg, c, inTime)
    ensures CanPanic(cfg, New(), Goal(c, inTime, false))
  {
    hide CanPanic;
    var g := Goal(c, inTime, false);
    match c.role {
      case Execution => if c.cause == WaitGroup { OnWaitGroup(cfg, g); } else { ExecutionOnClosed(cfg, g); }
      case Maker => CallerOnClosed(cfg, g);
      case Starter => if c.cause == WaitGroup { SecondStartOnWaitGroup(cfg, g); } else { CallerOnClosed(cfg, g); }
      case Lifecycle => StartCanRaceShutdown(cfg);
      case Stopper => OnWaitGroup(cfg, g);
    }
  }

  /** Main result: some run of a new pool ends in a panic of a thread of this role for this cause,
      with Start and Shutdown apart if asked, if and only if the configuration allows it. */
  lemma PanicIff(cfg: Config, c: Crash, inTime: bool)
    ensures (exists events :: Legal(cfg, events) && Met(Final(cfg, events).vars, Goal(c, inTime, false)))
            <==> MayPanic(cfg, c, inTime)
  {
    hide CanPanic, Legal, Final;
    forall events | Legal(cfg, events) && Met(Final(cfg, events).vars, Goal(c, inTime, false))
      ensures MayPanic(cfg, c, inTime)
    {
      RunPanicNeeds(cfg, events);
    }
    if MayPanic(cfg, c, inTime) {
      AllowedPanicHappens(cfg, c, inTime);
      var events := PanicRun(cfg, Goal(c, inTime, false));
    }
  }
}

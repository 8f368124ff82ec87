/** Calls of the pool that overlap Shutdown, and what a Shutdown that overlaps none gives. */
module DockerPoolRaces {
  import opened Common
  import opened DockerPools
  import opened DockerPoolPlaces
  import opened DockerPoolSafety
  import opened DockerPoolClose
  import opened DockerPoolRoom
  import opened DockerPoolRuns

  // ---------------------------------------------------------------------
  // Start and Shutdown of one pool
  // ---------------------------------------------------------------------

  predicate BeginsStart(ev: Event) { ev.M? && ev.m.BeginStart? }

  predicate BeginsShutdown(ev: Event) { ev.S? && ev.stop.BeginShutdown? }

  /** What a step says about Start, Shutdown and the closing of the channel. */
  predicate RaceStep(s: Pool, ev: Event, e: Effect)
  {
    && (e.vars.startRaced <==>
          || s.vars.startRaced
          || (BeginsStart(ev) && s.vars.closed)
          || (BeginsShutdown(ev) && !s.vars.closed && SomeRole(s, Starter)))
    && (e.next.Turns? && e.next.role.Starter? ==> BeginsStart(ev))
    && (e.vars.idleClosed && !s.vars.idleClosed ==>
          e.next == Goto(Close(DrainIdle)) && e.spawn == None && Actor(ev) in s.threads)
  }

  lemma ExecRace(cfg: Config, s: Pool, ev: ExecEvent)
    requires ExecEnabled(s, ev)
    ensures RaceStep(s, X(ev), ExecEffect(cfg, s, ev))
  {
  }

  lemma MakeRace(cfg: Config, s: Pool, ev: MakeEvent)
    requires MakeEnabled(s, ev)
    ensures RaceStep(s, M(ev), MakeEffect(cfg, s, ev))
  {
  }

  lemma TickRace(cfg: Config, s: Pool, ev: TickEvent)
    requires TickEnabled(s, ev)
    ensures RaceStep(s, T(ev), TickEffect(cfg, s, ev))
  {
  }

  lemma StopRace(s: Pool, ev: StopEvent)
    requires StopEnabled(s, ev)
    ensures RaceStep(s, S(ev), StopEffect(s, ev))
  {
  }

  lemma StepRace(cfg: Config, s: Pool, ev: Event)
    requires Enabled(s, ev)
    ensures RaceStep(s, ev, EffectOf(cfg, s, ev))
  {
    hide ExecEnabled, MakeEnabled, TickEnabled, StopEnabled, ExecEffect, MakeEffect, TickEffect, StopEffect, RaceStep;
    match ev
    case X(x) => ExecRace(cfg, s, x);
    case M(m) => MakeRace(cfg, s, m);
    case T(k) => TickRace(cfg, s, k);
    case S(x) => StopRace(s, x);
  }

  lemma HandsKeepRole(idle: seq<Id>, th: Thread, m: Motion)
    ensures Hands(idle, th, m).role == th.role
  {
  }

  /** A Start in the pool after a step was there before, or the step called it. */
  lemma StarterAfter(s: Pool, t: Tid, e: Effect, h: Tid)
    requires h in Perform(s, t, e).threads && Perform(s, t, e).threads[h].role.Starter?
    requires !(e.next.Turns? && e.next.role.Starter?)
    ensures h in s.threads && s.threads[h].role.Starter?
  {
    HandsKeepRole(s.idle, ThreadOf(s, t), e.motion);
    hide Hands, IdleAfter, StoppedAfter;
  }

  /** Nothing but a call of Start puts a Start in the pool. */
  lemma StartersAfter(cfg: Config, s: Pool, ev: Event)
    requires Enabled(s, ev) && SomeRole(Apply(cfg, s, ev), Starter) && !BeginsStart(ev)
    ensures SomeRole(s, Starter)
  {
    StepRace(cfg, s, ev);
    hide Enabled, EffectOf, Actor, Perform;
    var h :| h in Apply(cfg, s, ev).threads && Apply(cfg, s, ev).threads[h].role == Starter;
    StarterAfter(s, Actor(ev), EffectOf(cfg, s, ev), h);
  }

  lemma RaceAfter(cfg: Config, s: Pool, ev: Event)
    requires Enabled(s, ev)
    ensures Apply(cfg, s, ev).vars.startRaced <==>
              || s.vars.startRaced
              || (BeginsStart(ev) && s.vars.closed)
              || (BeginsShutdown(ev) && !s.vars.closed && SomeRole(s, Starter))
  {
    StepRace(cfg, s, ev);
    hide Enabled, EffectOf, Actor, SomeRole;
  }

  // ---------------------------------------------------------------------
  // A Shutdown that overlaps no call
  // ---------------------------------------------------------------------

  /** A caller of the pool, as opposed to its own goroutines and Shutdown. */
  predicate IsCaller(r: Role) { r.Execution? || r.Starter? || r.Maker? }

  predicate NoCaller(s: Pool) { forall t :: t in s.threads ==> !IsCaller(s.threads[t].role) }

  predicate BeginsCall(ev: Event)
  {
    (ev.X? && ev.x.Receive?) || (ev.M? && (ev.m.BeginStart? || ev.m.BeginCreateNew?))
  }

  /** Shutdown begins when no call is in progress, and none begins after it. */
  predicate Polite(s: Pool, ev: Event)
  {
    && (BeginsCall(ev) ==> !s.vars.closed)
    && (BeginsShutdown(ev) && !s.vars.closed ==> NoCaller(s))
  }

  predicate PoliteRun(cfg: Config, events: seq<Event>)
    requires Legal(cfg, events)
    decreases |events|
  {
    events == [] ||
    (PoliteRun(cfg, events[..|events| - 1]) && Polite(Final(cfg, events[..|events| - 1]), events[|events| - 1]))
  }

  predicate IsWoken(s: Pool, t: Tid) { t in s.threads && s.threads[t].at == Close(Woken) }

  predicate Courteous(s: Pool)
  {
    && !s.vars.startRaced
    && (s.vars.closed ==> NoCaller(s))
    && forall t :: t in s.threads && IsWoken(s, t) ==> NoneTracked(s)
  }

  /** Where callers and registered goroutines come from, and where Wait wakes up. */
  predicate RoleStep(s: Pool, ev: Event, e: Effect)
  {
    && (e.next.Turns? && IsCaller(e.next.role) ==> BeginsCall(ev))
    && (e.next.Turns? && Tracked(e.next.role) ==> Actor(ev) in s.threads && IsCaller(s.threads[Actor(ev)].role))
    && (e.spawn.Some? ==> Actor(ev) in s.threads && Tracked(s.threads[Actor(ev)].role))
    && (!e.next.Ends? && e.next.at == Close(Woken) ==>
          NoneTracked(s) && Actor(ev) in s.threads && s.threads[Actor(ev)].at.Close?)
    && (e.vars.closed && !s.vars.closed ==> BeginsShutdown(ev))
    && (Actor(ev) !in s.threads ==> e.next.Turns?)
  }

  predicate ActorShaped(s: Pool, t: Tid) { t in s.threads ==> Shape(s.threads[t]) }

  lemma ExecRole(cfg: Config, s: Pool, ev: ExecEvent)
    requires ExecEnabled(s, ev) && ActorShaped(s, ev.t)
    ensures RoleStep(s, X(ev), ExecEffect(cfg, s, ev))
  {
    hide NoneTracked;
  }

  lemma MakeRole(cfg: Config, s: Pool, ev: MakeEvent)
    requires MakeEnabled(s, ev) && ActorShaped(s, ev.t)
    ensures RoleStep(s, M(ev), MakeEffect(cfg, s, ev))
  {
    hide NoneTracked;
  }

  lemma TickRole(cfg: Config, s: Pool, ev: TickEvent)
    requires TickEnabled(s, ev) && ActorShaped(s, ev.t)
    ensures RoleStep(s, T(ev), TickEffect(cfg, s, ev))
  {
    hide NoneTracked;
  }

  /** Asleep wakes when the counter is zero; a panic of the woken one leaves it where it is. */
  lemma StopRole(s: Pool, ev: StopEvent)
    requires StopEnabled(s, ev) && ActorShaped(s, ev.t) && (IsWoken(s, ev.t) ==> NoneTracked(s))
    ensures RoleStep(s, S(ev), StopEffect(s, ev))
  {
    hide NoneTracked, SomeRole;
  }

  lemma StepRole(cfg: Config, s: Pool, ev: Event)
    requires Shaped(s) && Courteous(s) && Enabled(s, ev)
    ensures RoleStep(s, ev, EffectOf(cfg, s, ev))
  {
    assert ActorShaped(s, Actor(ev)) && (IsWoken(s, Actor(ev)) ==> NoneTracked(s));
    hide ExecEnabled, MakeEnabled, TickEnabled, StopEnabled, ExecEffect, MakeEffect, TickEffect, StopEffect;
    hide RoleStep, Shaped, Courteous, ActorShaped, IsWoken, NoneTracked;
    match ev
    case X(x) => ExecRole(cfg, s, x);
    case M(m) => MakeRole(cfg, s, m);
    case T(k) => TickRole(cfg, s, k);
    case S(x) => StopRole(s, x);
  }

  lemma RolesAfter(s: Pool, ev: Event, e: Effect, h: Tid)
    requires RoleStep(s, ev, e) && h in Perform(s, Actor(ev), e).threads
    ensures var th := Perform(s, Actor(ev), e).threads[h];
            && (IsCaller(th.role) ==> BeginsCall(ev) || (h in s.threads && IsCaller(s.threads[h].role)))
            && (Tracked(th.role) ==>
                  || (h in s.threads && Tracked(s.threads[h].role))
                  || (Actor(ev) in s.threads && IsCaller(s.threads[Actor(ev)].role))
                  || (Actor(ev) in s.threads && Tracked(s.threads[Actor(ev)].role)))
            && (th.at == Close(Woken) ==> h in s.threads && s.threads[h].at.Close? && (IsWoken(s, h) || NoneTracked(s)))
  {
    HandsKeepRole(s.idle, ThreadOf(s, Actor(ev)), e.motion);
    hide Hands, IdleAfter, StoppedAfter, NoneTracked;
  }

  lemma NoCallerAfter(s: Pool, ev: Event, e: Effect)
    requires Courteous(s) && RoleStep(s, ev, e) && Polite(s, ev) && e.vars.closed
    ensures NoCaller(Perform(s, Actor(ev), e))
  {
    forall h | h in Perform(s, Actor(ev), e).threads ensures !IsCaller(Perform(s, Actor(ev), e).threads[h].role) {
      RolesAfter(s, ev, e, h);
    }
  }

  lemma WokenIsAlone(s: Pool, ev: Event, e: Effect, h: Tid)
    requires Shaped(s) && Calm(s) && Courteous(s) && RoleStep(s, ev, e) && IsWoken(Perform(s, Actor(ev), e), h)
    ensures NoneTracked(Perform(s, Actor(ev), e))
  {
    RolesAfter(s, ev, e, h);
    assert s.vars.closed by { assert Shape(s.threads[h]) && ThreadCalm(s.vars, s.threads[h]); }
    assert NoneTracked(s) && NoCaller(s);
    var s' := Perform(s, Actor(ev), e);
    hide Perform, RoleStep, Courteous, Calm, Shaped;
    forall k | k in s'.threads ensures !Tracked(s'.threads[k].role) {
      RolesAfter(s, ev, e, k);
    }
  }

  lemma StepKeepsCourteous(cfg: Config, s: Pool, ev: Event)
    requires Shaped(s) && Calm(s) && Courteous(s) && Enabled(s, ev) && Polite(s, ev)
    ensures Courteous(Apply(cfg, s, ev))
  {
    StepRole(cfg, s, ev);
    RaceAfter(cfg, s, ev);
    var s', e := Apply(cfg, s, ev), EffectOf(cfg, s, ev);
    assert s'.vars == e.vars;
    if e.vars.closed {
      NoCallerAfter(s, ev, e);
    }
    forall h | h in s'.threads && IsWoken(s', h) ensures NoneTracked(s') {
      WokenIsAlone(s, ev, e, h);
    }
    assert SomeRole(s, Starter) ==> !NoCaller(s);
    hide Enabled, EffectOf, Perform, Calm, Shaped, NoneTracked, NoCaller, SomeRole, IsWoken, RoleStep;
  }

  lemma {:induction false} PoliteRunIsCourteous(cfg: Config, events: seq<Event>)
    requires Legal(cfg, events) && PoliteRun(cfg, events)
    ensures Courteous(Final(cfg, events))
    decreases |events|
  {
    if events != [] {
      hide Courteous, Polite, Enabled, Apply;
      var n := |events| - 1;
      PoliteRunIsCourteous(cfg, events[..n]);
      RunIsSound(cfg, events[..n]);
      StepKeepsCourteous(cfg, Final(cfg, events[..n]), events[n]);
    }
  }

  /** No step of a courteous pool panics. */
  lemma CourteousStepIsSafe(cfg: Config, s: Pool, ev: Event)
    requires Sound(cfg, s) && Courteous(s) && Enabled(s, ev) && !Apply(cfg, s, ev).vars.startRaced
    ensures Apply(cfg, s, ev).vars.crash.None?
  {
    StepApt(cfg, s, ev);
    StepKeepsCalm(cfg, s, ev);
    var t, v := Actor(ev), Apply(cfg, s, ev).vars;
    if v.crash.Some? {
      assert CrashApt(s, t, v.crash.value) && Explained(v, v.crash.value);
      assert Shape(s.threads[t]) && ThreadCalm(s.vars, s.threads[t]);
      assert s.vars.closed && !IsCaller(s.threads[t].role);
      assert IsWoken(s, t);
      RereadIsSafe(cfg, s, ev);
    }
  }

  lemma RereadIsSafe(cfg: Config, s: Pool, ev: Event)
    requires Enabled(s, ev) && IsWoken(s, Actor(ev)) && NoneTracked(s)
    ensures EffectOf(cfg, s, ev).vars.crash.None?
  {
    hide NoneTracked;
    match ev
    case X(_) =>
    case M(_) =>
    case T(_) =>
    case S(_) =>
  }

  /** Main result: a Shutdown that overlaps no Acquire, Release, Discard, Start or CreateNew is safe.
      On every run in which it begins with no such call in progress and none begins afterwards, no
      thread panics, on the channel or on the WaitGroup. */
  lemma PoliteRunsDoNotPanic(cfg: Config, events: seq<Event>)
    requires Legal(cfg, events) && PoliteRun(cfg, events)
    ensures Final(cfg, events).vars.crash.None?
  {
    if events != [] {
      var n := |events| - 1;
      PoliteRunIsCourteous(cfg, events[..n]);
      PoliteRunIsCourteous(cfg, events);
      RunIsSound(cfg, events[..n]);
      hide Sound, Enabled, Apply, PoliteRun;
      CourteousStepIsSafe(cfg, Final(cfg, events[..n]), events[n]);
    }
  }

  // ---------------------------------------------------------------------
  // Shutdown leaks nothing
  // ---------------------------------------------------------------------

  predicate Draining(s: Pool, t: Tid) { t in s.threads && s.threads[t].at == Close(DrainIdle) }

  /** A closed channel that holds something is being drained. */
  ghost predicate HasDrainer(s: Pool) { s.vars.idleClosed && s.idle != [] ==> exists t :: Draining(s, t) }

  lemma DrainerStays(cfg: Config, s: Pool, ev: Event, t: Tid)
    requires Shaped(s) && Enabled(s, ev) && Draining(s, t) && s.idle != []
    ensures Draining(Apply(cfg, s, ev), t)
  {
    StepTidy(cfg, s, ev);
    if Actor(ev) == t {
      DrainStepStays(cfg, s, ev);
    }
    hide Enabled, EffectOf, Shaped, Actor, Shape;
  }

  lemma DrainStepStays(cfg: Config, s: Pool, ev: Event)
    requires Enabled(s, ev) && Draining(s, Actor(ev)) && s.idle != []
    ensures EffectOf(cfg, s, ev).next == Goto(Close(DrainIdle)) && EffectOf(cfg, s, ev).spawn == None
  {
    hide NoneTracked;
  }

  lemma CloserDrains(cfg: Config, s: Pool, ev: Event)
    requires Enabled(s, ev) && !s.vars.idleClosed && Apply(cfg, s, ev).vars.idleClosed
    ensures Draining(Apply(cfg, s, ev), Actor(ev))
  {
    StepRace(cfg, s, ev);
    hide Enabled, EffectOf, Actor, SomeRole, IdleAfter, StoppedAfter, Hands;
  }

  lemma StepKeepsDrainer(cfg: Config, s: Pool, ev: Event)
    requires Sound(cfg, s) && HasDrainer(s) && Enabled(s, ev)
    ensures HasDrainer(Apply(cfg, s, ev))
  {
    var s' := Apply(cfg, s, ev);
    if s'.vars.idleClosed && s'.idle != [] {
      if s.vars.idleClosed {
        ClosedChannelShrinks(cfg, s, ev);
        var t :| Draining(s, t);
        DrainerStays(cfg, s, ev, t);
      } else {
        CloserDrains(cfg, s, ev);
      }
    }
    hide Enabled, EffectOf, Perform, Sound;
  }

  lemma {:induction false} RunHasDrainer(cfg: Config, events: seq<Event>)
    requires Legal(cfg, events)
    ensures HasDrainer(Final(cfg, events))
    decreases |events|
  {
    if events != [] {
      hide HasDrainer, Sound, Enabled, Apply;
      var n := |events| - 1;
      RunHasDrainer(cfg, events[..n]);
      RunIsSound(cfg, events[..n]);
      StepKeepsDrainer(cfg, Final(cfg, events[..n]), events[n]);
    }
  }

  /** Main result: when the channel is closed and every thread has finished, the containers that
      were created are exactly those handed to stop. */
  lemma ShutdownLeaksNothing(cfg: Config, events: seq<Event>, id: Id)
    requires Legal(cfg, events) && Final(cfg, events).vars.idleClosed && Final(cfg, events).threads == map[]
    ensures id in Final(cfg, events).vars.boxes <==> id in Final(cfg, events).stopped
  {
    RunIsSound(cfg, events);
    RunHasDrainer(cfg, events);
    var s := Final(cfg, events);
    hide Legal, Final, AllFit, Calm, Apt, Shaped;
    assert forall t :: !Draining(s, t);
    assert s.idle == [];
    assert id in s.stopped ==> In(s, Stopped, id);
    if id in s.vars.boxes {
      assert Located(s, id);
      var p :| In(s, p, id);
      assert p == Stopped;
    } else {
      assert !Located(s, id);
    }
  }
}

/** Closing the channels. Shutdown closes each of them once. Once its Wait has returned, the
    workers registered with the WaitGroup, including those registered later, stand only where
    they cannot send on or receive from the idle channel, and there is no lifecycle goroutine
    unless Start overlapped Shutdown.
 */
module DockerPoolClose {
  import opened Common
  import opened DockerPools
  import opened DockerPoolPlaces

  /** A worker here reads the closed flag before it goes near the idle channel. */
  predicate Harmless(at: Point) { at.Make? && (at.m.Enqueue? || at.m.Replenish? || at.m.Stopping?) }

  /** Between winning the compare-and-swap and closing the idle channel. */
  predicate Closing(at: Point) 
  {
    at.Close? && (at.c.CloseStop? || at.c.AwaitGroup? || at.c.Asleep? || at.c.Woken? || at.c.CloseIdle?)
  }

  predicate IsClosing(s: Pool, h: Tid) { h in s.threads && Closing(s.threads[h].at) }

  predicate ThreadCalm(v: Vars, th: Thread)
  {
    && (th.role.Stopper? ==> v.closed)
    && (th.at.Close? && th.at.c.CloseStop? ==> !v.stopClosed)
    && (th.at.Close? && th.at.c.CloseIdle? ==> v.waited)
    && (th.at.Close? && th.at.c.Sweep? ==> v.idleClosed)
    && (Closing(th.at) ==> !v.idleClosed)
    && (v.closed && !v.startRaced ==> !th.role.Starter?)
    && (v.waited && th.role.Worker? ==> Harmless(th.at))
    && (v.waited && !v.startRaced ==> !th.role.Lifecycle?)
  }

  /** Who can have panicked, and on what. */
  predicate Explained(v: Vars, c: Crash)
  {
    match c.role
    case Execution => true
    case Maker => c.cause.ClosedChannel?
    case Starter => v.startRaced
    case Lifecycle => c.cause.ClosedChannel? && v.startRaced
    case Stopper => c.cause.WaitGroup?
    case Worker => false
  }

  predicate VarsCalm(v: Vars)
  {
    && (v.stopClosed ==> v.closed)
    && (v.waited ==> v.closed)
    && (v.idleClosed ==> v.waited)
    && (v.waiters ==> v.closed)
    && (v.crash.Some? ==> Explained(v, v.crash.value))
  }

  ghost predicate Calm(s: Pool)
  {
    && VarsCalm(s.vars)
    && (forall t :: t in s.threads ==> ThreadCalm(s.vars, s.threads[t]))
    && (forall t, u :: IsClosing(s, t) && IsClosing(s, u) ==> t == u)
  }

  /** The step leaves the variables, the acting thread and every other thread calm. */
  predicate EffectCalm(s: Pool, t: Tid, e: Effect)
  {
    var closing := IsClosing(s, t);
    && VarsCalm(e.vars)
    && (e.next.Goto? ==> ThreadCalm(e.vars, ThreadOf(s, t).(at := e.next.at)))
    && (e.next.Turns? ==> ThreadCalm(e.vars, ThreadOf(s, t).(role := e.next.role, at := e.next.at)))
    && (!e.next.Ends? && Closing(e.next.at) ==> closing || !s.vars.closed)
    && (s.vars.closed ==> e.vars.closed)
    && (s.vars.startRaced ==> e.vars.startRaced)
    && (s.vars.waited ==> e.vars.waited)
    && (if s.vars.stopClosed then e.vars.stopClosed else e.vars.stopClosed ==> closing)
    && (if s.vars.idleClosed then e.vars.idleClosed else e.vars.idleClosed ==> closing)
    && (e.vars.closed && !s.vars.closed && !e.vars.startRaced ==> !SomeRole(s, Starter))
    && (e.vars.waited && !s.vars.waited ==> NoneTracked(s))
  }

  predicate ActorCalm(s: Pool, t: Tid)
  {
    VarsCalm(s.vars) && (t in s.threads ==> Shape(s.threads[t]) && ThreadCalm(s.vars, s.threads[t]))
  }

  lemma ExecCalm(cfg: Config, s: Pool, ev: ExecEvent)
    requires ExecEnabled(s, ev) && ActorCalm(s, ev.t) && s.vars.crash.None?
    ensures EffectCalm(s, ev.t, ExecEffect(cfg, s, ev))
  {
    hide NoneTracked, SomeRole;
  }

  lemma MakeCalm(cfg: Config, s: Pool, ev: MakeEvent)
    requires MakeEnabled(s, ev) && ActorCalm(s, ev.t) && s.vars.crash.None?
    ensures EffectCalm(s, ev.t, MakeEffect(cfg, s, ev))
  {
    hide NoneTracked, SomeRole;
    match ev
    case BeginStart(_) =>
    case BeginCreateNew(_) =>
    case FillOne(_) =>
    case LaunchLifecycle(_) =>
    case StopDiscarded(_) =>
    case CheckSize(_) =>
    case CheckClosed(_) =>
    case Create(_, _, _) =>
    case Seed(_, _, _) =>
    case Recheck(_) =>
    case PushNew(_, _) =>
  }

  lemma TickCalm(cfg: Config, s: Pool, ev: TickEvent)
    requires TickEnabled(s, ev) && ActorCalm(s, ev.t) && s.vars.crash.None?
    ensures EffectCalm(s, ev.t, TickEffect(cfg, s, ev))
  {
  }

  lemma StopCalm(s: Pool, ev: StopEvent)
    requires StopEnabled(s, ev) && ActorCalm(s, ev.t) && s.vars.crash.None?
    ensures EffectCalm(s, ev.t, StopEffect(s, ev))
  {
    hide NoneTracked, SomeRole;
  }

  lemma OtherCalm(s: Pool, t: Tid, e: Effect, h: Tid)
    requires Shaped(s) && Calm(s) && EffectCalm(s, t, e) && h in s.threads && h != t
    ensures ThreadCalm(e.vars, s.threads[h])
  {
    assert IsClosing(s, h) && IsClosing(s, t) ==> h == t;
    assert ThreadCalm(s.vars, s.threads[h]) && Shape(s.threads[h]);
  }

  lemma ThreadAfterCalm(s: Pool, t: Tid, e: Effect, h: Tid)
    requires Shaped(s) && Calm(s) && EffectCalm(s, t, e) && h in Perform(s, t, e).threads
    ensures ThreadCalm(e.vars, Perform(s, t, e).threads[h])
  {
    hide Can, Shaped, IdleAfter, StoppedAfter;
    if e.spawn == Some(h) {
    } else if h != t {
      OtherCalm(s, t, e, h);
    }
  }

  lemma ClosingIsClosed(s: Pool, h: Tid)
    requires Shaped(s) && Calm(s) && IsClosing(s, h)
    ensures s.vars.closed
  {
    assert Shape(s.threads[h]) && ThreadCalm(s.vars, s.threads[h]);
  }

  lemma ClosingAfter(s: Pool, t: Tid, e: Effect, h: Tid)
    requires EffectCalm(s, t, e) && IsClosing(Perform(s, t, e), h)
    ensures IsClosing(s, h) || (h == t && !s.vars.closed)
  {
    hide Can, Hands, IdleAfter, StoppedAfter, VarsCalm, ThreadCalm;
  }

  lemma PerformCalm(s: Pool, t: Tid, e: Effect)
    requires Shaped(s) && Calm(s) && EffectCalm(s, t, e)
    ensures Calm(Perform(s, t, e))
  {
    var s' := Perform(s, t, e);
    forall h | h in s'.threads ensures ThreadCalm(s'.vars, s'.threads[h]) {
      ThreadAfterCalm(s, t, e, h);
    }
    forall h, k | IsClosing(s', h) && IsClosing(s', k) ensures h == k {
      ClosingAfter(s, t, e, h);
      ClosingAfter(s, t, e, k);
      if IsClosing(s, h) {
        ClosingIsClosed(s, h);
      }
      if IsClosing(s, k) {
        ClosingIsClosed(s, k);
      }
    }
    assert VarsCalm(s'.vars);
    hide Perform, EffectCalm, ThreadCalm, Closing, Shaped;
  }

  lemma StepKeepsCalm(cfg: Config, s: Pool, ev: Event)
    requires Shaped(s) && Calm(s) && Enabled(s, ev)
    ensures Calm(Apply(cfg, s, ev))
  {
    assert ActorCalm(s, Actor(ev));
    hide ExecEnabled, MakeEnabled, TickEnabled, StopEnabled, ExecEffect, MakeEffect, TickEffect, StopEffect;
    hide Shaped, Calm, EffectCalm, Perform, ActorCalm;
    match ev
    case X(x) => ExecCalm(cfg, s, x); PerformCalm(s, x.t, ExecEffect(cfg, s, x));
    case M(m) => MakeCalm(cfg, s, m); PerformCalm(s, m.t, MakeEffect(cfg, s, m));
    case T(k) => TickCalm(cfg, s, k); PerformCalm(s, k.t, TickEffect(cfg, s, k));
    case S(x) => StopCalm(s, x); PerformCalm(s, x.t, StopEffect(s, x));
  }
}

/** The capacity of the idle channel, and who can ever come to a send on it. */
module DockerPoolRoom {
  import opened Common
  import opened DockerPools
  import opened DockerPoolPlaces

  /** Start creates containers only below a positive MinSize. */
  predicate ThreadApt(cfg: Config, th: Thread)
  {
    th.role.Starter? && th.at.Make? && !th.at.m.Fill? && !th.at.m.Launch? ==> cfg.minSize > 0
  }

  /** What the idle channel can hold; an unbuffered one hands a container to a waiting receiver. */
  function Slots(cfg: Config): nat { if cfg.maxSize == 0 then 1 else cfg.maxSize }

  predicate Apt(cfg: Config, s: Pool)
  {
    && |s.idle| <= Slots(cfg)
    && forall t :: t in s.threads ==> ThreadApt(cfg, s.threads[t])
  }

  /** A step at this point can panic for this cause. */
  predicate Risky(at: Point, cause: Cause)
  {
    match cause
    case ClosedChannel =>
      || (at.Run? && at.x.Sending?)
      || (at.Make? && at.m.Pushing?)
      || (at.Tick? && (at.k.Draining? || at.k.PuttingBack?))
      || (at.Close? && (at.c.CloseStop? || at.c.CloseIdle?))
    case WaitGroup =>
      || (at.Run? && (at.x.Retired? || at.x.Discarding?))
      || (at.Make? && at.m.Launch?)
      || (at.Close? && at.c.Woken?)
  }

  /** A panic is the thread's own, at a point where it can happen, and Shutdown has begun. */
  predicate CrashApt(s: Pool, t: Tid, c: Crash)
  {
    && t in s.threads && c.role == s.threads[t].role && Risky(s.threads[t].at, c.cause)
    && (s.vars.idleClosed || s.vars.waiters || s.threads[t].at.Close?)
  }

  /** A container is sent only on an open channel that takes it, and the thread is apt where it
      goes. */
  predicate EffectApt(cfg: Config, s: Pool, t: Tid, e: Effect)
  {
    && (e.motion.Give? ==> |s.idle| < Slots(cfg) && !s.vars.idleClosed)
    && (s.vars.idleClosed ==> e.vars.idleClosed)
    && (e.vars.crash.Some? ==> CrashApt(s, t, e.vars.crash.value))
    && (e.next.Goto? ==> ThreadApt(cfg, ThreadOf(s, t).(at := e.next.at)))
    && (e.next.Turns? ==> ThreadApt(cfg, ThreadOf(s, t).(role := e.next.role, at := e.next.at)))
  }

  predicate ActorApt(cfg: Config, s: Pool, t: Tid)
  {
    && s.vars.crash.None? && |s.idle| <= Slots(cfg)
    && (t in s.threads ==> Shape(s.threads[t]) && ThreadApt(cfg, s.threads[t]))
  }

  lemma ExecApt(cfg: Config, s: Pool, ev: ExecEvent)
    requires ExecEnabled(s, ev) && ActorApt(cfg, s, ev.t)
    ensures EffectApt(cfg, s, ev.t, ExecEffect(cfg, s, ev))
  {
  }

  lemma MakeApt(cfg: Config, s: Pool, ev: MakeEvent)
    requires MakeEnabled(s, ev) && ActorApt(cfg, s, ev.t)
    ensures EffectApt(cfg, s, ev.t, MakeEffect(cfg, s, ev))
  {
  }

  lemma TickApt(cfg: Config, s: Pool, ev: TickEvent)
    requires TickEnabled(s, ev) && ActorApt(cfg, s, ev.t)
    ensures EffectApt(cfg, s, ev.t, TickEffect(cfg, s, ev))
  {
  }

  lemma StopApt(cfg: Config, s: Pool, ev: StopEvent)
    requires StopEnabled(s, ev) && ActorApt(cfg, s, ev.t)
    ensures EffectApt(cfg, s, ev.t, StopEffect(s, ev))
  {
  }

  lemma StepApt(cfg: Config, s: Pool, ev: Event)
    requires Shaped(s) && Apt(cfg, s) && Enabled(s, ev)
    ensures EffectApt(cfg, s, Actor(ev), EffectOf(cfg, s, ev))
  {
    assert ActorApt(cfg, s, Actor(ev));
    hide ExecEnabled, MakeEnabled, TickEnabled, StopEnabled, ExecEffect, MakeEffect, TickEffect, StopEffect;
    hide Shaped, Apt, EffectApt, ActorApt;
    match ev
    case X(x) => ExecApt(cfg, s, x);
    case M(m) => MakeApt(cfg, s, m);
    case T(k) => TickApt(cfg, s, k);
    case S(x) => StopApt(cfg, s, x);
  }

  lemma PerformApt(cfg: Config, s: Pool, t: Tid, e: Effect)
    requires Apt(cfg, s) && EffectApt(cfg, s, t, e)
    ensures Apt(cfg, Perform(s, t, e))
  {
    hide StoppedAfter, CrashApt;
  }

  lemma StepKeepsApt(cfg: Config, s: Pool, ev: Event)
    requires Shaped(s) && Apt(cfg, s) && Enabled(s, ev)
    ensures Apt(cfg, Apply(cfg, s, ev))
  {
    StepApt(cfg, s, ev);
    hide Shaped, Apt, EffectApt, Enabled, EffectOf, Perform, Actor;
    PerformApt(cfg, s, Actor(ev), EffectOf(cfg, s, ev));
  }

  predicate IsSuffix(a: seq<Id>, b: seq<Id>) { |a| <= |b| && a == b[|b| - |a|..] }

  /** A closed channel stays closed and can only be drained. */
  lemma ClosedChannelShrinks(cfg: Config, s: Pool, ev: Event)
    requires Shaped(s) && Apt(cfg, s) && Enabled(s, ev) && s.vars.idleClosed
    ensures Apply(cfg, s, ev).vars.idleClosed && IsSuffix(Apply(cfg, s, ev).idle, s.idle)
  {
    StepApt(cfg, s, ev);
    hide Shaped, Apt, Enabled, EffectOf, Actor, Hands, StoppedAfter, CrashApt, ThreadApt;
  }
}

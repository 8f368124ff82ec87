/** What is true of a container depends on where it is: which code it runs, how often it may
    have been used, whether it is registered as in use, whether Shutdown may have swept it.
 */
module DockerPoolSafety {
  import opened DockerPools
  import opened DockerPoolPlaces

  // ---------------------------------------------------------------------
  // Containers
  // ---------------------------------------------------------------------

  datatype Spot = InIdle | InKeep(at: Point) | InEvict | InStopped

  function SpotOf(s: Pool, p: Place): Spot
  {
    match p
    case Idle => InIdle
    case Keep(t) => InKeep(ThreadOf(s, t).at)
    case Evict(_) => InEvict
    case Stopped => InStopped
  }

  /** Acquire has stored the container and neither Release nor Discard has deleted it. */
  predicate Using(at: Point) { at.Run? && (at.x.Marked? || at.x.Holding?) }

  /** Held by an execution or Discard's goroutine, and with Shutdown begun bound to be stopped. */
  predicate Parting(at: Point)
  {
    Using(at) || (at.Run? && (at.x.Releasing? || at.x.Discarding?)) || (at.Make? && at.m.Stopping?)
  }

  predicate UseBelow(cfg: Config, b: Box) { cfg.maxUse > 0 ==> b.useCount < cfg.maxUse }

  predicate UseWithin(cfg: Config, b: Box) { cfg.maxUse > 0 ==> b.useCount <= cfg.maxUse }

  /** The container can be handed out: it runs the pool's code and has a use left. */
  predicate Usable(cfg: Config, b: Box) { b.codeKey == cfg.codeKey && UseBelow(cfg, b) }

  predicate HandFits(cfg: Config, at: Point, b: Box)
  {
    if at.Make? && at.m.Seeding? then b.useCount == 0
    else
      && b.codeKey == cfg.codeKey && UseWithin(cfg, b)
      && (!Parting(at) ==> UseBelow(cfg, b))
      && (at.Run? && !at.x.Got? ==> b.useCount >= 1)
  }

  predicate Fits(cfg: Config, v: Vars, spot: Spot, id: Id)
  {
    && id in v.boxes
    && (id in v.swept ==> v.closed)
    && match spot
       case InIdle => id !in v.inUse && id !in v.swept && Usable(cfg, v.boxes[id])
       case InEvict => id !in v.inUse && id !in v.swept && Usable(cfg, v.boxes[id])
       case InStopped => id !in v.inUse && UseWithin(cfg, v.boxes[id])
       case InKeep(at) =>
         && (id in v.inUse <==> Using(at))
         && (id in v.swept ==> Parting(at))
         && HandFits(cfg, at, v.boxes[id])
  }

  /** Every container fits the place it is in, and the sets name only containers. */
  ghost predicate AllFit(cfg: Config, s: Pool)
  {
    && s.vars.inUse <= s.vars.boxes.Keys
    && s.vars.swept <= s.vars.boxes.Keys
    && forall p, id :: In(s, p, id) ==> Fits(cfg, s.vars, SpotOf(s, p), id)
  }

  function NextAt(th: Thread, next: Next): Point { if next.Ends? then th.at else next.at }

  /** Where a container that was at p is after the step. */
  function Dest(s: Pool, t: Tid, e: Effect, p: Place, id: Id): Spot
  {
    var th := ThreadOf(s, t);
    if p == Idle && s.idle != [] && id == s.idle[0] && e.motion.Take? then InKeep(NextAt(th, e.next))
    else if p == Idle && s.idle != [] && id == s.idle[0] && e.motion.TakeStale? then InEvict
    else if p == Idle && s.idle != [] && id == s.idle[0] && e.motion.HaltIdle? then InStopped
    else if p == Keep(t) && th.keep != [] && id == th.keep[0] && e.motion.Give? then InIdle
    else if p == Keep(t) && th.keep != [] && id == th.keep[0] && e.motion.Halt? then InStopped
    else if p == Evict(t) && th.evict != [] && id == th.evict[0] && e.motion.HaltStale? then InStopped
    else if p == Keep(t) then InKeep(NextAt(th, e.next))
    else SpotOf(s, p)
  }

  predicate VarsFit(cfg: Config, s: Pool, e: Effect)
  {
    && e.vars.inUse <= e.vars.boxes.Keys
    && s.vars.swept <= e.vars.swept <= e.vars.boxes.Keys
    && (e.motion.Gain? ==> e.next == Goto(Make(Seeding)) && Fits(cfg, e.vars, InKeep(Make(Seeding)), e.motion.id))
  }

  ghost predicate EffectFits(cfg: Config, s: Pool, t: Tid, e: Effect)
  {
    && VarsFit(cfg, s, e)
    && forall p, id :: In(s, p, id) ==> Fits(cfg, e.vars, Dest(s, t, e, p, id), id)
  }

  /** Where a container that is at p after the step was before it. */
  function Origin(s: Pool, t: Tid, e: Effect, p: Place, id: Id): Place
  {
    var th := ThreadOf(s, t);
    match p
    case Idle => if e.motion.Give? && id == Hand(th) then Keep(t) else Idle
    case Keep(h) => if h == t && e.motion.Take? && s.idle != [] && id == s.idle[0] then Idle else p
    case Evict(h) => if h == t && e.motion.TakeStale? && s.idle != [] && id == s.idle[0] then Idle else p
    case Stopped =>
      if e.motion.Halt? && id == Hand(th) then Keep(t)
      else if e.motion.HaltStale? && th.evict != [] && id == th.evict[0] then Evict(t)
      else if e.motion.HaltIdle? && s.idle != [] && id == s.idle[0] then Idle
      else Stopped
  }

  predicate HeadOnce(ids: seq<Id>) { ids != [] ==> ids[0] !in ids[1..] }

  lemma NoRepeatsHeadOnce(ids: seq<Id>)
    requires NoRepeats(ids)
    ensures HeadOnce(ids)
  {
  }

  lemma SpotAfter(s: Pool, t: Tid, e: Effect, p: Place)
    requires Tidy(s, t, e) && At(Perform(s, t, e), p) != []
    ensures SpotOf(Perform(s, t, e), p) == if p == Keep(t) then InKeep(NextAt(ThreadOf(s, t), e.next)) else SpotOf(s, p)
  {
    hide Shape, Can, Hands, IdleAfter, StoppedAfter;
  }

  lemma OriginIn(s: Pool, t: Tid, e: Effect, p: Place, id: Id)
    requires Can(s.idle, ThreadOf(s, t), e.motion) && id in PlaceAfter(s, t, e, p)
    requires !(p == Keep(t) && e.motion == Gain(id))
    ensures In(s, Origin(s, t, e, p, id), id)
  {
    match e.motion
    case Rest =>
    case Gain(_) =>
    case Take =>
    case TakeStale =>
    case Give =>
    case Halt =>
    case HaltStale =>
    case HaltIdle =>
  }

  lemma OriginDest(s: Pool, t: Tid, e: Effect, p: Place, id: Id)
    requires Can(s.idle, ThreadOf(s, t), e.motion) && id in PlaceAfter(s, t, e, p)
    requires HeadOnce(s.idle) && HeadOnce(ThreadOf(s, t).keep) && HeadOnce(ThreadOf(s, t).evict)
    ensures Dest(s, t, e, Origin(s, t, e, p, id), id) ==
              if p == Keep(t) then InKeep(NextAt(ThreadOf(s, t), e.next)) else SpotOf(s, p)
  {
    hide ThreadOf, NextAt;
    match e.motion
    case Rest =>
    case Gain(_) =>
    case Take =>
    case TakeStale =>
    case Give =>
    case Halt =>
    case HaltStale =>
    case HaltIdle =>
  }

  lemma CameFrom(s: Pool, t: Tid, e: Effect, p: Place, id: Id)
    requires Conserved(s) && Tidy(s, t, e) && In(Perform(s, t, e), p, id)
    requires !(p == Keep(t) && e.motion == Gain(id))
    ensures In(s, Origin(s, t, e, p, id), id)
    ensures Dest(s, t, e, Origin(s, t, e, p, id), id) == SpotOf(Perform(s, t, e), p)
  {
    PerformPlaces(s, t, e);
    SpotAfter(s, t, e, p);
    NoRepeatsHeadOnce(At(s, Idle));
    NoRepeatsHeadOnce(At(s, Keep(t)));
    NoRepeatsHeadOnce(At(s, Evict(t)));
    assert id in PlaceAfter(s, t, e, p) && Can(s.idle, ThreadOf(s, t), e.motion);
    hide Conserved, Perform, ThreadOf, NoRepeats, Can, Hands, Tidy, PlaceAfter, Origin, Dest;
    OriginIn(s, t, e, p, id);
    OriginDest(s, t, e, p, id);
  }

  lemma PerformFits(cfg: Config, s: Pool, t: Tid, e: Effect)
    requires Conserved(s) && Tidy(s, t, e) && EffectFits(cfg, s, t, e)
    ensures AllFit(cfg, Perform(s, t, e))
  {
    var s' := Perform(s, t, e);
    forall p, id | In(s', p, id) ensures Fits(cfg, e.vars, SpotOf(s', p), id) {
      if p == Keep(t) && e.motion == Gain(id) {
        SpotAfter(s, t, e, p);
      } else {
        CameFrom(s, t, e, p, id);
      }
      hide Fits, Conserved, Dest, Origin, Tidy, SpotOf, At;
    }
    hide Fits, In, SpotOf;
  }

  predicate Acquires(ev: ExecEvent) { ev.Receive? || ev.Mark? || ev.CountWarm? }

  lemma AcquireFits(cfg: Config, s: Pool, ev: ExecEvent, p: Place, id: Id)
    requires ExecEnabled(s, ev) && ActorReady(s, ev.t)
    requires In(s, p, id) && Fits(cfg, s.vars, SpotOf(s, p), id) && (In(s, Keep(ev.t), id) ==> p == Keep(ev.t))
    requires Acquires(ev)
    ensures Fits(cfg, ExecEffect(cfg, s, ev).vars, Dest(s, ev.t, ExecEffect(cfg, s, ev), p, id), id)
  {
  }

  lemma ReleaseFits(cfg: Config, s: Pool, ev: ExecEvent, p: Place, id: Id)
    requires ExecEnabled(s, ev) && ActorReady(s, ev.t)
    requires In(s, p, id) && Fits(cfg, s.vars, SpotOf(s, p), id) && (In(s, Keep(ev.t), id) ==> p == Keep(ev.t))
    requires !Acquires(ev)
    ensures Fits(cfg, ExecEffect(cfg, s, ev).vars, Dest(s, ev.t, ExecEffect(cfg, s, ev), p, id), id)
  {
  }

  lemma ExecFits(cfg: Config, s: Pool, ev: ExecEvent, p: Place, id: Id)
    requires ExecEnabled(s, ev) && ActorReady(s, ev.t)
    requires In(s, p, id) && Fits(cfg, s.vars, SpotOf(s, p), id) && (In(s, Keep(ev.t), id) ==> p == Keep(ev.t))
    ensures Fits(cfg, ExecEffect(cfg, s, ev).vars, Dest(s, ev.t, ExecEffect(cfg, s, ev), p, id), id)
  {
    hide Fits, ExecEnabled, ExecEffect, Dest, ActorReady, In, SpotOf, Acquires;
    if Acquires(ev) {
      AcquireFits(cfg, s, ev, p, id);
    } else {
      ReleaseFits(cfg, s, ev, p, id);
    }
  }

  predicate OnNewBox(ev: MakeEvent) { ev.Create? || ev.Seed? || ev.Recheck? || ev.PushNew? }

  lemma NewBoxFits(cfg: Config, s: Pool, ev: MakeEvent, p: Place, id: Id)
    requires MakeEnabled(s, ev) && ActorReady(s, ev.t)
    requires In(s, p, id) && Fits(cfg, s.vars, SpotOf(s, p), id) && (In(s, Keep(ev.t), id) ==> p == Keep(ev.t))
    requires OnNewBox(ev)
    ensures Fits(cfg, MakeEffect(cfg, s, ev).vars, Dest(s, ev.t, MakeEffect(cfg, s, ev), p, id), id)
  {
  }

  lemma OtherMakeFits(cfg: Config, s: Pool, ev: MakeEvent, p: Place, id: Id)
    requires MakeEnabled(s, ev) && ActorReady(s, ev.t)
    requires In(s, p, id) && Fits(cfg, s.vars, SpotOf(s, p), id) && (In(s, Keep(ev.t), id) ==> p == Keep(ev.t))
    requires !OnNewBox(ev)
    ensures Fits(cfg, MakeEffect(cfg, s, ev).vars, Dest(s, ev.t, MakeEffect(cfg, s, ev), p, id), id)
  {
  }

  lemma MakeFits(cfg: Config, s: Pool, ev: MakeEvent, p: Place, id: Id)
    requires MakeEnabled(s, ev) && ActorReady(s, ev.t)
    requires In(s, p, id) && Fits(cfg, s.vars, SpotOf(s, p), id) && (In(s, Keep(ev.t), id) ==> p == Keep(ev.t))
    ensures Fits(cfg, MakeEffect(cfg, s, ev).vars, Dest(s, ev.t, MakeEffect(cfg, s, ev), p, id), id)
  {
    hide Fits, MakeEnabled, MakeEffect, Dest, ActorReady, In, SpotOf, OnNewBox;
    if OnNewBox(ev) {
      NewBoxFits(cfg, s, ev, p, id);
    } else {
      OtherMakeFits(cfg, s, ev, p, id);
    }
  }

  lemma TickFits(cfg: Config, s: Pool, ev: TickEvent, p: Place, id: Id)
    requires TickEnabled(s, ev) && ActorReady(s, ev.t)
    requires In(s, p, id) && Fits(cfg, s.vars, SpotOf(s, p), id) && (In(s, Keep(ev.t), id) ==> p == Keep(ev.t))
    ensures Fits(cfg, TickEffect(cfg, s, ev).vars, Dest(s, ev.t, TickEffect(cfg, s, ev), p, id), id)
  {
  }

  lemma StopFits(cfg: Config, s: Pool, ev: StopEvent, p: Place, id: Id)
    requires StopEnabled(s, ev) && ActorReady(s, ev.t)
    requires In(s, p, id) && Fits(cfg, s.vars, SpotOf(s, p), id) && (In(s, Keep(ev.t), id) ==> p == Keep(ev.t))
    requires ev.SweepOne? ==> s.vars.closed
    ensures Fits(cfg, StopEffect(s, ev).vars, Dest(s, ev.t, StopEffect(s, ev), p, id), id)
  {
    StopPlain(s, ev);
    hide StopEffect, StopEnabled;
  }

  lemma ExecVarsFit(cfg: Config, s: Pool, ev: ExecEvent)
    requires ExecEnabled(s, ev) && ActorReady(s, ev.t)
    requires s.vars.inUse <= s.vars.boxes.Keys && s.vars.swept <= s.vars.boxes.Keys
    ensures VarsFit(cfg, s, ExecEffect(cfg, s, ev))
  {
  }

  lemma MakeVarsFit(cfg: Config, s: Pool, ev: MakeEvent)
    requires MakeEnabled(s, ev) && ActorReady(s, ev.t)
    requires s.vars.inUse <= s.vars.boxes.Keys && s.vars.swept <= s.vars.boxes.Keys
    ensures VarsFit(cfg, s, MakeEffect(cfg, s, ev))
  {
  }

  lemma TickVarsFit(cfg: Config, s: Pool, ev: TickEvent)
    requires TickEnabled(s, ev)
    requires s.vars.inUse <= s.vars.boxes.Keys && s.vars.swept <= s.vars.boxes.Keys
    ensures VarsFit(cfg, s, TickEffect(cfg, s, ev))
  {
    TickPlain(cfg, s, ev);
    hide TickEffect, TickEnabled;
  }

  lemma StopVarsFit(cfg: Config, s: Pool, ev: StopEvent)
    requires StopEnabled(s, ev)
    requires s.vars.inUse <= s.vars.boxes.Keys && s.vars.swept <= s.vars.boxes.Keys
    ensures VarsFit(cfg, s, StopEffect(s, ev))
  {
    StopPlain(s, ev);
    hide StopEffect, StopEnabled;
  }

  predicate Sweeps(ev: Event) { ev.S? && ev.stop.SweepOne? }

  lemma StepFits(cfg: Config, s: Pool, ev: Event, p: Place, id: Id)
    requires Shaped(s) && Conserved(s) && AllFit(cfg, s) && Enabled(s, ev) && (Sweeps(ev) ==> s.vars.closed)
    requires In(s, p, id)
    ensures Fits(cfg, EffectOf(cfg, s, ev).vars, Dest(s, Actor(ev), EffectOf(cfg, s, ev), p, id), id)
  {
    ActorIsReady(s, Actor(ev));
    hide Shaped, Conserved, Fits, Dest, ActorReady, In, SpotOf;
    hide ExecEnabled, MakeEnabled, TickEnabled, StopEnabled, ExecEffect, MakeEffect, TickEffect, StopEffect;
    match ev
    case X(x) => ExecFits(cfg, s, x, p, id);
    case M(m) => MakeFits(cfg, s, m, p, id);
    case T(k) => TickFits(cfg, s, k, p, id);
    case S(x) => StopFits(cfg, s, x, p, id);
  }

  lemma StepVarsFit(cfg: Config, s: Pool, ev: Event)
    requires Shaped(s) && Conserved(s) && AllFit(cfg, s) && Enabled(s, ev)
    ensures VarsFit(cfg, s, EffectOf(cfg, s, ev))
  {
    ActorIsReady(s, Actor(ev));
    hide Shaped, Conserved, Fits, ActorReady, In, SpotOf, VarsFit;
    hide ExecEnabled, MakeEnabled, TickEnabled, StopEnabled, ExecEffect, MakeEffect, TickEffect, StopEffect;
    match ev
    case X(x) => ExecVarsFit(cfg, s, x);
    case M(m) => MakeVarsFit(cfg, s, m);
    case T(k) => TickVarsFit(cfg, s, k);
    case S(x) => StopVarsFit(cfg, s, x);
  }

  lemma StepKeepsAllFit(cfg: Config, s: Pool, ev: Event)
    requires Shaped(s) && Conserved(s) && AllFit(cfg, s) && Enabled(s, ev) && (Sweeps(ev) ==> s.vars.closed)
    ensures AllFit(cfg, Apply(cfg, s, ev))
  {
    StepTidy(cfg, s, ev);
    StepVarsFit(cfg, s, ev);
    forall p, id | In(s, p, id)
      ensures Fits(cfg, EffectOf(cfg, s, ev).vars, Dest(s, Actor(ev), EffectOf(cfg, s, ev), p, id), id)
    {
      StepFits(cfg, s, ev, p, id);
    }
    hide Shaped, Conserved, AllFit, Fits, Dest, In, EffectOf, Tidy, Enabled, Perform, Actor, ThreadOf;
    PerformFits(cfg, s, Actor(ev), EffectOf(cfg, s, ev));
  }
}

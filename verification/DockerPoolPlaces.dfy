/** Where containers are. A place is the idle channel, a variable of one thread, or the
    list of containers handed to stopDockerContainer. Every step leaves the places alone,
    adds the container Docker just created to one of them, or moves the container at the
    head of one place to the tail of another.
 */
module DockerPoolPlaces {
  import opened Common
  import opened DockerPools

  // ---------------------------------------------------------------------
  // What a thread can hold at each point
  // ---------------------------------------------------------------------

  predicate HoldsOne(at: Point)
  {
    match at
    case Run(x) => !x.Retired?
    case Make(m) => m.Seeding? || m.Checking? || m.Pushing? || m.Stopping?
    case Tick(_) => false
    case Close(_) => false
  }

  predicate HoldsKept(at: Point) { at.Tick? && (at.k.Draining? || at.k.Evicting? || at.k.PuttingBack?) }

  predicate HoldsStale(at: Point) { at.Tick? && (at.k.Draining? || at.k.Evicting?) }

  predicate RoleFits(r: Role, at: Point)
  {
    match r
    case Execution => at.Run?
    case Worker => at.Make? && !at.m.Fill? && !at.m.Launch?
    case Lifecycle => at.Tick?
    case Starter => at.Make? && !at.m.Replenish? && !at.m.Stopping?
    case Maker => at.Make? && !at.m.Fill? && !at.m.Launch? && !at.m.Replenish? && !at.m.Stopping?
    case Stopper => at.Close?
  }

  predicate Shape(th: Thread)
  {
    && RoleFits(th.role, th.at)
    && (HoldsOne(th.at) ==> |th.keep| == 1)
    && (th.keep != [] ==> HoldsOne(th.at) || HoldsKept(th.at))
    && (th.evict != [] ==> HoldsStale(th.at))
  }

  predicate Shaped(s: Pool) { forall t :: t in s.threads ==> Shape(s.threads[t]) }

  /** The motion is possible, no container is dropped, and the hands fit the next point. */
  predicate Tidy(s: Pool, t: Tid, e: Effect)
  {
    var th := ThreadOf(s, t);
    var hands := Hands(s.idle, th, e.motion);
    && Can(s.idle, th, e.motion)
    && (e.spawn.Some? ==> e.spawn.value !in s.threads && e.spawn.value != t)
    && match e.next
       case Ends => hands.keep == [] && hands.evict == []
       case Goto(at) => Shape(hands.(at := at))
       case Turns(role, at) => Shape(hands.(role := role, at := at))
  }

  lemma ExecTidy(cfg: Config, s: Pool, ev: ExecEvent)
    requires ExecEnabled(s, ev) && (ev.t in s.threads ==> Shape(s.threads[ev.t]))
    ensures Tidy(s, ev.t, ExecEffect(cfg, s, ev))
  {
  }

  lemma MakeTidy(cfg: Config, s: Pool, ev: MakeEvent)
    requires MakeEnabled(s, ev) && (ev.t in s.threads ==> Shape(s.threads[ev.t]))
    ensures Tidy(s, ev.t, MakeEffect(cfg, s, ev))
  {
    match ev
    case BeginStart(_) =>
    case BeginCreateNew(_) =>
    case FillOne(_) =>
    case LaunchLifecycle(_) =>
    case StopDiscarded(_) =>
    case CheckSize(_) =>
    case CheckClosed(_) =>
    case Create(_, _, _) =>
    case Seed(_, _, _) =>
    case Recheck(_) =>
    case PushNew(_, _) =>
  }

  lemma TickTidy(cfg: Config, s: Pool, ev: TickEvent)
    requires TickEnabled(s, ev) && (ev.t in s.threads ==> Shape(s.threads[ev.t]))
    ensures Tidy(s, ev.t, TickEffect(cfg, s, ev))
  {
  }

  lemma StopTidy(s: Pool, ev: StopEvent)
    requires StopEnabled(s, ev) && (ev.t in s.threads ==> Shape(s.threads[ev.t]))
    ensures Tidy(s, ev.t, StopEffect(s, ev))
  {
  }

  lemma StepTidy(cfg: Config, s: Pool, ev: Event)
    requires Shaped(s) && Enabled(s, ev)
    ensures Tidy(s, Actor(ev), EffectOf(cfg, s, ev))
  {
    hide Shape, Tidy, ExecEnabled, MakeEnabled, TickEnabled, StopEnabled, ExecEffect, MakeEffect, TickEffect,
        StopEffect;
    match ev
    case X(x) => ExecTidy(cfg, s, x);
    case M(m) => MakeTidy(cfg, s, m);
    case T(k) => TickTidy(cfg, s, k);
    case S(x) => StopTidy(s, x);
  }

  lemma TidyKeepsShaped(s: Pool, t: Tid, e: Effect)
    requires Shaped(s) && Tidy(s, t, e)
    ensures Shaped(Perform(s, t, e))
  {
    hide Can, Hands, IdleAfter, StoppedAfter, RoleFits, HoldsOne, HoldsKept, HoldsStale;
    assert Shape(Thread(Worker, Make(Enqueue), [], [])) by { WorkerShape(); }
  }

  lemma WorkerShape()
    ensures Shape(Thread(Worker, Make(Enqueue), [], []))
  {
  }

  // ---------------------------------------------------------------------
  // Places
  // ---------------------------------------------------------------------

  datatype Place = Idle | Keep(t: Tid) | Evict(t: Tid) | Stopped

  function At(s: Pool, p: Place): seq<Id>
  {
    match p
    case Idle => s.idle
    case Keep(t) => ThreadOf(s, t).keep
    case Evict(t) => ThreadOf(s, t).evict
    case Stopped => s.stopped
  }

  predicate In(s: Pool, p: Place, id: Id) { id in At(s, p) }

  predicate NoRepeats(ids: seq<Id>) { forall i, j :: 0 <= i < j < |ids| ==> ids[i] != ids[j] }

  ghost predicate Located(s: Pool, id: Id) { exists p :: In(s, p, id) }

  /** Every container Docker created is in exactly one place, once, and nothing else is anywhere. */
  ghost predicate Conserved(s: Pool)
  {
    && (forall id :: id in s.vars.boxes <==> Located(s, id))
    && (forall p, q, id :: In(s, p, id) && In(s, q, id) ==> p == q)
    && (forall p :: NoRepeats(At(s, p)))
  }

  ghost predicate Still(s: Pool, s': Pool)
  {
    && s'.vars.boxes.Keys == s.vars.boxes.Keys
    && forall p :: At(s', p) == At(s, p)
  }

  ghost predicate Moved(s: Pool, s': Pool, from: Place, to: Place)
  {
    && s'.vars.boxes.Keys == s.vars.boxes.Keys
    && from != to
    && At(s, from) != []
    && At(s', from) == At(s, from)[1..]
    && At(s', to) == At(s, to) + [At(s, from)[0]]
    && forall p :: p != from && p != to ==> At(s', p) == At(s, p)
  }

  ghost predicate Gained(s: Pool, s': Pool, to: Place, id: Id)
  {
    && id !in s.vars.boxes
    && s'.vars.boxes.Keys == s.vars.boxes.Keys + {id}
    && At(s', to) == At(s, to) + [id]
    && forall p :: p != to ==> At(s', p) == At(s, p)
  }

  lemma StillConserves(s: Pool, s': Pool)
    requires Conserved(s) && Still(s, s')
    ensures Conserved(s')
  {
    hide At;
    assert forall p, id :: In(s', p, id) <==> In(s, p, id);
    assert forall id :: Located(s', id) <==> Located(s, id);
  }

  /** What one place holds after a container went from one place to the tail of another. */
  lemma MovedIn(s: Pool, s': Pool, from: Place, to: Place, p: Place)
    requires Conserved(s) && Moved(s, s', from, to)
    ensures forall id :: In(s', p, id) <==> if id == At(s, from)[0] then p == to else In(s, p, id)
    ensures NoRepeats(At(s', p))
  {
    hide At;
    var x := At(s, from)[0];
    assert In(s, from, x);
    assert NoRepeats(At(s, from)) && NoRepeats(At(s, p));
    assert p != from ==> !In(s, p, x);
    if p == from {
      assert At(s, from) == [x] + At(s', from);
    } else if p != to {
      assert At(s', p) == At(s, p);
    }
  }

  lemma MovedConserves(s: Pool, s': Pool, from: Place, to: Place)
    requires Conserved(s) && Moved(s, s', from, to)
    ensures Conserved(s')
  {
    hide At;
    var x := At(s, from)[0];
    forall p
      ensures forall id :: In(s', p, id) <==> if id == x then p == to else In(s, p, id)
      ensures NoRepeats(At(s', p))
    {
      MovedIn(s, s', from, to, p);
    }
    assert In(s, from, x) && In(s', to, x);
    forall id ensures Located(s', id) <==> Located(s, id) {
      if id != x && Located(s, id) {
        var p :| In(s, p, id);
        assert In(s', p, id);
      }
    }
  }

  lemma GainedConserves(s: Pool, s': Pool, to: Place, x: Id)
    requires Conserved(s) && Gained(s, s', to, x)
    ensures Conserved(s')
  {
    hide At;
    assert !Located(s, x);
    forall p
      ensures forall id :: In(s', p, id) <==> if id == x then p == to else In(s, p, id)
      ensures NoRepeats(At(s', p))
    {
      assert !In(s, p, x) && NoRepeats(At(s, p));
      if p != to {
        assert At(s', p) == At(s, p);
      }
    }
    assert In(s', to, x);
    forall id ensures Located(s', id) <==> id == x || Located(s, id) {
      if id != x && Located(s, id) {
        var p :| In(s, p, id);
        assert In(s', p, id);
      }
    }
  }

  predicate NewBox(s: Pool, e: Effect)
  {
    if e.motion.Gain? then
      e.motion.id !in s.vars.boxes && e.vars.boxes.Keys == s.vars.boxes.Keys + {e.motion.id}
    else
      e.vars.boxes.Keys == s.vars.boxes.Keys
  }

  function PlaceAfter(s: Pool, t: Tid, e: Effect, p: Place): seq<Id>
  {
    var th := ThreadOf(s, t);
    match p
    case Idle => IdleAfter(s.idle, th, e.motion)
    case Stopped => StoppedAfter(s.idle, s.stopped, th, e.motion)
    case Keep(h) => if h == t then Hands(s.idle, th, e.motion).keep else At(s, p)
    case Evict(h) => if h == t then Hands(s.idle, th, e.motion).evict else At(s, p)
  }

  lemma PerformPlaces(s: Pool, t: Tid, e: Effect)
    requires Tidy(s, t, e)
    ensures forall p :: At(Perform(s, t, e), p) == PlaceAfter(s, t, e, p)
  {
    hide Can, Hands, IdleAfter, StoppedAfter, Shape;
  }

  lemma PerformConserves(s: Pool, t: Tid, e: Effect)
    requires Conserved(s) && Tidy(s, t, e) && NewBox(s, e)
    ensures Conserved(Perform(s, t, e))
  {
    var s' := Perform(s, t, e);
    PerformPlaces(s, t, e);
    assert Can(s.idle, ThreadOf(s, t), e.motion);
    assert s'.vars == e.vars;
    hide Conserved, Perform, Shape, Tidy, ThreadOf;
    match e.motion
    case Rest => StillConserves(s, s');
    case Gain(id) => GainedConserves(s, s', Keep(t), id);
    case Take => MovedConserves(s, s', Idle, Keep(t));
    case TakeStale => MovedConserves(s, s', Idle, Evict(t));
    case Give => MovedConserves(s, s', Keep(t), Idle);
    case Halt => MovedConserves(s, s', Keep(t), Stopped);
    case HaltStale => MovedConserves(s, s', Evict(t), Stopped);
    case HaltIdle => MovedConserves(s, s', Idle, Stopped);
  }

  // ---------------------------------------------------------------------
  // Every step
  // ---------------------------------------------------------------------

  predicate ActorReady(s: Pool, t: Tid)
  {
    t in s.threads ==> Shape(s.threads[t]) && (s.threads[t].keep != [] ==> Hand(s.threads[t]) in s.vars.boxes)
  }

  lemma ActorIsReady(s: Pool, t: Tid)
    requires Shaped(s) && Conserved(s)
    ensures ActorReady(s, t)
  {
    if t in s.threads && s.threads[t].keep != [] {
      assert In(s, Keep(t), Hand(s.threads[t]));
    }
  }

  lemma ExecNewBox(cfg: Config, s: Pool, ev: ExecEvent)
    requires ExecEnabled(s, ev) && ActorReady(s, ev.t)
    ensures NewBox(s, ExecEffect(cfg, s, ev))
  {
  }

  lemma MakeNewBox(cfg: Config, s: Pool, ev: MakeEvent)
    requires MakeEnabled(s, ev) && ActorReady(s, ev.t)
    ensures NewBox(s, MakeEffect(cfg, s, ev))
  {
  }

  /** A tick leaves the containers' fields, the sets and the counter alone, and creates nothing. */
  predicate PlainTick(s: Pool, ev: TickEvent, e: Effect)
  {
    && e.vars.boxes == s.vars.boxes && e.vars.inUse == s.vars.inUse && e.vars.swept == s.vars.swept
    && e.vars.warmStarts == s.vars.warmStarts && !e.motion.Gain? && !e.next.Turns?
    && (e.next.Goto? ==> e.next.at.Tick?)
    && ev.t in s.threads && s.threads[ev.t].at.Tick?
  }

  lemma TickPlain(cfg: Config, s: Pool, ev: TickEvent)
    requires TickEnabled(s, ev)
    ensures PlainTick(s, ev, TickEffect(cfg, s, ev))
  {
    match ev
    case BeginTick(_) =>
    case Quit(_) =>
    case DrainOne(_, _) =>
    case EvictOne(_) =>
    case PutBackOne(_, _) =>
    case CountDeficit(_) =>
    case SpawnOne(_, _) =>
  }

  /** Shutdown leaves the containers' fields and the in-use map alone, moves only what is idle, and
      may sweep a container in use. */
  lemma StopPlain(s: Pool, ev: StopEvent)
    requires StopEnabled(s, ev)
    ensures var v, e := s.vars, StopEffect(s, ev);
            && e.vars.boxes == v.boxes && e.vars.inUse == v.inUse && e.vars.warmStarts == v.warmStarts
            && e.vars.swept == (if ev.SweepOne? then v.swept + {ev.id} else v.swept)
            && (v.closed ==> e.vars.closed)
            && (ev.SweepOne? ==> ev.id in v.inUse)
            && (e.motion == Rest || e.motion == HaltIdle)
            && (ev.t in s.threads ==> s.threads[ev.t].at.Close?)
            && (!e.next.Ends? ==> e.next.at.Close?)
  {
    match ev
    case BeginShutdown(_) =>
    case CloseStopCh(_) =>
    case WaitReturns(_) =>
    case FallAsleep(_) =>
    case WakeUp(_) =>
    case Reread(_) =>
    case CloseIdleCh(_) =>
    case DrainShutdown(_) =>
    case SweepOne(_, _) =>
    case EndShutdown(_) =>
  }

  lemma TickNewBox(cfg: Config, s: Pool, ev: TickEvent)
    requires TickEnabled(s, ev)
    ensures NewBox(s, TickEffect(cfg, s, ev))
  {
    TickPlain(cfg, s, ev);
    hide TickEffect, TickEnabled;
  }

  lemma StopNewBox(s: Pool, ev: StopEvent)
    requires StopEnabled(s, ev)
    ensures NewBox(s, StopEffect(s, ev))
  {
    StopPlain(s, ev);
    hide StopEffect, StopEnabled;
  }

  lemma StepNewBox(cfg: Config, s: Pool, ev: Event)
    requires Shaped(s) && Conserved(s) && Enabled(s, ev)
    ensures NewBox(s, EffectOf(cfg, s, ev))
  {
    ActorIsReady(s, Actor(ev));
    hide Shaped, Conserved, ActorReady, NewBox;
    hide ExecEnabled, MakeEnabled, TickEnabled, StopEnabled, ExecEffect, MakeEffect, TickEffect, StopEffect;
    match ev
    case X(x) => ExecNewBox(cfg, s, x);
    case M(m) => MakeNewBox(cfg, s, m);
    case T(k) => TickNewBox(cfg, s, k);
    case S(x) => StopNewBox(s, x);
  }

  lemma StepKeepsPlaces(cfg: Config, s: Pool, ev: Event)
    requires Shaped(s) && Conserved(s) && Enabled(s, ev)
    ensures Shaped(Apply(cfg, s, ev)) && Conserved(Apply(cfg, s, ev))
  {
    StepTidy(cfg, s, ev);
    StepNewBox(cfg, s, ev);
    hide Shaped, Conserved, Enabled, EffectOf, Perform, Tidy, NewBox, Actor;
    TidyKeepsShaped(s, Actor(ev), EffectOf(cfg, s, ev));
    PerformConserves(s, Actor(ev), EffectOf(cfg, s, ev));
  }
}

/** What the pool answers: when a container goes back and when it is retired, how often it is
    handed out, and how a container that is gone is replaced. Everything is told by the
    configuration's numbers, the container's use count and the state, for runs of the step machine.
 */
module DockerPoolAnswers {
  import opened Common
  import opened DockerPools
  import opened DockerPoolPlaces
  import opened DockerPoolRuns
  import opened DockerPoolSafety
  import opened DockerPoolClose
  import opened DockerPoolCounts
  import opened DockerPoolRoom
  import opened DockerPoolAlone
  import opened DockerPoolClass

  // ---------------------------------------------------------------------
  // Release, in every run
  // ---------------------------------------------------------------------

  /** An execution in the middle of Release or Discard holds the one container it works on. */
  lemma HoldsItsContainer(cfg: Config, events: seq<Event>, t: Tid)
    requires Legal(cfg, events)
    requires t in Final(cfg, events).threads
    requires Final(cfg, events).threads[t].at == Run(Releasing) || Final(cfg, events).threads[t].at == Run(Sending)
    ensures var s := Final(cfg, events);
            |s.threads[t].keep| == 1 && Holds(s, t, Execution, s.threads[t].at, s.threads[t].keep[0])
  {
    RunIsSound(cfg, events);
    hide Legal, Final, Shaped, Conserved, AllFit, Calm, Balanced, Apt;
    var s := Final(cfg, events);
    ActorIsReady(s, t);
    assert s.threads[t].keep == [s.threads[t].keep[0]];
  }

  lemma ReadyToDecide(s: Pool, t: Tid, now: nat, stopOk: bool)
    requires Enabled(s, X(Decide(t, now, stopOk)))
    ensures s.vars.crash.None? && t in s.threads && s.threads[t].at == Run(Releasing)
  {
  }

  lemma ReadyToSend(s: Pool, t: Tid, waiting: bool)
    requires Enabled(s, X(Push(t, waiting)))
    ensures t in s.threads && s.threads[t].at == Run(Sending)
  {
  }

  /** The outcome of Release's decision about the container in thread t's hands: stopped if it
      `retires` or the pool is closed, with a replacement to start only for a retirement that Docker
      carried out; otherwise about to be sent back. */
  predicate Decides(s: Pool, t: Tid, s': Pool, retires: bool, stopOk: bool)
    requires t in s.threads && s.threads[t].keep != []
  {
    var id := s.threads[t].keep[0];
    && s'.idle == s.idle
    && s'.stopped == (if retires || s.vars.closed then s.stopped + [id] else s.stopped)
    && (t in s'.threads <==> (retires && stopOk) || (!retires && !s.vars.closed))
    && (retires && stopOk ==> s'.threads[t] == Thread(Execution, Run(Retired), [], []))
    && (!retires && !s.vars.closed ==> s'.threads[t] == Thread(Execution, Run(Sending), [id], []))
  }

  lemma DecideAnswers(cfg: Config, s: Pool, t: Tid, id: Id, now: nat, stopOk: bool)
    requires s.vars.crash.None? && Holds(s, t, Execution, Run(Releasing), id)
    requires Enabled(s, X(Decide(t, now, stopOk)))
    ensures Decides(s, t, Apply(cfg, s, X(Decide(t, now, stopOk))),
                    cfg.maxUse > 0 && s.vars.boxes[id].useCount >= cfg.maxUse, stopOk)
  {
    DecideEffect(cfg, s, t, id, now, stopOk);
    hide ExecEffect, ExecEnabled;
    assert [id][1..] == [];
  }

  /** Main result: in every run, whatever else goes on, the decision of Release is this: the container
      is stopped if and only if MaxUseCount is positive and its use count has reached it, or the pool
      is closed; only a retirement that Docker carried out starts a replacement; every other
      container is about to be sent back. */
  lemma ReleaseDecidesIff(cfg: Config, events: seq<Event>, t: Tid, now: nat, stopOk: bool)
    requires Legal(cfg, events) && Enabled(Final(cfg, events), X(Decide(t, now, stopOk)))
    ensures
      var s := Final(cfg, events);
      && t in s.threads && |s.threads[t].keep| == 1 && s.threads[t].keep[0] in s.vars.boxes
      && Decides(s, t, Apply(cfg, s, X(Decide(t, now, stopOk))),
                 cfg.maxUse > 0 && s.vars.boxes[s.threads[t].keep[0]].useCount >= cfg.maxUse, stopOk)
  {
    hide Legal, Final, Apply, Enabled, Decides;
    var s := Final(cfg, events);
    ReadyToDecide(s, t, now, stopOk);
    HoldsItsContainer(cfg, events, t);
    DecideAnswers(cfg, s, t, s.threads[t].keep[0], now, stopOk);
  }

  /** The outcome of a send: the container is last in the idle channel, or stopped. */
  predicate Sends(s: Pool, t: Tid, s': Pool, taken: bool)
    requires t in s.threads && s.threads[t].keep != []
  {
    var id := s.threads[t].keep[0];
    && t !in s'.threads
    && s'.idle == (if taken then s.idle + [id] else s.idle)
    && s'.stopped == (if taken then s.stopped else s.stopped + [id])
  }

  lemma PushAnswers(cfg: Config, s: Pool, t: Tid, id: Id, waiting: bool)
    requires !s.vars.idleClosed && Holds(s, t, Execution, Run(Sending), id)
    requires Enabled(s, X(Push(t, waiting)))
    ensures Sends(s, t, Apply(cfg, s, X(Push(t, waiting))), |s.idle| < cfg.maxSize || (waiting && s.idle == []))
  {
    assert [id][1..] == [];
  }

  /** Main result: and the send puts the container last in the idle channel if and only if there is
      room or a receiver waits at the empty channel; otherwise the container is stopped. */
  lemma ReleaseSendsIff(cfg: Config, events: seq<Event>, t: Tid, waiting: bool)
    requires Legal(cfg, events) && Enabled(Final(cfg, events), X(Push(t, waiting)))
    requires !Final(cfg, events).vars.idleClosed
    ensures
      var s := Final(cfg, events);
      && t in s.threads && |s.threads[t].keep| == 1
      && Sends(s, t, Apply(cfg, s, X(Push(t, waiting))), |s.idle| < cfg.maxSize || (waiting && s.idle == []))
  {
    hide Legal, Final, Apply, Enabled, Sends;
    var s := Final(cfg, events);
    ReadyToSend(s, t, waiting);
    HoldsItsContainer(cfg, events, t);
    PushAnswers(cfg, s, t, s.threads[t].keep[0], waiting);
  }

  // ---------------------------------------------------------------------
  // Release, undisturbed
  // ---------------------------------------------------------------------

  /** Main result: Release run alone in an open pool with room ends with the container last in the
      idle channel if and only if MaxUseCount is not positive or its use count is below it; in every
      other case it ends stopped. Either way it is no longer in use. */
  lemma ReleasedIff(cfg: Config, s: Pool, t: Tid, id: Id, now: nat, stopOk: bool)
    requires id in s.vars.boxes
    ensures
      var s' := Released(cfg, s, t, id, now, stopOk);
      var b := s.vars.boxes[id];
      && s'.vars.inUse == s.vars.inUse - {id}
      && (!s.vars.closed && |s.idle| < cfg.maxSize ==>
            (s'.idle == s.idle + [id] <==> cfg.maxUse <= 0 || b.useCount < cfg.maxUse))
      && (s'.idle == s.idle + [id] ==> s'.stopped == s.stopped && s'.vars.boxes[id] == Box(b.useCount, now, b.codeKey))
      && (s'.idle != s.idle + [id] ==> s'.idle == s.idle && s'.stopped == s.stopped + [id])
  {
    assert |s.idle + [id]| == |s.idle| + 1;
    var s' := Released(cfg, s, t, id, now, stopOk);
    var b := s.vars.boxes[id];
    if cfg.maxUse > 0 && b.useCount >= cfg.maxUse {
      assert s'.idle == s.idle && s'.stopped == s.stopped + [id];
    } else if s.vars.closed || |s.idle| >= cfg.maxSize {
      assert s'.idle == s.idle && s'.stopped == s.stopped + [id];
    } else {
      assert s'.idle == s.idle + [id] && s'.stopped == s.stopped;
    }
  }

  // ---------------------------------------------------------------------
  // How often a container is handed out
  // ---------------------------------------------------------------------

  predicate IsOpen(v: Vars) { v.crash.None? && !v.waiters && !v.closed && !v.idleClosed }

  /** An open pool whose only idle container is `id`, and a caller t that has not begun. */
  predicate Lone(cfg: Config, s: Pool, t: Tid, id: Id)
  {
    IsOpen(s.vars) && t !in s.threads && s.idle == [id] && id in s.vars.boxes && cfg.maxSize >= 1
  }

  /** Acquire and Release, one after the other. */
  function Round(cfg: Config, s: Pool, t: Tid, id: Id, now: nat): Pool
    requires s.idle == [id] && id in s.vars.boxes
  {
    Released(cfg, Acquired(s, t, now), t, id, now, true)
  }

  lemma RoundRuns(cfg: Config, s: Pool, t: Tid, id: Id, now: nat) returns (events: seq<Event>)
    requires Lone(cfg, s, t, id)
    ensures Leads(cfg, s, events, Round(cfg, s, t, id, now))
  {
    var s1 := Acquired(s, t, now);
    AcquireRunsAlone(cfg, s, t, now);
    ReleaseRunsAlone(cfg, s1, t, id, now, true);
    var es := [X(Receive(t))] + [X(Mark(t, now)), X(CountWarm(t))];
    hide Leads, Acquired, Released, ReleaseEvents;
    Chain(cfg, s, es, s1, ReleaseEvents(cfg, s1, t, id, now, true), Round(cfg, s, t, id, now));
    events := es + ReleaseEvents(cfg, s1, t, id, now, true);
  }

  /** One round counts one use; it ends with the container idle again below the limit, and with the
      container stopped and a replacement started at the limit. */
  lemma RoundAnswers(cfg: Config, s: Pool, t: Tid, id: Id, now: nat)
    requires Lone(cfg, s, t, id)
    ensures
      var s' := Round(cfg, s, t, id, now);
      var u := s.vars.boxes[id].useCount + 1;
      && s'.vars.warmStarts == s.vars.warmStarts + 1
      && (cfg.maxUse <= 0 || u < cfg.maxUse ==>
            Lone(cfg, s', t, id) && s'.vars.boxes[id].useCount == u && s'.stopped == s.stopped)
      && (cfg.maxUse > 0 && u >= cfg.maxUse ==>
            && s'.idle == [] && s'.stopped == s.stopped + [id]
            && t in s'.threads && s'.threads[t] == Thread(Worker, Make(Replenish), [], []))
  {
    assert [id][1..] == [] && [] + [id] == [id];
  }

  /** It serves again and again while it is below the limit. */
  lemma {:induction false} ServesAgain(cfg: Config, s: Pool, t: Tid, id: Id, now: nat, n: nat)
      returns (events: seq<Event>, s': Pool)
    requires Lone(cfg, s, t, id) && (cfg.maxUse <= 0 || s.vars.boxes[id].useCount + n < cfg.maxUse)
    ensures Leads(cfg, s, events, s') && Lone(cfg, s', t, id) && s'.stopped == s.stopped
    ensures s'.vars.boxes[id].useCount == s.vars.boxes[id].useCount + n
    ensures s'.vars.warmStarts == s.vars.warmStarts + n
    decreases n
  {
    if n == 0 {
      events, s' := [], s;
    } else {
      var e1 := RoundRuns(cfg, s, t, id, now);
      RoundAnswers(cfg, s, t, id, now);
      var s1 := Round(cfg, s, t, id, now);
      hide Leads, Round;
      var e2, s2 := ServesAgain(cfg, s1, t, id, now, n - 1);
      Chain(cfg, s, e1, s1, e2, s2);
      events, s' := e1 + e2, s2;
    }
  }

  /** Main result: in an open pool with room, an undisturbed container is handed out exactly
      MaxUseCount times, counting the uses it has had, and the Release after the last of them retires
      it; without a limit it is handed out as often as asked. */
  lemma HandedOutExactly(cfg: Config, s: Pool, t: Tid, id: Id, now: nat) returns (events: seq<Event>, s': Pool)
    requires Lone(cfg, s, t, id) && s.vars.boxes[id].useCount < cfg.maxUse
    ensures Leads(cfg, s, events, s')
    ensures s'.idle == [] && s'.stopped == s.stopped + [id]
    ensures s'.vars.warmStarts == s.vars.warmStarts + (cfg.maxUse - s.vars.boxes[id].useCount)
  {
    var e1, s1 := ServesAgain(cfg, s, t, id, now, cfg.maxUse - s.vars.boxes[id].useCount - 1);
    var e2 := RoundRuns(cfg, s1, t, id, now);
    RoundAnswers(cfg, s1, t, id, now);
    s' := Round(cfg, s1, t, id, now);
    hide Leads, Round;
    Chain(cfg, s, e1, s1, e2, s');
    events := e1 + e2;
  }

  // ---------------------------------------------------------------------
  // Replacements
  // ---------------------------------------------------------------------

  /** The pool with a further idle container that Docker made and seeded. */
  function Grown(cfg: Config, s: Pool, id: Id, now: nat): Pool
  {
    s.(idle := s.idle + [id], vars := s.vars.(boxes := s.vars.boxes[id := Box(0, now, cfg.codeKey)]))
  }

  lemma CheckSizeStep(cfg: Config, s: Pool, t: Tid)
    requires s.vars.crash.None?
    requires t in s.threads && s.threads[t] == Thread(Worker, Make(Replenish), [], [])
    ensures Enabled(s, M(CheckSize(t)))
    ensures Apply(cfg, s, M(CheckSize(t))) ==
            if |s.idle| < cfg.minSize then With(s, t, Thread(Worker, Make(Enqueue), [], [])) else Without(s, t)
  {
  }

  /** Main result: replenishOne run alone in an open pool, with Docker answering, leaves one more idle
      container, last in the channel, if the pool is below MinSize, and nothing otherwise. */
  lemma ReplenishRunsAlone(cfg: Config, s: Pool, t: Tid, id: Id, now: nat) returns (events: seq<Event>)
    requires IsOpen(s.vars) && id !in s.vars.boxes && cfg.minSize <= cfg.maxSize
    requires t in s.threads && s.threads[t] == Thread(Worker, Make(Replenish), [], [])
    ensures |s.idle| < cfg.minSize ==> Leads(cfg, s, events, Grown(cfg, Without(s, t), id, now))
    ensures |s.idle| >= cfg.minSize ==> Leads(cfg, s, events, Without(s, t))
  {
    CheckSizeStep(cfg, s, t);
    if |s.idle| >= cfg.minSize {
      events := [M(CheckSize(t))];
      OneStep(cfg, s, M(CheckSize(t)), Without(s, t));
    } else {
      var s1 := With(s, t, Thread(Worker, Make(Enqueue), [], []));
      var a := Answer(true, id, true, now);
      EnqueueRunsAlone(cfg, s1, t, Worker, a, false);
      assert s1.threads - {t} == s.threads - {t};
      assert Enqueued(cfg, s1, t, Worker, a, false) == Grown(cfg, Without(s, t), id, now);
      hide Leads, Enabled, Apply, Enqueued, EnqueueEvents;
      Then(cfg, s, M(CheckSize(t)), EnqueueEvents(s1, t, a, false), Grown(cfg, Without(s, t), id, now));
      events := [M(CheckSize(t))] + EnqueueEvents(s1, t, a, false);
    }
  }

  /** The pool without thread t, whose container is stopped and out of use. */
  function GoneFor(s: Pool, t: Tid, id: Id): Pool
  {
    Pool(s.idle, s.stopped + [id], s.threads - {t}, s.vars.(inUse := s.vars.inUse - {id}))
  }

  /** Main result: a discarded container is replaced. In an open pool below MinSize, Discard and its
      goroutine, run alone with Docker answering, leave the container stopped, out of use, and a new
      one idle. */
  lemma DiscardIsReplaced(cfg: Config, s: Pool, t: Tid, id: Id, made: Id, now: nat) returns (events: seq<Event>)
    requires IsOpen(s.vars) && Holds(s, t, Execution, Run(Holding), id)
    requires made !in s.vars.boxes && |s.idle| < cfg.minSize <= cfg.maxSize
    ensures Leads(cfg, s, events, Grown(cfg, GoneFor(s, t, id), made, now))
  {
    var s1 := Discarded(s, t, id);
    DiscardRunsAlone(cfg, s, t, id);
    var e1 := [X(BeginDiscard(t))] + [X(SpawnDiscard(t)), M(StopDiscarded(t))];
    assert s1.threads - {t} == s.threads - {t};
    var s2 := Grown(cfg, GoneFor(s, t, id), made, now);
    assert Grown(cfg, Without(s1, t), made, now) == s2;
    var e2 := ReplenishRunsAlone(cfg, s1, t, made, now);
    hide Leads, Discarded, Grown;
    Chain(cfg, s, e1, s1, e2, s2);
    events := e1 + e2;
  }

  /** Main result: and so is a retired one. */
  lemma RetiredIsReplaced(cfg: Config, s: Pool, t: Tid, id: Id, made: Id, now: nat) returns (events: seq<Event>)
    requires IsOpen(s.vars) && Holds(s, t, Execution, Run(Holding), id)
    requires cfg.maxUse > 0 && s.vars.boxes[id].useCount >= cfg.maxUse
    requires made !in s.vars.boxes && |s.idle| < cfg.minSize <= cfg.maxSize
    ensures Leads(cfg, s, events, Grown(cfg, GoneFor(s, t, id), made, now))
  {
    var s1 := Released(cfg, s, t, id, now, true);
    ReleaseRunsAlone(cfg, s, t, id, now, true);
    var e1 := ReleaseEvents(cfg, s, t, id, now, true);
    assert s1.threads - {t} == s.threads - {t};
    var s2 := Grown(cfg, GoneFor(s, t, id), made, now);
    assert Grown(cfg, Without(s1, t), made, now) == s2;
    var e2 := ReplenishRunsAlone(cfg, s1, t, made, now);
    hide Leads, Released, Grown, ReleaseEvents;
    Chain(cfg, s, e1, s1, e2, s2);
    events := e1 + e2;
  }

  // ---------------------------------------------------------------------
  // Filling up: Start and the tick
  // ---------------------------------------------------------------------

  /** Ids that Docker has not handed out. */
  predicate AreNew(s: Pool, ids: seq<Id>) { NoRepeats(ids) && forall i :: 0 <= i < |ids| ==> ids[i] !in s.vars.boxes }

  lemma RestIsNew(cfg: Config, s: Pool, ids: seq<Id>, now: nat)
    requires ids != [] && AreNew(s, ids)
    ensures ids[0] !in s.vars.boxes && AreNew(Grown(cfg, s, ids[0], now), ids[1..])
  {
  }

  function GrownBy(cfg: Config, s: Pool, ids: seq<Id>, now: nat): Pool
    decreases |ids|
  {
    if ids == [] then s else GrownBy(cfg, Grown(cfg, s, ids[0], now), ids[1..], now)
  }

  lemma {:induction false} GrownByIdle(cfg: Config, s: Pool, ids: seq<Id>, now: nat)
    ensures var s' := GrownBy(cfg, s, ids, now);
            s'.idle == s.idle + ids && s'.stopped == s.stopped && s'.threads == s.threads
    decreases |ids|
  {
    if ids != [] {
      GrownByIdle(cfg, Grown(cfg, s, ids[0], now), ids[1..], now);
      assert s.idle + [ids[0]] + ids[1..] == s.idle + ids;
    }
  }

  function Starting(s: Pool, t: Tid, m: MakePoint): Pool { With(s, t, Thread(Starter, Make(m), [], [])) }

  lemma FillOneStep(cfg: Config, s: Pool, t: Tid)
    requires s.vars.crash.None?
    ensures Enabled(Starting(s, t, Fill), M(FillOne(t)))
    ensures Apply(cfg, Starting(s, t, Fill), M(FillOne(t))) ==
            Starting(s, t, if |s.idle| < cfg.minSize then Enqueue else Launch)
  {
  }

  lemma FillRound(cfg: Config, s: Pool, t: Tid, id: Id, now: nat)
    requires IsOpen(s.vars) && |s.idle| < cfg.minSize <= cfg.maxSize && id !in s.vars.boxes
    ensures var a := Answer(true, id, true, now);
            Leads(cfg, Starting(s, t, Fill), [M(FillOne(t))] + EnqueueEvents(Starting(s, t, Enqueue), t, a, false),
                  Starting(Grown(cfg, s, id, now), t, Fill))
  {
    var a := Answer(true, id, true, now);
    var s1 := Starting(s, t, Enqueue);
    FillOneStep(cfg, s, t);
    EnqueueRunsAlone(cfg, s1, t, Starter, a, false);
    assert Enqueued(cfg, s1, t, Starter, a, false) == Starting(Grown(cfg, s, id, now), t, Fill) by {
      LeftFrom(s, t, Thread(Starter, Make(Enqueue), [], []), Starter, true);
    }
    hide Leads, Enabled, Apply, Enqueued, EnqueueEvents, Starting;
    Then(cfg, Starting(s, t, Fill), M(FillOne(t)), EnqueueEvents(s1, t, a, false),
         Starting(Grown(cfg, s, id, now), t, Fill));
  }

  /** Main result: Start run alone on an open pool, with Docker answering, fills it to exactly MinSize,
      in the order of creation, and goes on to launch the lifecycle goroutine. */
  lemma {:induction false} StartFills(cfg: Config, s: Pool, t: Tid, ids: seq<Id>, now: nat) returns (events: seq<Event>)
    requires IsOpen(s.vars) && AreNew(s, ids) && cfg.minSize <= cfg.maxSize
    requires |ids| == if |s.idle| < cfg.minSize then cfg.minSize - |s.idle| else 0
    ensures Leads(cfg, Starting(s, t, Fill), events, Starting(GrownBy(cfg, s, ids, now), t, Launch))
    decreases |ids|
  {
    hide Enabled, Apply, Leads, Starting, EnqueueEvents, AreNew;
    if ids == [] {
      events := [M(FillOne(t))];
      FillOneStep(cfg, s, t);
      OneStep(cfg, Starting(s, t, Fill), M(FillOne(t)), Starting(s, t, Launch));
    } else {
      var s1 := Grown(cfg, s, ids[0], now);
      RestIsNew(cfg, s, ids, now);
      FillRound(cfg, s, t, ids[0], now);
      var more := StartFills(cfg, s1, t, ids[1..], now);
      var e1 := [M(FillOne(t))] + EnqueueEvents(Starting(s, t, Enqueue), t, Answer(true, ids[0], true, now), false);
      hide Grown;
      Chain(cfg, Starting(s, t, Fill), e1, Starting(s1, t, Fill), more,
            Starting(GrownBy(cfg, s, ids, now), t, Launch));
      events := e1 + more;
    }
  }

  lemma SpawnStep(cfg: Config, s: Pool, t: Tid, g: Tid, n: nat)
    requires s.vars.crash.None? && g !in s.threads && g != t
    ensures Enabled(Ticking(s, t, Spawning(n), [], []), T(SpawnOne(t, g)))
    ensures Apply(cfg, Ticking(s, t, Spawning(n), [], []), T(SpawnOne(t, g))) ==
            if n == 0 then Ticking(s, t, Select, [], [])
            else With(Ticking(s, t, Spawning(n - 1), [], []), g, Thread(Worker, Make(Enqueue), [], []))
  {
  }

  lemma SpawnRound(cfg: Config, s: Pool, t: Tid, g: Tid, n: nat, id: Id, now: nat)
    requires IsOpen(s.vars) && g !in s.threads && g != t && n > 0 && |s.idle| < cfg.maxSize && id !in s.vars.boxes
    ensures var a := Answer(true, id, true, now);
            Leads(cfg, Ticking(s, t, Spawning(n), [], []), [T(SpawnOne(t, g))] + EnqueueEvents(s, g, a, false),
                  Ticking(Grown(cfg, s, id, now), t, Spawning(n - 1), [], []))
  {
    var a := Answer(true, id, true, now);
    var s0, s2 := Ticking(s, t, Spawning(n - 1), [], []), Ticking(Grown(cfg, s, id, now), t, Spawning(n - 1), [], []);
    var s1 := With(s0, g, Thread(Worker, Make(Enqueue), [], []));
    SpawnStep(cfg, s, t, g, n);
    EnqueueRunsAlone(cfg, s1, g, Worker, a, false);
    assert s1.threads - {g} == s0.threads;
    assert Enqueued(cfg, s1, g, Worker, a, false) == s2;
    assert EnqueueEvents(s1, g, a, false) == EnqueueEvents(s, g, a, false);
    hide Leads, Enabled, Apply, Enqueued, EnqueueEvents, Ticking;
    Then(cfg, Ticking(s, t, Spawning(n), [], []), T(SpawnOne(t, g)), EnqueueEvents(s, g, a, false), s2);
  }

  lemma {:induction false} SpawnedFill(cfg: Config, s: Pool, t: Tid, g: Tid, ids: seq<Id>, now: nat)
      returns (events: seq<Event>)
    requires IsOpen(s.vars) && AreNew(s, ids) && g !in s.threads && g != t && |s.idle| + |ids| <= cfg.maxSize
    ensures Leads(cfg, Ticking(s, t, Spawning(|ids|), [], []), events,
                  Ticking(GrownBy(cfg, s, ids, now), t, Select, [], []))
    decreases |ids|
  {
    hide Enabled, Apply, Leads, Ticking, EnqueueEvents, AreNew;
    if ids == [] {
      SpawnStep(cfg, s, t, g, 0);
      events := [T(SpawnOne(t, g))];
      OneStep(cfg, Ticking(s, t, Spawning(0), [], []), T(SpawnOne(t, g)), Ticking(s, t, Select, [], []));
    } else {
      var s1 := Grown(cfg, s, ids[0], now);
      RestIsNew(cfg, s, ids, now);
      SpawnRound(cfg, s, t, g, |ids|, ids[0], now);
      var more := SpawnedFill(cfg, s1, t, g, ids[1..], now);
      var e1 := [T(SpawnOne(t, g))] + EnqueueEvents(s, g, Answer(true, ids[0], true, now), false);
      hide Grown;
      Chain(cfg, Ticking(s, t, Spawning(|ids|), [], []), e1, Ticking(s1, t, Spawning(|ids| - 1), [], []), more,
            Ticking(GrownBy(cfg, s, ids, now), t, Select, [], []));
      events := e1 + more;
    }
  }

  /** Main result: the tick heals the pool. Run alone on an open pool with its workers, and with Docker
      answering, it ends with the containers younger than MaxIdleTime in order, followed by just as
      many new ones as bring the pool back to MinSize. */
  lemma TickRestoresMinimum(cfg: Config, s: Pool, t: Tid, g: Tid, now: nat, ids: seq<Id>)
      returns (events: seq<Event>, s': Pool)
    requires IsOpen(s.vars) && Known(s.vars.boxes, s.idle) && |s.idle| <= cfg.maxSize && cfg.minSize <= cfg.maxSize
    requires AreNew(s, ids) && g !in s.threads && g != t
    requires var kept := |Kept(cfg, s.vars.boxes, s.idle, now)|;
             |ids| == if kept < cfg.minSize then cfg.minSize - kept else 0
    ensures Leads(cfg, Ticking(s, t, Select, [], []), events, Ticking(s', t, Select, [], []))
    ensures s'.idle == Kept(cfg, s.vars.boxes, s.idle, now) + ids && |s'.idle| >= cfg.minSize
    ensures s'.stopped == s.stopped + Stale(cfg, s.vars.boxes, s.idle, now)
  {
    TickSplitsByAge(cfg, s.vars.boxes, s.idle, now, 0);
    var s1 := Ticked(cfg, s, now);
    var e1 := TickRunsAlone(cfg, s, t, now);
    assert Deficit(cfg, s1) == |ids|;
    hide Kept, Stale, Deficit, Leads, Ticking;
    var e2 := SpawnedFill(cfg, s1, t, g, ids, now);
    s' := GrownBy(cfg, s1, ids, now);
    GrownByIdle(cfg, s1, ids, now);
    Chain(cfg, Ticking(s, t, Select, [], []), e1, Ticking(s1, t, Spawning(|ids|), [], []), e2,
          Ticking(s', t, Select, [], []));
    events := e1 + e2;
  }
}

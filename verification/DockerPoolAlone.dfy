/** The pool's operations run by one thread without interruption, as functions on the state, and
    the proof that each of them is a run of the step machine.
 */
module DockerPoolAlone {
  import opened Common
  import opened DockerPools

  function With(s: Pool, t: Tid, th: Thread): Pool { s.(threads := s.threads[t := th]) }

  function Without(s: Pool, t: Tid): Pool { s.(threads := s.threads - {t}) }

  predicate Holds(s: Pool, t: Tid, role: Role, at: Point, id: Id)
  {
    t in s.threads && s.threads[t] == Thread(role, at, [id], []) && id in s.vars.boxes
  }

  lemma OneStep(cfg: Config, s: Pool, ev: Event, s': Pool)
    requires Enabled(s, ev) && Apply(cfg, s, ev) == s'
    ensures Leads(cfg, s, [ev], s')
  {
    hide Enabled, Apply;
    assert Leads(cfg, s', [ev][1..], s');
  }

  lemma {:induction false} Chain(cfg: Config, s: Pool, es: seq<Event>, m: Pool, fs: seq<Event>, s': Pool)
    requires Leads(cfg, s, es, m) && Leads(cfg, m, fs, s')
    ensures Leads(cfg, s, es + fs, s')
    decreases |es|
  {
    hide Enabled, Apply;
    if es == [] {
      assert es + fs == fs;
    } else {
      assert (es + fs)[1..] == es[1..] + fs;
      Chain(cfg, Apply(cfg, s, es[0]), es[1..], m, fs, s');
    }
  }

  /** A run of events between the states before, between and after them. */
  lemma Path2(cfg: Config, s: Pool, e1: Event, s1: Pool, e2: Event, s2: Pool)
    requires Enabled(s, e1) && Apply(cfg, s, e1) == s1 && Enabled(s1, e2) && Apply(cfg, s1, e2) == s2
    ensures Leads(cfg, s, [e1, e2], s2)
  {
    hide Enabled, Apply;
    OneStep(cfg, s1, e2, s2);
    Then(cfg, s, e1, [e2], s2);
    assert [e1] + [e2] == [e1, e2];
  }

  // ---------------------------------------------------------------------
  // Acquire
  // ---------------------------------------------------------------------

  function Used(b: Box, now: nat): Box { b.(useCount := b.useCount + 1, lastUsed := now) }

  function Acquired(s: Pool, t: Tid, now: nat): Pool
    requires s.idle != [] && s.idle[0] in s.vars.boxes
  {
    var id, v := s.idle[0], s.vars;
    With(s, t, Thread(Execution, Run(Holding), [id], [])).(
      idle := s.idle[1..],
      vars := v.(boxes := v.boxes[id := Used(v.boxes[id], now)], inUse := v.inUse + {id},
                 warmStarts := v.warmStarts + 1))
  }

  lemma ReceiveStep(cfg: Config, s: Pool, t: Tid)
    requires s.vars.crash.None? && t !in s.threads && s.idle != []
    ensures Enabled(s, X(Receive(t)))
    ensures Apply(cfg, s, X(Receive(t)))
        == With(s, t, Thread(Execution, Run(Got), [s.idle[0]], [])).(idle := s.idle[1..])
  {
    assert [] + [s.idle[0]] == [s.idle[0]];
  }

  lemma MarkStep(cfg: Config, s: Pool, t: Tid, now: nat, id: Id)
    requires s.vars.crash.None? && Holds(s, t, Execution, Run(Got), id)
    ensures Enabled(s, X(Mark(t, now)))
    ensures Apply(cfg, s, X(Mark(t, now))) ==
            With(s, t, Thread(Execution, Run(Marked), [id], [])).(
              vars := s.vars.(boxes := s.vars.boxes[id := Used(s.vars.boxes[id], now)], inUse := s.vars.inUse + {id}))
  {
  }

  lemma CountWarmStep(cfg: Config, s: Pool, t: Tid, id: Id)
    requires s.vars.crash.None? && Holds(s, t, Execution, Run(Marked), id)
    ensures Enabled(s, X(CountWarm(t)))
    ensures Apply(cfg, s, X(CountWarm(t))) ==
            With(s, t, Thread(Execution, Run(Holding), [id], [])).(vars := s.vars.(warmStarts := s.vars.warmStarts + 1))
  {
  }

  lemma MarkSteps(cfg: Config, s: Pool, t: Tid, now: nat, id: Id)
    requires s.vars.crash.None? && Holds(s, t, Execution, Run(Got), id)
    ensures var v := s.vars;
            Leads(cfg, s, [X(Mark(t, now)), X(CountWarm(t))],
                  With(s, t, Thread(Execution, Run(Holding), [id], [])).(
                    vars := v.(boxes := v.boxes[id := Used(v.boxes[id], now)], inUse := v.inUse + {id},
                               warmStarts := v.warmStarts + 1)))
  {
    hide Leads, Enabled, Apply;
    var v := s.vars.(boxes := s.vars.boxes[id := Used(s.vars.boxes[id], now)], inUse := s.vars.inUse + {id});
    var s1 := With(s, t, Thread(Execution, Run(Marked), [id], [])).(vars := v);
    var s2 := With(s, t, Thread(Execution, Run(Holding), [id], [])).(vars := v.(warmStarts := v.warmStarts + 1));
    MarkStep(cfg, s, t, now, id);
    CountWarmStep(cfg, s1, t, id);
    assert s1.threads[t := Thread(Execution, Run(Holding), [id], [])] == s2.threads;
    Path2(cfg, s, X(Mark(t, now)), s1, X(CountWarm(t)), s2);
  }

  /** Acquire alone is a run of the machine. */
  lemma AcquireRunsAlone(cfg: Config, s: Pool, t: Tid, now: nat)
    requires s.vars.crash.None? && t !in s.threads && s.idle != [] && s.idle[0] in s.vars.boxes
    ensures Leads(cfg, s, [X(Receive(t))] + [X(Mark(t, now)), X(CountWarm(t))], Acquired(s, t, now))
  {
    hide Enabled, Apply, Leads;
    ReceiveStep(cfg, s, t);
    var s1 := With(s, t, Thread(Execution, Run(Got), [s.idle[0]], [])).(idle := s.idle[1..]);
    MarkSteps(cfg, s1, t, now, s.idle[0]);
    Then(cfg, s, X(Receive(t)), [X(Mark(t, now)), X(CountWarm(t))], Acquired(s, t, now)) by {
      assert With(s1, t, Thread(Execution, Run(Holding), [s.idle[0]], [])).threads == Acquired(s, t, now).threads;
    }
  }

  // ---------------------------------------------------------------------
  // Release
  // ---------------------------------------------------------------------

  function Retire(s: Pool, id: Id): Pool { s.(stopped := s.stopped + [id]) }

  function Released(cfg: Config, s: Pool, t: Tid, id: Id, now: nat, stopOk: bool): Pool
    requires id in s.vars.boxes
  {
    var v := s.vars.(inUse := s.vars.inUse - {id});
    var b := s.vars.boxes[id];
    var warm := v.(boxes := v.boxes[id := b.(lastUsed := now)]);
    if UsedUp(cfg, b) then
      Retire(if stopOk then With(s, t, Thread(Worker, Make(Replenish), [], [])) else Without(s, t), id).(vars := v)
    else if v.closed || |s.idle| >= cfg.maxSize then Retire(Without(s, t), id).(vars := warm)
    else Without(s, t).(idle := s.idle + [id], vars := warm)
  }

  function ReleaseEvents(cfg: Config, s: Pool, t: Tid, id: Id, now: nat, stopOk: bool): seq<Event>
    requires id in s.vars.boxes
  {
    [X(BeginRelease(t)), X(Decide(t, now, stopOk))] +
    if UsedUp(cfg, s.vars.boxes[id]) then (if stopOk then [X(Respawn(t))] else [])
    else if s.vars.closed then []
    else [X(Push(t, false))]
  }

  /** Release up to the point where it stopped the container or found the pool open. */
  function Decided(cfg: Config, s: Pool, t: Tid, id: Id, now: nat, stopOk: bool): Pool
    requires id in s.vars.boxes
  {
    var v := s.vars.(inUse := s.vars.inUse - {id});
    var b := s.vars.boxes[id];
    var warm := v.(boxes := v.boxes[id := b.(lastUsed := now)]);
    if UsedUp(cfg, b) then
      Retire(if stopOk then With(s, t, Thread(Execution, Run(Retired), [], [])) else Without(s, t), id).(vars := v)
    else if v.closed then Retire(Without(s, t), id).(vars := warm)
    else With(s, t, Thread(Execution, Run(Sending), [id], [])).(vars := warm)
  }

  /** What the decision step is, told by the container's fields. */
  lemma DecideEffect(cfg: Config, s: Pool, t: Tid, id: Id, now: nat, stopOk: bool)
    requires Holds(s, t, Execution, Run(Releasing), id)
    ensures
      var b, v := s.vars.boxes[id], s.vars;
      var warm := v.(boxes := v.boxes[id := b.(lastUsed := now)]);
      ExecEffect(cfg, s, Decide(t, now, stopOk)) ==
      if cfg.maxUse > 0 && b.useCount >= cfg.maxUse then Effect(Halt, if stopOk then Goto(Run(Retired)) else Ends, v)
      else if v.closed then Effect(Halt, Ends, warm)
      else Effect(Rest, Goto(Run(Sending)), warm)
  {
  }

  lemma DecideRetires(cfg: Config, s: Pool, t: Tid, id: Id, now: nat, stopOk: bool)
    requires s.vars.crash.None? && Holds(s, t, Execution, Run(Releasing), id) && id !in s.vars.inUse
    requires UsedUp(cfg, s.vars.boxes[id])
    ensures Perform(s, t, ExecEffect(cfg, s, Decide(t, now, stopOk))) == Decided(cfg, s, t, id, now, stopOk)
  {
    assert s.vars.inUse - {id} == s.vars.inUse && [id][1..] == [];
    DecideEffect(cfg, s, t, id, now, stopOk);
    hide ExecEffect;
    if stopOk {
      assert Perform(s, t, Effect(Halt, Goto(Run(Retired)), s.vars)) == Decided(cfg, s, t, id, now, true);
    } else {
      assert Perform(s, t, Effect(Halt, Ends, s.vars)) == Decided(cfg, s, t, id, now, false);
    }
  }

  lemma DecideKeeps(cfg: Config, s: Pool, t: Tid, id: Id, now: nat, stopOk: bool)
    requires s.vars.crash.None? && Holds(s, t, Execution, Run(Releasing), id) && id !in s.vars.inUse
    requires !UsedUp(cfg, s.vars.boxes[id])
    ensures Perform(s, t, ExecEffect(cfg, s, Decide(t, now, stopOk))) == Decided(cfg, s, t, id, now, stopOk)
  {
    assert s.vars.inUse - {id} == s.vars.inUse && [id][1..] == [];
    DecideEffect(cfg, s, t, id, now, stopOk);
    hide ExecEffect;
  }

  lemma DecideStep(cfg: Config, s: Pool, t: Tid, id: Id, now: nat, stopOk: bool)
    requires s.vars.crash.None? && Holds(s, t, Execution, Run(Releasing), id) && id !in s.vars.inUse
    ensures Enabled(s, X(Decide(t, now, stopOk)))
    ensures Apply(cfg, s, X(Decide(t, now, stopOk))) == Decided(cfg, s, t, id, now, stopOk)
  {
    hide ExecEffect, Perform, Decided;
    if UsedUp(cfg, s.vars.boxes[id]) {
      DecideRetires(cfg, s, t, id, now, stopOk);
    } else {
      DecideKeeps(cfg, s, t, id, now, stopOk);
    }
  }

  lemma BeginReleaseStep(cfg: Config, s: Pool, t: Tid, id: Id)
    requires s.vars.crash.None? && Holds(s, t, Execution, Run(Holding), id)
    ensures Enabled(s, X(BeginRelease(t)))
    ensures Apply(cfg, s, X(BeginRelease(t))) ==
            With(s, t, Thread(Execution, Run(Releasing), [id], [])).(vars := s.vars.(inUse := s.vars.inUse - {id}))
  {
  }

  lemma PushStep(cfg: Config, s: Pool, t: Tid, id: Id)
    requires s.vars.crash.None? && !s.vars.idleClosed && Holds(s, t, Execution, Run(Sending), id)
    ensures Enabled(s, X(Push(t, false)))
    ensures Apply(cfg, s, X(Push(t, false))) ==
            if |s.idle| < cfg.maxSize then Without(s, t).(idle := s.idle + [id]) else Retire(Without(s, t), id)
  {
  }

  lemma RespawnStep(cfg: Config, s: Pool, t: Tid)
    requires s.vars.crash.None? && !s.vars.waiters
    requires t in s.threads && s.threads[t] == Thread(Execution, Run(Retired), [], [])
    ensures Enabled(s, X(Respawn(t)))
    ensures Apply(cfg, s, X(Respawn(t))) == With(s, t, Thread(Worker, Make(Replenish), [], []))
  {
  }

  lemma AfterDecision(cfg: Config, s: Pool, t: Tid, id: Id, now: nat, stopOk: bool)
    requires s.vars.crash.None? && !s.vars.waiters && (s.vars.idleClosed ==> s.vars.closed)
    requires t in s.threads && id in s.vars.boxes
    ensures var es := ReleaseEvents(cfg, s, t, id, now, stopOk)[2..];
            Leads(cfg, Decided(cfg, s, t, id, now, stopOk), es, Released(cfg, s, t, id, now, stopOk))
  {
    var m, s' := Decided(cfg, s, t, id, now, stopOk), Released(cfg, s, t, id, now, stopOk);
    hide Enabled, Apply;
    if UsedUp(cfg, s.vars.boxes[id]) && stopOk {
      RespawnStep(cfg, m, t);
      assert s'.threads == m.threads[t := Thread(Worker, Make(Replenish), [], [])];
      OneStep(cfg, m, X(Respawn(t)), s');
    } else if !UsedUp(cfg, s.vars.boxes[id]) && !s.vars.closed {
      PushStep(cfg, m, t, id);
      assert m.threads - {t} == s.threads - {t};
      OneStep(cfg, m, X(Push(t, false)), s');
    }
  }

  /** Release alone is a run of the machine. */
  lemma ReleaseRunsAlone(cfg: Config, s: Pool, t: Tid, id: Id, now: nat, stopOk: bool)
    requires s.vars.crash.None? && !s.vars.waiters && (s.vars.idleClosed ==> s.vars.closed)
    requires Holds(s, t, Execution, Run(Holding), id)
    ensures Leads(cfg, s, ReleaseEvents(cfg, s, t, id, now, stopOk), Released(cfg, s, t, id, now, stopOk))
  {
    hide Enabled, Apply, Leads;
    var s1 := With(s, t, Thread(Execution, Run(Releasing), [id], [])).(vars := s.vars.(inUse := s.vars.inUse - {id}));
    BeginReleaseStep(cfg, s, t, id);
    DecideStep(cfg, s1, t, id, now, stopOk);
    assert Decided(cfg, s1, t, id, now, stopOk) == Decided(cfg, s, t, id, now, stopOk) by {
      assert s.vars.inUse - {id} - {id} == s.vars.inUse - {id};
      assert s1.threads - {t} == s.threads - {t};
      assert s1.threads[t := Thread(Execution, Run(Retired), [], [])]
          == s.threads[t := Thread(Execution, Run(Retired), [], [])];
      assert s1.threads[t := Thread(Execution, Run(Sending), [id], [])]
          == s.threads[t := Thread(Execution, Run(Sending), [id], [])];
    }
    Path2(cfg, s, X(BeginRelease(t)), s1, X(Decide(t, now, stopOk)), Decided(cfg, s, t, id, now, stopOk));
    AfterDecision(cfg, s, t, id, now, stopOk);
    var es := ReleaseEvents(cfg, s, t, id, now, stopOk);
    assert es == [X(BeginRelease(t)), X(Decide(t, now, stopOk))] + es[2..];
    Chain(cfg, s, [X(BeginRelease(t)), X(Decide(t, now, stopOk))], Decided(cfg, s, t, id, now, stopOk), es[2..],
          Released(cfg, s, t, id, now, stopOk));
  }

  // ---------------------------------------------------------------------
  // Discard, and the first thing its goroutine does
  // ---------------------------------------------------------------------

  function Discarded(s: Pool, t: Tid, id: Id): Pool
  {
    Retire(With(s, t, Thread(Worker, Make(Replenish), [], [])), id).(vars := s.vars.(inUse := s.vars.inUse - {id}))
  }

  lemma DiscardRunsAlone(cfg: Config, s: Pool, t: Tid, id: Id)
    requires s.vars.crash.None? && !s.vars.waiters && Holds(s, t, Execution, Run(Holding), id)
    ensures Leads(cfg, s, [X(BeginDiscard(t))] + [X(SpawnDiscard(t)), M(StopDiscarded(t))], Discarded(s, t, id))
  {
    hide Leads;
    var v := s.vars.(inUse := s.vars.inUse - {id});
    var s1 := With(s, t, Thread(Execution, Run(Discarding), [id], [])).(vars := v);
    assert Apply(cfg, s, X(BeginDiscard(t))) == s1;
    DiscardedIsStopped(cfg, s1, t, id);
    var s' := Discarded(s1, t, id);
    assert s' == Discarded(s, t, id) by {
      assert s.vars.inUse - {id} - {id} == s.vars.inUse - {id};
    }
    hide Enabled, Apply;
    Then(cfg, s, X(BeginDiscard(t)), [X(SpawnDiscard(t)), M(StopDiscarded(t))], s');
  }

  lemma DiscardedIsStopped(cfg: Config, s: Pool, t: Tid, id: Id)
    requires s.vars.crash.None? && !s.vars.waiters && Holds(s, t, Execution, Run(Discarding), id)
    requires id !in s.vars.inUse
    ensures Leads(cfg, s, [X(SpawnDiscard(t)), M(StopDiscarded(t))], Discarded(s, t, id))
  {
    hide Leads;
    var s1 := With(s, t, Thread(Worker, Make(Stopping), [id], []));
    assert s.vars.inUse - {id} == s.vars.inUse && [id][1..] == [];
    Path2(cfg, s, X(SpawnDiscard(t)), s1, M(StopDiscarded(t)), Discarded(s, t, id));
  }

  // ---------------------------------------------------------------------
  // enqueueNew
  // ---------------------------------------------------------------------

  /** What Docker answers when asked for a container and then to seed it. */
  datatype Answer = Answer(created: bool, id: Id, seeded: bool, now: nat)

  /** enqueueNew has returned to whoever called it: Start goes on, everyone else is done. */
  function Left(s: Pool, t: Tid, role: Role, ok: bool): Pool
  {
    if role.Starter? then With(s, t, Thread(Starter, Make(if ok then Fill else Launch), [], [])) else Without(s, t)
  }

  function Enqueued(cfg: Config, s: Pool, t: Tid, role: Role, a: Answer, waiting: bool): Pool
  {
    var made := s.vars.(boxes := s.vars.boxes[a.id := Box(0, 0, "")]);
    var ready := s.vars.(boxes := s.vars.boxes[a.id := Box(0, a.now, cfg.codeKey)]);
    if s.vars.closed || !a.created then Left(s, t, role, false)
    else if !a.seeded then Retire(Left(s, t, role, false), a.id).(vars := made)
    else if |s.idle| < cfg.maxSize || (waiting && s.idle == []) then
      Left(s, t, role, true).(idle := s.idle + [a.id], vars := ready)
    else Retire(Left(s, t, role, true), a.id).(vars := ready)
  }

  function EnqueueEvents(s: Pool, t: Tid, a: Answer, waiting: bool): seq<Event>
  {
    [M(CheckClosed(t))] +
    if s.vars.closed then []
    else [M(Create(t, a.id, a.created))] +
         if !a.created then []
         else [M(Seed(t, a.now, a.seeded))] + if !a.seeded then [] else [M(Recheck(t)), M(PushNew(t, waiting))]
  }

  /** Where the thread stands in between has no say in where it goes. */
  lemma LeftFrom(s: Pool, t: Tid, th: Thread, role: Role, ok: bool)
    ensures Left(With(s, t, th), t, role, ok) == Left(s, t, role, ok)
  {
    assert s.threads[t := th] - {t} == s.threads - {t};
    var back := Thread(Starter, Make(if ok then Fill else Launch), [], []);
    assert s.threads[t := th][t := back] == s.threads[t := back];
  }

  lemma RecheckStep(cfg: Config, s: Pool, t: Tid, role: Role, id: Id)
    requires s.vars.crash.None? && !s.vars.closed && Holds(s, t, role, Make(Checking), id)
    ensures Enabled(s, M(Recheck(t)))
    ensures Apply(cfg, s, M(Recheck(t))) == With(s, t, Thread(role, Make(Pushing), [id], []))
  {
  }

  lemma PushNewStep(cfg: Config, s: Pool, t: Tid, role: Role, id: Id, waiting: bool)
    requires s.vars.crash.None? && !s.vars.idleClosed && Holds(s, t, role, Make(Pushing), id)
    ensures Enabled(s, M(PushNew(t, waiting)))
    ensures Apply(cfg, s, M(PushNew(t, waiting))) ==
            if |s.idle| < cfg.maxSize || (waiting && s.idle == []) then
              Left(s, t, role, true).(idle := s.idle + [id])
            else Retire(Left(s, t, role, true), id)
  {
    assert [id][1..] == [];
  }

  lemma SeededRuns(cfg: Config, s: Pool, t: Tid, role: Role, id: Id, waiting: bool)
    requires s.vars.crash.None? && !s.vars.closed && !s.vars.idleClosed && Holds(s, t, role, Make(Checking), id)
    ensures Leads(cfg, s, [M(Recheck(t)), M(PushNew(t, waiting))],
                  if |s.idle| < cfg.maxSize || (waiting && s.idle == []) then
                    Left(s, t, role, true).(idle := s.idle + [id])
                  else Retire(Left(s, t, role, true), id))
  {
    hide Leads, Enabled, Apply;
    var th := Thread(role, Make(Pushing), [id], []);
    RecheckStep(cfg, s, t, role, id);
    PushNewStep(cfg, With(s, t, th), t, role, id, waiting);
    LeftFrom(s, t, th, role, true);
    hide Left;
    Path2(cfg, s, M(Recheck(t)), With(s, t, th), M(PushNew(t, waiting)),
          if |s.idle| < cfg.maxSize || (waiting && s.idle == []) then Left(s, t, role, true).(idle := s.idle + [id])
          else Retire(Left(s, t, role, true), id));
  }

  lemma SeedStep(cfg: Config, s: Pool, t: Tid, role: Role, id: Id, now: nat, ok: bool)
    requires s.vars.crash.None? && Holds(s, t, role, Make(Seeding), id)
    ensures Enabled(s, M(Seed(t, now, ok)))
    ensures Apply(cfg, s, M(Seed(t, now, ok))) ==
            if ok then With(s, t, Thread(role, Make(Checking), [id], [])).(
                         vars := s.vars.(boxes := s.vars.boxes[id := Box(0, now, cfg.codeKey)]))
            else Retire(Left(s, t, role, false), id)
  {
    assert [id][1..] == [];
  }

  lemma SeedRuns(cfg: Config, s: Pool, t: Tid, role: Role, a: Answer, waiting: bool)
    requires s.vars.crash.None? && !s.vars.closed && !s.vars.idleClosed && Holds(s, t, role, Make(Seeding), a.id)
    requires a.created && s.vars.boxes[a.id] == Box(0, 0, "")
    ensures Leads(cfg, s, SeedEvents(t, a, waiting), Enqueued(cfg, s, t, role, a, waiting))
  {
    hide Leads, Enabled, Apply;
    SeedStep(cfg, s, t, role, a.id, a.now, a.seeded);
    if a.seeded {
      var v := s.vars.(boxes := s.vars.boxes[a.id := Box(0, a.now, cfg.codeKey)]);
      var th := Thread(role, Make(Checking), [a.id], []);
      var s1 := With(s, t, th).(vars := v);
      SeededRuns(cfg, s1, t, role, a.id, waiting);
      LeftFrom(s.(vars := v), t, th, role, true);
      assert Left(s.(vars := v), t, role, true) == Left(s, t, role, true).(vars := v);
      hide Left;
      Then(cfg, s, M(Seed(t, a.now, true)), [M(Recheck(t)), M(PushNew(t, waiting))],
           Enqueued(cfg, s, t, role, a, waiting));
    } else {
      assert s.vars.boxes[a.id := Box(0, 0, "")] == s.vars.boxes;
      OneStep(cfg, s, M(Seed(t, a.now, false)), Enqueued(cfg, s, t, role, a, waiting));
      assert [M(Seed(t, a.now, false))] + [] == [M(Seed(t, a.now, false))];
    }
  }

  /** The pool with a container just created in the hands of thread t. */
  function Created(s: Pool, t: Tid, role: Role, id: Id): Pool
  {
    With(s, t, Thread(role, Make(Seeding), [id], [])).(vars := s.vars.(boxes := s.vars.boxes[id := Box(0, 0, "")]))
  }

  lemma CreateStep(cfg: Config, s: Pool, t: Tid, role: Role, id: Id, ok: bool)
    requires s.vars.crash.None? && id !in s.vars.boxes
    requires t in s.threads && s.threads[t] == Thread(role, Make(Creating), [], [])
    ensures Enabled(s, M(Create(t, id, ok)))
    ensures Apply(cfg, s, M(Create(t, id, ok))) == if ok then Created(s, t, role, id) else Left(s, t, role, false)
  {
    assert [] + [id] == [id];
  }

  function SeedEvents(t: Tid, a: Answer, waiting: bool): seq<Event>
  {
    [M(Seed(t, a.now, a.seeded))] + if !a.seeded then [] else [M(Recheck(t)), M(PushNew(t, waiting))]
  }

  lemma EnqueuedFrom(cfg: Config, s: Pool, t: Tid, th: Thread, role: Role, a: Answer, waiting: bool)
    ensures Enqueued(cfg, With(s, t, th), t, role, a, waiting) == Enqueued(cfg, s, t, role, a, waiting)
  {
    LeftFrom(s, t, th, role, true);
    LeftFrom(s, t, th, role, false);
    hide Left;
  }

  lemma LeftWith(s: Pool, v: Vars, t: Tid, role: Role, ok: bool)
    ensures Left(s.(vars := v), t, role, ok) == Left(s, t, role, ok).(vars := v)
  {
  }

  /** The container is in the pool's books already. */
  lemma BookedThenEnqueued(cfg: Config, s: Pool, v: Vars, t: Tid, role: Role, a: Answer, waiting: bool)
    requires !s.vars.closed && a.created && v == s.vars.(boxes := s.vars.boxes[a.id := Box(0, 0, "")])
    ensures Enqueued(cfg, s.(vars := v), t, role, a, waiting) == Enqueued(cfg, s, t, role, a, waiting)
  {
    assert v.boxes[a.id := Box(0, 0, "")] == v.boxes;
    assert v.boxes[a.id := Box(0, a.now, cfg.codeKey)] == s.vars.boxes[a.id := Box(0, a.now, cfg.codeKey)];
    LeftWith(s, v, t, role, a.seeded);
    hide Left;
  }

  lemma CreatedThenEnqueued(cfg: Config, s: Pool, t: Tid, role: Role, a: Answer, waiting: bool)
    requires !s.vars.closed && a.created
    ensures Enqueued(cfg, Created(s, t, role, a.id), t, role, a, waiting) == Enqueued(cfg, s, t, role, a, waiting)
  {
    var v := s.vars.(boxes := s.vars.boxes[a.id := Box(0, 0, "")]);
    EnqueuedFrom(cfg, s.(vars := v), t, Thread(role, Make(Seeding), [a.id], []), role, a, waiting);
    BookedThenEnqueued(cfg, s, v, t, role, a, waiting);
    hide Enqueued;
  }

  lemma CreateRuns(cfg: Config, s: Pool, t: Tid, role: Role, a: Answer, waiting: bool)
    requires s.vars.crash.None? && !s.vars.closed && !s.vars.idleClosed && a.id !in s.vars.boxes
    requires t in s.threads && s.threads[t] == Thread(role, Make(Creating), [], [])
    ensures Leads(cfg, s, EnqueueEvents(s, t, a, waiting)[1..], Enqueued(cfg, s, t, role, a, waiting))
  {
    hide Leads, Enabled, Apply;
    var es := EnqueueEvents(s, t, a, waiting)[1..];
    CreateStep(cfg, s, t, role, a.id, a.created);
    if a.created {
      var s1 := Created(s, t, role, a.id);
      SeedRuns(cfg, s1, t, role, a, waiting);
      CreatedThenEnqueued(cfg, s, t, role, a, waiting);
      assert es == [M(Create(t, a.id, true))] + SeedEvents(t, a, waiting);
      hide Enqueued, EnqueueEvents;
      Then(cfg, s, M(Create(t, a.id, true)), SeedEvents(t, a, waiting), Enqueued(cfg, s, t, role, a, waiting));
    } else {
      OneStep(cfg, s, M(Create(t, a.id, false)), Enqueued(cfg, s, t, role, a, waiting));
      assert es == [M(Create(t, a.id, false))];
    }
  }

  lemma CheckClosedStep(cfg: Config, s: Pool, t: Tid, role: Role)
    requires s.vars.crash.None?
    requires t in s.threads && s.threads[t] == Thread(role, Make(Enqueue), [], [])
    ensures Enabled(s, M(CheckClosed(t)))
    ensures Apply(cfg, s, M(CheckClosed(t))) ==
            if s.vars.closed then Left(s, t, role, false) else With(s, t, Thread(role, Make(Creating), [], []))
  {
  }

  /** enqueueNew alone, whoever calls it, is a run of the machine. */
  lemma EnqueueRunsAlone(cfg: Config, s: Pool, t: Tid, role: Role, a: Answer, waiting: bool)
    requires s.vars.crash.None? && a.id !in s.vars.boxes && (s.vars.idleClosed ==> s.vars.closed)
    requires t in s.threads && s.threads[t] == Thread(role, Make(Enqueue), [], [])
    ensures Leads(cfg, s, EnqueueEvents(s, t, a, waiting), Enqueued(cfg, s, t, role, a, waiting))
  {
    hide Leads, Enabled, Apply;
    var es := EnqueueEvents(s, t, a, waiting);
    CheckClosedStep(cfg, s, t, role);
    if s.vars.closed {
      OneStep(cfg, s, M(CheckClosed(t)), Left(s, t, role, false));
      assert es == [M(CheckClosed(t))];
    } else {
      var th := Thread(role, Make(Creating), [], []);
      CreateRuns(cfg, With(s, t, th), t, role, a, waiting);
      EnqueuedFrom(cfg, s, t, th, role, a, waiting);
      assert EnqueueEvents(With(s, t, th), t, a, waiting) == es && es == [M(CheckClosed(t))] + es[1..];
      hide EnqueueEvents, Enqueued;
      Then(cfg, s, M(CheckClosed(t)), es[1..], Enqueued(cfg, s, t, role, a, waiting));
    }
  }

  // ---------------------------------------------------------------------
  // Shutdown
  // ---------------------------------------------------------------------

  /** The pool after an undisturbed Shutdown. */
  function ShutDownAlone(s: Pool): Pool
  {
    s.(idle := [], stopped := s.stopped + s.idle,
       vars := s.vars.(closed := true, stopClosed := true, waited := true, idleClosed := true,
                       swept := s.vars.swept + s.vars.inUse))
  }

  /** The pool while thread t is in Shutdown. */
  function InShutdown(s: Pool, t: Tid, c: StopPoint): Pool { With(s, t, Thread(Stopper, Close(c), [], [])) }

  function Closed(s: Pool): Pool
  {
    s.(vars := s.vars.(closed := true, stopClosed := true, waited := true, idleClosed := true))
  }

  lemma BeginShutdownStep(cfg: Config, s: Pool, t: Tid)
    requires s.vars.crash.None? && t !in s.threads && !s.vars.closed && !SomeRole(s, Starter)
    ensures Enabled(s, S(BeginShutdown(t)))
    ensures Apply(cfg, s, S(BeginShutdown(t))) == InShutdown(s.(vars := s.vars.(closed := true)), t, CloseStop)
  {
  }

  lemma CloseStopStep(cfg: Config, s: Pool, t: Tid)
    requires s.vars.crash.None? && !s.vars.stopClosed
    ensures Enabled(InShutdown(s, t, CloseStop), S(CloseStopCh(t)))
    ensures Apply(cfg, InShutdown(s, t, CloseStop), S(CloseStopCh(t))) ==
            InShutdown(s.(vars := s.vars.(stopClosed := true)), t, AwaitGroup)
  {
  }

  lemma WaitAndClose(cfg: Config, s: Pool, t: Tid)
    requires s.vars.crash.None? && !s.vars.idleClosed
    requires forall h :: h in s.threads && h != t ==> !Tracked(s.threads[h].role)
    ensures Leads(cfg, InShutdown(s, t, AwaitGroup), [S(WaitReturns(t)), S(CloseIdleCh(t))],
                  InShutdown(s.(vars := s.vars.(waited := true, idleClosed := true)), t, DrainIdle))
  {
    hide Leads;
    Path2(cfg, InShutdown(s, t, AwaitGroup), S(WaitReturns(t)),
          InShutdown(s.(vars := s.vars.(waited := true)), t, CloseIdle),
          S(CloseIdleCh(t)), InShutdown(s.(vars := s.vars.(waited := true, idleClosed := true)), t, DrainIdle));
  }

  lemma CloseSteps(cfg: Config, s: Pool, t: Tid)
    requires s.vars.crash.None? && !s.vars.stopClosed && !s.vars.idleClosed && s.vars.closed
    requires forall h :: h in s.threads && h != t ==> !Tracked(s.threads[h].role)
    ensures Leads(cfg, InShutdown(s, t, CloseStop), [S(CloseStopCh(t))] + [S(WaitReturns(t)), S(CloseIdleCh(t))],
                  InShutdown(Closed(s), t, DrainIdle))
  {
    hide Leads, Enabled, Apply, InShutdown, Tracked;
    CloseStopStep(cfg, s, t);
    WaitAndClose(cfg, s.(vars := s.vars.(stopClosed := true)), t);
    Then(cfg, InShutdown(s, t, CloseStop), S(CloseStopCh(t)), [S(WaitReturns(t)), S(CloseIdleCh(t))],
         InShutdown(Closed(s), t, DrainIdle));
  }

  lemma StopIdleStep(cfg: Config, s: Pool, t: Tid)
    requires s.vars.crash.None? && s.idle != []
    ensures Enabled(InShutdown(s, t, DrainIdle), S(DrainShutdown(t)))
    ensures Apply(cfg, InShutdown(s, t, DrainIdle), S(DrainShutdown(t))) ==
            InShutdown(s.(idle := s.idle[1..], stopped := s.stopped + [s.idle[0]]), t, DrainIdle)
  {
  }

  lemma {:induction false} StopIdleLeads(cfg: Config, s: Pool, t: Tid) returns (events: seq<Event>)
    requires s.vars.crash.None?
    ensures Leads(cfg, InShutdown(s, t, DrainIdle), events,
                  InShutdown(s.(idle := [], stopped := s.stopped + s.idle), t, DrainIdle))
    decreases |s.idle|
  {
    hide Enabled, Apply;
    if s.idle == [] {
      events := [];
      assert s.stopped + [] == s.stopped;
    } else {
      StopIdleStep(cfg, s, t);
      var s1 := s.(idle := s.idle[1..], stopped := s.stopped + [s.idle[0]]);
      var more := StopIdleLeads(cfg, s1, t);
      assert s1.stopped + s1.idle == s.stopped + s.idle;
      events := [S(DrainShutdown(t))] + more;
      hide Leads, InShutdown;
      Then(cfg, InShutdown(s, t, DrainIdle), S(DrainShutdown(t)), more,
           InShutdown(s.(idle := [], stopped := s.stopped + s.idle), t, DrainIdle));
    }
  }

  function Swept(s: Pool, ids: set<Id>): Pool { s.(vars := s.vars.(swept := s.vars.swept + ids)) }

  lemma SweepStep(cfg: Config, s: Pool, t: Tid, id: Id)
    requires s.vars.crash.None? && id in s.vars.inUse
    ensures Enabled(InShutdown(s, t, Sweep), S(SweepOne(t, id)))
    ensures Apply(cfg, InShutdown(s, t, Sweep), S(SweepOne(t, id))) == InShutdown(Swept(s, {id}), t, Sweep)
  {
  }

  lemma {:induction false} SweepLeads(cfg: Config, s: Pool, t: Tid, todo: set<Id>) returns (events: seq<Event>)
    requires s.vars.crash.None? && todo <= s.vars.inUse
    ensures Leads(cfg, InShutdown(s, t, Sweep), events, InShutdown(Swept(s, todo), t, Sweep))
    decreases |todo|
  {
    hide Enabled, Apply;
    if todo == {} {
      events := [];
      assert s.vars.swept + todo == s.vars.swept;
    } else {
      var id :| id in todo;
      SweepStep(cfg, s, t, id);
      var more := SweepLeads(cfg, Swept(s, {id}), t, todo - {id});
      assert s.vars.swept + {id} + (todo - {id}) == s.vars.swept + todo;
      events := [S(SweepOne(t, id))] + more;
      hide Leads, InShutdown;
      Then(cfg, InShutdown(s, t, Sweep), S(SweepOne(t, id)), more, InShutdown(Swept(s, todo), t, Sweep));
    }
  }

  lemma DrainedAndSwept(cfg: Config, s: Pool, t: Tid)
    requires s.vars.crash.None? && t !in s.threads
    ensures s.idle == [] && s.vars.idleClosed ==>
              Leads(cfg, InShutdown(s, t, DrainIdle), [S(DrainShutdown(t))], InShutdown(s, t, Sweep))
    ensures Leads(cfg, InShutdown(s, t, Sweep), [S(EndShutdown(t))], s)
  {
    hide Leads;
    assert InShutdown(s, t, Sweep).threads - {t} == s.threads;
    OneStep(cfg, InShutdown(s, t, Sweep), S(EndShutdown(t)), s);
    if s.idle == [] && s.vars.idleClosed {
      OneStep(cfg, InShutdown(s, t, DrainIdle), S(DrainShutdown(t)), InShutdown(s, t, Sweep));
    }
  }

  /** Shutdown alone, with nothing registered to wait for and no Start running, is a run of the
      machine. */
  lemma ShutdownRunsAlone(cfg: Config, s: Pool, t: Tid) returns (events: seq<Event>)
    requires s.vars.crash.None? && t !in s.threads && !s.vars.closed && !s.vars.stopClosed && !s.vars.idleClosed
    requires !SomeRole(s, Starter) && NoneTracked(s)
    ensures Leads(cfg, s, events, ShutDownAlone(s))
  {
    hide Leads, Enabled, Apply, SomeRole, Tracked;
    BeginShutdownStep(cfg, s, t);
    var s1 := s.(vars := s.vars.(closed := true));
    CloseSteps(cfg, s1, t);
    var es := [S(CloseStopCh(t))] + [S(WaitReturns(t)), S(CloseIdleCh(t))];
    Then(cfg, s, S(BeginShutdown(t)), es, InShutdown(Closed(s1), t, DrainIdle));
    events := [S(BeginShutdown(t))] + es;
    assert Closed(s1) == Closed(s);
    var e2 := StopIdleLeads(cfg, Closed(s), t);
    var s2 := Closed(s).(idle := [], stopped := s.stopped + s.idle);
    hide InShutdown;
    Chain(cfg, s, events, InShutdown(Closed(s), t, DrainIdle), e2, InShutdown(s2, t, DrainIdle));
    DrainedAndSwept(cfg, s2, t);
    Chain(cfg, s, events + e2, InShutdown(s2, t, DrainIdle), [S(DrainShutdown(t))], InShutdown(s2, t, Sweep));
    var e3 := SweepLeads(cfg, s2, t, s.vars.inUse);
    var s3 := Swept(s2, s.vars.inUse);
    Chain(cfg, s, events + e2 + [S(DrainShutdown(t))], InShutdown(s2, t, Sweep), e3, InShutdown(s3, t, Sweep));
    DrainedAndSwept(cfg, s3, t);
    Chain(cfg, s, events + e2 + [S(DrainShutdown(t))] + e3, InShutdown(s3, t, Sweep), [S(EndShutdown(t))], s3);
    assert s3 == ShutDownAlone(s);
    events := events + e2 + [S(DrainShutdown(t))] + e3 + [S(EndShutdown(t))];
  }
}

/** Shutting pools down under the registry. getOrCreate publishes a pool before it starts it, so a
    replacement can shut the pool down before or during its Start: exactly then Start and
    Shutdown race, and the pool can panic. A pool that has been shut down and drained serves
    nobody, though its entry may still be found.
 */
module PoolRegistryShutdown {
  import opened Common
  import opened DockerPools
  import opened DockerPoolPlaces
  import opened DockerPoolSafety
  import opened DockerPoolClose
  import opened DockerPoolRoom
  import opened DockerPoolRuns
  import opened DockerPoolAlone
  import opened DockerPoolPanics
  import opened DockerPoolRaces
  import opened PoolRegistries
  import opened PoolRegistryRuns

  // ---------------------------------------------------------------------
  // The race, in registry terms
  // ---------------------------------------------------------------------

  /** The pool's creator has not called Start yet. */
  ghost predicate ToStart(r: Registry, pid: Pid) { exists c :: IsMade(r, c, pid) }

  /** Start and Shutdown of the pool have raced exactly when Shutdown ran before or during Start. */
  ghost predicate RaceKnown(r: Registry, pid: Pid)
    requires pid < |r.pools|
  {
    var s := r.pools[pid].pool;
    && (s.vars.startRaced <==> pid in r.early && !ToStart(r, pid))
    && (pid in r.early ==> s.vars.closed)
    && (ToStart(r, pid) && s.vars.closed ==> pid in r.early)
    && (ToStart(r, pid) ==> !SomeRole(s, Starter))
  }

  ghost predicate RacesKnown(r: Registry)
  {
    && (forall pid :: pid in r.early ==> pid < |r.pools|)
    && (forall c, pid: Pid :: IsMade(r, c, pid) ==> pid < |r.pools|)
    && (forall c, d, pid: Pid :: IsMade(r, c, pid) && IsMade(r, d, pid) ==> c == d)
    && forall pid :: 0 <= pid < |r.pools| ==> RaceKnown(r, pid)
  }

  lemma MadeAfterAct(r: Registry, a: Act, c: Cid, pid: Pid)
    requires Permits(r, a)
    ensures IsMade(Do(r, a), c, pid) <==>
              || (IsMade(r, c, pid) && !(a.CallStart? && a.c == c))
              || (ChangeOf(r, a).Added? && a.c == c && pid == |r.pools|)
  {
    hide Enabled, Apply;
  }

  lemma EarlyAfterAct(r: Registry, a: Act)
    requires Permits(r, a)
    ensures Do(r, a).early == if a.RunShutdown? && Unstarted(r, a.pid) then r.early + {a.pid} else r.early
    ensures a.CallStart? ==>
              && IsMade(r, a.c, r.callers[a.c].stage.pid)
              && ChangeOf(r, a) == Stepped(r.callers[a.c].stage.pid, M(BeginStart(a.t)))
    ensures ChangeOf(r, a).Stepped? && BeginsStart(ChangeOf(r, a).ev) ==> a.CallStart?
    ensures a.RunShutdown? ==> a.pid < |r.pools| && ChangeOf(r, a) == Stepped(a.pid, S(BeginShutdown(a.t)))
    ensures ChangeOf(r, a).Added? ==> a.Lock?
  {
    hide Enabled, Apply, SomeRole;
  }

  lemma ToStartAfter(r: Registry, a: Act, pid: Pid)
    requires Permits(r, a) && RacesKnown(r)
    ensures ToStart(Do(r, a), pid) <==>
              if a.CallStart? && pid == r.callers[a.c].stage.pid then false
              else ToStart(r, pid) || (ChangeOf(r, a).Added? && pid == |r.pools|)
  {
    EarlyAfterAct(r, a);
    forall c ensures IsMade(Do(r, a), c, pid) <==>
                       || (IsMade(r, c, pid) && !(a.CallStart? && a.c == c))
                       || (ChangeOf(r, a).Added? && a.c == c && pid == |r.pools|)
    {
      MadeAfterAct(r, a, c, pid);
    }
    hide Do, Permits, IsMade, RaceKnown;
    if ChangeOf(r, a).Added? && pid == |r.pools| {
      assert IsMade(Do(r, a), a.c, pid);
    } else if ToStart(r, pid) && !(a.CallStart? && pid == r.callers[a.c].stage.pid) {
      var c :| IsMade(r, c, pid);
      assert a.CallStart? ==> IsMade(r, a.c, r.callers[a.c].stage.pid);
      MadeOnce(r, a, c, pid);
      assert IsMade(Do(r, a), c, pid);
    }
  }

  /** A call is the creator of one pool. */
  lemma MadeOnce(r: Registry, a: Act, c: Cid, pid: Pid)
    requires Permits(r, a) && IsMade(r, c, pid) && (a.CallStart? ==> pid != r.callers[a.c].stage.pid)
    ensures a.CallStart? ==> a.c != c
  {
  }

  lemma UnstartedIff(r: Registry, pid: Pid)
    requires pid < |r.pools|
    ensures Unstarted(r, pid) <==> ToStart(r, pid) || SomeRole(r.pools[pid].pool, Starter)
  {
    hide SomeRole;
    if ToStart(r, pid) {
      var c :| IsMade(r, c, pid);
      assert c in r.callers && IsMade(r, c, pid);
    }
  }

  lemma NoStarterUnlessRaced(cfg: Config, s: Pool)
    requires Sound(cfg, s) && s.vars.closed && !s.vars.startRaced
    ensures !SomeRole(s, Starter)
  {
    forall t | t in s.threads ensures s.threads[t].role != Starter {
      assert ThreadCalm(s.vars, s.threads[t]);
    }
  }

  /** One step of one pool, for what it says about the race. */
  lemma SteppedRace(r: Registry, a: Act)
    requires Permits(r, a) && PoolsRun(r.pools) && RacesKnown(r) && ChangeOf(r, a).Stepped?
    ensures ChangeOf(r, a).pid < |r.pools| == |Do(r, a).pools|
    ensures RaceKnown(Do(r, a), ChangeOf(r, a).pid)
  {
    PoolsAfter(r, a);
    EarlyAfterAct(r, a);
    var pid, ev := ChangeOf(r, a).pid, ChangeOf(r, a).ev;
    var p := r.pools[pid];
    assert RaceKnown(r, pid);
    ReachableIsSound(p.cfg, p.pool);
    PoolStep(p.cfg, p.pool, ev);
    RaceAfter(p.cfg, p.pool, ev);
    ToStartAfter(r, a, pid);
    UnstartedIff(r, pid);
    assert Do(r, a).pools[pid].pool == Apply(p.cfg, p.pool, ev);
    if p.pool.vars.closed && !p.pool.vars.startRaced {
      NoStarterUnlessRaced(p.cfg, p.pool);
    }
    if SomeRole(Apply(p.cfg, p.pool, ev), Starter) && !BeginsStart(ev) {
      StartersAfter(p.cfg, p.pool, ev);
    }
    hide Enabled, Apply, Permits, Do, ChangeOf, SomeRole, ToStart, Sound, PoolsRun, RacesKnown, Unstarted, IsMade;
  }

  /** A pool the act does not step keeps what is known about it. */
  lemma OtherRace(r: Registry, a: Act, pid: Pid)
    requires Permits(r, a) && RacesKnown(r) && pid < |Do(r, a).pools|
    requires ChangeOf(r, a).Stepped? ==> ChangeOf(r, a).pid != pid
    ensures RaceKnown(Do(r, a), pid)
  {
    PoolsAfter(r, a);
    EarlyAfterAct(r, a);
    ToStartAfter(r, a, pid);
    if pid < |r.pools| {
      assert RaceKnown(r, pid);
    } else {
      assert !SomeRole(New(), Starter);
    }
    hide Enabled, Apply, Permits, Do, ChangeOf, SomeRole, ToStart, IsMade;
  }

  lemma ActKeepsRaces(r: Registry, a: Act)
    requires Orderly(r) && RacesKnown(r) && Permits(r, a)
    ensures RacesKnown(Do(r, a))
  {
    PoolsAfter(r, a);
    EarlyAfterAct(r, a);
    var r' := Do(r, a);
    hide Do, Permits, RaceKnown, IsMade, Enabled, Apply, CallersServed, EntriesServe, RunnersApart, Accounted,
        BoxesApart;
    forall pid | 0 <= pid < |r'.pools| ensures RaceKnown(r', pid) {
      if ChangeOf(r, a).Stepped? && ChangeOf(r, a).pid == pid {
        SteppedRace(r, a);
      } else {
        OtherRace(r, a, pid);
      }
    }
    forall c, d, pid: Pid | IsMade(r', c, pid) && IsMade(r', d, pid) ensures c == d && pid < |r'.pools| {
      MadeAfterAct(r, a, c, pid);
      MadeAfterAct(r, a, d, pid);
    }
  }

  lemma {:induction false} RunKeepsRaces(cfg: Config, acts: seq<Act>)
    requires Allowed(cfg, acts)
    ensures RacesKnown(After(cfg, acts))
    decreases |acts|
  {
    if acts != [] {
      hide Orderly, Do, Permits, RacesKnown;
      var n := |acts| - 1;
      RunKeepsRaces(cfg, acts[..n]);
      RunIsOrderly(cfg, acts[..n]);
      ActKeepsRaces(After(cfg, acts[..n]), acts[n]);
    }
  }

  /** In every run of the registry, Start and Shutdown of a pool have overlapped if and only if Start
      has been called and Shutdown ran before or during it, and a lifecycle goroutine of the pool
      has panicked only then. */
  lemma RacedIff(cfg: Config, acts: seq<Act>, pid: Pid)
    requires Allowed(cfg, acts) && pid < |After(cfg, acts).pools|
    ensures var r := After(cfg, acts);
            && (r.pools[pid].pool.vars.startRaced <==> pid in r.early && !ToStart(r, pid))
            && (r.pools[pid].pool.vars.crash.Some? && r.pools[pid].pool.vars.crash.value.role == Lifecycle
                ==> pid in r.early)
  {
    RunKeepsRaces(cfg, acts);
    RunIsOrderly(cfg, acts);
    var r := After(cfg, acts);
    hide Allowed, After;
    assert RaceKnown(r, pid);
    ReachableIsSound(r.pools[pid].cfg, r.pools[pid].pool);
    hide ToStart, SomeRole, RacesKnown, Orderly;
  }

  // ---------------------------------------------------------------------
  // Which calls are safe
  // ---------------------------------------------------------------------

  /** The run asks only for these functions under these keys, and shuts the registry down only if
      it may. */
  predicate Within(acts: seq<Act>, asks: set<(string, string)>, shut: bool)
  {
    forall i :: 0 <= i < |acts| ==> Sticks(acts[i], asks, shut)
  }

  predicate Sticks(a: Act, asks: set<(string, string)>, shut: bool)
  {
    (a.Look? ==> (a.fn, a.key) in asks) && (a.ShutdownAll? ==> shut)
  }

  ghost predicate NeverPanics(cfg: Config, asks: set<(string, string)>, shut: bool)
  {
    forall acts, pid: Pid :: Allowed(cfg, acts) && Within(acts, asks, shut) && pid < |After(cfg, acts).pools| ==>
      After(cfg, acts).pools[pid].pool.vars.crash.None?
  }

  predicate OneKeyEach(asks: set<(string, string)>)
  {
    forall p, q :: p in asks && q in asks && p.0 == q.0 ==> p.1 == q.1
  }

  /** Entries and calls are as asked, nothing is to be shut down, and every pool is open. */
  predicate Steady(r: Registry, asks: set<(string, string)>)
  {
    && r.doomed == {}
    && (forall fn :: fn in r.entries ==> (fn, r.entries[fn].key) in asks)
    && (forall c :: c in r.callers ==> (r.callers[c].fn, r.callers[c].key) in asks)
    && forall pid :: 0 <= pid < |r.pools| ==> !r.pools[pid].pool.vars.closed && r.pools[pid].pool.vars.crash.None?
  }

  /** A step of an open pool does not panic. */
  lemma OpenStepIsSafe(cfg: Config, s: Pool, ev: Event)
    requires Sound(cfg, s) && Enabled(s, ev) && !s.vars.closed
    ensures Apply(cfg, s, ev).vars.crash.None?
  {
    StepApt(cfg, s, ev);
    var t := Actor(ev);
    assert t in s.threads ==> Shape(s.threads[t]) && ThreadCalm(s.vars, s.threads[t]);
    hide Enabled, EffectOf, Actor, Sound, Hands, IdleAfter, StoppedAfter, Continue, Risky;
  }

  lemma PoolsStaySteady(r: Registry, pools: seq<PoolRec>, ch: Change, asks: set<(string, string)>, pid: Pid)
    requires PoolsRun(r.pools) && Steady(r, asks) && Changed(r, pools, ch) && pid < |pools|
    requires ch.Stepped? ==> !BeginsShutdown(ch.ev)
    ensures !pools[pid].pool.vars.closed && pools[pid].pool.vars.crash.None?
  {
    hide Reachable, Enabled, Apply, Sound;
    if ch.Stepped? && ch.pid == pid {
      ReachableIsSound(r.pools[pid].cfg, r.pools[pid].pool);
      PoolStep(r.pools[pid].cfg, r.pools[pid].pool, ch.ev);
      OpenStepIsSafe(r.pools[pid].cfg, r.pools[pid].pool, ch.ev);
    }
  }

  /** A call never finds its function under another key. */
  lemma NothingOutdated(r: Registry, a: Act, asks: set<(string, string)>)
    requires Steady(r, asks) && OneKeyEach(asks) && Permits(r, a)
    ensures Outdated(r, a) == {} && !a.RunShutdown?
  {
    if a.Lock? && r.callers[a.c].fn in r.entries {
      var fn := r.callers[a.c].fn;
      assert (fn, r.callers[a.c].key) in asks && (fn, r.entries[fn].key) in asks;
    }
  }

  lemma CallersStick(r: Registry, a: Act, asks: set<(string, string)>, c: Cid)
    requires Steady(r, asks) && Permits(r, a) && (a.Look? ==> (a.fn, a.key) in asks) && c in Do(r, a).callers
    ensures (Do(r, a).callers[c].fn, Do(r, a).callers[c].key) in asks
  {
    hide Enabled, Apply;
  }

  lemma ActKeepsSteady(r: Registry, a: Act, asks: set<(string, string)>, shut: bool)
    requires Orderly(r) && Steady(r, asks) && OneKeyEach(asks) && (shut ==> asks == {})
    requires Permits(r, a) && Sticks(a, asks, shut)
    ensures Steady(Do(r, a), asks)
  {
    PoolsAfter(r, a);
    BooksAfter(r, a);
    NothingOutdated(r, a, asks);
    assert a.ShutdownAll? ==> Currents(r) == {};
    assert ChangeOf(r, a).Added? ==> (ChangeOf(r, a).fn, ChangeOf(r, a).key) in asks;
    var r' := Do(r, a);
    hide Do, Permits, ChangeOf, Outdated, Enabled, Apply, Changed, Currents, OneKeyEach;
    forall pid | 0 <= pid < |r'.pools| ensures !r'.pools[pid].pool.vars.closed && r'.pools[pid].pool.vars.crash.None? {
      PoolsStaySteady(r, r'.pools, ChangeOf(r, a), asks, pid);
    }
    forall c | c in r'.callers ensures (r'.callers[c].fn, r'.callers[c].key) in asks {
      CallersStick(r, a, asks, c);
    }
  }

  lemma {:induction false} RunIsSteady(cfg: Config, acts: seq<Act>, asks: set<(string, string)>, shut: bool)
    requires Allowed(cfg, acts) && Within(acts, asks, shut) && OneKeyEach(asks) && (shut ==> asks == {})
    ensures Steady(After(cfg, acts), asks)
    decreases |acts|
  {
    if acts != [] {
      hide Steady, Do, Permits, Orderly, OneKeyEach, Sticks;
      var n := |acts| - 1;
      RunIsSteady(cfg, acts[..n], asks, shut);
      RunIsOrderly(cfg, acts[..n]);
      ActKeepsSteady(After(cfg, acts[..n]), acts[n], asks, shut);
    }
  }

  lemma Onward(cfg: Config, acts: seq<Act>, a: Act, asks: set<(string, string)>, shut: bool) returns (more: seq<Act>)
    requires Allowed(cfg, acts) && Permits(After(cfg, acts), a) && Within(acts, asks, shut) && Sticks(a, asks, shut)
    ensures Allowed(cfg, more) && After(cfg, more) == Do(After(cfg, acts), a) && Within(more, asks, shut)
  {
    hide Permits, Do, Sticks;
    more := acts + [a];
    assert more[..|more| - 1] == acts;
  }

  /** Steps that a pool's goroutines take by themselves are acts of the registry. */
  lemma {:induction false} InsideRuns(cfg: Config, acts: seq<Act>, pid: Pid, events: seq<Event>, s': Pool,
                                      asks: set<(string, string)>, shut: bool) returns (more: seq<Act>)
    requires Allowed(cfg, acts) && pid < |After(cfg, acts).pools| && Within(acts, asks, shut)
    requires Leads(After(cfg, acts).pools[pid].cfg, After(cfg, acts).pools[pid].pool, events, s')
    requires forall i :: 0 <= i < |events| ==> Quiet(events[i])
    ensures Allowed(cfg, more) && pid < |After(cfg, more).pools| && Within(more, asks, shut)
    ensures After(cfg, more).pools[pid].pool == s'
    decreases |events|
  {
    hide Allowed, After, Enabled, Apply, Within;
    if events == [] {
      more := acts;
    } else {
      assert Quiet(events[0]);
      more := Onward(cfg, acts, Inside(pid, events[0]), asks, shut);
      more := InsideRuns(cfg, more, pid, events[1..], s', asks, shut);
    }
  }

  lemma EmptyRun(cfg: Config)
    ensures Allowed(cfg, []) && After(cfg, []) == Empty(cfg)
  {
  }

  /** Pool 0 is to be shut down before its creator, call 0, has started it. */
  predicate DoomedEarly(r: Registry)
  {
    && |r.pools| > 0 && 0 in r.doomed && r.pools[0].pool == New()
    && 0 in r.callers && r.callers[0].stage == Made(0)
  }

  /** By a call with another key, or by the registry's own Shutdown. */
  lemma DoomedByKey(cfg: Config, fn: string, a: string, b: string, asks: set<(string, string)>, shut: bool)
      returns (acts: seq<Act>)
    requires a != b && (fn, a) in asks && (fn, b) in asks
    ensures Allowed(cfg, acts) && Within(acts, asks, shut) && DoomedEarly(After(cfg, acts))
  {
    hide Allowed, After, Within;
    acts := FirstCall(cfg, fn, a, asks, shut);
    acts := Onward(cfg, acts, Look(1, fn, b), asks, shut);
    acts := Onward(cfg, acts, Lock(1, true), asks, shut);
  }

  lemma DoomedByShutdown(cfg: Config, fn: string, a: string, asks: set<(string, string)>) returns (acts: seq<Act>)
    requires (fn, a) in asks
    ensures Allowed(cfg, acts) && Within(acts, asks, true) && DoomedEarly(After(cfg, acts))
  {
    hide Allowed, After, Within;
    acts := FirstCall(cfg, fn, a, asks, true);
    assert After(cfg, acts).entries[fn].pid in Currents(After(cfg, acts));
    acts := Onward(cfg, acts, ShutdownAll, asks, true);
  }

  lemma FirstCall(cfg: Config, fn: string, a: string, asks: set<(string, string)>, shut: bool) returns (acts: seq<Act>)
    requires (fn, a) in asks
    ensures Allowed(cfg, acts) && Within(acts, asks, shut)
    ensures After(cfg, acts) == Registry(cfg, map[fn := Entry(a, 0)], [PoolRec(fn, cfg.(codeKey := a), New())],
                                         map[0 := Caller(fn, a, Made(0))], {}, {}, {})
  {
    EmptyRun(cfg);
    assert Within([], asks, shut);
    hide Allowed, After, Within;
    acts := Onward(cfg, [], Look(0, fn, a), asks, shut);
    acts := Onward(cfg, acts, Lock(0, true), asks, shut);
    assert After(cfg, acts).callers == map[0 := Caller(fn, a, Made(0))];
    assert After(cfg, acts).entries == map[fn := Entry(a, 0)];
    assert After(cfg, acts).doomed == {};
  }

  /** A pool whose Start and Shutdown have both begun. */
  function Racing(): Pool
  {
    var s := New().(threads := map[0 := Thread(Starter, Make(Fill), [], [])]);
    InShutdown(s.(vars := s.vars.(closed := true, startRaced := true)), 1, CloseStop)
  }

  lemma RacingPanics(cfg: Config)
    ensures CanPanic(cfg, Racing(), LifecyclePanic(true))
  {
    hide CanPanic;
    var s := New().(threads := map[0 := Thread(Starter, Make(Fill), [], [])]);
    var s1 := s.(vars := s.vars.(closed := true, startRaced := true));
    StartPastShutdownPanics(cfg, InShutdown(Closed(s1), 1, DrainIdle), 0, true);
    assert NoneTracked(s1);
    ShutdownGoesOn(cfg, s1, 1, LifecyclePanic(true));
  }

  lemma StartThenShutdown(cfg: Config)
    ensures Enabled(New(), M(BeginStart(0)))
    ensures var s := Apply(cfg, New(), M(BeginStart(0)));
            Enabled(s, S(BeginShutdown(1))) && Apply(cfg, s, S(BeginShutdown(1))) == Racing()
  {
    var s := New().(threads := map[0 := Thread(Starter, Make(Fill), [], [])]);
    assert Apply(cfg, New(), M(BeginStart(0))) == s;
    assert s.threads[0].role == Starter;
    assert SomeRole(s, Starter);
    assert Apply(cfg, s, S(BeginShutdown(1))) == Racing();
  }

  lemma QuietRun(cfg: Config, s: Pool) returns (events: seq<Event>, s': Pool)
    requires CanPanic(cfg, s, LifecyclePanic(true))
    ensures Leads(cfg, s, events, s') && s'.vars.crash.Some? && forall i :: 0 <= i < |events| ==> Quiet(events[i])
  {
    events, s' :| Leads(cfg, s, events, s') && Met(s'.vars, LifecyclePanic(true))
        && Keeps(LifecyclePanic(true), events);
  }

  lemma BothBegin(cfg: Config, acts: seq<Act>, asks: set<(string, string)>, shut: bool) returns (more: seq<Act>)
    requires Allowed(cfg, acts) && DoomedEarly(After(cfg, acts)) && Within(acts, asks, shut)
    ensures Allowed(cfg, more) && Within(more, asks, shut) && |After(cfg, more).pools| > 0
    ensures After(cfg, more).pools[0].pool == Racing()
  {
    hide Allowed, After, Enabled, Apply, Unstarted, Within, Racing;
    StartThenShutdown(After(cfg, acts).pools[0].cfg);
    more := Onward(cfg, acts, CallStart(0, 0), asks, shut);
    more := Onward(cfg, more, RunShutdown(0, 1), asks, shut);
  }

  /** A pool doomed before it was started can panic. */
  lemma DoomedEarlyPanics(cfg: Config, acts: seq<Act>, asks: set<(string, string)>, shut: bool)
    requires Allowed(cfg, acts) && DoomedEarly(After(cfg, acts)) && Within(acts, asks, shut)
    ensures !NeverPanics(cfg, asks, shut)
  {
    hide Allowed, After, Leads, CanPanic, Racing, Within;
    var more := BothBegin(cfg, acts, asks, shut);
    var key := After(cfg, more).pools[0].cfg;
    RacingPanics(key);
    var events, s' := QuietRun(key, Racing());
    more := InsideRuns(cfg, more, 0, events, s', asks, shut);
    assert After(cfg, more).pools[0].pool.vars.crash.Some?;
  }

  /** Main result: whatever the configuration, no thread of any pool panics on any run that asks
      only for these functions under these keys, if and only if each function is asked for under
      one key and the registry is not shut down (unless nothing is ever asked). */
  lemma RegistrySafeIff(cfg: Config, asks: set<(string, string)>, shut: bool)
    ensures NeverPanics(cfg, asks, shut) <==> OneKeyEach(asks) && (shut ==> asks == {})
  {
    hide Allowed, After, Within, DoomedEarly;
    if OneKeyEach(asks) && (shut ==> asks == {}) {
      forall acts, pid: Pid | Allowed(cfg, acts) && Within(acts, asks, shut) && pid < |After(cfg, acts).pools|
        ensures After(cfg, acts).pools[pid].pool.vars.crash.None?
      {
        RunIsSteady(cfg, acts, asks, shut);
      }
    } else if !OneKeyEach(asks) {
      var p, q :| p in asks && q in asks && p.0 == q.0 && p.1 != q.1;
      assert (p.0, p.1) in asks && (p.0, q.1) in asks by { assert p == (p.0, p.1) && q == (p.0, q.1); }
      var acts := DoomedByKey(cfg, p.0, p.1, q.1, asks, shut);
      DoomedEarlyPanics(cfg, acts, asks, shut);
    } else {
      var p :| p in asks;
      assert (p.0, p.1) in asks by { assert p == (p.0, p.1); }
      var acts := DoomedByShutdown(cfg, p.0, p.1, asks);
      DoomedEarlyPanics(cfg, acts, asks, shut);
    }
  }

  // ---------------------------------------------------------------------
  // Drained pools
  // ---------------------------------------------------------------------

  predicate Drained(r: Registry, pid: Pid)
  {
    pid < |r.pools| && r.pools[pid].pool.vars.idleClosed && r.pools[pid].pool.idle == []
  }

  lemma ActKeepsDrained(r: Registry, a: Act, pid: Pid)
    requires PoolsRun(r.pools) && Permits(r, a) && Drained(r, pid)
    ensures Drained(Do(r, a), pid)
  {
    PoolsAfter(r, a);
    hide Permits, Do, Enabled, Apply;
    if ChangeOf(r, a).Stepped? && ChangeOf(r, a).pid == pid {
      ReachableIsSound(r.pools[pid].cfg, r.pools[pid].pool);
      ClosedChannelShrinks(r.pools[pid].cfg, r.pools[pid].pool, ChangeOf(r, a).ev);
    }
    hide ChangeOf, Sound, Reachable;
  }

  lemma NobodyReceives(r: Registry, pid: Pid, c: Cid, t: Tid)
    requires Drained(r, pid) && c in r.callers && r.callers[c].stage == Resolved(pid)
    ensures !Permits(r, ReceiveFor(c, t))
  {
  }

  lemma {:induction false} DrainedStaysDrained(cfg: Config, acts: seq<Act>, more: seq<Act>, pid: Pid)
    requires Allowed(cfg, acts) && Allowed(cfg, acts + more) && Drained(After(cfg, acts), pid)
    ensures Drained(After(cfg, acts + more), pid)
    decreases |more|
  {
    if more == [] {
      assert acts + more == acts;
    } else {
      var n := |more| - 1;
      SplitActs(cfg, acts, more);
      hide Allowed, After, Do, Permits, Drained;
      DrainedStaysDrained(cfg, acts, more[..n], pid);
      RunIsOrderly(cfg, acts + more[..n]);
      ActKeepsDrained(After(cfg, acts + more[..n]), more[n], pid);
    }
  }

  lemma SplitActs(cfg: Config, acts: seq<Act>, more: seq<Act>)
    requires more != [] && Allowed(cfg, acts + more)
    ensures var init, last := acts + more[..|more| - 1], more[|more| - 1];
            Allowed(cfg, init) && Permits(After(cfg, init), last)
                && After(cfg, acts + more) == Do(After(cfg, init), last)
  {
    var all, n := acts + more, |acts + more| - 1;
    assert all[..n] == acts + more[..|more| - 1] && all[n] == more[|more| - 1];
    hide Permits, Do;
  }

  /** While a pool is the current entry, calls with its key resolve to it. */
  lemma CurrentIsFound(r: Registry, pid: Pid, c: Cid)
    requires Current(r, pid) && c !in r.callers
    ensures Do(r, Look(c, r.pools[pid].fn, r.entries[r.pools[pid].fn].key)).callers[c].stage == Resolved(pid)
  {
    hide Enabled, Apply;
  }

  /** Main result: once a pool is shut down and drained, in every continuation no call that
      resolved to it receives a container, and as long as its entry stays every new call with its
      key resolves to it. After a failed replacement that is the fate of calls with the old key
      until a replacement succeeds. */
  lemma DrainedPoolServesNobody(cfg: Config, acts: seq<Act>, more: seq<Act>, pid: Pid, c: Cid, t: Tid)
    requires Allowed(cfg, acts) && Allowed(cfg, acts + more) && Drained(After(cfg, acts), pid)
    ensures var r := After(cfg, acts + more);
            && Drained(r, pid)
            && (c in r.callers && r.callers[c].stage == Resolved(pid) ==> !Permits(r, ReceiveFor(c, t)))
            && (c !in r.callers && Current(r, pid) ==>
                  Do(r, Look(c, r.pools[pid].fn, r.entries[r.pools[pid].fn].key)).callers[c].stage == Resolved(pid))
  {
    DrainedStaysDrained(cfg, acts, more, pid);
    hide Allowed, After, Enabled, Apply, Drained;
    var r := After(cfg, acts + more);
    if c in r.callers && r.callers[c].stage == Resolved(pid) {
      NobodyReceives(r, pid, c, t);
    }
    if c !in r.callers && Current(r, pid) {
      CurrentIsFound(r, pid, c);
    }
  }
}

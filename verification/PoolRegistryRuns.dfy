/** What holds in every run of the registry: executions get the code they asked for and share
    no container, and every pool is current or told to shut down.
 */
module PoolRegistryRuns {
  import opened DockerPools
  import opened DockerPoolPlaces
  import opened DockerPoolSafety
  import opened DockerPoolRuns
  import opened DockerPoolRaces
  import opened PoolRegistries

  // ---------------------------------------------------------------------
  // What the registry needs to know about one pool step
  // ---------------------------------------------------------------------

  lemma ReachableIsSound(cfg: Config, s: Pool)
    requires Reachable(cfg, s)
    ensures Sound(cfg, s)
  {
    var events :| Legal(cfg, events) && Final(cfg, events) == s;
    RunIsSound(cfg, events);
  }

  predicate Creates(ev: Event, id: Id) { ev.M? && ev.m.Create? && ev.m.id == id }

  /** Only a Docker create adds a container, and only Shutdown closes the pool. */
  predicate Ordinary(s: Pool, ev: Event, e: Effect)
  {
    && (e.motion.Gain? ==> Creates(ev, e.motion.id))
    && (e.vars.closed <==> s.vars.closed || BeginsShutdown(ev))
  }

  lemma ExecOrdinary(cfg: Config, s: Pool, ev: ExecEvent)
    requires ExecEnabled(s, ev)
    ensures Ordinary(s, X(ev), ExecEffect(cfg, s, ev))
  {
  }

  lemma MakeOrdinary(cfg: Config, s: Pool, ev: MakeEvent)
    requires MakeEnabled(s, ev)
    ensures Ordinary(s, M(ev), MakeEffect(cfg, s, ev))
  {
  }

  lemma TickOrdinary(cfg: Config, s: Pool, ev: TickEvent)
    requires TickEnabled(s, ev)
    ensures Ordinary(s, T(ev), TickEffect(cfg, s, ev))
  {
  }

  lemma StopOrdinary(s: Pool, ev: StopEvent)
    requires StopEnabled(s, ev)
    ensures Ordinary(s, S(ev), StopEffect(s, ev))
  {
  }

  lemma StepOrdinary(cfg: Config, s: Pool, ev: Event)
    requires Enabled(s, ev)
    ensures Ordinary(s, ev, EffectOf(cfg, s, ev))
  {
    hide ExecEnabled, MakeEnabled, TickEnabled, StopEnabled, ExecEffect, MakeEffect, TickEffect, StopEffect, Ordinary;
    match ev
    case X(x) => ExecOrdinary(cfg, s, x);
    case M(m) => MakeOrdinary(cfg, s, m);
    case T(k) => TickOrdinary(cfg, s, k);
    case S(x) => StopOrdinary(s, x);
  }

  lemma PoolStep(cfg: Config, s: Pool, ev: Event)
    requires Sound(cfg, s) && Enabled(s, ev)
    ensures forall id :: id in Apply(cfg, s, ev).vars.boxes ==> id in s.vars.boxes || Creates(ev, id)
    ensures Apply(cfg, s, ev).vars.closed <==> s.vars.closed || BeginsShutdown(ev)
  {
    StepNewBox(cfg, s, ev);
    StepOrdinary(cfg, s, ev);
    hide Sound, Enabled, EffectOf, Creates, BeginsShutdown;
  }

  /** The execution on thread h is not disturbed by steps of others. */
  lemma OthersLeaveExecution(cfg: Config, s: Pool, ev: Event, h: Tid)
    requires Shaped(s) && Enabled(s, ev)
    requires h in s.threads && s.threads[h].role.Execution? && (ev.X? && !ev.x.Receive? ==> ev.x.t != h)
    ensures h in Apply(cfg, s, ev).threads && Apply(cfg, s, ev).threads[h].role.Execution?
  {
    StepTidy(cfg, s, ev);
    assert Shape(s.threads[h]);
    assert Actor(ev) != h;
    hide Tidy, Shape, Shaped, Enabled, EffectOf;
  }

  // ---------------------------------------------------------------------
  // How an act changes the pools
  // ---------------------------------------------------------------------

  datatype Change = Same | Added(fn: string, key: string) | Stepped(pid: Pid, ev: Event)

  function ChangeOf(r: Registry, a: Act): Change
    requires Permits(r, a)
  {
    match a
    case Lock(c, created) =>
      if Hits(r, r.callers[c].fn, r.callers[c].key) || !created then Same else Added(r.callers[c].fn, r.callers[c].key)
    case CallStart(c, t) => Stepped(r.callers[c].stage.pid, M(BeginStart(t)))
    case ReceiveFor(c, t) => Stepped(r.callers[c].stage.pid, X(Receive(t)))
    case Exec(c, x) => Stepped(r.callers[c].stage.pid, X(x))
    case Inside(pid, ev) => Stepped(pid, ev)
    case RunShutdown(pid, t) => Stepped(pid, S(BeginShutdown(t)))
    case _ => Same
  }

  predicate Changed(r: Registry, pools: seq<PoolRec>, ch: Change)
  {
    match ch
    case Same => pools == r.pools
    case Added(fn, key) => pools == r.pools + [PoolRec(fn, r.cfg.(codeKey := key), New())]
    case Stepped(pid, ev) =>
      && pid < |r.pools| && Enabled(r.pools[pid].pool, ev)
      && pools == r.pools[pid := r.pools[pid].(pool := Apply(r.pools[pid].cfg, r.pools[pid].pool, ev))]
  }

  lemma PoolsAfter(r: Registry, a: Act)
    requires Permits(r, a)
    ensures Changed(r, Do(r, a).pools, ChangeOf(r, a)) && Do(r, a).cfg == r.cfg
    ensures ChangeOf(r, a).Stepped? ==> forall id :: Creates(ChangeOf(r, a).ev, id) ==> NewToAll(r, id)
    ensures ChangeOf(r, a).Stepped? && BeginsShutdown(ChangeOf(r, a).ev) ==> a.RunShutdown?
  {
    hide Enabled, Apply, NewToAll;
  }

  // ---------------------------------------------------------------------
  // Pools
  // ---------------------------------------------------------------------

  /** Every pool is where a run of the pool machine with its own code key can be. */
  ghost predicate PoolsRun(pools: seq<PoolRec>)
  {
    forall pid :: 0 <= pid < |pools| ==> Reachable(pools[pid].cfg, pools[pid].pool)
  }

  predicate Owns(pools: seq<PoolRec>, pid: Pid, id: Id) { pid < |pools| && id in pools[pid].pool.vars.boxes }

  ghost predicate BoxesApart(pools: seq<PoolRec>)
  {
    forall p, q, id :: Owns(pools, p, id) && Owns(pools, q, id) ==> p == q
  }

  lemma ChangeKeepsPoolsRun(r: Registry, pools: seq<PoolRec>, ch: Change)
    requires PoolsRun(r.pools) && Changed(r, pools, ch)
    ensures PoolsRun(pools)
  {
    hide Reachable, Enabled, Apply;
    match ch
    case Same =>
    case Added(fn, key) => NewIsReachable(r.cfg.(codeKey := key));
    case Stepped(pid, ev) => Extend(r.pools[pid].cfg, r.pools[pid].pool, ev);
  }

  lemma ChangeKeepsBoxesApart(r: Registry, pools: seq<PoolRec>, ch: Change)
    requires PoolsRun(r.pools) && BoxesApart(r.pools) && Changed(r, pools, ch)
    requires ch.Stepped? ==> forall id :: Creates(ch.ev, id) ==> NewToAll(r, id)
    ensures BoxesApart(pools)
  {
    hide Reachable, Enabled, Apply, Creates;
    if ch.Stepped? {
      ReachableIsSound(r.pools[ch.pid].cfg, r.pools[ch.pid].pool);
      PoolStep(r.pools[ch.pid].cfg, r.pools[ch.pid].pool, ch.ev);
      forall p, id | Owns(pools, p, id) ensures Owns(r.pools, p, id) || (p == ch.pid && Creates(ch.ev, id)) {
      }
      hide Sound;
    } else {
      forall p, id | Owns(pools, p, id) ensures Owns(r.pools, p, id) {
      }
    }
  }

  // ---------------------------------------------------------------------
  // Entries and callers
  // ---------------------------------------------------------------------

  /** The pool was created for this function and seeds its containers with this key. */
  predicate Serves(pools: seq<PoolRec>, pid: Pid, fn: string, key: string)
  {
    pid < |pools| && pools[pid].fn == fn && pools[pid].cfg.codeKey == key
  }

  predicate EntriesServe(r: Registry)
  {
    forall fn :: fn in r.entries ==> Serves(r.pools, r.entries[fn].pid, fn, r.entries[fn].key)
  }

  predicate CallersServed(r: Registry)
  {
    forall c :: c in r.callers && !r.callers[c].stage.NeedLock? ==>
      Serves(r.pools, r.callers[c].stage.pid, r.callers[c].fn, r.callers[c].key)
  }

  lemma ServesStays(r: Registry, pools: seq<PoolRec>, ch: Change, pid: Pid, fn: string, key: string)
    requires Changed(r, pools, ch) && Serves(r.pools, pid, fn, key)
    ensures Serves(pools, pid, fn, key)
  {
    hide Enabled, Apply;
  }

  lemma ActKeepsEntries(r: Registry, a: Act)
    requires EntriesServe(r) && Permits(r, a)
    ensures EntriesServe(Do(r, a))
  {
    PoolsAfter(r, a);
    var pools := Do(r, a).pools;
    forall pid, fn, key | Serves(r.pools, pid, fn, key) ensures Serves(pools, pid, fn, key) {
      ServesStays(r, pools, ChangeOf(r, a), pid, fn, key);
    }
    hide Enabled, Apply;
  }

  /** Where the pool of a call comes from: it had it before, or found the entry, or made it. */
  lemma CallerAfter(r: Registry, a: Act, c: Cid)
    requires Permits(r, a) && c in Do(r, a).callers && !Do(r, a).callers[c].stage.NeedLock?
    ensures var k := Do(r, a).callers[c];
            || (c in r.callers && r.callers[c] == k.(stage := r.callers[c].stage)
                && !r.callers[c].stage.NeedLock? && r.callers[c].stage.pid == k.stage.pid)
            || (Hits(r, k.fn, k.key) && k.stage.pid == r.entries[k.fn].pid)
            || (ChangeOf(r, a) == Added(k.fn, k.key) && k.stage.pid == |r.pools|)
  {
    hide Enabled, Apply;
  }

  lemma ActKeepsCallers(r: Registry, a: Act)
    requires EntriesServe(r) && CallersServed(r) && Permits(r, a)
    ensures CallersServed(Do(r, a))
  {
    hide Enabled, Apply, Do, Permits, ChangeOf;
    PoolsAfter(r, a);
    var r' := Do(r, a);
    forall c | c in r'.callers && !r'.callers[c].stage.NeedLock?
      ensures Serves(r'.pools, r'.callers[c].stage.pid, r'.callers[c].fn, r'.callers[c].key)
    {
      CallerAfter(r, a, c);
      var k := r'.callers[c];
      if Serves(r.pools, k.stage.pid, k.fn, k.key) {
        ServesStays(r, r'.pools, ChangeOf(r, a), k.stage.pid, k.fn, k.key);
      }
    }
  }

  // ---------------------------------------------------------------------
  // Running executions
  // ---------------------------------------------------------------------

  predicate Executing(pools: seq<PoolRec>, pid: Pid, t: Tid)
  {
    pid < |pools| && t in pools[pid].pool.threads && pools[pid].pool.threads[t].role.Execution?
  }

  predicate Runs(r: Registry, c: Cid, pid: Pid, t: Tid) { c in r.callers && r.callers[c].stage == Running(pid, t) }

  /** Each call that received a container is one thread of its pool, and no two are the same. */
  ghost predicate RunnersApart(r: Registry)
  {
    && (forall c, pid, t :: Runs(r, c, pid, t) ==> Executing(r.pools, pid, t))
    && (forall c, d, pid, t :: Runs(r, c, pid, t) && Runs(r, d, pid, t) ==> c == d)
  }

  predicate TakesStepOf(ch: Change, pid: Pid, t: Tid)
  {
    ch.Stepped? && ch.pid == pid && ch.ev.X? && !ch.ev.x.Receive? && ch.ev.x.t == t
  }

  lemma ExecutingStays(r: Registry, pools: seq<PoolRec>, ch: Change, pid: Pid, t: Tid)
    requires PoolsRun(r.pools) && Changed(r, pools, ch) && Executing(r.pools, pid, t) && !TakesStepOf(ch, pid, t)
    ensures Executing(pools, pid, t)
  {
    hide Reachable, Enabled, Apply;
    if ch.Stepped? && ch.pid == pid {
      ReachableIsSound(r.pools[pid].cfg, r.pools[pid].pool);
      OthersLeaveExecution(r.pools[pid].cfg, r.pools[pid].pool, ch.ev, t);
    }
  }

  lemma ReceiverExecutes(cfg: Config, s: Pool, t: Tid)
    requires Enabled(s, X(Receive(t)))
    ensures var s' := Apply(cfg, s, X(Receive(t)));
            t !in s.threads && t in s'.threads && s'.threads[t].role.Execution?
  {
  }

  /** Who runs after the act ran before it, or has just received; nobody else's step was taken. */
  lemma RunnersAfter(r: Registry, a: Act, c: Cid, pid: Pid, t: Tid)
    requires Permits(r, a) && RunnersApart(r) && Runs(Do(r, a), c, pid, t)
    ensures if a.ReceiveFor? && a.c == c
        then ChangeOf(r, a) == Stepped(pid, X(Receive(t))) && !Executing(r.pools, pid, t)
            else
              && Runs(r, c, pid, t)
              && (TakesStepOf(ChangeOf(r, a), pid, t) ==> Executing(Do(r, a).pools, pid, t))
  {
    if a.ReceiveFor? && a.c == c {
      ReceiverExecutes(r.pools[pid].cfg, r.pools[pid].pool, t);
    } else if a.Exec? {
      assert Runs(r, a.c, r.callers[a.c].stage.pid, a.x.t);
    }
    hide Enabled, Apply;
  }

  lemma ActKeepsRunners(r: Registry, a: Act)
    requires PoolsRun(r.pools) && RunnersApart(r) && Permits(r, a)
    ensures RunnersApart(Do(r, a))
  {
    hide Reachable, Enabled, Apply, Runs, Executing, PoolsRun, Do, Permits;
    PoolsAfter(r, a);
    var r', ch := Do(r, a), ChangeOf(r, a);
    forall c, pid, t | Runs(r', c, pid, t) ensures Executing(r'.pools, pid, t) {
      RunnersAfter(r, a, c, pid, t);
      if a.ReceiveFor? && a.c == c {
        ReceivedExecutes(r, r'.pools, pid, t);
      } else if !TakesStepOf(ch, pid, t) {
        ExecutingStays(r, r'.pools, ch, pid, t);
      }
    }
    forall c, d, pid, t | Runs(r', c, pid, t) && Runs(r', d, pid, t) ensures c == d {
      RunnersAfter(r, a, c, pid, t);
      RunnersAfter(r, a, d, pid, t);
    }
  }

  lemma ReceivedExecutes(r: Registry, pools: seq<PoolRec>, pid: Pid, t: Tid)
    requires Changed(r, pools, Stepped(pid, X(Receive(t))))
    ensures Executing(pools, pid, t)
  {
    ReceiverExecutes(r.pools[pid].cfg, r.pools[pid].pool, t);
    hide Enabled, Apply;
  }

  // ---------------------------------------------------------------------
  // Accounting
  // ---------------------------------------------------------------------

  /** A Shutdown of the pool is pending or has begun. */
  predicate ToldToStop(r: Registry, pid: Pid) { pid < |r.pools| && (pid in r.doomed || r.pools[pid].pool.vars.closed) }

  predicate Accounted(r: Registry)
  {
    && (forall pid :: pid in r.doomed ==> pid < |r.pools|)
    && (forall pid :: pid in r.failed ==> pid < |r.pools|)
    && forall pid :: 0 <= pid < |r.pools| ==> (ToldToStop(r, pid) <==> !Current(r, pid) || pid in r.failed)
  }

  lemma ClosedAfter(r: Registry, pools: seq<PoolRec>, ch: Change, pid: Pid)
    requires PoolsRun(r.pools) && Changed(r, pools, ch) && pid < |pools|
    ensures pools[pid].pool.vars.closed <==>
              (pid < |r.pools| && r.pools[pid].pool.vars.closed)
                  || (ch.Stepped? && ch.pid == pid && BeginsShutdown(ch.ev))
  {
    hide Reachable, Enabled, Apply;
    if ch.Stepped? && ch.pid == pid {
      ReachableIsSound(r.pools[pid].cfg, r.pools[pid].pool);
      PoolStep(r.pools[pid].cfg, r.pools[pid].pool, ch.ev);
    }
  }

  /** The pool whose entry a write-locked getOrCreate finds under another key. */
  function Outdated(r: Registry, a: Act): set<Pid>
    requires Permits(r, a)
  {
    if a.Lock? && !Hits(r, r.callers[a.c].fn, r.callers[a.c].key) && r.callers[a.c].fn in r.entries then
      {r.entries[r.callers[a.c].fn].pid}
    else {}
  }

  lemma BooksAfter(r: Registry, a: Act)
    requires Permits(r, a)
    ensures var r', ch := Do(r, a), ChangeOf(r, a);
            && r'.entries == (if a.ShutdownAll? then map[]
                              else if ch.Added? then r.entries[ch.fn := Entry(ch.key, |r.pools|)]
                              else r.entries)
            && r'.doomed == (if a.ShutdownAll? then r.doomed + Currents(r)
                             else if a.RunShutdown? then r.doomed - {a.pid}
                             else r.doomed + Outdated(r, a))
            && r'.failed == (if a.Lock? && !a.created then r.failed + Outdated(r, a) else r.failed)
            && (ch.Added? ==> a.Lock? && a.created)
            && (a.Lock? && a.created && !ch.Added? ==> Outdated(r, a) == {})
            && (a.RunShutdown? ==> a.pid in r.doomed && ch.Stepped? && ch.pid == a.pid && BeginsShutdown(ch.ev))
            && (ch.Added? ==> Outdated(r, a) == if ch.fn in r.entries then {r.entries[ch.fn].pid} else {})
  {
    hide Enabled, Apply;
  }

  lemma CurrentAfter(r: Registry, a: Act, pid: Pid)
    requires EntriesServe(r) && Permits(r, a) && pid < |Do(r, a).pools|
    ensures Current(Do(r, a), pid) <==>
              if a.ShutdownAll? then false
              else if ChangeOf(r, a).Added? then pid == |r.pools| || (Current(r, pid) && pid !in Outdated(r, a))
              else Current(r, pid)
  {
    PoolsAfter(r, a);
    BooksAfter(r, a);
    hide Enabled, Apply, Do, Permits, ChangeOf, Outdated;
  }

  lemma ToldAfter(r: Registry, a: Act, pid: Pid)
    requires PoolsRun(r.pools) && Accounted(r) && Permits(r, a) && pid < |Do(r, a).pools|
    ensures ToldToStop(Do(r, a), pid) <==>
              ToldToStop(r, pid) || (a.ShutdownAll? && pid in Currents(r)) || pid in Outdated(r, a)
  {
    PoolsAfter(r, a);
    BooksAfter(r, a);
    ClosedAfter(r, Do(r, a).pools, ChangeOf(r, a), pid);
    assert !a.Lock? ==> Outdated(r, a) == {};
    hide Enabled, Apply, PoolsRun, Do, Permits, ChangeOf, Currents, Current, Outdated, BeginsShutdown;
  }

  lemma OutdatedIsCurrent(r: Registry, a: Act, pid: Pid)
    requires EntriesServe(r) && Permits(r, a)
    ensures pid in Outdated(r, a) || pid in Currents(r) ==> Current(r, pid)
    ensures Current(r, pid) ==> pid in Currents(r)
  {
    hide Permits;
  }

  lemma AccountAfter(r: Registry, a: Act, pid: Pid)
    requires PoolsRun(r.pools) && EntriesServe(r) && Accounted(r) && Permits(r, a) && pid < |Do(r, a).pools|
    ensures ToldToStop(Do(r, a), pid) <==> !Current(Do(r, a), pid) || pid in Do(r, a).failed
  {
    PoolsAfter(r, a);
    BooksAfter(r, a);
    OutdatedIsCurrent(r, a, pid);
    CurrentIsPool(r, pid);
    ToldAfter(r, a, pid);
    CurrentAfter(r, a, pid);
    hide Enabled, Apply, PoolsRun, EntriesServe, ToldToStop, Do, Permits, ChangeOf, Currents, Current, Outdated;
  }

  lemma ActKeepsAccounts(r: Registry, a: Act)
    requires PoolsRun(r.pools) && EntriesServe(r) && Accounted(r) && Permits(r, a)
    ensures Accounted(Do(r, a))
  {
    PoolsAfter(r, a);
    BooksAfter(r, a);
    var r' := Do(r, a);
    hide Enabled, Apply, PoolsRun, EntriesServe, ToldToStop, Do, Permits, ChangeOf, Currents, Current, Outdated;
    forall pid: Pid
      ensures pid < |r'.pools| ==> (ToldToStop(r', pid) <==> !Current(r', pid) || pid in r'.failed)
      ensures pid in r'.doomed || pid in r'.failed ==> pid < |r'.pools|
    {
      OutdatedIsCurrent(r, a, pid);
      CurrentIsPool(r, pid);
      if pid < |r'.pools| {
        AccountAfter(r, a, pid);
      }
    }
  }

  lemma CurrentIsPool(r: Registry, pid: Pid)
    ensures Current(r, pid) || ToldToStop(r, pid) ==> pid < |r.pools|
  {
  }

  // ---------------------------------------------------------------------
  // Every run
  // ---------------------------------------------------------------------

  ghost predicate Orderly(r: Registry)
  {
    PoolsRun(r.pools) && BoxesApart(r.pools) && EntriesServe(r) && CallersServed(r) && RunnersApart(r) && Accounted(r)
  }

  lemma ActKeepsOrderly(r: Registry, a: Act)
    requires Orderly(r) && Permits(r, a)
    ensures Orderly(Do(r, a))
  {
    hide PoolsRun, BoxesApart, EntriesServe, CallersServed, RunnersApart, Accounted, Do, Permits, Changed, ChangeOf;
    PoolsAfter(r, a);
    ChangeKeepsPoolsRun(r, Do(r, a).pools, ChangeOf(r, a));
    ChangeKeepsBoxesApart(r, Do(r, a).pools, ChangeOf(r, a));
    ActKeepsEntries(r, a);
    ActKeepsCallers(r, a);
    ActKeepsRunners(r, a);
    ActKeepsAccounts(r, a);
  }

  lemma {:induction false} RunIsOrderly(cfg: Config, acts: seq<Act>)
    requires Allowed(cfg, acts)
    ensures Orderly(After(cfg, acts))
    decreases |acts|
  {
    if acts != [] {
      hide Orderly, Do, Permits;
      var n := |acts| - 1;
      RunIsOrderly(cfg, acts[..n]);
      ActKeepsOrderly(After(cfg, acts[..n]), acts[n]);
    }
  }

  predicate Holds(r: Registry, c: Cid, pid: Pid, t: Tid, id: Id)
  {
    && Runs(r, c, pid, t) && pid < |r.pools|
    && t in r.pools[pid].pool.threads && id in r.pools[pid].pool.threads[t].keep
  }

  /** No stale code: a container held by a call was seeded, by a pool made for the call's
      function, with the code key the call asked for. */
  lemma NoStaleCode(cfg: Config, acts: seq<Act>, c: Cid, pid: Pid, t: Tid, id: Id)
    requires Allowed(cfg, acts) && Holds(After(cfg, acts), c, pid, t, id)
    ensures var r := After(cfg, acts);
            && r.pools[pid].fn == r.callers[c].fn
            && id in r.pools[pid].pool.vars.boxes
            && r.pools[pid].pool.vars.boxes[id].codeKey == r.callers[c].key
  {
    RunIsOrderly(cfg, acts);
    var r := After(cfg, acts);
    hide Allowed, After, Reachable, BoxesApart, Accounted, EntriesServe;
    var events :| Legal(r.pools[pid].cfg, events) && Final(r.pools[pid].cfg, events) == r.pools[pid].pool by {
      RunOf(r.pools[pid].cfg, r.pools[pid].pool);
    }
    assert Executes(r.pools[pid].pool, t, id);
    hide Legal, Final;
    RunsPoolCode(r.pools[pid].cfg, events, id);
  }

  lemma RunOf(cfg: Config, s: Pool)
    requires Reachable(cfg, s)
    ensures exists events :: Legal(cfg, events) && Final(cfg, events) == s
  {
  }

  /** No container is held by two calls, whether their pools are the same or not. */
  lemma NoSharedContainer(cfg: Config, acts: seq<Act>, c: Cid, pid: Pid, t: Tid, d: Cid, qid: Pid, u: Tid, id: Id)
    requires Allowed(cfg, acts)
    requires Holds(After(cfg, acts), c, pid, t, id) && Holds(After(cfg, acts), d, qid, u, id)
    ensures c == d
  {
    RunIsOrderly(cfg, acts);
    NoStaleCode(cfg, acts, c, pid, t, id);
    NoStaleCode(cfg, acts, d, qid, u, id);
    var r := After(cfg, acts);
    hide Allowed, After, Reachable, Accounted, EntriesServe, CallersServed;
    assert Owns(r.pools, pid, id) && Owns(r.pools, qid, id);
    RunOf(r.pools[pid].cfg, r.pools[pid].pool);
    var events :| Legal(r.pools[pid].cfg, events) && Final(r.pools[pid].cfg, events) == r.pools[pid].pool;
    hide Legal, Final;
    HeldByOneExecution(r.pools[pid].cfg, events, id);
    assert Executes(r.pools[pid].pool, t, id) && Executes(r.pools[pid].pool, u, id);
  }

  /** A pool has been told to stop exactly when it is no longer its function's entry, or still
      is because the pool to replace it could not be created. */
  lemma EveryPoolAccounted(cfg: Config, acts: seq<Act>, pid: Pid)
    requires Allowed(cfg, acts) && pid < |After(cfg, acts).pools|
    ensures ToldToStop(After(cfg, acts), pid) <==> !Current(After(cfg, acts), pid) || pid in After(cfg, acts).failed
  {
    RunIsOrderly(cfg, acts);
    hide Allowed, After;
  }

  /** A failed replacement leaves the entry in place, though its pool is to be shut down: later
      calls with the old key are sent to it. */
  lemma FailedReplacementKeepsEntry(r: Registry, c: Cid)
    requires Orderly(r) && Permits(r, Lock(c, false))
    requires r.callers[c].fn in r.entries && r.entries[r.callers[c].fn].key != r.callers[c].key
    ensures var r', fn := Do(r, Lock(c, false)), r.callers[c].fn;
            && r'.entries == r.entries
            && ToldToStop(r', r.entries[fn].pid)
            && forall d :: d !in r'.callers ==>
                 Do(r', Look(d, fn, r.entries[fn].key)).callers[d].stage == Resolved(r.entries[fn].pid)
  {
    hide Accounted, RunnersApart, PoolsRun, BoxesApart, CallersServed;
  }

  // ---------------------------------------------------------------------
  // Double-checked locking
  // ---------------------------------------------------------------------

  function PoolsMadeFor(pools: seq<PoolRec>, fn: string): nat
  {
    if pools == [] then 0
    else PoolsMadeFor(pools[..|pools| - 1], fn) + if pools[|pools| - 1].fn == fn then 1 else 0
  }

  /** Nobody asks for the function under another key, and the registry stays up. */
  predicate Agrees(a: Act, fn: string, key: string)
  {
    !a.ShutdownAll? && (a.Look? && a.fn == fn ==> a.key == key)
  }

  predicate WaitersAgree(r: Registry, fn: string, key: string)
  {
    forall c :: c in r.callers && r.callers[c].stage.NeedLock? && r.callers[c].fn == fn ==> r.callers[c].key == key
  }

  predicate AtMostOneMore(n: nat, r: Registry, fn: string, key: string)
  {
    PoolsMadeFor(r.pools, fn) == n || (PoolsMadeFor(r.pools, fn) == n + 1 && Hits(r, fn, key))
  }

  lemma {:induction false} SameFunctions(p: seq<PoolRec>, q: seq<PoolRec>, fn: string)
    requires |p| == |q| && forall i :: 0 <= i < |p| ==> p[i].fn == q[i].fn
    ensures PoolsMadeFor(p, fn) == PoolsMadeFor(q, fn)
  {
    if p != [] {
      SameFunctions(p[..|p| - 1], q[..|q| - 1], fn);
    }
  }

  lemma MadeAfter(r: Registry, pools: seq<PoolRec>, ch: Change, fn: string)
    requires Changed(r, pools, ch)
    ensures PoolsMadeFor(pools, fn) == PoolsMadeFor(r.pools, fn) + if ch.Added? && ch.fn == fn then 1 else 0
  {
    hide Enabled, Apply;
    if ch.Added? {
      assert pools[..|pools| - 1] == r.pools;
    } else {
      SameFunctions(r.pools, pools, fn);
    }
  }

  lemma ActKeepsAgreement(r: Registry, a: Act, fn: string, key: string)
    requires Permits(r, a) && Agrees(a, fn, key) && WaitersAgree(r, fn, key)
    ensures WaitersAgree(Do(r, a), fn, key)
  {
    hide Enabled, Apply;
  }

  /** Only a call that misses under the write lock creates a pool. */
  lemma AddedOnMiss(r: Registry, a: Act, fn: string, key: string)
    requires Permits(r, a) && WaitersAgree(r, fn, key)
    ensures var ch := ChangeOf(r, a); ch.Added? && ch.fn == fn ==> ch.key == key && !Hits(r, fn, key)
  {
    hide Enabled, Apply;
  }

  lemma HitsAfter(r: Registry, a: Act, fn: string, key: string)
    requires Permits(r, a) && Agrees(a, fn, key) && WaitersAgree(r, fn, key)
    ensures ChangeOf(r, a).Added? && ChangeOf(r, a).fn == fn ==> Hits(Do(r, a), fn, key)
    ensures Hits(r, fn, key) ==> Hits(Do(r, a), fn, key)
  {
    AddedOnMiss(r, a, fn, key);
    BooksAfter(r, a);
    hide Enabled, Apply, Do, Permits, ChangeOf, WaitersAgree, Outdated, Currents;
  }

  lemma ActKeepsOneMore(n: nat, r: Registry, a: Act, fn: string, key: string)
    requires Permits(r, a) && Agrees(a, fn, key) && WaitersAgree(r, fn, key) && AtMostOneMore(n, r, fn, key)
    ensures AtMostOneMore(n, Do(r, a), fn, key)
  {
    PoolsAfter(r, a);
    AddedOnMiss(r, a, fn, key);
    HitsAfter(r, a, fn, key);
    hide Enabled, Apply, PoolsMadeFor, Do, Permits, ChangeOf, WaitersAgree, Hits, Changed;
    MadeAfter(r, Do(r, a).pools, ChangeOf(r, a), fn);
  }

  /** However many calls race, while they agree on the function's key at most one of them
      creates a pool for it. */
  lemma {:induction false} AtMostOnePool(cfg: Config, acts: seq<Act>, more: seq<Act>, fn: string, key: string)
    requires Allowed(cfg, acts) && Allowed(cfg, acts + more) && WaitersAgree(After(cfg, acts), fn, key)
    requires forall i :: 0 <= i < |more| ==> Agrees(more[i], fn, key)
    ensures WaitersAgree(After(cfg, acts + more), fn, key)
    ensures AtMostOneMore(PoolsMadeFor(After(cfg, acts).pools, fn), After(cfg, acts + more), fn, key)
    decreases |more|
  {
    if more == [] {
      assert acts + more == acts;
    } else {
      var n := |more| - 1;
      var all := acts + more;
      assert all[..|all| - 1] == acts + more[..n] && all[|all| - 1] == more[n];
      assert Allowed(cfg, acts + more[..n]) && After(cfg, all) == Do(After(cfg, acts + more[..n]), more[n]);
      hide Allowed, After, Do, Permits, WaitersAgree, AtMostOneMore, Agrees;
      AtMostOnePool(cfg, acts, more[..n], fn, key);
      ActKeepsAgreement(After(cfg, acts + more[..n]), more[n], fn, key);
      ActKeepsOneMore(PoolsMadeFor(After(cfg, acts).pools, fn), After(cfg, acts + more[..n]), more[n], fn, key);
    }
  }
}

/** The registry of pools, one per function, with double-checked locking and replacement of
    a pool when the function's code key changes. Registry calls interleave with each other
    and with every step of every pool. Docker's container IDs are new to all pools.
 */
module PoolRegistries {
  import opened DockerPools

  type Pid = nat // pools in the order of their creation
  type Cid = nat // calls of Acquire

  datatype Entry = Entry(key: string, pid: Pid)

  datatype PoolRec = PoolRec(fn: string, cfg: Config, pool: Pool)

  datatype Stage =
    | NeedLock             // missed on the fast path
    | Made(pid: Pid)       // inserted a new pool, about to start it
    | Starting(pid: Pid, t: Tid)
    | Resolved(pid: Pid)   // getOrCreate has returned
    | Running(pid: Pid, t: Tid) // received a container

  datatype Caller = Caller(fn: string, key: string, stage: Stage)

  datatype Registry = Registry(
    cfg: Config,
    entries: map<string, Entry>,
    pools: seq<PoolRec>,      // every pool ever created
    callers: map<Cid, Caller>,
    doomed: set<Pid>,         // on the list of a Shutdown that has not come to them yet
    failed: set<Pid>,         // told to shut down for a replacement that could not be created
    early: set<Pid>)          // Shutdown ran before or during their Start

  function Empty(cfg: Config): Registry { Registry(cfg, map[], [], map[], {}, {}, {}) }

  datatype Act =
    | Look(c: Cid, fn: string, key: string) // under the read lock
    | Lock(c: Cid, created: bool)           // under the write lock
    | CallStart(c: Cid, t: Tid)
    | StartReturned(c: Cid)
    | ReceiveFor(c: Cid, t: Tid)
    | GiveUp(c: Cid)                        // the context ended or the pool is shut down
    | Exec(c: Cid, x: ExecEvent)
    | Inside(pid: Pid, ev: Event)           // a goroutine of the pool
    | ShutdownAll
    | RunShutdown(pid: Pid, t: Tid)

  predicate Hits(r: Registry, fn: string, key: string) { fn in r.entries && r.entries[fn].key == key }

  predicate NewToAll(r: Registry, id: Id) { forall i :: 0 <= i < |r.pools| ==> id !in r.pools[i].pool.vars.boxes }

  /** Steps that are not taken on behalf of a registry call. */
  predicate Internal(ev: Event) { !ev.X? && !(ev.M? && ev.m.BeginStart?) && !(ev.S? && ev.stop.BeginShutdown?) }

  predicate Permits(r: Registry, a: Act)
  {
    match a
    case Look(c, _, _) => c !in r.callers
    case Lock(c, _) => c in r.callers && r.callers[c].stage.NeedLock?
    case CallStart(c, t) =>
      && c in r.callers && r.callers[c].stage.Made? && r.callers[c].stage.pid < |r.pools|
      && Enabled(r.pools[r.callers[c].stage.pid].pool, M(BeginStart(t)))
    case StartReturned(c) =>
      && c in r.callers && r.callers[c].stage.Starting? && r.callers[c].stage.pid < |r.pools|
      && var threads := r.pools[r.callers[c].stage.pid].pool.threads;
         !(r.callers[c].stage.t in threads && threads[r.callers[c].stage.t].role.Starter?)
    case ReceiveFor(c, t) =>
      && c in r.callers && r.callers[c].stage.Resolved? && r.callers[c].stage.pid < |r.pools|
      && Enabled(r.pools[r.callers[c].stage.pid].pool, X(Receive(t)))
    case GiveUp(c) => c in r.callers && r.callers[c].stage.Resolved?
    case Exec(c, x) =>
      && c in r.callers && r.callers[c].stage.Running? && r.callers[c].stage.pid < |r.pools|
      && x.t == r.callers[c].stage.t && !x.Receive?
      && Enabled(r.pools[r.callers[c].stage.pid].pool, X(x))
    case Inside(pid, ev) =>
      && pid < |r.pools| && Internal(ev) && Enabled(r.pools[pid].pool, ev)
      && (ev.M? && ev.m.Create? ==> NewToAll(r, ev.m.id))
    case ShutdownAll => true
    case RunShutdown(pid, t) =>
      pid in r.doomed && pid < |r.pools| && Enabled(r.pools[pid].pool, S(BeginShutdown(t)))
  }

  function StepPool(r: Registry, pid: Pid, ev: Event): Registry
    requires pid < |r.pools| && Enabled(r.pools[pid].pool, ev)
  {
    var p := r.pools[pid];
    r.(pools := r.pools[pid := p.(pool := Apply(p.cfg, p.pool, ev))])
  }

  function Advance(r: Registry, c: Cid, st: Stage): Registry
    requires c in r.callers
  {
    r.(callers := r.callers[c := r.callers[c].(stage := st)])
  }

  function Leave(r: Registry, c: Cid): Registry { r.(callers := r.callers - {c}) }

  /** The pool that the current entry of a function names. */
  predicate Current(r: Registry, pid: Pid)
  {
    pid < |r.pools| && r.pools[pid].fn in r.entries && r.entries[r.pools[pid].fn].pid == pid
  }

  /** The write-locked part of getOrCreate. */
  function Locked(r: Registry, c: Cid, created: bool): Registry
    requires c in r.callers
  {
    var fn, key := r.callers[c].fn, r.callers[c].key;
    if Hits(r, fn, key) then Advance(r, c, Resolved(r.entries[fn].pid))
    else
      var stale := if fn in r.entries then {r.entries[fn].pid} else {};
      var told := r.(doomed := r.doomed + stale);
      if created then
        Advance(told, c, Made(|r.pools|)).(
          pools := r.pools + [PoolRec(fn, r.cfg.(codeKey := key), New())],
          entries := r.entries[fn := Entry(key, |r.pools|)])
      else Leave(told, c).(failed := r.failed + stale)
  }

  predicate IsMade(r: Registry, c: Cid, pid: Pid) { c in r.callers && r.callers[c].stage == Made(pid) }

  /** The pool's Start is still to be called, or is running. */
  predicate Unstarted(r: Registry, pid: Pid)
    requires pid < |r.pools|
  {
    (exists c :: c in r.callers && IsMade(r, c, pid)) || SomeRole(r.pools[pid].pool, Starter)
  }

  function Currents(r: Registry): set<Pid> { set fn | fn in r.entries :: r.entries[fn].pid }

  function Do(r: Registry, a: Act): Registry
    requires Permits(r, a)
  {
    match a
    case Look(c, fn, key) =>
      r.(callers := r.callers[c := Caller(fn, key, if Hits(r, fn, key) then Resolved(r.entries[fn].pid) else NeedLock)])
    case Lock(c, created) => Locked(r, c, created)
    case CallStart(c, t) =>
      var pid := r.callers[c].stage.pid;
      Advance(StepPool(r, pid, M(BeginStart(t))), c, Starting(pid, t))
    case StartReturned(c) => Advance(r, c, Resolved(r.callers[c].stage.pid))
    case ReceiveFor(c, t) =>
      var pid := r.callers[c].stage.pid;
      Advance(StepPool(r, pid, X(Receive(t))), c, Running(pid, t))
    case GiveUp(c) => Leave(r, c)
    case Exec(c, x) =>
      var pid := r.callers[c].stage.pid;
      var s := StepPool(r, pid, X(x));
      var threads := s.pools[pid].pool.threads;
      if x.t in threads && threads[x.t].role.Execution? then s else Leave(s, c)
    case Inside(pid, ev) => StepPool(r, pid, ev)
    case ShutdownAll => r.(entries := map[], doomed := r.doomed + Currents(r))
    case RunShutdown(pid, t) =>
      StepPool(r, pid, S(BeginShutdown(t))).(doomed := r.doomed - {pid},
                                             early := if Unstarted(r, pid) then r.early + {pid} else r.early)
  }

  /** Runs of the registry, latest act last. */
  predicate Allowed(cfg: Config, acts: seq<Act>)
    decreases |acts|, 0
  {
    acts == [] || (Allowed(cfg, acts[..|acts| - 1]) && Permits(After(cfg, acts[..|acts| - 1]), acts[|acts| - 1]))
  }

  function After(cfg: Config, acts: seq<Act>): Registry
    requires Allowed(cfg, acts)
    decreases |acts|, 1
  {
    if acts == [] then Empty(cfg) else Do(After(cfg, acts[..|acts| - 1]), acts[|acts| - 1])
  }
}

/** getOrCreate and Shutdown of the registry in their own form, each run without interruption. */
module PoolRegistryClass {
  import opened Common
  import opened DockerPools
  import opened PoolRegistries
  import opened PoolRegistryRuns

  /** Entries name pools made for them, and the pools told to stop are those that no entry
      names and those whose replacement failed. */
  predicate Booked(r: Registry)
  {
    && EntriesServe(r)
    && (forall pid :: pid in r.doomed ==> pid < |r.pools|)
    && (forall pid :: pid in r.failed ==> pid < |r.pools|)
    && forall pid :: 0 <= pid < |r.pools| ==> (pid in r.doomed <==> !Current(r, pid) || pid in r.failed)
  }

  /** A call that missed on the fast path. */
  function Missed(fn: string, key: string): map<Cid, Caller> { map[0 := Caller(fn, key, NeedLock)] }

  lemma LockedStaysBooked(r: Registry, fn: string, key: string, created: bool)
    requires Booked(r) && r.callers == Missed(fn, key)
    ensures var r' := Locked(r, 0, created);
            && Booked(r')
            && (0 in r'.callers
                ==> !r'.callers[0].stage.NeedLock? && Serves(r'.pools, r'.callers[0].stage.pid, fn, key))
  {
    assert fn in r.entries ==> Current(r, r.entries[fn].pid);
  }

  /** The write-locked section, field by field. */
  lemma LockedFields(r: Registry, fn: string, key: string, created: bool)
    requires r.callers == Missed(fn, key)
    ensures var r' := Locked(r, 0, created);
            var stale := if fn in r.entries then {r.entries[fn].pid} else {};
            && (0 in r'.callers <==> created || Hits(r, fn, key))
            && r'.cfg == r.cfg && r'.early == r.early
            && if Hits(r, fn, key) then
                 && r'.entries == r.entries && r'.pools == r.pools && r'.doomed == r.doomed && r'.failed == r.failed
                 && r'.callers[0].stage == Resolved(r.entries[fn].pid)
               else if created then
                 && r'.entries == r.entries[fn := Entry(key, |r.pools|)] && r'.doomed == r.doomed + stale
                     && r'.failed == r.failed
                 && r'.pools == r.pools + [PoolRec(fn, r.cfg.(codeKey := key), New())]
                 && r'.callers[0].stage == Made(|r.pools|)
               else
                 r'.entries == r.entries && r'.pools == r.pools && r'.doomed == r.doomed + stale
                     && r'.failed == r.failed + stale
  {
  }

  lemma ShutdownStaysBooked(r: Registry)
    requires Booked(r)
    ensures Booked(r.(entries := map[], doomed := r.doomed + Currents(r)))
  {
    forall pid | 0 <= pid < |r.pools| ensures pid in r.doomed + Currents(r) {
      if Current(r, pid) {
        assert r.entries[r.pools[pid].fn].pid in Currents(r);
      }
    }
  }

  class PoolRegistry {
    const cfg: Config
    var entries: map<string, Entry>
    var pools: seq<PoolRec>
    var doomed: set<Pid> // pools whose Shutdown has been called or started
    var failed: set<Pid>

    function View(callers: map<Cid, Caller>): Registry
      reads this
    {
      Registry(cfg, entries, pools, callers, doomed, failed, {})
    }

    ghost predicate Valid()
      reads this
    {
      Booked(View(map[]))
    }

    constructor (cfg: Config)
      ensures Valid() && this.cfg == cfg && View(map[]) == Empty(cfg)
    {
      this.cfg := cfg;
      entries, pools, doomed, failed := map[], [], {}, {};
    }

    /** getOrCreate past both checks, under the write lock. */
    method Replace(fn: string, key: string, created: bool) returns (r: Option<Pid>)
      requires !Hits(View(map[]), fn, key)
      modifies this
      ensures r == if created then Some(|old(pools)|) else None
      ensures View(map[]) == Locked(old(View(Missed(fn, key))), 0, created).(callers := map[])
    {
      LockedFields(View(Missed(fn, key)), fn, key, created);
      hide Locked, Missed;
      if fn in entries {
        doomed := doomed + {entries[fn].pid};
      }
      if !created {
        if fn in entries {
          failed := failed + {entries[fn].pid};
        }
        return None;
      }
      r := Some(|pools|);
      pools := pools + [PoolRec(fn, cfg.(codeKey := key), New())];
      entries := entries[fn := Entry(key, r.value)];
    }

    /** A hit changes nothing; a miss is the write-locked part of the step machine. Either way
        the pool returned was made for the function and its key. */
    method GetOrCreate(fn: string, key: string, created: bool) returns (r: Option<Pid>)
      requires Valid()
      modifies this
      ensures Valid()
      ensures r.Some? ==> Serves(pools, r.value, fn, key)
      ensures fn in old(entries) && old(entries)[fn].key == key ==>
                r == Some(old(entries)[fn].pid) && View(map[]) == old(View(map[]))
      ensures !(fn in old(entries) && old(entries)[fn].key == key) ==>
                var stale := if fn in old(entries) then {old(entries)[fn].pid} else {};
                && r == (if created then Some(|old(pools)|) else None)
                && entries == (if created then old(entries)[fn := Entry(key, |old(pools)|)] else old(entries))
                && pools == old(pools) + (if created then [PoolRec(fn, cfg.(codeKey := key), New())] else [])
                && doomed == old(doomed) + stale
                && failed == (if created then old(failed) else old(failed) + stale)
      ensures View(map[]) == Locked(old(View(Missed(fn, key))), 0, created).(callers := map[])
    {
      LockedStaysBooked(View(Missed(fn, key)), fn, key, created);
      LockedFields(View(Missed(fn, key)), fn, key, created);
      hide Booked, EntriesServe, Current, Locked, Missed;
      if fn in entries && entries[fn].key == key {
        return Some(entries[fn].pid);
      }
      r := Replace(fn, key, created);
    }

    /** Shutdown's second loop: shuts down the pools taken out of the map, one after the other. */
    method StopAll(taken: map<string, Entry>) returns (stopped: seq<Pid>)
      modifies this`doomed
      ensures forall pid :: pid in stopped <==> exists fn :: fn in taken && taken[fn].pid == pid
      ensures forall pid :: pid in doomed <==> pid in old(doomed) || pid in stopped
      ensures |stopped| == |taken|
    {
      var todo := taken;
      stopped := [];
      while todo != map[]
        invariant forall fn :: fn in todo ==> fn in taken && todo[fn] == taken[fn]
        invariant forall fn :: fn in taken ==> fn in todo || taken[fn].pid in stopped
        invariant forall pid :: pid in stopped ==> exists fn :: fn in taken && taken[fn].pid == pid
        invariant forall pid :: pid in doomed <==> pid in old(doomed) || pid in stopped
        invariant |stopped| + |todo| == |taken|
        decreases |todo|
      {
        var fn :| fn in todo;
        stopped := stopped + [todo[fn].pid];
        doomed := doomed + {todo[fn].pid};
        todo := todo - {fn};
      }
    }

    /** Takes every entry out of the map and shuts its pool down. */
    method Shutdown() returns (stopped: seq<Pid>)
      requires Valid()
      modifies this
      ensures Valid()
      ensures entries == map[] && pools == old(pools) && failed == old(failed)
      ensures doomed == old(doomed) + Currents(old(View(map[])))
      ensures forall pid :: pid in stopped <==> pid in Currents(old(View(map[])))
      ensures |stopped| == |old(entries)|
    {
      ShutdownStaysBooked(View(map[]));
      hide Booked, EntriesServe, Current;
      var taken := entries;
      entries := map[];
      stopped := StopAll(taken);
    }
  }
}

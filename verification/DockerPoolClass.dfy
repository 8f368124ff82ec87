/** The pool's methods in their own form, each run without interruption: the channel, the
    in-use map and the counters are fields, and the loops that fill, drain and refill the
    channel are loops.
 */
module DockerPoolClass {
  import opened Common
  import opened DockerPools
  import opened DockerPoolPlaces
  import opened DockerPoolAlone

  predicate Known(boxes: map<Id, Box>, ids: seq<Id>) { forall i :: 0 <= i < |ids| ==> ids[i] in boxes }

  /** The containers used less than MaxIdleTime ago, in order. */
  function Kept(cfg: Config, boxes: map<Id, Box>, ids: seq<Id>, now: nat): seq<Id>
    requires Known(boxes, ids)
  {
    if ids == [] then []
    else (if Fresh(cfg, boxes[ids[0]], now) then [ids[0]] else []) + Kept(cfg, boxes, ids[1..], now)
  }

  /** The others, in order. */
  function Stale(cfg: Config, boxes: map<Id, Box>, ids: seq<Id>, now: nat): seq<Id>
    requires Known(boxes, ids)
  {
    if ids == [] then []
    else (if Fresh(cfg, boxes[ids[0]], now) then [] else [ids[0]]) + Stale(cfg, boxes, ids[1..], now)
  }

  /** A tick loses no container and makes up none. */
  lemma {:induction false} TickLosesNone(cfg: Config, boxes: map<Id, Box>, ids: seq<Id>, now: nat)
    requires Known(boxes, ids)
    ensures multiset(Kept(cfg, boxes, ids, now) + Stale(cfg, boxes, ids, now)) == multiset(ids)
  {
    if ids != [] {
      TickLosesNone(cfg, boxes, ids[1..], now);
      assert ids == [ids[0]] + ids[1..];
    }
  }

  /** What it keeps is younger than MaxIdleTime; what it evicts is not. */
  lemma {:induction false} TickSplitsByAge(cfg: Config, boxes: map<Id, Box>, ids: seq<Id>, now: nat, id: Id)
    requires Known(boxes, ids)
    ensures id in Kept(cfg, boxes, ids, now) <==> id in ids && now - boxes[id].lastUsed < cfg.maxIdle
    ensures id in Stale(cfg, boxes, ids, now) <==> id in ids && now - boxes[id].lastUsed >= cfg.maxIdle
    ensures |Kept(cfg, boxes, ids, now)| + |Stale(cfg, boxes, ids, now)| == |ids|
  {
    if ids != [] {
      TickSplitsByAge(cfg, boxes, ids[1..], now, id);
      assert ids == [ids[0]] + ids[1..];
    }
  }

  /** What goes back keeps its order: of two kept containers the first is the one that was idle
      longer. */
  lemma {:induction false} TickKeepsOrder(cfg: Config, boxes: map<Id, Box>, ids: seq<Id>, now: nat, i: nat, j: nat)
      returns (a: nat, b: nat)
    requires Known(boxes, ids) && i < j
    requires j < |Kept(cfg, boxes, ids, now)|
    ensures a < b < |ids| && i <= a
    ensures ids[a] == Kept(cfg, boxes, ids, now)[i] && ids[b] == Kept(cfg, boxes, ids, now)[j]
    decreases |ids|
  {
    var rest := Kept(cfg, boxes, ids[1..], now);
    if !Fresh(cfg, boxes[ids[0]], now) {
      a, b := TickKeepsOrder(cfg, boxes, ids[1..], now, i, j);
      a, b := a + 1, b + 1;
    } else if i > 0 {
      a, b := TickKeepsOrder(cfg, boxes, ids[1..], now, i - 1, j - 1);
      a, b := a + 1, b + 1;
    } else {
      var at := KeptIsThere(cfg, boxes, ids[1..], now, j - 1);
      a, b := 0, at + 1;
    }
  }

  lemma {:induction false} KeptIsThere(cfg: Config, boxes: map<Id, Box>, ids: seq<Id>, now: nat, i: nat)
      returns (a: nat)
    requires Known(boxes, ids) && i < |Kept(cfg, boxes, ids, now)|
    ensures a < |ids| && ids[a] == Kept(cfg, boxes, ids, now)[i]
    decreases |ids|
  {
    if Fresh(cfg, boxes[ids[0]], now) && i == 0 {
      a := 0;
    } else {
      a := KeptIsThere(cfg, boxes, ids[1..], now, if Fresh(cfg, boxes[ids[0]], now) then i - 1 else i);
      a := a + 1;
    }
  }

  lemma {:induction false} KeptHasNoRepeats(cfg: Config, boxes: map<Id, Box>, ids: seq<Id>, now: nat)
    requires Known(boxes, ids) && NoRepeats(ids)
    ensures NoRepeats(Kept(cfg, boxes, ids, now))
  {
    if ids != [] {
      KeptHasNoRepeats(cfg, boxes, ids[1..], now);
      TickSplitsByAge(cfg, boxes, ids[1..], now, ids[0]);
      assert ids[0] !in ids[1..];
    }
  }

  lemma TickIsApart(cfg: Config, boxes: map<Id, Box>, ids: seq<Id>, now: nat)
    requires Known(boxes, ids) && NoRepeats(ids)
    ensures NoRepeats(Kept(cfg, boxes, ids, now)) && |Kept(cfg, boxes, ids, now)| <= |ids|
    ensures forall id :: id in Kept(cfg, boxes, ids, now) ==> id in ids && id !in Stale(cfg, boxes, ids, now)
    ensures forall id :: id in Stale(cfg, boxes, ids, now) ==> id in ids
  {
    KeptHasNoRepeats(cfg, boxes, ids, now);
    hide Kept, Stale;
    forall id
      ensures id in Kept(cfg, boxes, ids, now) ==> id in ids && id !in Stale(cfg, boxes, ids, now)
      ensures id in Stale(cfg, boxes, ids, now) ==> id in ids
    {
      TickSplitsByAge(cfg, boxes, ids, now, id);
    }
    TickSplitsByAge(cfg, boxes, ids, now, 0);
  }

  /** As many as the idle channel holds. */
  function Fitting(cfg: Config, ids: seq<Id>): seq<Id> { if |ids| <= cfg.maxSize then ids else ids[..cfg.maxSize] }

  predicate Ready(cfg: Config, b: Box) { b.codeKey == cfg.codeKey && !UsedUp(cfg, b) }

  predicate InService(cfg: Config, b: Box) { b.codeKey == cfg.codeKey && (cfg.maxUse > 0 ==> b.useCount <= cfg.maxUse) }

  predicate IdleSane(cfg: Config, s: Pool, id: Id)
  {
    id in s.vars.boxes && Ready(cfg, s.vars.boxes[id]) && id !in s.vars.inUse && id !in s.stopped
  }

  predicate UsedSane(cfg: Config, s: Pool, id: Id)
  {
    id in s.vars.boxes && InService(cfg, s.vars.boxes[id]) && id !in s.stopped
  }

  /** Idle, in-use and stopped containers are apart, and those that can be handed out run the
      pool's code with a use left. */
  ghost predicate Sane(cfg: Config, s: Pool)
  {
    && |s.idle| <= cfg.maxSize && NoRepeats(s.idle) && Known(s.vars.boxes, s.stopped)
    && (forall id :: id in s.idle ==> IdleSane(cfg, s, id))
    && (forall id :: id in s.vars.inUse ==> UsedSane(cfg, s, id))
  }

  lemma ThreadsDoNotMatter(cfg: Config, s: Pool, threads: map<Tid, Thread>)
    requires Sane(cfg, s)
    ensures Sane(cfg, s.(threads := threads))
  {
    assert forall id :: IdleSane(cfg, s.(threads := threads), id) <==> IdleSane(cfg, s, id);
    assert forall id :: UsedSane(cfg, s.(threads := threads), id) <==> UsedSane(cfg, s, id);
  }

  lemma UnusedIsSane(cfg: Config, s: Pool, id: Id)
    requires Sane(cfg, s) && id in s.vars.inUse
    ensures UsedSane(cfg, s, id) && id !in s.idle
    ensures Sane(cfg, s.(vars := s.vars.(inUse := s.vars.inUse - {id})))
  {
    var s' := s.(vars := s.vars.(inUse := s.vars.inUse - {id}));
    assert forall x :: IdleSane(cfg, s, x) ==> IdleSane(cfg, s', x);
    assert forall x :: UsedSane(cfg, s', x) <==> UsedSane(cfg, s, x);
    assert id in s.idle ==> IdleSane(cfg, s, id);
  }

  lemma FreeBoxIsSane(cfg: Config, s: Pool, id: Id, b: Box)
    requires Sane(cfg, s) && id !in s.idle && id !in s.vars.inUse
    ensures Sane(cfg, s.(vars := s.vars.(boxes := s.vars.boxes[id := b])))
  {
    var s' := s.(vars := s.vars.(boxes := s.vars.boxes[id := b]));
    assert forall x :: x != id ==> (IdleSane(cfg, s', x) <==> IdleSane(cfg, s, x));
    assert forall x :: x != id ==> (UsedSane(cfg, s', x) <==> UsedSane(cfg, s, x));
  }

  lemma StoppedIsSane(cfg: Config, s: Pool, id: Id)
    requires Sane(cfg, s) && id in s.vars.boxes && id !in s.idle && id !in s.vars.inUse
    ensures Sane(cfg, Retire(s, id))
  {
    var s' := Retire(s, id);
    assert forall x :: x != id ==> (IdleSane(cfg, s', x) <==> IdleSane(cfg, s, x));
    assert forall x :: x != id ==> (UsedSane(cfg, s', x) <==> UsedSane(cfg, s, x));
  }

  lemma GivenIsSane(cfg: Config, s: Pool, id: Id)
    requires Sane(cfg, s) && IdleSane(cfg, s, id) && id !in s.idle && |s.idle| < cfg.maxSize
    ensures Sane(cfg, s.(idle := s.idle + [id]))
  {
    var s' := s.(idle := s.idle + [id]);
    assert forall x :: IdleSane(cfg, s', x) <==> IdleSane(cfg, s, x);
    assert forall x :: UsedSane(cfg, s', x) <==> UsedSane(cfg, s, x);
  }

  lemma AcquiredIsSane(cfg: Config, s: Pool, t: Tid, now: nat)
    requires Sane(cfg, s) && s.idle != []
    ensures s.idle[0] in s.vars.boxes && s.idle[0] !in s.vars.inUse && Sane(cfg, Acquired(s, t, now))
  {
    var id := s.idle[0];
    assert id in s.idle && IdleSane(cfg, s, id);
    var s' := Acquired(s, t, now);
    assert forall x :: x != id && IdleSane(cfg, s, x) ==> IdleSane(cfg, s', x);
    assert forall x :: x != id && UsedSane(cfg, s, x) ==> UsedSane(cfg, s', x);
    assert UsedSane(cfg, s', id);
  }

  /** A container no longer in use is stopped, or goes back with a use left. */
  lemma ReleasedIsSane(cfg: Config, s: Pool, t: Tid, id: Id, now: nat, stopOk: bool)
    requires Sane(cfg, s) && id in s.vars.inUse
    ensures id in s.vars.boxes && Sane(cfg, Released(cfg, s, t, id, now, stopOk))
  {
    UnusedIsSane(cfg, s, id);
    var s1 := s.(vars := s.vars.(inUse := s.vars.inUse - {id}));
    var warm := s.vars.boxes[id].(lastUsed := now);
    FreeBoxIsSane(cfg, s1, id, warm);
    var s2 := s1.(vars := s1.vars.(boxes := s1.vars.boxes[id := warm]));
    var s' := Released(cfg, s, t, id, now, stopOk);
    if UsedUp(cfg, s.vars.boxes[id]) {
      StoppedIsSane(cfg, s1, id);
      hide Sane;
      ThreadsDoNotMatter(cfg, Retire(s1, id), s'.threads);
    } else if s.vars.closed || |s.idle| >= cfg.maxSize {
      StoppedIsSane(cfg, s2, id);
      hide Sane;
      ThreadsDoNotMatter(cfg, Retire(s2, id), s'.threads);
    } else {
      GivenIsSane(cfg, s2, id);
      hide Sane;
      ThreadsDoNotMatter(cfg, s2.(idle := s2.idle + [id]), s'.threads);
    }
  }

  lemma DiscardedIsSane(cfg: Config, s: Pool, t: Tid, id: Id)
    requires Sane(cfg, s) && id in s.vars.inUse
    ensures id in s.vars.boxes && Sane(cfg, Discarded(s, t, id))
  {
    UnusedIsSane(cfg, s, id);
    var s1 := s.(vars := s.vars.(inUse := s.vars.inUse - {id}));
    StoppedIsSane(cfg, s1, id);
    hide Sane;
    ThreadsDoNotMatter(cfg, Retire(s1, id), Discarded(s, t, id).threads);
  }

  lemma UnknownIsNowhere(cfg: Config, s: Pool, id: Id)
    requires Sane(cfg, s) && id !in s.vars.boxes
    ensures id !in s.idle && id !in s.stopped && id !in s.vars.inUse
  {
    assert !IdleSane(cfg, s, id) && !UsedSane(cfg, s, id);
  }

  lemma EnqueuedIsSane(cfg: Config, s: Pool, t: Tid, a: Answer)
    requires Sane(cfg, s) && a.id !in s.vars.boxes
    ensures Sane(cfg, Enqueued(cfg, s, t, Maker, a, false))
  {
    UnknownIsNowhere(cfg, s, a.id);
    var s' := Enqueued(cfg, s, t, Maker, a, false);
    if s.vars.closed || !a.created {
      hide Sane;
      ThreadsDoNotMatter(cfg, s, s'.threads);
    } else {
      var b := if a.seeded then Box(0, a.now, cfg.codeKey) else Box(0, 0, "");
      FreeBoxIsSane(cfg, s, a.id, b);
      var s1 := s.(vars := s.vars.(boxes := s.vars.boxes[a.id := b]));
      hide Sane;
      if a.seeded && |s.idle| < cfg.maxSize {
        GivenIsSane(cfg, s1, a.id);
        ThreadsDoNotMatter(cfg, s1.(idle := s1.idle + [a.id]), s'.threads);
      } else {
        StoppedIsSane(cfg, s1, a.id);
        ThreadsDoNotMatter(cfg, Retire(s1, a.id), s'.threads);
      }
    }
  }

  /** The pool after an undisturbed tick, before its workers are started. */
  function Ticked(cfg: Config, s: Pool, now: nat): Pool
    requires Known(s.vars.boxes, s.idle)
  {
    s.(idle := Kept(cfg, s.vars.boxes, s.idle, now), stopped := s.stopped + Stale(cfg, s.vars.boxes, s.idle, now))
  }

  lemma TickedIsSane(cfg: Config, s: Pool, now: nat)
    requires Sane(cfg, s)
    ensures Known(s.vars.boxes, s.idle) && Sane(cfg, Ticked(cfg, s, now)) && |Ticked(cfg, s, now).idle| <= cfg.maxSize
  {
    assert forall i :: 0 <= i < |s.idle| ==> s.idle[i] in s.idle;
    TickIsApart(cfg, s.vars.boxes, s.idle, now);
    var s' := Ticked(cfg, s, now);
    hide Kept, Stale;
    forall id | id in s'.idle ensures IdleSane(cfg, s', id) {
      assert id in s.idle && IdleSane(cfg, s, id);
    }
    forall id | id in s'.vars.inUse ensures UsedSane(cfg, s', id) {
      assert UsedSane(cfg, s, id);
    }
    forall i | 0 <= i < |s'.stopped| ensures s'.stopped[i] in s'.vars.boxes {
      assert s'.stopped[i] in s.stopped || s'.stopped[i] in s.idle;
    }
  }

  lemma ShutDownIsSane(cfg: Config, s: Pool)
    requires Sane(cfg, s)
    ensures Sane(cfg, ShutDownAlone(s))
  {
    var s' := ShutDownAlone(s);
    forall id | id in s'.vars.inUse ensures UsedSane(cfg, s', id) {
      assert UsedSane(cfg, s, id) && (id in s.idle ==> IdleSane(cfg, s, id));
    }
    forall i | 0 <= i < |s'.stopped| ensures s'.stopped[i] in s'.vars.boxes {
      assert s'.stopped[i] in s.stopped || (s'.stopped[i] in s.idle && IdleSane(cfg, s, s'.stopped[i]));
    }
  }

  class DockerPool {
    const cfg: Config
    var idle: seq<Id>
    var boxes: map<Id, Box>
    var inUse: set<Id>
    var stopped: seq<Id>
    var swept: set<Id>
    var closed: bool
    var warmStarts: nat
    var replacements: nat // goroutines started to replenish

    ghost predicate Valid()
      reads this
    {
      Sane(cfg, View(map[]))
    }

    /** The state of the step machine, given its threads; Shutdown has run to its end or not begun. */
    ghost function View(threads: map<Tid, Thread>): Pool
      reads this
    {
      Pool(idle, stopped, threads,
           Vars(boxes, inUse, swept, closed, closed, false, closed, closed, warmStarts, false, None))
    }

    constructor (cfg: Config)
      ensures Valid() && this.cfg == cfg && View(map[]) == New() && replacements == 0
    {
      this.cfg := cfg;
      idle, boxes, inUse, stopped, swept := [], map[], {}, [], {};
      closed, warmStarts, replacements := false, 0, 0;
    }

    /** The oldest idle container, or none when the caller's context ends first. */
    method Acquire(now: nat, ghost t: Tid, ghost threads: map<Tid, Thread>) returns (r: Option<Id>)
      requires Valid() && t !in threads
      modifies this`idle, this`boxes, this`inUse, this`warmStarts
      ensures Valid()
      ensures r.None? <==> old(idle) == []
      ensures r.None? ==> View(threads) == old(View(threads))
      ensures r.Some? ==> old(idle) == [r.value] + idle && r.value in old(boxes) && r.value !in old(inUse)
      ensures r.Some? ==> inUse == old(inUse) + {r.value} && warmStarts == old(warmStarts) + 1
      ensures r.Some? ==>
        var b := old(boxes)[r.value]; boxes == old(boxes)[r.value := Box(b.useCount + 1, now, b.codeKey)]
      ensures r.Some? ==>
        View(threads[t := Thread(Execution, Run(Holding), [r.value], [])]) == Acquired(old(View(threads)), t, now)
    {
      if idle == [] {
        return None;
      }
      AcquiredIsSane(cfg, View(map[]), t, now);
      hide Sane;
      var id := idle[0];
      idle := idle[1..];
      boxes := boxes[id := boxes[id].(useCount := boxes[id].useCount + 1, lastUsed := now)];
      inUse := inUse + {id};
      warmStarts := warmStarts + 1;
      return Some(id);
    }

    /** No container is an error. A used-up one is stopped and replaced; another goes back unless
        the pool is closed or full. */
    method Release(c: Option<Id>, now: nat, stopOk: bool, ghost t: Tid, ghost threads: map<Tid, Thread>)
        returns (ok: bool)
      requires Valid()
      requires c.Some?
          ==> c.value in inUse && t in threads && threads[t] == Thread(Execution, Run(Holding), [c.value], [])
      modifies this`idle, this`boxes, this`inUse, this`stopped, this`replacements
      ensures Valid()
      ensures c.None? ==> !ok && View(threads) == old(View(threads)) && replacements == old(replacements)
      ensures c.Some? ==> c.value in old(boxes) && inUse == old(inUse) - {c.value}
      ensures c.Some? ==>
        var b := old(boxes)[c.value];
        var retires := cfg.maxUse > 0 && b.useCount >= cfg.maxUse;
        var back := !retires && !closed && |old(idle)| < cfg.maxSize;
        && idle == (if back then old(idle) + [c.value] else old(idle))
        && stopped == (if back then old(stopped) else old(stopped) + [c.value])
        && boxes == (if retires then old(boxes) else old(boxes)[c.value := Box(b.useCount, now, b.codeKey)])
        && (ok <==> !retires || stopOk)
        && replacements == old(replacements) + (if retires && stopOk then 1 else 0)
      ensures c.Some? ==>
        var after := Released(cfg, old(View(threads)), t, c.value, now, stopOk); View(after.threads) == after
    {
      if c.None? {
        return false;
      }
      var id := c.value;
      ReleasedIsSane(cfg, View(map[]), t, id, now, stopOk);
      hide Sane;
      inUse := inUse - {id};
      if cfg.maxUse > 0 && boxes[id].useCount >= cfg.maxUse {
        stopped := stopped + [id];
        if !stopOk {
          return false;
        }
        replacements := replacements + 1;
        return true;
      }
      boxes := boxes[id := boxes[id].(lastUsed := now)];
      if closed {
        stopped := stopped + [id];
        return true;
      }
      if |idle| < cfg.maxSize {
        idle := idle + [id];
      } else {
        stopped := stopped + [id];
      }
      return true;
    }

    /** Discard with its goroutine up to replenishing. */
    method Discard(id: Id, ghost t: Tid, ghost threads: map<Tid, Thread>)
      requires Valid() && id in inUse && t in threads && threads[t] == Thread(Execution, Run(Holding), [id], [])
      modifies this`inUse, this`stopped, this`replacements
      ensures Valid() && replacements == old(replacements) + 1
      ensures inUse == old(inUse) - {id} && stopped == old(stopped) + [id]
      ensures var after := Discarded(old(View(threads)), t, id);
              View(after.threads) == after
    {
      DiscardedIsSane(cfg, View(map[]), t, id);
      hide Sane;
      inUse := inUse - {id};
      replacements := replacements + 1;
      stopped := stopped + [id];
    }

    /** The new container is idle only if Docker made and seeded it and the pool was open with
        room; every other container made is stopped. */
    method EnqueueNew(a: Answer, ghost t: Tid, ghost threads: map<Tid, Thread>) returns (ok: bool)
      requires Valid() && a.id !in boxes && t in threads && threads[t] == Thread(Maker, Make(Enqueue), [], [])
      modifies this`idle, this`boxes, this`stopped
      ensures Valid()
      ensures ok <==> !closed && a.created && a.seeded
      ensures idle == if ok && |old(idle)| < cfg.maxSize then old(idle) + [a.id] else old(idle)
      ensures stopped == if !closed && a.created && !(a.seeded && |old(idle)| < cfg.maxSize) then old(stopped) + [a.id]
                         else old(stopped)
      ensures boxes == if closed || !a.created then old(boxes)
                       else old(boxes)[a.id := if a.seeded then Box(0, a.now, cfg.codeKey) else Box(0, 0, "")]
      ensures var after := Enqueued(cfg, old(View(threads)), t, Maker, a, false);
              View(after.threads) == after
    {
      EnqueuedIsSane(cfg, View(map[]), t, a);
      hide Sane;
      if closed || !a.created {
        return false;
      }
      boxes := boxes[a.id := Box(0, 0, "")];
      if !a.seeded {
        stopped := stopped + [a.id];
        return false;
      }
      boxes := boxes[a.id := Box(0, a.now, cfg.codeKey)];
      assert boxes == old(boxes)[a.id := Box(0, a.now, cfg.codeKey)];
      if |idle| < cfg.maxSize {
        idle := idle + [a.id];
      } else {
        stopped := stopped + [a.id];
      }
      return true;
    }

    /** One container for a pool below MinSize, as a retirement or a Discard asks for. */
    method ReplenishOne(a: Answer)
      requires Valid() && a.id !in boxes
      modifies this`idle, this`boxes, this`stopped
      ensures Valid()
      ensures |old(idle)| >= cfg.minSize || closed || !a.created ==>
                idle == old(idle) && boxes == old(boxes) && stopped == old(stopped)
      ensures |old(idle)| < cfg.minSize && !closed && a.created && a.seeded && |old(idle)| < cfg.maxSize ==>
                idle == old(idle) + [a.id] && stopped == old(stopped)
      ensures |old(idle)| < cfg.minSize && !closed && a.created && !(a.seeded && |old(idle)| < cfg.maxSize) ==>
                idle == old(idle) && stopped == old(stopped) + [a.id]
    {
      if |idle| >= cfg.minSize {
        return;
      }
      var _ := EnqueueNew(a, 0, map[0 := Thread(Maker, Make(Enqueue), [], [])]);
    }

    /** Fills the pool from Docker's answers; when they run out Docker fails. It ends with
        MinSize idle containers or at the first failure, the containers made before it all
        idle, in order, as far as they fit. */
    method Fill(answers: seq<Answer>) returns (k: nat, ok: bool)
      requires Valid()
      requires forall i :: 0 <= i < |answers| ==> answers[i].id !in boxes
      requires forall i, j :: 0 <= i < j < |answers| ==> answers[i].id != answers[j].id
      modifies this`idle, this`boxes, this`stopped
      ensures Valid() && k <= |answers|
      ensures ok <==> |idle| >= cfg.minSize
      ensures k > 0 ==> !closed
      ensures forall i :: 0 <= i < k ==> answers[i].created && answers[i].seeded
      ensures !ok ==> closed || k == |answers| || !answers[k].created || !answers[k].seeded
      ensures |idle| == if |old(idle)| + k <= cfg.maxSize then |old(idle)| + k else cfg.maxSize
      ensures idle[..|old(idle)|] == old(idle)
      ensures forall i :: |old(idle)| <= i < |idle| ==> idle[i] == answers[i - |old(idle)|].id
    {
      k := 0;
      ok := true;
      while |idle| < cfg.minSize
        invariant Valid() && k <= |answers| && ok
        invariant forall i :: k <= i < |answers| ==> answers[i].id !in boxes
        invariant k > 0 ==> !closed
        invariant forall i :: 0 <= i < k ==> answers[i].created && answers[i].seeded
        invariant |old(idle)| <= |idle| == if |old(idle)| + k <= cfg.maxSize then |old(idle)| + k else cfg.maxSize
        invariant idle[..|old(idle)|] == old(idle)
        invariant forall i :: |old(idle)| <= i < |idle| ==> idle[i] == answers[i - |old(idle)|].id
        decreases |answers| - k
      {
        if k == |answers| {
          return k, false;
        }
        var made := EnqueueNew(answers[k], 0, map[0 := Thread(Maker, Make(Enqueue), [], [])]);
        if !made {
          return k, false;
        }
        k := k + 1;
      }
    }

    /** The tick's first loop: takes every idle container out, sorted by age. */
    method Drain(now: nat) returns (keep: seq<Id>, toEvict: seq<Id>)
      requires Known(boxes, idle)
      modifies this`idle
      ensures idle == []
      ensures keep == Kept(cfg, boxes, old(idle), now) && toEvict == Stale(cfg, boxes, old(idle), now)
    {
      keep, toEvict := [], [];
      while idle != []
        invariant Known(boxes, idle)
        invariant keep + Kept(cfg, boxes, idle, now) == Kept(cfg, boxes, old(idle), now)
        invariant toEvict + Stale(cfg, boxes, idle, now) == Stale(cfg, boxes, old(idle), now)
        decreases |idle|
      {
        var id := idle[0];
        if Fresh(cfg, boxes[id], now) {
          keep := keep + [id];
        } else {
          toEvict := toEvict + [id];
        }
        idle := idle[1..];
      }
    }

    /** Its next two loops: the stale ones are stopped; the fresh ones go back as far as they
        fit, and the rest are stopped. */
    method PutBack(keep: seq<Id>, toEvict: seq<Id>)
      requires idle == []
      modifies this`idle, this`stopped
      ensures idle == Fitting(cfg, keep) && stopped == old(stopped) + toEvict + keep[|idle|..]
    {
      for i := 0 to |toEvict|
        invariant stopped == old(stopped) + toEvict[..i] && idle == []
      {
        stopped := stopped + [toEvict[i]];
      }
      for i := 0 to |keep|
        invariant idle == Fitting(cfg, keep[..i]) && stopped == old(stopped) + toEvict + keep[|idle|..i]
      {
        if |idle| < cfg.maxSize {
          idle := idle + [keep[i]];
        } else {
          stopped := stopped + [keep[i]];
        }
      }
    }

    /** One tick: the idle channel is drained, the stale containers are stopped, the fresh ones
        go back in order, and a replacement is started for each missing one. */
    method EvictAndReplenish(now: nat)
      requires Valid()
      modifies this`idle, this`stopped, this`replacements
      ensures Valid() && Known(boxes, old(idle))
      ensures View(map[]) == Ticked(cfg, old(View(map[])), now)
      ensures replacements == old(replacements) + if cfg.minSize > |idle| then cfg.minSize - |idle| else 0
    {
      TickedIsSane(cfg, View(map[]), now);
      hide Kept, Stale, Sane;
      var keep, toEvict := Drain(now);
      PutBack(keep, toEvict);
      var deficit, i := cfg.minSize - |idle|, 0;
      while i < deficit
        invariant 0 <= i && (i <= deficit || i == 0) && replacements == old(replacements) + i
        modifies this`replacements
      {
        replacements := replacements + 1;
        i := i + 1;
      }
    }

    /** Shutdown's first loop. */
    method StopIdle()
      modifies this`idle, this`stopped
      ensures idle == [] && stopped == old(stopped) + old(idle)
    {
      while idle != []
        invariant stopped + idle == old(stopped) + old(idle)
        decreases |idle|
      {
        stopped := stopped + [idle[0]];
        idle := idle[1..];
      }
    }

    /** Its walk over the in-use map. */
    method SweepInUse()
      modifies this`swept
      ensures swept == old(swept) + inUse
    {
      var todo := inUse;
      while todo != {}
        invariant todo <= inUse && swept + todo == old(swept) + inUse
        decreases |todo|
      {
        var id :| id in todo;
        swept := swept + {id};
        todo := todo - {id};
      }
    }

    /** With no goroutine left to wait for: everything idle is stopped in order, then everything
        in use is swept. */
    method Shutdown()
      requires Valid()
      modifies this`idle, this`stopped, this`swept, this`closed
      ensures Valid() && closed && idle == [] && stopped == old(stopped) + old(idle) && swept == old(swept) + inUse
      ensures View(map[]) == ShutDownAlone(old(View(map[])))
    {
      ShutDownIsSane(cfg, View(map[]));
      hide Sane;
      closed := true;
      StopIdle();
      SweepInUse();
    }
  }

  // ---------------------------------------------------------------------
  // The tick of the step machine, undisturbed, does what the method does
  // ---------------------------------------------------------------------

  /** The pool while thread t is in its tick. */
  function Ticking(s: Pool, t: Tid, k: TickPoint, keep: seq<Id>, evict: seq<Id>): Pool
  {
    s.(threads := s.threads[t := Thread(Lifecycle, Tick(k), keep, evict)])
  }

  lemma DrainStep(cfg: Config, s: Pool, t: Tid, now: nat, keep: seq<Id>, evict: seq<Id>)
    requires s.vars.crash.None? && Known(s.vars.boxes, s.idle) && s.idle != []
    ensures Enabled(Ticking(s, t, Draining, keep, evict), T(DrainOne(t, now)))
    ensures var young := Fresh(cfg, s.vars.boxes[s.idle[0]], now);
            Apply(cfg, Ticking(s, t, Draining, keep, evict), T(DrainOne(t, now))) ==
            Ticking(s.(idle := s.idle[1..]), t, Draining,
                    if young then keep + [s.idle[0]] else keep, if young then evict else evict + [s.idle[0]])
  {
  }

  lemma {:induction false} DrainLeads(cfg: Config, s: Pool, t: Tid, now: nat, keep: seq<Id>, evict: seq<Id>)
      returns (events: seq<Event>)
    requires s.vars.crash.None? && Known(s.vars.boxes, s.idle)
    ensures Leads(cfg, Ticking(s, t, Draining, keep, evict), events,
                  Ticking(s.(idle := []), t, Draining,
                          keep + Kept(cfg, s.vars.boxes, s.idle, now), evict + Stale(cfg, s.vars.boxes, s.idle, now)))
    decreases |s.idle|
  {
    hide Enabled, Apply;
    if s.idle == [] {
      events := [];
      assert keep + [] == keep && evict + [] == evict && s.(idle := []) == s;
    } else {
      var id := s.idle[0];
      var young := Fresh(cfg, s.vars.boxes[id], now);
      var k, e := if young then keep + [id] else keep, if young then evict else evict + [id];
      DrainStep(cfg, s, t, now, keep, evict);
      var more := DrainLeads(cfg, s.(idle := s.idle[1..]), t, now, k, e);
      assert k + Kept(cfg, s.vars.boxes, s.idle[1..], now) == keep + Kept(cfg, s.vars.boxes, s.idle, now);
      assert e + Stale(cfg, s.vars.boxes, s.idle[1..], now) == evict + Stale(cfg, s.vars.boxes, s.idle, now);
      events := [T(DrainOne(t, now))] + more;
      hide Leads, Ticking;
      Then(cfg, Ticking(s, t, Draining, keep, evict), T(DrainOne(t, now)), more,
           Ticking(s.(idle := []), t, Draining,
                   keep + Kept(cfg, s.vars.boxes, s.idle, now), evict + Stale(cfg, s.vars.boxes, s.idle, now)));
    }
  }

  lemma EvictStep(cfg: Config, s: Pool, t: Tid, keep: seq<Id>, evict: seq<Id>)
    requires s.vars.crash.None? && evict != []
    ensures Enabled(Ticking(s, t, Evicting, keep, evict), T(EvictOne(t)))
    ensures Apply(cfg, Ticking(s, t, Evicting, keep, evict), T(EvictOne(t))) ==
            Ticking(s.(stopped := s.stopped + [evict[0]]), t, Evicting, keep, evict[1..])
  {
  }

  lemma {:induction false} EvictLeads(cfg: Config, s: Pool, t: Tid, keep: seq<Id>, evict: seq<Id>)
      returns (events: seq<Event>)
    requires s.vars.crash.None?
    ensures Leads(cfg, Ticking(s, t, Evicting, keep, evict), events,
                  Ticking(s.(stopped := s.stopped + evict), t, Evicting, keep, []))
    decreases |evict|
  {
    hide Enabled, Apply;
    if evict == [] {
      events := [];
      assert s.stopped + [] == s.stopped;
    } else {
      EvictStep(cfg, s, t, keep, evict);
      var s1 := s.(stopped := s.stopped + [evict[0]]);
      var more := EvictLeads(cfg, s1, t, keep, evict[1..]);
      assert s1.stopped + evict[1..] == s.stopped + evict;
      events := [T(EvictOne(t))] + more;
      hide Leads, Ticking;
      Then(cfg, Ticking(s, t, Evicting, keep, evict), T(EvictOne(t)), more,
           Ticking(s.(stopped := s.stopped + evict), t, Evicting, keep, []));
    }
  }

  lemma PutBackStep(cfg: Config, s: Pool, t: Tid, keep: seq<Id>)
    requires s.vars.crash.None? && !s.vars.idleClosed && keep != [] && |s.idle| < cfg.maxSize
    ensures Enabled(Ticking(s, t, PuttingBack, keep, []), T(PutBackOne(t, false)))
    ensures Apply(cfg, Ticking(s, t, PuttingBack, keep, []), T(PutBackOne(t, false))) ==
            Ticking(s.(idle := s.idle + [keep[0]]), t, PuttingBack, keep[1..], [])
  {
  }

  lemma {:induction false} PutBackLeads(cfg: Config, s: Pool, t: Tid, keep: seq<Id>) returns (events: seq<Event>)
    requires s.vars.crash.None? && !s.vars.idleClosed && |s.idle| + |keep| <= cfg.maxSize
    ensures Leads(cfg, Ticking(s, t, PuttingBack, keep, []), events,
                  Ticking(s.(idle := s.idle + keep), t, PuttingBack, [], []))
    decreases |keep|
  {
    hide Enabled, Apply;
    if keep == [] {
      events := [];
      assert s.idle + [] == s.idle;
    } else {
      PutBackStep(cfg, s, t, keep);
      var s1 := s.(idle := s.idle + [keep[0]]);
      var more := PutBackLeads(cfg, s1, t, keep[1..]);
      assert s1.idle + keep[1..] == s.idle + keep;
      events := [T(PutBackOne(t, false))] + more;
      hide Leads, Ticking;
      Then(cfg, Ticking(s, t, PuttingBack, keep, []), T(PutBackOne(t, false)), more,
           Ticking(s.(idle := s.idle + keep), t, PuttingBack, [], []));
    }
  }

  lemma BeginsToDrain(cfg: Config, s: Pool, t: Tid, keep: seq<Id>, evict: seq<Id>)
    requires s.vars.crash.None? && !s.vars.idleClosed
    ensures Leads(cfg, Ticking(s, t, Select, [], []), [T(BeginTick(t))], Ticking(s, t, Draining, [], []))
    ensures s.idle == [] ==>
      Leads(cfg, Ticking(s, t, Draining, keep, evict), [T(DrainOne(t, 0))], Ticking(s, t, Evicting, keep, evict))
  {
    hide Leads;
    OneStep(cfg, Ticking(s, t, Select, [], []), T(BeginTick(t)), Ticking(s, t, Draining, [], []));
    if s.idle == [] {
      OneStep(cfg, Ticking(s, t, Draining, keep, evict), T(DrainOne(t, 0)), Ticking(s, t, Evicting, keep, evict));
    }
  }

  lemma PutsBackAndCounts(cfg: Config, s: Pool, t: Tid, keep: seq<Id>)
    requires s.vars.crash.None?
    ensures Leads(cfg, Ticking(s, t, Evicting, keep, []), [T(EvictOne(t))], Ticking(s, t, PuttingBack, keep, []))
    ensures Leads(cfg, Ticking(s, t, PuttingBack, [], []), [T(PutBackOne(t, false))], Ticking(s, t, Counting, [], []))
    ensures Leads(cfg, Ticking(s, t, Counting, [], []), [T(CountDeficit(t))],
                  Ticking(s, t, Spawning(Deficit(cfg, s)), [], []))
  {
    hide Leads;
    OneStep(cfg, Ticking(s, t, Evicting, keep, []), T(EvictOne(t)), Ticking(s, t, PuttingBack, keep, []));
    OneStep(cfg, Ticking(s, t, PuttingBack, [], []), T(PutBackOne(t, false)), Ticking(s, t, Counting, [], []));
    OneStep(cfg, Ticking(s, t, Counting, [], []), T(CountDeficit(t)), Ticking(s, t, Spawning(Deficit(cfg, s)), [], []));
  }

  /** An undisturbed tick of the machine leaves the idle channel, the stopped containers and the
      number of workers to start as EvictAndReplenish does. */
  lemma TickRunsAlone(cfg: Config, s: Pool, t: Tid, now: nat) returns (events: seq<Event>)
    requires s.vars.crash.None? && !s.vars.idleClosed && Known(s.vars.boxes, s.idle) && |s.idle| <= cfg.maxSize
    ensures var after := Ticked(cfg, s, now);
            Leads(cfg, Ticking(s, t, Select, [], []), events, Ticking(after, t, Spawning(Deficit(cfg, after)), [], []))
  {
    var keep, evict := Kept(cfg, s.vars.boxes, s.idle, now), Stale(cfg, s.vars.boxes, s.idle, now);
    TickSplitsByAge(cfg, s.vars.boxes, s.idle, now, 0);
    hide Kept, Stale, Enabled, Apply;
    var start := Ticking(s, t, Select, [], []);
    BeginsToDrain(cfg, s, t, [], []);
    var e1 := DrainLeads(cfg, s, t, now, [], []);
    assert [] + keep == keep && [] + evict == evict;
    var s1 := s.(idle := []);
    Chain(cfg, start, [T(BeginTick(t))], Ticking(s, t, Draining, [], []), e1, Ticking(s1, t, Draining, keep, evict));
    BeginsToDrain(cfg, s1, t, keep, evict);
    hide Leads, Ticking;
    var e2 := [T(BeginTick(t))] + e1 + [T(DrainOne(t, 0))];
    Chain(cfg, start, [T(BeginTick(t))] + e1, Ticking(s1, t, Draining, keep, evict), [T(DrainOne(t, 0))],
          Ticking(s1, t, Evicting, keep, evict));
    var e3 := EvictLeads(cfg, s1, t, keep, evict);
    var s2 := s1.(stopped := s.stopped + evict);
    Chain(cfg, start, e2, Ticking(s1, t, Evicting, keep, evict), e3, Ticking(s2, t, Evicting, keep, []));
    var rest := PutBackRuns(cfg, s2, t, keep);
    Chain(cfg, start, e2 + e3, Ticking(s2, t, Evicting, keep, []), rest,
          Ticking(s2.(idle := keep), t, Spawning(Deficit(cfg, s2.(idle := keep))), [], []));
    assert s2.(idle := keep) == s.(idle := keep, stopped := s.stopped + evict);
    events := e2 + e3 + rest;
  }

  lemma PutBackRuns(cfg: Config, s: Pool, t: Tid, keep: seq<Id>) returns (events: seq<Event>)
    requires s.vars.crash.None? && !s.vars.idleClosed && s.idle == [] && |keep| <= cfg.maxSize
    ensures Leads(cfg, Ticking(s, t, Evicting, keep, []), events,
                  Ticking(s.(idle := keep), t, Spawning(Deficit(cfg, s.(idle := keep))), [], []))
  {
    hide Enabled, Apply, Leads, Ticking, Deficit;
    var s1 := s.(idle := keep);
    PutsBackAndCounts(cfg, s, t, keep);
    var e1 := PutBackLeads(cfg, s, t, keep);
    assert [] + keep == keep;
    PutsBackAndCounts(cfg, s1, t, []);
    var start := Ticking(s, t, Evicting, keep, []);
    Chain(cfg, start, [T(EvictOne(t))], Ticking(s, t, PuttingBack, keep, []), e1, Ticking(s1, t, PuttingBack, [], []));
    Chain(cfg, start, [T(EvictOne(t))] + e1, Ticking(s1, t, PuttingBack, [], []), [T(PutBackOne(t, false))],
          Ticking(s1, t, Counting, [], []));
    events := [T(EvictOne(t))] + e1 + [T(PutBackOne(t, false))] + [T(CountDeficit(t))];
    Chain(cfg, start, [T(EvictOne(t))] + e1 + [T(PutBackOne(t, false))], Ticking(s1, t, Counting, [], []),
          [T(CountDeficit(t))],
          Ticking(s1, t, Spawning(Deficit(cfg, s1)), [], []));
  }
}

/** The Kubernetes pod pool: one slice of pods, rotated, swapped and truncated in place
    under a mutex. Pods are values identified by their name. */
module KubernetesPools {
  import opened Common

  datatype PodState = Warm | InUse

  datatype Pod = Pod(id: nat, state: PodState, lastUsed: nat, useCount: nat)

  datatype Config = Config(maxSize: nat, maxUseCount: int)

  predicate UniqueIds(s: seq<Pod>)
  {
    forall i, j :: 0 <= i < j < |s| ==> s[i].id != s[j].id
  }

  // ---------------------------------------------------------------------
  // The slice operations
  // ---------------------------------------------------------------------

  function Rotated(s: seq<Pod>, i: nat): seq<Pod>
    requires i < |s|
  {
    s[..i] + s[i + 1..] + [s[i]]
  }

  /** Element `i` is overwritten by the last one and the slice shrinks. */
  function SwapRemoved(s: seq<Pod>, i: nat): seq<Pod>
    requires i < |s|
  {
    s[i := s[|s| - 1]][..|s| - 1]
  }

  ghost predicate IsFirstWarm(s: seq<Pod>, i: nat)
  {
    i < |s| && s[i].state == Warm && forall j :: 0 <= j < i ==> s[j].state != Warm
  }

  predicate Evictable(p: Pod, now: nat)
  {
    p.state == Warm && p.lastUsed < now
  }

  /** `i` is the least recently used warm pod last used before now; ties go to the front. */
  ghost predicate IsLru(s: seq<Pod>, now: nat, i: nat)
  {
    && i < |s| && Evictable(s[i], now)
    && (forall j :: 0 <= j < |s| && Evictable(s[j], now) ==> s[i].lastUsed <= s[j].lastUsed)
    && (forall j :: 0 <= j < i && Evictable(s[j], now) ==> s[i].lastUsed < s[j].lastUsed)
  }

  ghost predicate NoneEvictable(s: seq<Pod>, now: nat)
  {
    forall j :: 0 <= j < |s| ==> !Evictable(s[j], now)
  }

  /** Evict's victim: the LRU pod if there is one, and otherwise whatever stands first. */
  ghost predicate IsVictim(s: seq<Pod>, now: nat, i: nat)
  {
    IsLru(s, now, i) || (NoneEvictable(s, now) && i == 0 && s != [])
  }

  lemma VictimUnique(s: seq<Pod>, now: nat, i: nat, j: nat)
    requires IsVictim(s, now, i) && IsVictim(s, now, j)
    ensures i == j
  {
  }

  /** Eviction takes the warm pod that was used longest ago, the first of them, whenever some warm pod
      was last used before now, and otherwise the pod at the front. */
  lemma VictimIsOldest(s: seq<Pod>, now: nat, i: nat)
    requires IsVictim(s, now, i)
    ensures i < |s|
    ensures (exists j :: 0 <= j < |s| && s[j].state == Warm && s[j].lastUsed < now) ==>
              && s[i].state == Warm
              && (forall j :: 0 <= j < |s| && s[j].state == Warm ==> s[i].lastUsed <= s[j].lastUsed)
              && (forall j :: 0 <= j < i && s[j].state == Warm ==> s[i].lastUsed < s[j].lastUsed)
    ensures (forall j :: 0 <= j < |s| && s[j].state == Warm ==> s[j].lastUsed >= now) ==> i == 0
  {
    if j :| 0 <= j < |s| && s[j].state == Warm && s[j].lastUsed < now {
      assert Evictable(s[j], now);
    }
  }

  /** Eviction takes a warm pod exactly when some warm pod was last used before now or
      the pod at the front happens to be warm; otherwise it deletes a pod in use. */
  lemma VictimIsWarmIff(s: seq<Pod>, now: nat, i: nat)
    requires IsVictim(s, now, i)
    ensures s[i].state == Warm <==> !NoneEvictable(s, now) || s[0].state == Warm
  {
  }

  /** Rotation loses and duplicates nothing, and keeps names unique. */
  lemma RotationKeepsPods(s: seq<Pod>, i: nat)
    requires i < |s|
    ensures multiset(Rotated(s, i)) == multiset(s)
    ensures UniqueIds(s) ==> UniqueIds(Rotated(s, i))
  {
    if UniqueIds(s) {
      RotationKeepsNames(s, i);
    }
    hide UniqueIds;
    assert s == s[..i] + ([s[i]] + s[i + 1..]);
    assert multiset(s) == multiset(s[..i]) + (multiset{s[i]} + multiset(s[i + 1..]));
    assert multiset(Rotated(s, i)) == multiset(s[..i]) + multiset(s[i + 1..]) + multiset{s[i]};
  }

  lemma RotationKeepsNames(s: seq<Pod>, i: nat)
    requires i < |s| && UniqueIds(s)
    ensures UniqueIds(Rotated(s, i))
  {
    RotatedAt(s, i);
    hide Rotated;
  }

  lemma RotatedAt(s: seq<Pod>, i: nat)
    requires i < |s|
    ensures |Rotated(s, i)| == |s|
    ensures forall k :: 0 <= k < |s| ==>
              Rotated(s, i)[k] == s[if k < i then k else if k < |s| - 1 then k + 1 else i]
  {
  }

  lemma SwapRemovedAt(s: seq<Pod>, i: nat)
    requires i < |s|
    ensures |SwapRemoved(s, i)| == |s| - 1
    ensures forall k :: 0 <= k < |s| - 1 ==> SwapRemoved(s, i)[k] == s[if k == i then |s| - 1 else k]
  {
  }

  /** Swap-removal removes exactly the pod it was asked to remove. */
  lemma SwapRemovalRemovesOne(s: seq<Pod>, i: nat)
    requires i < |s|
    ensures multiset(SwapRemoved(s, i)) == multiset(s) - multiset{s[i]}
  {
    hide SwapRemoved;
    SwapRemovedAt(s, i);
    var n := |s| - 1;
    var r := SwapRemoved(s, i);
    assert s == s[..n] + [s[n]];
    assert multiset(s) == multiset(s[..n]) + multiset{s[n]};
    if i < n {
      assert r == s[..n][i := s[n]];
    } else {
      assert r == s[..n];
    }
  }

  lemma SwapRemovalKeepsOthers(s: seq<Pod>, i: nat)
    requires i < |s| && UniqueIds(s)
    ensures UniqueIds(SwapRemoved(s, i))
    ensures forall p :: p in SwapRemoved(s, i) <==> p in s && p.id != s[i].id
  {
    hide SwapRemoved;
    SwapRemovedAt(s, i);
    var n := |s| - 1;
    var r := SwapRemoved(s, i);
    forall p
      ensures p in r <==> p in s && p.id != s[i].id
    {
      if p in s && p.id != s[i].id {
        var k :| 0 <= k < |s| && s[k] == p;
        assert r[if k == n then i else k] == p;
      }
    }
  }

  // ---------------------------------------------------------------------
  // The object
  // ---------------------------------------------------------------------

  function Appended(c: Option<Pod>): seq<Pod> { if c.Some? then [c.value] else [] }

  class KubernetesPodPool {
    const cfg: Config
    var containers: seq<Pod>
    var warmStarts: nat
    var totalEvictions: nat
    var totalCreated: nat

    constructor (cfg: Config)
      ensures this.cfg == cfg && containers == []
      ensures warmStarts == totalEvictions == totalCreated == 0
    {
      this.cfg := cfg;
      containers, warmStarts, totalEvictions, totalCreated := [], 0, 0, 0;
    }

    method MoveToEnd(index: nat)
      requires index < |containers|
      modifies this`containers
      ensures containers == Rotated(old(containers), index)
    {
      if index == |containers| - 1 {
        return;
      }
      var container := containers[index];
      var i := index;
      while i < |containers| - 1
        invariant index <= i < |containers| == |old(containers)|
        invariant forall k :: 0 <= k < index ==> containers[k] == old(containers)[k]
        invariant forall k :: index <= k < i ==> containers[k] == old(containers)[k + 1]
        invariant forall k :: i <= k < |containers| ==> containers[k] == old(containers)[k]
      {
        containers := containers[i := containers[i + 1]];
        i := i + 1;
      }
      containers := containers[|containers| - 1 := container];
    }

    method Acquire(now: nat) returns (c: Option<Pod>)
      modifies this`containers, this`warmStarts
      ensures c.None? ==>
                && (forall j :: 0 <= j < |containers| ==> containers[j].state != Warm)
                && containers == old(containers) && warmStarts == old(warmStarts)
      ensures c.Some? ==>
                exists i: nat ::
                  && IsFirstWarm(old(containers), i)
                  && c.value == old(containers)[i].(state := InUse, lastUsed := now,
                                                    useCount := old(containers)[i].useCount + 1)
                  && containers == Rotated(old(containers)[i := c.value], i)
                  && multiset(containers)
                      == multiset(old(containers)) - multiset{old(containers)[i]} + multiset{c.value}
                  && warmStarts == old(warmStarts) + 1
    {
      var i := 0;
      while i < |containers|
        invariant 0 <= i <= |containers| && containers == old(containers) && warmStarts == old(warmStarts)
        invariant forall j :: 0 <= j < i ==> containers[j].state != Warm
      {
        if containers[i].state == Warm {
          var taken := containers[i].(state := InUse, lastUsed := now, useCount := containers[i].useCount + 1);
          containers := containers[i := taken];
          RotationKeepsPods(containers, i);
          MoveToEnd(i);
          warmStarts := warmStarts + 1;
          assert IsFirstWarm(old(containers), i);
          return Some(taken);
        }
        i := i + 1;
      }
      return None;
    }

    method RemovePod(id: nat)
      modifies this`containers, this`totalEvictions
      ensures totalEvictions == old(totalEvictions) + 1
      ensures (forall j :: 0 <= j < |old(containers)| ==> old(containers)[j].id != id) ==> containers == old(containers)
      ensures forall i :: 0 <= i < |old(containers)| && old(containers)[i].id == id
                          && (forall j :: 0 <= j < i ==> old(containers)[j].id != id)
                          ==> containers == SwapRemoved(old(containers), i)
    {
      totalEvictions := totalEvictions + 1;
      var i := 0;
      while i < |containers|
        invariant 0 <= i <= |containers| && containers == old(containers)
        invariant forall j :: 0 <= j < i ==> containers[j].id != id
      {
        if containers[i].id == id {
          containers := containers[i := containers[|containers| - 1]];
          containers := containers[..|containers| - 1];
          break;
        }
        i := i + 1;
      }
    }

    /** Evict: false when the pool is empty. */
    method Evict(now: nat) returns (ok: bool)
      requires UniqueIds(containers)
      modifies this`containers, this`totalEvictions
      ensures UniqueIds(containers)
      ensures ok <==> old(containers) != []
      ensures !ok ==> containers == old(containers) && totalEvictions == old(totalEvictions)
      ensures ok ==>
                exists i: nat ::
                  && IsVictim(old(containers), now, i)
                  && containers == SwapRemoved(old(containers), i)
                  && multiset(containers) == multiset(old(containers)) - multiset{old(containers)[i]}
                  && totalEvictions == old(totalEvictions) + 1
    {
      if |containers| == 0 {
        return false;
      }
      var lruIndex, oldest := 0, now;
      var i := 0;
      while i < |containers|
        invariant 0 <= i <= |containers|
        invariant oldest == now ==> lruIndex == 0 && NoneEvictable(containers[..i], now)
        invariant oldest != now ==> IsLru(containers[..i], now, lruIndex) && oldest == containers[lruIndex].lastUsed
        invariant oldest <= now
      {
        assert containers[..i + 1] == containers[..i] + [containers[i]];
        if containers[i].state == Warm && containers[i].lastUsed < oldest {
          lruIndex, oldest := i, containers[i].lastUsed;
        }
        i := i + 1;
      }
      assert containers[..i] == containers;
      assert IsVictim(containers, now, lruIndex);
      SwapRemovalRemovesOne(containers, lruIndex);
      SwapRemovalKeepsOthers(containers, lruIndex);
      RemovePod(containers[lruIndex].id);
      return true;
    }

    /** Release: no pod is an error; a pod at its use limit is retired, another warmed again. A pod
        that was evicted while in use is no longer in the slice, and nothing happens to it. */
    method Release(released: Option<Pod>, now: nat) returns (ok: bool)
      requires UniqueIds(containers)
      modifies this`containers, this`totalEvictions
      ensures UniqueIds(containers) && ok == released.Some?
      ensures released.None? ==> containers == old(containers) && totalEvictions == old(totalEvictions)
      ensures released.Some? ==> forall p :: p in old(containers) && p.id != released.value.id ==> p in containers
      ensures released.Some? && cfg.maxUseCount > 0 && released.value.useCount >= cfg.maxUseCount ==>
                && totalEvictions == old(totalEvictions) + 1
                && forall p :: p in containers <==> p in old(containers) && p.id != released.value.id
      ensures released.Some? && (cfg.maxUseCount <= 0 || released.value.useCount < cfg.maxUseCount) ==>
                && totalEvictions == old(totalEvictions)
                && |containers| == |old(containers)|
                && forall i :: 0 <= i < |containers| ==>
                     containers[i] == (if old(containers)[i].id == released.value.id
                                       then old(containers)[i].(state := Warm, lastUsed := now)
                                       else old(containers)[i])
    {
      if released.None? {
        return false;
      }
      var c := released.value;
      if cfg.maxUseCount > 0 && c.useCount >= cfg.maxUseCount {
        if i :| 0 <= i < |containers| && containers[i].id == c.id {
          SwapRemovalKeepsOthers(containers, i);
        }
        RemovePod(c.id);
        return true;
      }
      var i := 0;
      while i < |containers|
        invariant 0 <= i <= |containers| == |old(containers)| && totalEvictions == old(totalEvictions)
        invariant forall j :: i <= j < |containers| ==> containers[j] == old(containers)[j]
        invariant forall j :: 0 <= j < i ==>
                    containers[j] == (if old(containers)[j].id == c.id
                                      then old(containers)[j].(state := Warm, lastUsed := now)
                                      else old(containers)[j])
      {
        if containers[i].id == c.id {
          containers := containers[i := containers[i].(state := Warm, lastUsed := now)];
        }
        i := i + 1;
      }
      forall p | p in old(containers) && p.id != c.id
        ensures p in containers
      {
        var k :| 0 <= k < |old(containers)| && old(containers)[k] == p;
        assert containers[k] == p;
      }
      return true;
    }

    /** CreateNew's first part: a full pool loses its victim, and an empty one cannot. */
    method MakeRoom(now: nat) returns (ok: bool)
      requires UniqueIds(containers)
      modifies this`containers, this`totalEvictions
      ensures UniqueIds(containers) && (forall p :: p in containers ==> p in old(containers))
      ensures ok <==> |old(containers)| < cfg.maxSize || old(containers) != []
      ensures |old(containers)| < cfg.maxSize || !ok ==> containers == old(containers)
      ensures |old(containers)| >= cfg.maxSize && ok ==>
                && |containers| == |old(containers)| - 1
                && exists i: nat :: IsVictim(old(containers), now, i) && containers == SwapRemoved(old(containers), i)
    {
      if |containers| < cfg.maxSize {
        return true;
      }
      ghost var before := containers;
      ok := Evict(now);
      if ok {
        ghost var i: nat :| IsVictim(before, now, i) && containers == SwapRemoved(before, i);
        SwapRemovedAt(before, i);
        SwapRemovalKeepsOthers(before, i);
      }
    }

    /** CreateNew with nobody between its two critical sections; `made` is the created
        pod's name, or None when the cluster fails. */
    method CreateNew(made: Option<nat>, now: nat) returns (c: Option<Pod>)
      requires UniqueIds(containers)
      requires made.Some? ==> forall j :: 0 <= j < |containers| ==> containers[j].id != made.value
      modifies this`containers, this`totalEvictions, this`totalCreated
      ensures UniqueIds(containers)
      ensures |old(containers)| <= cfg.maxSize ==> |containers| <= cfg.maxSize
      ensures c.Some? <==> made.Some? && (|old(containers)| < cfg.maxSize || old(containers) != [])
      ensures c.Some? ==> c.value == Pod(made.value, Warm, now, 0)
      ensures |old(containers)| < cfg.maxSize ==> containers == old(containers) + Appended(c)
      ensures |old(containers)| >= cfg.maxSize && old(containers) != [] ==>
                exists i: nat :: IsVictim(old(containers), now, i)
                    && containers == SwapRemoved(old(containers), i) + Appended(c)
      ensures |old(containers)| >= cfg.maxSize && old(containers) == [] ==> containers == []
      ensures totalCreated == old(totalCreated) + (if c.Some? then 1 else 0)
    {
      ghost var before := containers;
      var ok := MakeRoom(now);
      hide IsVictim, SwapRemoved;
      if !ok || made.None? {
        return None;
      }
      var pod := Pod(made.value, Warm, now, 0);
      assert forall j :: 0 <= j < |containers| ==> containers[j] in containers;
      assert forall p :: p in before ==> p.id != made.value;
      containers := containers + [pod];
      totalCreated := totalCreated + 1;
      return Some(pod);
    }
  }

  // ---------------------------------------------------------------------
  // CreateNew calls that overlap
  // ---------------------------------------------------------------------

  /** A CreateNew call found the pool full and must evict, or it is creating its pod. */
  datatype CallPc = MustEvict | Creating

  datatype System = System(containers: seq<Pod>, calls: map<nat, CallPc>, now: nat)

  datatype Event =
    | Tick(dt: nat)
    | CheckCapacity(c: nat)
    | EvictOne(c: nat, victim: nat)
    | EvictFromEmpty(c: nat)
    | CreateFails(c: nat)
    | Append(c: nat, id: nat)
    | Take(i: nat)         // Acquire
    | GiveBack(i: nat)     // Release, kept
    | Retire(i: nat)       // Release, at its use limit
    | EvictNow(victim: nat) // Evict called on its own

  ghost predicate Enabled(cfg: Config, s: System, K: nat, e: Event)
  {
    match e
    case Tick(_) => true
    case CheckCapacity(c) => c !in s.calls && |s.calls| < K
    case EvictOne(c, victim) => c in s.calls && s.calls[c] == MustEvict && IsVictim(s.containers, s.now, victim)
    case EvictFromEmpty(c) => c in s.calls && s.calls[c] == MustEvict && s.containers == []
    case CreateFails(c) => c in s.calls && s.calls[c] == Creating
    case Append(c, id) =>
      c in s.calls && s.calls[c] == Creating && forall j :: 0 <= j < |s.containers| ==> s.containers[j].id != id
    case Take(i) => IsFirstWarm(s.containers, i)
    case GiveBack(i) =>
      && i < |s.containers|
      && (cfg.maxUseCount <= 0 || s.containers[i].useCount < cfg.maxUseCount)
    case Retire(i) =>
      && i < |s.containers|
      && cfg.maxUseCount > 0 && s.containers[i].useCount >= cfg.maxUseCount
    case EvictNow(victim) => IsVictim(s.containers, s.now, victim)
  }

  ghost function Apply(cfg: Config, s: System, K: nat, e: Event): System
    requires Enabled(cfg, s, K, e)
  {
    match e
    case Tick(dt) => s.(now := s.now + dt)
    case CheckCapacity(c) =>
      s.(calls := s.calls[c := if |s.containers| >= cfg.maxSize then MustEvict else Creating])
    case EvictOne(c, victim) =>
      s.(containers := SwapRemoved(s.containers, victim), calls := s.calls[c := Creating])
    case EvictFromEmpty(c) => s.(calls := s.calls - {c})
    case CreateFails(c) => s.(calls := s.calls - {c})
    case Append(c, id) =>
      s.(containers := s.containers + [Pod(id, Warm, s.now, 0)], calls := s.calls - {c})
    case Take(i) =>
      var p := s.containers[i];
      s.(containers := Rotated(s.containers[i := p.(state := InUse, lastUsed := s.now, useCount := p.useCount + 1)], i))
    case GiveBack(i) =>
      s.(containers := s.containers[i := s.containers[i].(state := Warm, lastUsed := s.now)])
    case Retire(i) => s.(containers := SwapRemoved(s.containers, i))
    case EvictNow(victim) => s.(containers := SwapRemoved(s.containers, victim))
  }

  /** Runs with at most K CreateNew calls in flight at any time, latest event last. */
  ghost predicate Legal(cfg: Config, K: nat, events: seq<Event>)
    decreases |events|, 0
  {
    events == [] ||
    (&& Legal(cfg, K, events[..|events| - 1])
     && Enabled(cfg, Final(cfg, K, events[..|events| - 1]), K, events[|events| - 1]))
  }

  ghost function Final(cfg: Config, K: nat, events: seq<Event>): System
    requires Legal(cfg, K, events)
    decreases |events|, 1
  {
    if events == [] then System([], map[], 0)
    else Apply(cfg, Final(cfg, K, events[..|events| - 1]), K, events[|events| - 1])
  }

  function InCreation(s: System): set<nat>
  {
    set c | c in s.calls && s.calls[c] == Creating
  }

  ghost predicate Inv(cfg: Config, K: nat, s: System)
  {
    && |s.calls| <= K
    && UniqueIds(s.containers)
    && |s.containers| + |InCreation(s)| <= cfg.maxSize + K - 1
  }

  lemma NewCall(s: System, s': System, c: nat, pc: CallPc)
    requires c !in s.calls && s'.calls == s.calls[c := pc]
    ensures |s'.calls| == |s.calls| + 1
    ensures |InCreation(s')| == |InCreation(s)| + (if pc == Creating then 1 else 0)
    ensures |InCreation(s)| <= |s.calls|
  {
    SubsetSize(InCreation(s), s.calls.Keys);
    assert s'.calls.Keys == s.calls.Keys + {c};
    if pc == Creating {
      assert InCreation(s') == InCreation(s) + {c};
    } else {
      assert InCreation(s') == InCreation(s);
    }
  }

  lemma CallEvicted(s: System, s': System, c: nat)
    requires c in s.calls && s.calls[c] == MustEvict && s'.calls == s.calls[c := Creating]
    ensures |s'.calls| == |s.calls|
    ensures |InCreation(s')| == |InCreation(s)| + 1
  {
    assert s'.calls.Keys == s.calls.Keys;
    assert InCreation(s') == InCreation(s) + {c};
  }

  lemma DropCall(s: System, s': System, c: nat)
    requires c in s.calls && s'.calls == s.calls - {c}
    ensures |s'.calls| == |s.calls| - 1
    ensures |InCreation(s')| == |InCreation(s)| - (if s.calls[c] == Creating then 1 else 0)
  {
    assert s'.calls.Keys == s.calls.Keys - {c};
    assert InCreation(s') == if s.calls[c] == Creating then InCreation(s) - {c} else InCreation(s);
  }

  lemma CallsKeepInv(cfg: Config, s: System, K: nat, e: Event)
    requires Inv(cfg, K, s) && Enabled(cfg, s, K, e)
    requires e.CheckCapacity? || e.EvictOne? || e.EvictFromEmpty? || e.CreateFails? || e.Append?
    ensures Inv(cfg, K, Apply(cfg, s, K, e))
  {
    hide InCreation, SwapRemoved;
    var s' := Apply(cfg, s, K, e);
    match e {
      case CheckCapacity(c) => NewCall(s, s', c, s'.calls[c]);
      case EvictOne(c, victim) =>
        CallEvicted(s, s', c);
        SwapRemovedAt(s.containers, victim);
        SwapRemovalKeepsOthers(s.containers, victim);
      case EvictFromEmpty(c) => DropCall(s, s', c);
      case CreateFails(c) => DropCall(s, s', c);
      case Append(c, _) => DropCall(s, s', c);
    }
  }

  lemma PodsKeepInv(cfg: Config, s: System, K: nat, e: Event)
    requires Inv(cfg, K, s) && Enabled(cfg, s, K, e)
    requires e.Tick? || e.Take? || e.GiveBack? || e.Retire? || e.EvictNow?
    ensures Inv(cfg, K, Apply(cfg, s, K, e))
  {
    var s' := Apply(cfg, s, K, e);
    assert InCreation(s') == InCreation(s);
    match e {
      case Tick(_) =>
      case Take(i) =>
        var p := s.containers[i];
        RotationKeepsPods(s.containers[i := p.(state := InUse, lastUsed := s.now, useCount := p.useCount + 1)], i);
      case GiveBack(i) =>
      case Retire(i) => SwapRemovalKeepsOthers(s.containers, i);
      case EvictNow(victim) => SwapRemovalKeepsOthers(s.containers, victim);
    }
  }

  lemma {:induction false} RunKeepsInv(cfg: Config, K: nat, events: seq<Event>)
    requires K >= 1 && Legal(cfg, K, events)
    ensures Inv(cfg, K, Final(cfg, K, events))
    decreases |events|
  {
    if events == [] {
      assert InCreation(Final(cfg, K, events)) == {};
    } else {
      var n := |events| - 1;
      RunKeepsInv(cfg, K, events[..n]);
      var s, e := Final(cfg, K, events[..n]), events[n];
      if e.Tick? || e.Take? || e.GiveBack? || e.Retire? || e.EvictNow? {
        PodsKeepInv(cfg, s, K, e);
      } else {
        CallsKeepInv(cfg, s, K, e);
      }
    }
  }

  /** Main result: with at most K CreateNew calls in flight the pool never holds more than
      maxSize + K - 1 pods; with one at a time it respects maxSize. */
  lemma SizeBound(cfg: Config, K: nat, events: seq<Event>)
    requires K >= 1 && Legal(cfg, K, events)
    ensures |Final(cfg, K, events).containers| <= cfg.maxSize + K - 1
  {
    RunKeepsInv(cfg, K, events);
  }

  // The bound is reached: K callers check the capacity before any of them appends.

  lemma Extend(cfg: Config, K: nat, events: seq<Event>, e: Event) returns (more: seq<Event>)
    requires Legal(cfg, K, events) && Enabled(cfg, Final(cfg, K, events), K, e)
    ensures Legal(cfg, K, more) && Final(cfg, K, more) == Apply(cfg, Final(cfg, K, events), K, e)
  {
    more := events + [e];
    assert more[..|more| - 1] == events;
  }

  ghost predicate IdsBelow(s: seq<Pod>, n: nat)
  {
    forall j :: 0 <= j < |s| ==> s[j].id < n
  }

  /** `n` pods, made one after the other. */
  lemma {:induction false} Fill(cfg: Config, K: nat, n: nat) returns (events: seq<Event>)
    requires K >= 1 && n <= cfg.maxSize
    ensures Legal(cfg, K, events)
    ensures var s := Final(cfg, K, events); |s.containers| == n && IdsBelow(s.containers, n) && s.calls == map[]
    decreases n
  {
    if n == 0 {
      events := [];
    } else {
      events := Fill(cfg, K, n - 1);
      events := Extend(cfg, K, events, CheckCapacity(0));
      events := Extend(cfg, K, events, Append(0, n - 1));
      assert Final(cfg, K, events).calls == map[];
    }
  }

  function Below(k: nat): (r: set<nat>)
    ensures |r| == k
    ensures forall c: nat :: c in r <==> c < k
  {
    if k == 0 then {} else Below(k - 1) + {k - 1}
  }

  ghost predicate AllCreating(s: System, k: nat)
  {
    s.calls.Keys == Below(k) && forall c :: c in s.calls ==> s.calls[c] == Creating
  }

  lemma {:induction false} CheckTogether(cfg: Config, K: nat, k: nat) returns (events: seq<Event>)
    requires cfg.maxSize >= 1 && 1 <= K && k <= K
    ensures Legal(cfg, K, events)
    ensures var s := Final(cfg, K, events);
            |s.containers| == cfg.maxSize - 1 && IdsBelow(s.containers, cfg.maxSize - 1) && AllCreating(s, k)
    decreases k
  {
    if k == 0 {
      events := Fill(cfg, K, cfg.maxSize - 1);
    } else {
      events := CheckTogether(cfg, K, k - 1);
      assert |Final(cfg, K, events).calls| == |Final(cfg, K, events).calls.Keys|;
      events := Extend(cfg, K, events, CheckCapacity(k - 1));
    }
  }

  lemma {:induction false} AppendTogether(cfg: Config, K: nat, k: nat) returns (events: seq<Event>)
    requires cfg.maxSize >= 1 && 1 <= K && k <= K
    ensures Legal(cfg, K, events)
    ensures var s := Final(cfg, K, events);
            |s.containers| == cfg.maxSize - 1 + (K - k) && IdsBelow(s.containers, |s.containers|) && AllCreating(s, k)
    decreases K - k
  {
    if k == K {
      events := CheckTogether(cfg, K, K);
    } else {
      events := AppendTogether(cfg, K, k + 1);
      var s := Final(cfg, K, events);
      events := Extend(cfg, K, events, Append(k, |s.containers|));
    }
  }

  ghost predicate Nothing(s: System) { s.containers == [] && forall c :: c in s.calls ==> s.calls[c] == MustEvict }

  lemma StepKeepsNothing(cfg: Config, s: System, K: nat, e: Event)
    requires cfg.maxSize == 0 && Nothing(s) && Enabled(cfg, s, K, e)
    ensures Nothing(Apply(cfg, s, K, e))
  {
    hide Rotated, SwapRemoved;
    assert e.Tick? || e.CheckCapacity? || e.EvictFromEmpty?;
  }

  /** A pool of size zero finds itself full and has nothing to evict. */
  lemma {:induction false} NothingFits(cfg: Config, K: nat, events: seq<Event>)
    requires cfg.maxSize == 0 && Legal(cfg, K, events)
    ensures Nothing(Final(cfg, K, events))
    decreases |events|
  {
    if events != [] {
      hide Nothing, Enabled, Apply;
      var n := |events| - 1;
      NothingFits(cfg, K, events[..n]);
      StepKeepsNothing(cfg, Final(cfg, K, events[..n]), K, events[n]);
    }
  }

  /** Main result: the bound of SizeBound is reached exactly when the pool has a size, or calls do
      not overlap. */
  lemma SizeBoundReachedIff(cfg: Config, K: nat)
    requires K >= 1
    ensures (exists events :: Reaches(cfg, K, events)) <==> cfg.maxSize >= 1 || K == 1
  {
    hide Legal, Final;
    if cfg.maxSize >= 1 {
      var events := SizeBoundReached(cfg, K);
      assert Reaches(cfg, K, events);
    } else {
      forall events | Legal(cfg, K, events) ensures |Final(cfg, K, events).containers| == 0 {
        NothingFits(cfg, K, events);
      }
      EmptyRun(cfg, K);
      assert K == 1 ==> Reaches(cfg, K, []);
    }
  }

  ghost predicate Reaches(cfg: Config, K: nat, events: seq<Event>)
  {
    Legal(cfg, K, events) && |Final(cfg, K, events).containers| == cfg.maxSize + K - 1
  }

  lemma EmptyRun(cfg: Config, K: nat)
    ensures Legal(cfg, K, []) && Final(cfg, K, []) == System([], map[], 0)
  {
  }

  lemma SizeBoundReached(cfg: Config, K: nat) returns (events: seq<Event>)
    requires cfg.maxSize >= 1 && K >= 1
    ensures Legal(cfg, K, events) && |Final(cfg, K, events).containers| == cfg.maxSize + K - 1
  {
    events := AppendTogether(cfg, K, 0);
  }

  // ---------------------------------------------------------------------
  // How often a pod is used
  // ---------------------------------------------------------------------

  ghost predicate WithinUses(cfg: Config, s: seq<Pod>)
  {
    forall i :: 0 <= i < |s| ==> s[i].useCount <= if s[i].state == Warm then cfg.maxUseCount - 1 else cfg.maxUseCount
  }

  lemma RemovalKeepsUses(cfg: Config, s: seq<Pod>, i: nat)
    requires i < |s| && WithinUses(cfg, s)
    ensures WithinUses(cfg, SwapRemoved(s, i))
  {
    SwapRemovedAt(s, i);
    hide SwapRemoved;
  }

  lemma TakeKeepsUses(cfg: Config, s: seq<Pod>, i: nat, p: Pod)
    requires i < |s| && WithinUses(cfg, s) && s[i].state == Warm
    requires p.state == InUse && p.useCount == s[i].useCount + 1
    ensures WithinUses(cfg, Rotated(s[i := p], i))
  {
    RotatedAt(s[i := p], i);
    hide Rotated;
  }

  lemma StepKeepsUses(cfg: Config, s: System, K: nat, e: Event)
    requires cfg.maxUseCount > 0 && WithinUses(cfg, s.containers) && Enabled(cfg, s, K, e)
    ensures WithinUses(cfg, Apply(cfg, s, K, e).containers)
  {
    hide SwapRemoved, Rotated;
    match e {
      case Tick(_) =>
      case CheckCapacity(_) =>
      case EvictOne(_, victim) => RemovalKeepsUses(cfg, s.containers, victim);
      case EvictFromEmpty(_) =>
      case CreateFails(_) =>
      case Append(_, _) =>
      case Take(i) =>
        var p := s.containers[i];
        TakeKeepsUses(cfg, s.containers, i, p.(state := InUse, lastUsed := s.now, useCount := p.useCount + 1));
      case GiveBack(_) =>
      case Retire(i) => RemovalKeepsUses(cfg, s.containers, i);
      case EvictNow(victim) => RemovalKeepsUses(cfg, s.containers, victim);
    }
  }

  /** Main result: with a use limit, in every run no pod is used more often than the limit, and a warm
      one still has a use left. */
  lemma {:induction false} UsesBounded(cfg: Config, K: nat, events: seq<Event>)
    requires cfg.maxUseCount > 0 && Legal(cfg, K, events)
    ensures WithinUses(cfg, Final(cfg, K, events).containers)
    decreases |events|
  {
    if events != [] {
      hide WithinUses, Enabled, Apply;
      var n := |events| - 1;
      UsesBounded(cfg, K, events[..n]);
      StepKeepsUses(cfg, Final(cfg, K, events[..n]), K, events[n]);
    }
  }

  /** Main result: and a pod gets all of its uses: given back after each but the last, it is handed
      out n times for every n up to the limit, and for every n without one. */
  lemma {:induction false} UsesReached(cfg: Config, K: nat, n: nat) returns (events: seq<Event>)
    requires cfg.maxSize >= 1 && K >= 1 && 1 <= n && (cfg.maxUseCount <= 0 || n <= cfg.maxUseCount)
    ensures Legal(cfg, K, events) && Final(cfg, K, events).containers == [Pod(0, InUse, 0, n)]
    ensures Final(cfg, K, events).now == 0
    decreases n
  {
    hide Legal, Final, Rotated;
    if n == 1 {
      events := FirstPod(cfg, K);
    } else {
      events := UsesReached(cfg, K, n - 1);
      events := Extend(cfg, K, events, GiveBack(0));
    }
    var s := Final(cfg, K, events);
    assert s.containers == [Pod(0, Warm, 0, n - 1)];
    events := Extend(cfg, K, events, Take(0));
    RotatedAt([Pod(0, InUse, 0, n)], 0);
    assert s.containers[0 := Pod(0, InUse, 0, n)] == [Pod(0, InUse, 0, n)];
  }

  lemma FirstPod(cfg: Config, K: nat) returns (events: seq<Event>)
    requires cfg.maxSize >= 1 && K >= 1
    ensures Legal(cfg, K, events) && Final(cfg, K, events).containers == [Pod(0, Warm, 0, 0)]
    ensures Final(cfg, K, events).now == 0
  {
    EmptyRun(cfg, K);
    events := [];
    hide Legal, Final;
    events := Extend(cfg, K, events, CheckCapacity(0));
    events := Extend(cfg, K, events, Append(0, 0));
    assert [] + [Pod(0, Warm, 0, 0)] == [Pod(0, Warm, 0, 0)];
  }
}

/** The gateway's token bucket limiter.

    The Lua script runs atomically against a Redis store of string keys with expiry. It
    refills lazily, keeps no state for a full bucket that expired, and writes nothing
    when it refuses. The reference it is compared with is an eager bucket per client
    that really does add refillRate tokens every second.

    Clocks are in milliseconds: the script is passed whole seconds, while expiry is
    decided on the millisecond clock.
 */
module TokenBuckets {
  import opened Common
  import opened Arithmetic

  datatype Config = Config(capacity: int, refillRate: int)

  /** A Redis string holding a number, and the last millisecond at which it is readable. */
  datatype Cell = Cell(val: int, deadline: nat)

  type Store = map<string, Cell>

  const LIFETIME: nat := 3_600_000 // EXPIRE 3600

  function BucketKey(key: string): string { "ratelimit:bucket:" + key }

  function StampKey(key: string): string { "ratelimit:timestamp:" + key }

  function Get(store: Store, k: string, ms: nat): Option<int>
  {
    if k in store && ms <= store[k].deadline then Some(store[k].val) else None
  }

  function Min(a: int, b: int): int { if a <= b then a else b }

  /** The script's `tokens` after the refill step. */
  function TokensNow(cfg: Config, store: Store, key: string, ms: nat): int
  {
    var now := ms / 1000;
    var tokens := match Get(store, BucketKey(key), ms) case None => cfg.capacity case Some(v) => v;
    var lastRefill := match Get(store, StampKey(key), ms) case None => now case Some(v) => v;
    Min(cfg.capacity, tokens + (now - lastRefill) * cfg.refillRate)
  }

  predicate Admits(cfg: Config, store: Store, key: string, ms: nat)
  {
    TokensNow(cfg, store, key, ms) != 0
  }

  /** The store after the script ran. */
  function AfterAllow(cfg: Config, store: Store, key: string, ms: nat): Store
  {
    if Admits(cfg, store, key, ms) then
      store[BucketKey(key) := Cell(TokensNow(cfg, store, key, ms) - 1, ms + LIFETIME)]
           [StampKey(key) := Cell(ms / 1000, ms + LIFETIME)]
    else store
  }

  function AfterReset(store: Store, key: string): Store
  {
    store - {BucketKey(key), StampKey(key)}
  }

  /** What GetTokens reports. */
  function Reported(cfg: Config, store: Store, key: string, ms: nat): int
  {
    match Get(store, BucketKey(key), ms)
    case None => cfg.capacity
    case Some(tokens) =>
      match Get(store, StampKey(key), ms)
      case None => tokens
      case Some(lastRefill) => Min(cfg.capacity, tokens + (ms / 1000 - lastRefill) * cfg.refillRate)
  }

  // ---------------------------------------------------------------------
  // The eager reference bucket
  // ---------------------------------------------------------------------

  datatype Eager = Eager(tokens: int, at: nat)

  /** One second passes `n` times. */
  function Ticks(cfg: Config, tokens: int, n: nat): int
  {
    if n == 0 then tokens else Min(cfg.capacity, Ticks(cfg, tokens, n - 1) + cfg.refillRate)
  }

  function EagerTokens(cfg: Config, buckets: map<string, Eager>, key: string, sec: nat): int
  {
    if key in buckets && buckets[key].at <= sec
    then Ticks(cfg, buckets[key].tokens, sec - buckets[key].at)
    else cfg.capacity
  }

  predicate EagerAdmits(cfg: Config, buckets: map<string, Eager>, key: string, sec: nat)
  {
    EagerTokens(cfg, buckets, key, sec) > 0
  }

  function EagerAllow(cfg: Config, buckets: map<string, Eager>, key: string, sec: nat): map<string, Eager>
  {
    var t := EagerTokens(cfg, buckets, key, sec);
    buckets[key := Eager(if t > 0 then t - 1 else t, sec)]
  }

  // ---------------------------------------------------------------------
  // Runs
  // ---------------------------------------------------------------------

  datatype Event = Allow(key: string, ms: nat) | Reset(key: string, ms: nat)

  /** The clock never goes backwards. */
  predicate Ordered(evs: seq<Event>)
  {
    forall i, j :: 0 <= i <= j < |evs| ==> evs[i].ms <= evs[j].ms
  }

  function Clock(evs: seq<Event>): nat
  {
    if evs == [] then 0 else evs[|evs| - 1].ms
  }

  lemma LastEvent(evs: seq<Event>)
    requires evs != [] && Ordered(evs)
    ensures
      var n := |evs| - 1;
      && evs[..n] + [evs[n]] == evs && Ordered(evs[..n])
      && Clock(evs) == evs[n].ms && Clock(evs[..n]) <= evs[n].ms
      && Clock(evs[..n]) / 1000 <= evs[n].ms / 1000
  {
    var n := |evs| - 1;
    assert n > 0 ==> evs[n - 1].ms <= evs[n].ms;
  }

  function LazyFinal(cfg: Config, evs: seq<Event>): Store
  {
    if evs == [] then map[]
    else
      var before := LazyFinal(cfg, evs[..|evs| - 1]);
      match evs[|evs| - 1]
      case Allow(key, ms) => AfterAllow(cfg, before, key, ms)
      case Reset(key, _) => AfterReset(before, key)
  }

  function EagerFinal(cfg: Config, evs: seq<Event>): map<string, Eager>
  {
    if evs == [] then map[]
    else
      var before := EagerFinal(cfg, evs[..|evs| - 1]);
      match evs[|evs| - 1]
      case Allow(key, ms) => EagerAllow(cfg, before, key, ms / 1000)
      case Reset(key, _) => before - {key}
  }

  // ---------------------------------------------------------------------
  // Key names
  // ---------------------------------------------------------------------

  lemma KeysApart(a: string, b: string)
    ensures BucketKey(a) != StampKey(b)
    ensures a != b ==> BucketKey(a) != BucketKey(b) && StampKey(a) != StampKey(b)
  {
    assert BucketKey(a)[10] == 'b' && StampKey(b)[10] == 't';
    assert BucketKey(a)[17..] == a && BucketKey(b)[17..] == b;
    assert StampKey(a)[20..] == a && StampKey(b)[20..] == b;
  }

  // ---------------------------------------------------------------------
  // What the store looks like in every reachable state
  // ---------------------------------------------------------------------

  /** The two cells of a client live and die together, hold a count below capacity and
      the second in which they were written. */
  ghost predicate WellKept(cfg: Config, store: Store, key: string, clock: nat)
  {
    var b, s := BucketKey(key), StampKey(key);
    && (b in store <==> s in store)
    && (b in store ==>
          && store[b].deadline == store[s].deadline
          && LIFETIME <= store[b].deadline <= clock + LIFETIME
          && 0 <= store[b].val < cfg.capacity
          && store[s].val == (store[b].deadline - LIFETIME) / 1000)
  }

  lemma TokensInRange(cfg: Config, store: Store, key: string, clock: nat, ms: nat)
    requires 0 <= cfg.capacity && 0 <= cfg.refillRate
    requires WellKept(cfg, store, key, clock) && clock <= ms
    ensures 0 <= TokensNow(cfg, store, key, ms) <= cfg.capacity
  {
    var b := BucketKey(key);
    if b in store && ms <= store[b].deadline {
      var elapsed := ms / 1000 - store[StampKey(key)].val;
      assert 0 <= elapsed;
      assert 0 <= elapsed * cfg.refillRate;
    }
  }

  lemma WellKeptAfterAllow(cfg: Config, store: Store, key: string, other: string, clock: nat, ms: nat)
    requires 0 <= cfg.capacity && 0 <= cfg.refillRate && clock <= ms
    requires WellKept(cfg, store, key, clock) && WellKept(cfg, store, other, clock)
    ensures WellKept(cfg, AfterAllow(cfg, store, key, ms), other, ms)
  {
    KeysApart(key, other);
    KeysApart(other, key);
    KeysApart(key, key);
    TokensInRange(cfg, store, key, clock, ms);
  }

  lemma WellKeptAfterReset(cfg: Config, store: Store, key: string, other: string, clock: nat)
    requires WellKept(cfg, store, other, clock)
    ensures WellKept(cfg, AfterReset(store, key), other, clock)
  {
    KeysApart(key, other);
    KeysApart(other, key);
  }

  lemma {:induction false} ReachableWellKept(cfg: Config, evs: seq<Event>, key: string)
    requires 0 <= cfg.capacity && 0 <= cfg.refillRate && Ordered(evs)
    ensures WellKept(cfg, LazyFinal(cfg, evs), key, Clock(evs))
    decreases |evs|
  {
    if evs != [] {
      var n := |evs| - 1;
      var before, e := evs[..n], evs[n];
      assert n > 0 ==> evs[n - 1].ms <= e.ms;
      ReachableWellKept(cfg, before, key);
      ReachableWellKept(cfg, before, e.key);
      match e
      case Allow(k, ms) => WellKeptAfterAllow(cfg, LazyFinal(cfg, before), k, key, Clock(before), ms);
      case Reset(k, _) => WellKeptAfterReset(cfg, LazyFinal(cfg, before), k, key, Clock(before));
    }
  }

  /** Stored tokens never leave [0, capacity), whatever the run. */
  lemma StoredTokensBounded(cfg: Config, evs: seq<Event>, key: string, ms: nat)
    requires 0 <= cfg.capacity && 0 <= cfg.refillRate && Ordered(evs) && Clock(evs) <= ms
    ensures
      var store := LazyFinal(cfg, evs);
      && (BucketKey(key) in store ==> 0 <= store[BucketKey(key)].val < cfg.capacity)
      && 0 <= TokensNow(cfg, store, key, ms) <= cfg.capacity
  {
    ReachableWellKept(cfg, evs, key);
    TokensInRange(cfg, LazyFinal(cfg, evs), key, Clock(evs), ms);
  }

  /** Main result: in every reachable state, a request is admitted exactly when GetTokens
      at that instant reports a positive number. */
  lemma AdmittedIffTokensReported(cfg: Config, evs: seq<Event>, key: string, ms: nat)
    requires 0 <= cfg.capacity && 0 <= cfg.refillRate && Ordered(evs) && Clock(evs) <= ms
    ensures Admits(cfg, LazyFinal(cfg, evs), key, ms) <==> Reported(cfg, LazyFinal(cfg, evs), key, ms) > 0
  {
    StoredTokensBounded(cfg, evs, key, ms);
    ReachableWellKept(cfg, evs, key);
    KeysApart(key, key);
  }

  // ---------------------------------------------------------------------
  // Lazy refill is eager refill
  // ---------------------------------------------------------------------

  lemma {:induction false} TicksClosedForm(cfg: Config, tokens: int, n: nat)
    requires 0 <= cfg.refillRate && tokens <= cfg.capacity
    ensures Ticks(cfg, tokens, n) == Min(cfg.capacity, tokens + n * cfg.refillRate)
    decreases n
  {
    if n > 0 {
      TicksClosedForm(cfg, tokens, n - 1);
      assert n * cfg.refillRate == (n - 1) * cfg.refillRate + cfg.refillRate;
    }
  }

  lemma {:induction false} TicksCompose(cfg: Config, tokens: int, m: nat, n: nat)
    ensures Ticks(cfg, Ticks(cfg, tokens, m), n) == Ticks(cfg, tokens, m + n)
    decreases n
  {
    if n > 0 {
      TicksCompose(cfg, tokens, m, n - 1);
    }
  }

  /** The lazy store and the eager buckets show the same tokens from `clock` on. */
  ghost predicate Agree(cfg: Config, store: Store, buckets: map<string, Eager>, key: string, clock: nat)
  {
    && (key in buckets ==> buckets[key].at <= clock / 1000 && buckets[key].tokens <= cfg.capacity)
    && forall ms: nat :: clock <= ms ==> TokensNow(cfg, store, key, ms) == EagerTokens(cfg, buckets, key, ms / 1000)
  }

  /** A bucket just written, read at `ms'`: the arithmetic of the lazy refill, including
      the case where the cells have expired and the bucket is taken to be full again. */
  lemma FreshWriteAgrees(cfg: Config, store: Store, key: string, left: int, ms: nat, ms': nat)
    requires 0 <= cfg.refillRate && 0 <= left <= cfg.capacity && cfg.refillRate * 3600 >= cfg.capacity
    requires BucketKey(key) in store && store[BucketKey(key)] == Cell(left, ms + LIFETIME)
    requires StampKey(key) in store && store[StampKey(key)] == Cell(ms / 1000, ms + LIFETIME)
    requires ms <= ms'
    ensures TokensNow(cfg, store, key, ms') == Ticks(cfg, left, ms' / 1000 - ms / 1000)
  {
    var n := ms' / 1000 - ms / 1000;
    TicksClosedForm(cfg, left, n);
    if ms' > ms + LIFETIME {
      MulMonotone(3600, n, cfg.refillRate);
    }
  }

  lemma AllowAgrees(cfg: Config, store: Store, buckets: map<string, Eager>, key: string, clock: nat, ms: nat)
    requires 0 <= cfg.capacity && 0 <= cfg.refillRate && cfg.refillRate * 3600 >= cfg.capacity
    requires clock <= ms && WellKept(cfg, store, key, clock) && Agree(cfg, store, buckets, key, clock)
    ensures Admits(cfg, store, key, ms) <==> EagerAdmits(cfg, buckets, key, ms / 1000)
    ensures Agree(cfg, AfterAllow(cfg, store, key, ms), EagerAllow(cfg, buckets, key, ms / 1000), key, ms)
  {
    TokensInRange(cfg, store, key, clock, ms);
    KeysApart(key, key);
    var store' := AfterAllow(cfg, store, key, ms);
    var buckets' := EagerAllow(cfg, buckets, key, ms / 1000);
    var t := TokensNow(cfg, store, key, ms);
    assert t == EagerTokens(cfg, buckets, key, ms / 1000);
    forall ms': nat | ms <= ms'
      ensures TokensNow(cfg, store', key, ms') == EagerTokens(cfg, buckets', key, ms' / 1000)
    {
      if t > 0 {
        FreshWriteAgrees(cfg, store', key, t - 1, ms, ms');
      } else {
        assert TokensNow(cfg, store, key, ms') == EagerTokens(cfg, buckets, key, ms' / 1000);
        if key in buckets {
          TicksCompose(cfg, buckets[key].tokens, ms / 1000 - buckets[key].at, ms' / 1000 - ms / 1000);
        } else {
          TicksClosedForm(cfg, t, ms' / 1000 - ms / 1000);
          assert cfg.capacity == 0 && 0 <= (ms' / 1000 - ms / 1000) * cfg.refillRate;
        }
      }
    }
  }

  lemma OtherKeyAgrees(cfg: Config, store: Store, buckets: map<string, Eager>, e: Event, key: string, clock: nat)
    requires e.key != key && clock <= e.ms && Agree(cfg, store, buckets, key, clock)
    ensures e.Allow? ==>
              Agree(cfg, AfterAllow(cfg, store, e.key, e.ms), EagerAllow(cfg, buckets, e.key, e.ms / 1000), key, e.ms)
    ensures e.Reset? ==> Agree(cfg, AfterReset(store, e.key), buckets - {e.key}, key, e.ms)
  {
    KeysApart(e.key, key);
    KeysApart(key, e.key);
    var store' := if e.Allow? then AfterAllow(cfg, store, e.key, e.ms) else AfterReset(store, e.key);
    var buckets' := if e.Allow? then EagerAllow(cfg, buckets, e.key, e.ms / 1000) else buckets - {e.key};
    forall ms: nat | e.ms <= ms
      ensures TokensNow(cfg, store', key, ms) == EagerTokens(cfg, buckets', key, ms / 1000)
    {
      assert TokensNow(cfg, store, key, ms) == EagerTokens(cfg, buckets, key, ms / 1000);
    }
  }

  lemma {:induction false} ReachableAgree(cfg: Config, evs: seq<Event>, key: string)
    requires 0 <= cfg.capacity && 0 <= cfg.refillRate && cfg.refillRate * 3600 >= cfg.capacity
    requires Ordered(evs)
    ensures Agree(cfg, LazyFinal(cfg, evs), EagerFinal(cfg, evs), key, Clock(evs))
    decreases |evs|
  {
    if evs != [] {
      var n := |evs| - 1;
      var before, e := evs[..n], evs[n];
      assert n > 0 ==> evs[n - 1].ms <= e.ms;
      var store, buckets := LazyFinal(cfg, before), EagerFinal(cfg, before);
      ReachableAgree(cfg, before, key);
      ReachableWellKept(cfg, before, key);
      if e.key != key {
        OtherKeyAgrees(cfg, store, buckets, e, key, Clock(before));
      } else if e.Allow? {
        AllowAgrees(cfg, store, buckets, key, Clock(before), e.ms);
      } else {
        KeysApart(key, key);
      }
    }
  }

  /** Every answer of the limiter, on every run, is the eager bucket's answer. */
  ghost predicate RefinesEager(cfg: Config)
  {
    forall evs, key, ms: nat :: Ordered(evs + [Allow(key, ms)]) ==>
      (Admits(cfg, LazyFinal(cfg, evs), key, ms) <==> EagerAdmits(cfg, EagerFinal(cfg, evs), key, ms / 1000))
  }

  lemma SameAnswer(cfg: Config, evs: seq<Event>, key: string, ms: nat)
    requires 0 <= cfg.capacity && 0 <= cfg.refillRate && cfg.refillRate * 3600 >= cfg.capacity
    requires Ordered(evs + [Allow(key, ms)])
    ensures Ordered(evs) && Clock(evs) <= ms
    ensures Admits(cfg, LazyFinal(cfg, evs), key, ms) <==> EagerAdmits(cfg, EagerFinal(cfg, evs), key, ms / 1000)
  {
    var all := evs + [Allow(key, ms)];
    assert forall i :: 0 <= i < |evs| ==> all[i] == evs[i];
    assert |evs| > 0 ==> all[|evs| - 1].ms <= all[|evs|].ms;
    ReachableWellKept(cfg, evs, key);
    ReachableAgree(cfg, evs, key);
    AllowAgrees(cfg, LazyFinal(cfg, evs), EagerFinal(cfg, evs), key, Clock(evs), ms);
  }

  /** Main result: what GetTokens reports in any reachable state is the number of tokens the script
      would find at that instant, and the eager bucket's number when an hour's refill covers the
      capacity. */
  lemma ReportedIsExact(cfg: Config, evs: seq<Event>, key: string, ms: nat)
    requires 0 <= cfg.capacity && 0 <= cfg.refillRate && Ordered(evs) && Clock(evs) <= ms
    ensures Reported(cfg, LazyFinal(cfg, evs), key, ms) == TokensNow(cfg, LazyFinal(cfg, evs), key, ms)
    ensures cfg.refillRate * 3600 >= cfg.capacity ==>
              Reported(cfg, LazyFinal(cfg, evs), key, ms) == EagerTokens(cfg, EagerFinal(cfg, evs), key, ms / 1000)
  {
    hide *;
    ReachableWellKept(cfg, evs, key);
    ReportedIsTokens(cfg, LazyFinal(cfg, evs), key, Clock(evs), ms);
    if cfg.refillRate * 3600 >= cfg.capacity {
      ReachableAgree(cfg, evs, key);
      AgreeAt(cfg, LazyFinal(cfg, evs), EagerFinal(cfg, evs), key, Clock(evs), ms);
    }
  }

  lemma ReportedIsTokens(cfg: Config, store: Store, key: string, clock: nat, ms: nat)
    requires WellKept(cfg, store, key, clock)
    ensures Reported(cfg, store, key, ms) == TokensNow(cfg, store, key, ms)
  {
    hide BucketKey, StampKey;
    if Get(store, BucketKey(key), ms).None? {
      assert TokensNow(cfg, store, key, ms) == Min(cfg.capacity, cfg.capacity + 0 * cfg.refillRate);
    }
  }

  lemma AgreeAt(cfg: Config, store: Store, buckets: map<string, Eager>, key: string, clock: nat, ms: nat)
    requires Agree(cfg, store, buckets, key, clock) && clock <= ms
    ensures TokensNow(cfg, store, key, ms) == EagerTokens(cfg, buckets, key, ms / 1000)
  {
  }

  /** How many of `n` requests at one instant are admitted. */
  function AdmittedAtOnce(cfg: Config, store: Store, key: string, ms: nat, n: nat): nat
    decreases n
  {
    if n == 0 then 0
    else (if Admits(cfg, store, key, ms) then 1 else 0)
         + AdmittedAtOnce(cfg, AfterAllow(cfg, store, key, ms), key, ms, n - 1)
  }

  lemma {:induction false} AtOnceIsTokens(cfg: Config, store: Store, key: string, ms: nat, n: nat)
    requires 0 <= TokensNow(cfg, store, key, ms) <= cfg.capacity
    ensures AdmittedAtOnce(cfg, store, key, ms, n) == Min(n, TokensNow(cfg, store, key, ms))
    decreases n
  {
    if n > 0 {
      if TokensNow(cfg, store, key, ms) > 0 {
        AllowTakesOne(cfg, store, key, ms);
      }
      hide TokensNow;
      AtOnceIsTokens(cfg, AfterAllow(cfg, store, key, ms), key, ms, n - 1);
    }
  }

  /** Main result: in any reachable state, of n requests at one instant exactly as many are admitted
      as GetTokens reports there, or all n. */
  lemma ReportedAreAdmitted(cfg: Config, evs: seq<Event>, key: string, ms: nat, n: nat)
    requires 0 <= cfg.capacity && 0 <= cfg.refillRate && Ordered(evs) && Clock(evs) <= ms
    ensures AdmittedAtOnce(cfg, LazyFinal(cfg, evs), key, ms, n)
         == Min(n, Reported(cfg, LazyFinal(cfg, evs), key, ms))
  {
    StoredTokensBounded(cfg, evs, key, ms);
    ReportedIsExact(cfg, evs, key, ms);
    hide *;
    AtOnceIsTokens(cfg, LazyFinal(cfg, evs), key, ms, n);
  }

  // A bucket that is drained and then left until its cells expire.

  function Drain(key: string, ms: nat, n: nat): seq<Event>
  {
    if n == 0 then [] else Drain(key, ms, n - 1) + [Allow(key, ms)]
  }

  lemma OneMore(cfg: Config, before: seq<Event>, key: string, ms: nat)
    requires Ordered(before) && Clock(before) <= ms
    ensures
      var all := before + [Allow(key, ms)];
      && Ordered(all) && Clock(all) == ms
      && LazyFinal(cfg, all) == AfterAllow(cfg, LazyFinal(cfg, before), key, ms)
      && EagerFinal(cfg, all) == EagerAllow(cfg, EagerFinal(cfg, before), key, ms / 1000)
  {
    hide AfterAllow, EagerAllow;
    var all := before + [Allow(key, ms)];
    assert all[..|all| - 1] == before && all[|all| - 1] == Allow(key, ms);
    OneMoreOrdered(before, Allow(key, ms));
    hide Ordered;
  }

  lemma OneMoreOrdered(before: seq<Event>, e: Event)
    requires Ordered(before) && Clock(before) <= e.ms
    ensures Ordered(before + [e])
  {
    assert forall i :: 0 <= i < |before| ==> before[i].ms <= Clock(before);
  }

  lemma AllowTakesOne(cfg: Config, store: Store, key: string, ms: nat)
    requires 0 < TokensNow(cfg, store, key, ms) <= cfg.capacity
    ensures
      var store' := AfterAllow(cfg, store, key, ms);
      && TokensNow(cfg, store', key, ms) == TokensNow(cfg, store, key, ms) - 1
      && BucketKey(key) in store' && store'[BucketKey(key)].deadline == ms + LIFETIME
      && StampKey(key) in store' && store'[StampKey(key)].deadline == ms + LIFETIME
  {
    KeysApart(key, key);
  }

  lemma DrainUnfold(evs: seq<Event>, key: string, ms: nat, n: nat)
    ensures n == 0 ==> evs + Drain(key, ms, n) == evs
    ensures n > 0 ==> evs + Drain(key, ms, n) == (evs + Drain(key, ms, n - 1)) + [Allow(key, ms)]
  {
  }

  lemma EagerTakesOne(cfg: Config, buckets: map<string, Eager>, key: string, sec: nat)
    requires 0 < EagerTokens(cfg, buckets, key, sec)
    ensures EagerTokens(cfg, EagerAllow(cfg, buckets, key, sec), key, sec) == EagerTokens(cfg, buckets, key, sec) - 1
  {
  }

  /** Both buckets hold at least `n` tokens at `ms`; after `n` requests both have lost
      exactly `n`. */
  lemma {:induction false} DrainFinal(cfg: Config, evs: seq<Event>, key: string, ms: nat, n: nat)
    requires 0 <= cfg.capacity && 0 <= cfg.refillRate && Ordered(evs) && Clock(evs) <= ms
    requires n <= TokensNow(cfg, LazyFinal(cfg, evs), key, ms)
    requires n <= EagerTokens(cfg, EagerFinal(cfg, evs), key, ms / 1000)
    ensures
      var all := evs + Drain(key, ms, n);
      && Ordered(all) && Clock(all) <= ms
      && TokensNow(cfg, LazyFinal(cfg, all), key, ms) == TokensNow(cfg, LazyFinal(cfg, evs), key, ms) - n
      && EagerTokens(cfg, EagerFinal(cfg, all), key, ms / 1000)
          == EagerTokens(cfg, EagerFinal(cfg, evs), key, ms / 1000) - n
    decreases n
  {
    hide *;
    DrainUnfold(evs, key, ms, n);
    if n > 0 {
      DrainFinal(cfg, evs, key, ms, n - 1);
      var before := evs + Drain(key, ms, n - 1);
      OneMore(cfg, before, key, ms);
      StoredTokensBounded(cfg, before, key, ms);
      AllowTakesOne(cfg, LazyFinal(cfg, before), key, ms);
      EagerTakesOne(cfg, EagerFinal(cfg, before), key, ms / 1000);
    }
  }

  /** After a pause longer than the cells' lifetime the store shows a full bucket. */
  lemma ExpiredIsFull(cfg: Config, store: Store, key: string, ms: nat)
    requires 0 < TokensNow(cfg, store, key, 0) <= cfg.capacity && LIFETIME < ms
    ensures TokensNow(cfg, AfterAllow(cfg, store, key, 0), key, ms) == cfg.capacity
  {
    AllowTakesOne(cfg, store, key, 0);
  }

  /** The last request before the pause leaves both buckets empty at second 0; after the
      pause the cells are gone while the eager bucket holds an hour's refill. */
  lemma PauseDiffers(cfg: Config, before: seq<Event>, key: string)
    requires 0 < cfg.capacity && 0 <= cfg.refillRate && cfg.refillRate * 3600 < cfg.capacity
    requires Ordered(before) && Clock(before) <= 0
    requires TokensNow(cfg, LazyFinal(cfg, before), key, 0) == 1
    requires EagerTokens(cfg, EagerFinal(cfg, before), key, 0) == 1
    ensures
      var all := before + [Allow(key, 0)];
      && TokensNow(cfg, LazyFinal(cfg, all), key, LIFETIME + 1) == cfg.capacity
      && EagerTokens(cfg, EagerFinal(cfg, all), key, 3600) == cfg.refillRate * 3600
  {
    hide TokensNow, AfterAllow, LazyFinal, EagerFinal, EagerTokens, EagerAllow, Ordered, Clock;
    OneMore(cfg, before, key, 0);
    ExpiredIsFull(cfg, LazyFinal(cfg, before), key, LIFETIME + 1);
    EagerPause(cfg, EagerFinal(cfg, before), key);
  }

  lemma EagerPause(cfg: Config, buckets: map<string, Eager>, key: string)
    requires 0 <= cfg.refillRate && cfg.refillRate * 3600 < cfg.capacity && EagerTokens(cfg, buckets, key, 0) == 1
    ensures EagerTokens(cfg, EagerAllow(cfg, buckets, key, 0), key, 3600) == cfg.refillRate * 3600
  {
    TicksClosedForm(cfg, 0, 3600);
    hide Ticks;
  }

  /** A run after which the store shows a full bucket and the eager bucket does not. */
  lemma DrainedAndPaused(cfg: Config, key: string) returns (evs: seq<Event>)
    requires 0 <= cfg.capacity && 0 <= cfg.refillRate && cfg.refillRate * 3600 < cfg.capacity
    ensures Ordered(evs) && Clock(evs) <= LIFETIME + 1
    ensures TokensNow(cfg, LazyFinal(cfg, evs), key, LIFETIME + 1) == cfg.capacity
    ensures EagerTokens(cfg, EagerFinal(cfg, evs), key, 3600) == cfg.refillRate * 3600
  {
    var n: nat := cfg.capacity - 1;
    DrainFinal(cfg, [], key, 0, n);
    var before := [] + Drain(key, 0, n);
    PauseDiffers(cfg, before, key);
    OneMore(cfg, before, key, 0);
    evs := before + [Allow(key, 0)];
  }

  /** With a refill slower than capacity per hour, expiry hands out a full bucket too
      early: the run that drains the bucket and comes back after the hour shows it. */
  lemma SlowRefillDiffers(cfg: Config, key: string)
    requires 0 <= cfg.capacity && 0 <= cfg.refillRate && cfg.refillRate * 3600 < cfg.capacity
    ensures !RefinesEager(cfg)
  {
    var late: nat := LIFETIME + 1;
    var m: nat := cfg.refillRate * 3600;
    var first := DrainedAndPaused(cfg, key);
    assert late / 1000 == 3600;
    DrainFinal(cfg, first, key, late, m);
    var evs := first + Drain(key, late, m);
    OneMore(cfg, evs, key, late);
    Disagreement(cfg, evs, key, late);
  }

  lemma Disagreement(cfg: Config, evs: seq<Event>, key: string, ms: nat)
    requires Ordered(evs + [Allow(key, ms)])
    requires TokensNow(cfg, LazyFinal(cfg, evs), key, ms) > 0
    requires EagerTokens(cfg, EagerFinal(cfg, evs), key, ms / 1000) <= 0
    ensures !RefinesEager(cfg)
  {
    assert Admits(cfg, LazyFinal(cfg, evs), key, ms);
    assert !EagerAdmits(cfg, EagerFinal(cfg, evs), key, ms / 1000);
  }

  /** Main result: the limiter gives the eager bucket's answer to every request of every
      run exactly when an hour's refill covers the capacity. */
  lemma RefinesEagerIff(cfg: Config)
    requires 0 <= cfg.capacity && 0 <= cfg.refillRate
    ensures RefinesEager(cfg) <==> cfg.refillRate * 3600 >= cfg.capacity
  {
    if cfg.refillRate * 3600 >= cfg.capacity {
      forall evs, key, ms: nat | Ordered(evs + [Allow(key, ms)])
        ensures Admits(cfg, LazyFinal(cfg, evs), key, ms) <==> EagerAdmits(cfg, EagerFinal(cfg, evs), key, ms / 1000)
      {
        SameAnswer(cfg, evs, key, ms);
      }
    } else {
      SlowRefillDiffers(cfg, "client");
    }
  }

  // ---------------------------------------------------------------------
  // Clients do not affect each other
  // ---------------------------------------------------------------------

  function OnlyKey(evs: seq<Event>, key: string): seq<Event>
  {
    if evs == [] then []
    else
      var n := |evs| - 1;
      OnlyKey(evs[..n], key) + (if evs[n].key == key then [evs[n]] else [])
  }

  ghost predicate SameCells(a: Store, b: Store, key: string)
  {
    forall k :: k == BucketKey(key) || k == StampKey(key) ==>
      (k in a <==> k in b) && (k in a ==> a[k] == b[k])
  }

  lemma SameCellsSameTokens(cfg: Config, a: Store, b: Store, key: string, ms: nat)
    requires SameCells(a, b, key)
    ensures TokensNow(cfg, a, key, ms) == TokensNow(cfg, b, key, ms)
    ensures SameCells(AfterAllow(cfg, a, key, ms), AfterAllow(cfg, b, key, ms), key)
    ensures SameCells(AfterReset(a, key), AfterReset(b, key), key)
  {
    assert Get(a, BucketKey(key), ms) == Get(b, BucketKey(key), ms);
    assert Get(a, StampKey(key), ms) == Get(b, StampKey(key), ms);
  }

  lemma OtherKeySameCells(cfg: Config, a: Store, key: string, other: string, ms: nat)
    requires key != other
    ensures SameCells(AfterAllow(cfg, a, other, ms), a, key)
    ensures SameCells(AfterReset(a, other), a, key)
  {
    KeysApart(other, key);
    KeysApart(key, other);
  }

  lemma {:induction false} OwnCellsOnly(cfg: Config, evs: seq<Event>, key: string)
    ensures SameCells(LazyFinal(cfg, evs), LazyFinal(cfg, OnlyKey(evs, key)), key)
    decreases |evs|
  {
    if evs != [] {
      var n := |evs| - 1;
      var before, e := evs[..n], evs[n];
      OwnCellsOnly(cfg, before, key);
      if e.key == key {
        var mine := OnlyKey(before, key) + [e];
        assert mine[..|mine| - 1] == OnlyKey(before, key);
        SameCellsSameTokens(cfg, LazyFinal(cfg, before), LazyFinal(cfg, OnlyKey(before, key)), key, e.ms);
      } else {
        assert OnlyKey(evs, key) == OnlyKey(before, key);
        OtherKeySameCells(cfg, LazyFinal(cfg, before), key, e.key, e.ms);
      }
    }
  }

  /** Main result: what a client is told depends on its own requests alone. */
  lemma KeysIndependent(cfg: Config, evs: seq<Event>, key: string, ms: nat)
    ensures Admits(cfg, LazyFinal(cfg, evs), key, ms) <==> Admits(cfg, LazyFinal(cfg, OnlyKey(evs, key)), key, ms)
    ensures TokensNow(cfg, LazyFinal(cfg, evs), key, ms) == TokensNow(cfg, LazyFinal(cfg, OnlyKey(evs, key)), key, ms)
  {
    OwnCellsOnly(cfg, evs, key);
    SameCellsSameTokens(cfg, LazyFinal(cfg, evs), LazyFinal(cfg, OnlyKey(evs, key)), key, ms);
  }

  // ---------------------------------------------------------------------
  // Admission bound
  // ---------------------------------------------------------------------

  predicate NoReset(evs: seq<Event>, key: string)
  {
    forall i :: 0 <= i < |evs| ==> evs[i].key == key ==> evs[i].Allow?
  }

  /** Requests of `key` admitted in seconds `from` to `to`, both included. */
  function Admitted(cfg: Config, evs: seq<Event>, key: string, from: nat, to: nat): nat
  {
    if evs == [] then 0
    else
      var n := |evs| - 1;
      var e := evs[n];
      Admitted(cfg, evs[..n], key, from, to)
      + (if e.Allow? && e.key == key && from <= e.ms / 1000 <= to && Admits(cfg, LazyFinal(cfg, evs[..n]), key, e.ms)
         then 1 else 0)
  }

  /** The eager bucket after a request at second `t`, seen at a later second. */
  lemma EagerSpends(cfg: Config, buckets: map<string, Eager>, key: string, t: nat, sec: nat)
    requires 0 <= cfg.refillRate && t <= sec
    requires 0 <= EagerTokens(cfg, buckets, key, t) <= cfg.capacity
    ensures
      var tokens := EagerTokens(cfg, buckets, key, t);
      var later := EagerTokens(cfg, EagerAllow(cfg, buckets, key, t), key, sec);
      && later <= cfg.capacity
      && later + (if tokens > 0 then 1 else 0) <= tokens + cfg.refillRate * (sec - t)
  {
    var tokens := EagerTokens(cfg, buckets, key, t);
    var left := if tokens > 0 then tokens - 1 else tokens;
    assert EagerTokens(cfg, EagerAllow(cfg, buckets, key, t), key, sec) == Ticks(cfg, left, sec - t);
    hide EagerTokens, EagerAllow, Ticks;
    TicksGrow(cfg, left, sec - t);
  }

  lemma TicksGrow(cfg: Config, tokens: int, n: nat)
    requires 0 <= cfg.refillRate && tokens <= cfg.capacity
    ensures Ticks(cfg, tokens, n) <= cfg.capacity && Ticks(cfg, tokens, n) <= tokens + cfg.refillRate * n
  {
    hide Ticks;
    TicksClosedForm(cfg, tokens, n);
    Commutes(n, cfg.refillRate);
  }

  /** The same for a request of a run, whose answer is the limiter's. */
  lemma RequestSpends(cfg: Config, before: seq<Event>, key: string, ms: nat, sec: nat)
    requires 0 <= cfg.capacity && 0 <= cfg.refillRate && cfg.refillRate * 3600 >= cfg.capacity
    requires Ordered(before + [Allow(key, ms)]) && ms / 1000 <= sec
    ensures
      var all := before + [Allow(key, ms)];
      var tokens := EagerTokens(cfg, EagerFinal(cfg, before), key, ms / 1000);
      var spent := if Admits(cfg, LazyFinal(cfg, before), key, ms) then 1 else 0;
      && EagerTokens(cfg, EagerFinal(cfg, all), key, sec) <= cfg.capacity
      && EagerTokens(cfg, EagerFinal(cfg, all), key, sec) + spent <= tokens + cfg.refillRate * (sec - ms / 1000)
  {
    hide TokensNow, AfterAllow, LazyFinal, EagerFinal, EagerTokens, EagerAllow, Admits, Ordered, Clock, Ticks;
    SameAnswer(cfg, before, key, ms);
    OneMore(cfg, before, key, ms);
    EagerInRange(cfg, before, key, ms);
    EagerSpends(cfg, EagerFinal(cfg, before), key, ms / 1000, sec);
  }

  lemma EagerInRange(cfg: Config, evs: seq<Event>, key: string, ms: nat)
    requires 0 <= cfg.capacity && 0 <= cfg.refillRate && cfg.refillRate * 3600 >= cfg.capacity
    requires Ordered(evs) && Clock(evs) <= ms
    ensures 0 <= EagerTokens(cfg, EagerFinal(cfg, evs), key, ms / 1000) <= cfg.capacity
  {
    ReachableAgree(cfg, evs, key);
    StoredTokensBounded(cfg, evs, key, ms);
    assert TokensNow(cfg, LazyFinal(cfg, evs), key, ms) == EagerTokens(cfg, EagerFinal(cfg, evs), key, ms / 1000);
  }

  ghost predicate Covered(cfg: Config, evs: seq<Event>, key: string, from: nat, to: nat, sec: nat)
    requires from <= sec
  {
    Admitted(cfg, evs, key, from, to) + EagerTokens(cfg, EagerFinal(cfg, evs), key, sec)
    <= cfg.capacity + cfg.refillRate * (sec - from)
  }

  lemma OtherKeyCovered(cfg: Config, before: seq<Event>, e: Event, key: string, from: nat, to: nat, sec: nat)
    requires from <= sec && e.key != key && Covered(cfg, before, key, from, to, sec)
    ensures Covered(cfg, before + [e], key, from, to, sec)
  {
    var all := before + [e];
    assert all[..|all| - 1] == before;
    assert EagerTokens(cfg, EagerFinal(cfg, all), key, sec) == EagerTokens(cfg, EagerFinal(cfg, before), key, sec);
  }

  lemma RequestCovered(cfg: Config, before: seq<Event>, key: string, ms: nat, from: nat, to: nat, sec: nat)
    requires 0 <= cfg.capacity && 0 <= cfg.refillRate && cfg.refillRate * 3600 >= cfg.capacity
    requires Ordered(before + [Allow(key, ms)]) && from <= ms / 1000 <= sec <= to
    requires Covered(cfg, before, key, from, to, ms / 1000)
    ensures Covered(cfg, before + [Allow(key, ms)], key, from, to, sec)
  {
    var all := before + [Allow(key, ms)];
    assert all[..|all| - 1] == before;
    RequestSpends(cfg, before, key, ms, sec);
    MulSplit(cfg.refillRate, sec - ms / 1000, ms / 1000 - from);
  }

  lemma EmptyCovered(cfg: Config, key: string, from: nat, to: nat, sec: nat)
    requires 0 <= cfg.refillRate && from <= sec
    ensures Covered(cfg, [], key, from, to, sec)
  {
    MulMonotone(0, sec - from, cfg.refillRate);
  }

  lemma RequestLeavesCap(cfg: Config, before: seq<Event>, key: string, ms: nat, sec: nat)
    requires 0 <= cfg.capacity && 0 <= cfg.refillRate && cfg.refillRate * 3600 >= cfg.capacity
    requires Ordered(before + [Allow(key, ms)]) && ms / 1000 <= sec
    ensures EagerTokens(cfg, EagerFinal(cfg, before + [Allow(key, ms)]), key, sec) <= cfg.capacity
  {
    hide *;
    RequestSpends(cfg, before, key, ms, sec);
  }

  lemma EarlyCovered(cfg: Config, before: seq<Event>, key: string, ms: nat, from: nat, to: nat, sec: nat)
    requires 0 <= cfg.capacity && 0 <= cfg.refillRate && cfg.refillRate * 3600 >= cfg.capacity
    requires Ordered(before + [Allow(key, ms)]) && ms / 1000 < from <= sec
    ensures Covered(cfg, before + [Allow(key, ms)], key, from, to, sec)
  {
    var all := before + [Allow(key, ms)];
    assert Clock(all) == ms;
    hide TokensNow, AfterAllow, LazyFinal, EagerFinal, EagerTokens, EagerAllow, Admits, Admitted, Ordered, Clock, Ticks;
    NoneYet(cfg, all, key, from, to);
    RequestLeavesCap(cfg, before, key, ms, sec);
    ProductIsNat(cfg.refillRate, sec - from);
  }

  /** What has been admitted since `from` plus what could still be admitted now is
      covered by one full bucket plus the refill since `from`. */
  lemma {:induction false} AlwaysCovered(cfg: Config, evs: seq<Event>, key: string, from: nat, to: nat, sec: nat)
    requires 0 <= cfg.capacity && 0 <= cfg.refillRate && cfg.refillRate * 3600 >= cfg.capacity
    requires Ordered(evs) && NoReset(evs, key)
    requires Clock(evs) / 1000 <= sec && from <= sec <= to
    ensures Covered(cfg, evs, key, from, to, sec)
    decreases |evs|
  {
    if evs != [] {
      assert NoReset(evs[..|evs| - 1], key) && (evs[|evs| - 1].key == key ==> evs[|evs| - 1].Allow?);
    }
    hide *;
    if evs == [] {
      EmptyCovered(cfg, key, from, to, sec);
    } else {
      var before, e := evs[..|evs| - 1], evs[|evs| - 1];
      LastEvent(evs);
      if e.key != key {
        AlwaysCovered(cfg, before, key, from, to, sec);
        OtherKeyCovered(cfg, before, e, key, from, to, sec);
      } else {
        assert e == Allow(key, e.ms);
        if from <= e.ms / 1000 {
          AlwaysCovered(cfg, before, key, from, to, e.ms / 1000);
          RequestCovered(cfg, before, key, e.ms, from, to, sec);
        } else {
          EarlyCovered(cfg, before, key, e.ms, from, to, sec);
        }
      }
    }
  }

  lemma {:induction false} NoneYet(cfg: Config, evs: seq<Event>, key: string, from: nat, to: nat)
    requires Ordered(evs) && Clock(evs) / 1000 < from
    ensures Admitted(cfg, evs, key, from, to) == 0
    decreases |evs|
  {
    if evs != [] {
      var n := |evs| - 1;
      assert n > 0 ==> evs[n - 1].ms <= evs[n].ms;
      NoneYet(cfg, evs[..n], key, from, to);
    }
  }

  /** Main result: between two instants the limiter admits at most one full bucket plus
      the tokens refilled in between. */
  lemma {:induction false} AdmissionBound(cfg: Config, evs: seq<Event>, key: string, from: nat, to: nat)
    requires 0 <= cfg.capacity && 0 <= cfg.refillRate && cfg.refillRate * 3600 >= cfg.capacity
    requires Ordered(evs) && NoReset(evs, key)
    requires from <= to
    ensures Admitted(cfg, evs, key, from, to) <= cfg.capacity + cfg.refillRate * (to - from)
    decreases |evs|
  {
    if Clock(evs) / 1000 <= to {
      AlwaysCovered(cfg, evs, key, from, to, to);
      var ms: nat := if Clock(evs) <= to * 1000 then to * 1000 else Clock(evs);
      assert ms / 1000 == to;
      EagerInRange(cfg, evs, key, ms);
    } else {
      AdmissionBound(cfg, evs[..|evs| - 1], key, from, to);
    }
  }

  /** The admission bound, on every run without a Reset of the key. */
  ghost predicate AdmissionBounded(cfg: Config)
  {
    forall evs, key, from: nat, to: nat :: Ordered(evs) && NoReset(evs, key) && from <= to ==>
      Admitted(cfg, evs, key, from, to) <= cfg.capacity + cfg.refillRate * (to - from)
  }

  /** As many requests at one instant as the bucket shows tokens are all admitted. */
  lemma {:induction false} DrainIsAdmitted(cfg: Config, evs: seq<Event>, key: string, ms: nat, n: nat, from: nat,
                                           to: nat)
    requires 0 <= cfg.capacity && 0 <= cfg.refillRate && Ordered(evs) && Clock(evs) <= ms && NoReset(evs, key)
    requires n <= TokensNow(cfg, LazyFinal(cfg, evs), key, ms) && from <= ms / 1000 <= to
    ensures
      var all := evs + Drain(key, ms, n);
      && Ordered(all) && Clock(all) <= ms && NoReset(all, key)
      && TokensNow(cfg, LazyFinal(cfg, all), key, ms) == TokensNow(cfg, LazyFinal(cfg, evs), key, ms) - n
      && Admitted(cfg, all, key, from, to) == Admitted(cfg, evs, key, from, to) + n
    decreases n
  {
    hide TokensNow, AfterAllow, LazyFinal, EagerFinal, EagerTokens, EagerAllow, Admits, Admitted, Ordered, Clock,
        NoReset;
    DrainUnfold(evs, key, ms, n);
    if n > 0 {
      DrainIsAdmitted(cfg, evs, key, ms, n - 1, from, to);
      var before := evs + Drain(key, ms, n - 1);
      OneMore(cfg, before, key, ms);
      OneAdmitted(cfg, before, key, ms, from, to);
      StoredTokensBounded(cfg, before, key, ms);
      AllowTakesOne(cfg, LazyFinal(cfg, before), key, ms);
    }
  }

  lemma OneAdmitted(cfg: Config, before: seq<Event>, key: string, ms: nat, from: nat, to: nat)
    requires NoReset(before, key) && TokensNow(cfg, LazyFinal(cfg, before), key, ms) > 0 && from <= ms / 1000 <= to
    ensures var all := before + [Allow(key, ms)];
            NoReset(all, key) && Admitted(cfg, all, key, from, to) == Admitted(cfg, before, key, from, to) + 1
  {
    var all := before + [Allow(key, ms)];
    assert all[..|all| - 1] == before;
    hide TokensNow, LazyFinal;
  }

  /** With a refill slower than capacity per hour, a bucket drained at 0 is full again when its
      cells have expired, so two capacities are admitted within the hour. */
  lemma SlowRefillAdmitsTwice(cfg: Config, key: string) returns (evs: seq<Event>)
    requires 0 <= cfg.capacity && 0 <= cfg.refillRate && cfg.refillRate * 3600 < cfg.capacity
    ensures Ordered(evs) && NoReset(evs, key) && Admitted(cfg, evs, key, 0, 3600) == 2 * cfg.capacity
  {
    var late: nat := LIFETIME + 1;
    assert late / 1000 == 3600;
    evs := FullAgain(cfg, key, late);
    hide TokensNow, LazyFinal, Admitted, Ordered, NoReset, Clock;
    DrainIsAdmitted(cfg, evs, key, late, cfg.capacity, 0, 3600);
    evs := evs + Drain(key, late, cfg.capacity);
  }

  lemma FullAgain(cfg: Config, key: string, late: nat) returns (evs: seq<Event>)
    requires 0 < cfg.capacity && 0 <= cfg.refillRate && LIFETIME < late
    ensures Ordered(evs) && NoReset(evs, key) && Clock(evs) <= late && Admitted(cfg, evs, key, 0, 3600) == cfg.capacity
    ensures TokensNow(cfg, LazyFinal(cfg, evs), key, late) == cfg.capacity
  {
    var n: nat := cfg.capacity - 1;
    assert TokensNow(cfg, LazyFinal(cfg, []), key, 0) == cfg.capacity && Admitted(cfg, [], key, 0, 3600) == 0;
    assert Ordered([]) && NoReset([], key) && Clock([]) == 0;
    hide TokensNow, LazyFinal, Admitted, Ordered, NoReset, Clock, Drain;
    DrainIsAdmitted(cfg, [], key, 0, n, 0, 3600);
    var before := [] + Drain(key, 0, n);
    OneMore(cfg, before, key, 0);
    OneAdmitted(cfg, before, key, 0, 0, 3600);
    ExpiredIsFull(cfg, LazyFinal(cfg, before), key, late);
    evs := before + [Allow(key, 0)];
  }

  /** Main result: the bound holds on every run without Reset if and only if an hour's refill
      covers the capacity. */
  lemma AdmissionBoundIff(cfg: Config)
    requires 0 <= cfg.capacity && 0 <= cfg.refillRate
    ensures AdmissionBounded(cfg) <==> cfg.refillRate * 3600 >= cfg.capacity
  {
    hide Admitted, Ordered, NoReset;
    if cfg.refillRate * 3600 >= cfg.capacity {
      forall evs, key, from: nat, to: nat | Ordered(evs) && NoReset(evs, key) && from <= to
        ensures Admitted(cfg, evs, key, from, to) <= cfg.capacity + cfg.refillRate * (to - from)
      {
        AdmissionBound(cfg, evs, key, from, to);
      }
    } else {
      var evs := SlowRefillAdmitsTwice(cfg, "");
      assert Admitted(cfg, evs, "", 0, 3600) > cfg.capacity + cfg.refillRate * (3600 - 0);
    }
  }

  // ---------------------------------------------------------------------
  // The object
  // ---------------------------------------------------------------------

  class TokenBucketLimiter {
    const cfg: Config
    var store: Store

    constructor (capacity: int, refillRate: int)
      ensures cfg == Config(capacity, refillRate) && store == map[]
    {
      cfg := Config(capacity, refillRate);
      store := map[];
    }

    method Allow(key: string, ms: nat) returns (allowed: bool)
      modifies this
      ensures allowed == Admits(cfg, old(store), key, ms)
      ensures store == AfterAllow(cfg, old(store), key, ms)
    {
      var now := ms / 1000;
      var tokens := cfg.capacity;
      var tokensCell := Get(store, BucketKey(key), ms);
      if tokensCell.Some? {
        tokens := tokensCell.value;
      }
      var lastRefill := now;
      var stampCell := Get(store, StampKey(key), ms);
      if stampCell.Some? {
        lastRefill := stampCell.value;
      }
      var elapsed := now - lastRefill;
      tokens := Min(cfg.capacity, tokens + elapsed * cfg.refillRate);
      if tokens == 0 {
        return false;
      }
      tokens := tokens - 1;
      store := store[BucketKey(key) := Cell(tokens, ms + LIFETIME)];
      store := store[StampKey(key) := Cell(now, ms + LIFETIME)];
      return true;
    }

    /** None is the error of a GET; the second is not sent when the first finds no key. */
    method GetTokens(key: string, ms: nat, bucketFails: bool, stampFails: bool) returns (r: Option<int>)
      ensures r.None? <==> bucketFails || (stampFails && Get(store, BucketKey(key), ms).Some?)
      ensures r.Some? ==> r.value == Reported(cfg, store, key, ms)
    {
      if bucketFails {
        return None;
      }
      var cell := Get(store, BucketKey(key), ms);
      if cell.None? {
        return Some(cfg.capacity);
      }
      if stampFails {
        return None;
      }
      var tokens := cell.value;
      var stamp := Get(store, StampKey(key), ms);
      if stamp.None? {
        return Some(tokens);
      }
      return Some(Min(cfg.capacity, tokens + (ms / 1000 - stamp.value) * cfg.refillRate));
    }

    /** The pipeline's error leaves the store alone. */
    method Reset(key: string, fails: bool) returns (ok: bool)
      modifies this
      ensures ok == !fails
      ensures store == if fails then old(store) else AfterReset(old(store), key)
    {
      if fails {
        return false;
      }
      store := store - {BucketKey(key)};
      store := store - {StampKey(key)};
      return true;
    }
  }
}

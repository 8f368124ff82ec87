/** The build limiter: a fixed-window counter per Redis key, and the two-script check
    (global key first, then the user's key) that admits a build. */
module FixedWindows {
  import opened Common
  import opened Arithmetic

  /** A counter and the last millisecond at which it is readable. */
  datatype Cell = Cell(count: nat, deadline: nat)

  type Store = map<string, Cell>

  const GLOBAL_LIMIT: nat := 20
  const USER_LIMIT: nat := 5
  const WINDOW: nat := 60 // seconds, for both limits
  const GLOBAL_KEY := "ratelimit:builds:global"

  function UserKey(user: string): string { "ratelimit:builds:user:" + user }

  predicate Alive(store: Store, key: string, ms: nat)
  {
    key in store && ms <= store[key].deadline
  }

  /** The checkLimit script: INCR, EXPIRE on the first increment. */
  function AfterCheck(store: Store, key: string, window: nat, ms: nat): Store
  {
    if Alive(store, key, ms)
    then store[key := Cell(store[key].count + 1, store[key].deadline)]
    else store[key := Cell(1, ms + window * 1000)]
  }

  /** The answer of the script: is the incremented counter within the limit? */
  predicate Passes(store: Store, key: string, limit: nat, window: nat, ms: nat)
  {
    AfterCheck(store, key, window, ms)[key].count <= limit
  }

  /** GetRemainingQuota, as a query of the store. */
  function Remaining(store: Store, user: string, ms: nat): int
  {
    if Alive(store, UserKey(user), ms) then
      var left := USER_LIMIT - store[UserKey(user)].count;
      if left < 0 then 0 else left
    else USER_LIMIT
  }

  /** The user script passes exactly when the remaining quota just before it was positive. */
  lemma PassesIffQuota(store: Store, user: string, ms: nat)
    ensures Passes(store, UserKey(user), USER_LIMIT, WINDOW, ms) <==> Remaining(store, user, ms) > 0
  {
  }

  /** How many of `n` checks of the key at one instant pass. */
  function PassAtOnce(store: Store, key: string, limit: nat, window: nat, ms: nat, n: nat): nat
    decreases n
  {
    if n == 0 then 0
    else (if Passes(store, key, limit, window, ms) then 1 else 0)
         + PassAtOnce(AfterCheck(store, key, window, ms), key, limit, window, ms, n - 1)
  }

  /** Main result: of n checks of a user at one instant exactly as many pass as GetRemainingQuota
      reports there, or all n; the quota of a user without a window is 5. */
  lemma {:induction false} QuotaIsExact(store: Store, user: string, ms: nat, n: nat)
    ensures PassAtOnce(store, UserKey(user), 5, 60, ms, n) == Lesser(n, Remaining(store, user, ms))
    ensures !Alive(store, UserKey(user), ms) ==> Remaining(store, user, ms) == 5
    decreases n
  {
    if n > 0 {
      QuotaShrinks(store, user, ms);
      hide Remaining, Passes, AfterCheck;
      QuotaIsExact(AfterCheck(store, UserKey(user), 60, ms), user, ms, n - 1);
    }
  }

  lemma QuotaShrinks(store: Store, user: string, ms: nat)
    ensures var before := Remaining(store, user, ms);
            var after := Remaining(AfterCheck(store, UserKey(user), 60, ms), user, ms);
            && before >= 0 && after == (if before > 0 then before - 1 else 0)
            && (Passes(store, UserKey(user), 5, 60, ms) <==> before > 0)
  {
    hide UserKey;
  }

  // ---------------------------------------------------------------------
  // How much one key can let through
  // ---------------------------------------------------------------------

  /** A run of checks on any keys; every check of one key uses the same limit. */
  datatype Check = Check(key: string, ms: nat)

  predicate Ordered(checks: seq<Check>)
  {
    forall i, j :: 0 <= i <= j < |checks| ==> checks[i].ms <= checks[j].ms
  }

  function Final(checks: seq<Check>, window: nat): Store
  {
    if checks == [] then map[]
    else
      var n := |checks| - 1;
      AfterCheck(Final(checks[..n], window), checks[n].key, window, checks[n].ms)
  }

  /** Checks of `key` that passed at an instant in [from, to]. */
  function Passed(checks: seq<Check>, key: string, limit: nat, window: nat, from: nat, to: nat): nat
  {
    if checks == [] then 0
    else
      var n := |checks| - 1;
      var c := checks[n];
      Passed(checks[..n], key, limit, window, from, to)
      + (if c.key == key && from <= c.ms <= to && Passes(Final(checks[..n], window), key, limit, window, c.ms)
         then 1 else 0)
  }

  function Lesser(a: int, b: int): int { if a <= b then a else b }

  /** What the windows before one that starts at offset x of the interval can have let through in
      it. Windows start at least d apart, d being one more than their length; each full one lets
      the limit through, and one that started before the interval has spent a check outside it. */
  function Cap(x: int, d: nat, limit: nat): nat
    requires d >= 1
    decreases if x <= 0 then 0 else x
  {
    if x <= 0 || limit == 0 then 0
    else if x < d then limit - 1
    else limit + Cap(x - d, d, limit)
  }

  lemma {:induction false} CapMonotone(x: int, y: int, d: nat, limit: nat)
    requires d >= 1 && x <= y
    ensures Cap(x, d, limit) <= Cap(y, d, limit)
    decreases if x <= 0 then 0 else x
  {
    if d <= x && limit > 0 {
      CapMonotone(x - d, y - d, d, limit);
    }
  }

  /** The key's window began at `start` and has counted `count` checks. */
  ghost predicate Within(passed: nat, start: int, count: nat, limit: nat, d: nat, from: nat)
    requires d >= 1
  {
    if start < from then passed > 0 ==> passed <= Lesser(count, limit) - 1 && from < start + d
    else passed <= Cap(start - from, d, limit) + Lesser(count, limit)
  }

  ghost predicate Bounded(checks: seq<Check>, key: string, limit: nat, window: nat, from: nat, to: nat)
    requires window >= 1
  {
    var store := Final(checks, window);
    var passed := Passed(checks, key, limit, window, from, to);
    if key !in store then passed == 0
    else
      && 0 <= store[key].deadline - window * 1000 <= Clock(checks)
      && 1 <= store[key].count
      && Within(passed, store[key].deadline - window * 1000, store[key].count, limit, window * 1000 + 1, from)
  }

  function Clock(checks: seq<Check>): nat
  {
    if checks == [] then 0 else checks[|checks| - 1].ms
  }

  lemma SameWindow(passed: nat, start: int, count: nat, limit: nat, d: nat, from: nat, ms: nat, hit: bool)
    requires d >= 1 && count >= 1 && Within(passed, start, count, limit, d, from) && ms < start + d
    requires hit ==> count + 1 <= limit && from <= ms
    ensures Within(passed + (if hit then 1 else 0), start, count + 1, limit, d, from)
  {
  }

  lemma NextWindow(passed: nat, start: int, count: nat, limit: nat, d: nat, from: nat, next: nat, hit: bool)
    requires d >= 1 && Within(passed, start, count, limit, d, from)
    requires start + d <= next && (hit ==> 1 <= limit && from <= next) && (next < from ==> passed == 0)
    ensures Within(passed + (if hit then 1 else 0), next, 1, limit, d, from)
  {
    if from <= start {
      CapMonotone(start - from + d, next - from, d, limit);
    }
  }

  lemma FirstWindow(limit: nat, d: nat, from: nat, next: nat, hit: bool)
    requires d >= 1 && (hit ==> 1 <= limit && from <= next)
    ensures Within(if hit then 1 else 0, next, 1, limit, d, from)
  {
  }

  lemma {:induction false} NoneYet(checks: seq<Check>, key: string, limit: nat, window: nat, from: nat, to: nat)
    requires Ordered(checks) && Clock(checks) < from
    ensures Passed(checks, key, limit, window, from, to) == 0
    decreases |checks|
  {
    if checks != [] {
      var n := |checks| - 1;
      assert n > 0 ==> checks[n - 1].ms <= checks[n].ms;
      NoneYet(checks[..n], key, limit, window, from, to);
    }
  }

  /** What one more check does to the store and to the count. */
  lemma OneCheck(before: seq<Check>, c: Check, key: string, limit: nat, window: nat, from: nat, to: nat)
    requires Ordered(before + [c])
    ensures Ordered(before) && Clock(before) <= c.ms && Clock(before + [c]) == c.ms
    ensures Final(before + [c], window) == AfterCheck(Final(before, window), c.key, window, c.ms)
    ensures Passed(before + [c], key, limit, window, from, to) == Passed(before, key, limit, window, from, to)
            + (if c.key == key && from <= c.ms <= to && Passes(Final(before, window), key, limit, window, c.ms)
               then 1 else 0)
    ensures c.ms < from ==> Passed(before, key, limit, window, from, to) == 0
  {
    var all, n := before + [c], |before|;
    assert all[..n] == before && all[n] == c;
    assert forall i :: 0 <= i < n ==> all[i] == before[i];
    assert n > 0 ==> all[n - 1].ms <= all[n].ms;
    if c.ms < from {
      NoneYet(before, key, limit, window, from, to);
    }
  }

  /** The window that a check of the key falls in. */
  lemma CheckStaysWithin(cell: Cell, window: nat, limit: nat, from: nat, ms: nat, passed: nat, hit: bool)
    requires cell.count >= 1 && (hit ==> from <= ms) && (ms < from ==> passed == 0)
    requires Within(passed, cell.deadline - window * 1000, cell.count, limit, window * 1000 + 1, from)
    requires hit ==> (if ms <= cell.deadline then cell.count + 1 else 1) <= limit
    ensures var start := if ms <= cell.deadline then cell.deadline - window * 1000 else ms;
            Within(passed + (if hit then 1 else 0), start, if ms <= cell.deadline then cell.count + 1 else 1, limit,
                   window * 1000 + 1, from)
  {
    hide Within, Cap;
    if ms <= cell.deadline {
      SameWindow(passed, cell.deadline - window * 1000, cell.count, limit, window * 1000 + 1, from, ms, hit);
    } else {
      NextWindow(passed, cell.deadline - window * 1000, cell.count, limit, window * 1000 + 1, from, ms, hit);
    }
  }

  /** The cell of a key after a check of this or another key. */
  lemma CellAfter(store: Store, key: string, other: string, limit: nat, window: nat, ms: nat)
    ensures other != key ==> (key in AfterCheck(store, other, window, ms) <==> key in store)
    ensures other != key && key in store ==> AfterCheck(store, other, window, ms)[key] == store[key]
    ensures key in AfterCheck(store, key, window, ms)
    ensures Alive(store, key, ms) ==>
              AfterCheck(store, key, window, ms)[key] == Cell(store[key].count + 1, store[key].deadline)
    ensures !Alive(store, key, ms) ==> AfterCheck(store, key, window, ms)[key] == Cell(1, ms + window * 1000)
    ensures Passes(store, key, limit, window, ms) <==> AfterCheck(store, key, window, ms)[key].count <= limit
  {
  }

  lemma CheckKeepsBounded(before: seq<Check>, c: Check, key: string, limit: nat, window: nat, from: nat, to: nat)
    requires window >= 1 && Ordered(before + [c]) && Bounded(before, key, limit, window, from, to)
    ensures Bounded(before + [c], key, limit, window, from, to)
  {
    hide Final, Passed, Ordered, Clock, Within, Cap, AfterCheck, Passes;
    OneCheck(before, c, key, limit, window, from, to);
    var store, passed := Final(before, window), Passed(before, key, limit, window, from, to);
    CellAfter(store, key, c.key, limit, window, c.ms);
    if c.key == key {
      var hit := from <= c.ms <= to && Passes(store, key, limit, window, c.ms);
      if key in store {
        CheckStaysWithin(store[key], window, limit, from, c.ms, passed, hit);
      } else {
        FirstWindow(limit, window * 1000 + 1, from, c.ms, hit);
      }
    }
  }

  lemma {:induction false} AlwaysBounded(checks: seq<Check>, key: string, limit: nat, window: nat, from: nat, to: nat)
    requires window >= 1 && Ordered(checks)
    ensures Bounded(checks, key, limit, window, from, to)
    decreases |checks|
  {
    if checks != [] {
      var n := |checks| - 1;
      assert checks == checks[..n] + [checks[n]];
      assert Ordered(checks[..n]);
      hide Bounded, Ordered;
      AlwaysBounded(checks[..n], key, limit, window, from, to);
      CheckKeepsBounded(checks[..n], checks[n], key, limit, window, from, to);
    }
  }

  /** Main result: an interval of L milliseconds, wherever it starts, lets at most one limit through
      beyond what the windows before its last one can. */
  lemma {:induction false} SharpSpanBound(checks: seq<Check>, key: string, limit: nat, window: nat, from: nat, L: nat)
    requires window >= 1 && Ordered(checks)
    ensures Passed(checks, key, limit, window, from, from + L) <= limit + Cap(L, window * 1000 + 1, limit)
    decreases |checks|
  {
    if Clock(checks) > from + L {
      SharpSpanBound(checks[..|checks| - 1], key, limit, window, from, L);
    } else {
      AlwaysBounded(checks, key, limit, window, from, from + L);
      var store := Final(checks, window);
      if key in store {
        CapMonotone(store[key].deadline - window * 1000 - from, L, window * 1000 + 1, limit);
      }
    }
  }

  lemma {:induction false} CapAtMost(x: int, d: nat, limit: nat)
    requires d >= 1
    ensures Cap(x, d + 1, limit) <= limit * (1 + Whole(x, d))
    decreases if x <= 0 then 0 else x
  {
    MoreWindows(limit, 0, Whole(x, d));
    if d + 1 <= x {
      CapAtMost(x - d - 1, d, limit);
      WholeMonotone(x - d - 1, x - d, d);
      assert Whole(x - d - 1, d) < Whole(x, d);
      hide Whole;
      MoreWindows(limit, Whole(x - d - 1, d), Whole(x, d));
    }
  }

  /** Main result: any span of T seconds, wherever it starts, lets at most
      limit * (floor(T / window) + 2) checks of a key through. */
  lemma SpanBound(checks: seq<Check>, key: string, limit: nat, window: nat, from: nat, T: nat)
    requires window >= 1 && Ordered(checks)
    ensures Passed(checks, key, limit, window, from, from + T * 1000) <= limit * (T / window + 2)
  {
    SharpSpanBound(checks, key, limit, window, from, T * 1000);
    CapAtMost(T * 1000, window * 1000, limit);
    var w := Whole(T * 1000, window * 1000);
    WholeTimes(T * 1000, window * 1000);
    assert w * (window * 1000) == (w * window) * 1000;
    DivAtLeast(T, window, w);
    hide Whole, Passed, Cap, Ordered;
    MoreWindows(limit, w, T / window);
    MoreWindows(limit, T / window, T / window + 1);
  }

  // The sharp bound is reached: as many checks as the limit whenever a window can start.

  function Burst(key: string, ms: nat, n: nat): seq<Check>
  {
    if n == 0 then [] else Burst(key, ms, n - 1) + [Check(key, ms)]
  }

  lemma BurstUnfold(checks: seq<Check>, key: string, ms: nat, n: nat)
    ensures n == 0 ==> checks + Burst(key, ms, n) == checks
    ensures n > 0 ==> checks + Burst(key, ms, n) == (checks + Burst(key, ms, n - 1)) + [Check(key, ms)]
  {
  }

  /** How many checks the window of the key that is alive at ms has counted. */
  function Counted(store: Store, key: string, ms: nat): nat
  {
    if Alive(store, key, ms) then store[key].count else 0
  }

  function Deadline(store: Store, key: string, window: nat, ms: nat): nat
  {
    if Alive(store, key, ms) then store[key].deadline else ms + window * 1000
  }

  /** Checks at one instant that fit the limit all pass, in the window alive then or a new one. */
  lemma {:induction false} BurstPasses(
      checks: seq<Check>, key: string, limit: nat, window: nat, from: nat, to: nat, ms: nat, n: nat)
    requires Ordered(checks) && Clock(checks) <= ms && from <= ms <= to
    requires Counted(Final(checks, window), key, ms) + n <= limit
    ensures var all, store := checks + Burst(key, ms, n), Final(checks, window);
            && Ordered(all) && Clock(all) <= ms
            && Passed(all, key, limit, window, from, to) == Passed(checks, key, limit, window, from, to) + n
            && (n > 0 ==> key in Final(all, window)
                          && Final(all, window)[key]
                              == Cell(Counted(store, key, ms) + n, Deadline(store, key, window, ms)))
    decreases n
  {
    hide Final, Passed, Ordered, Clock, Burst;
    BurstUnfold(checks, key, ms, n);
    BurstUnfold(checks, key, ms, n - (if n > 0 then 1 else 0));
    if n > 0 {
      BurstPasses(checks, key, limit, window, from, to, ms, n - 1);
      OnePasses(checks + Burst(key, ms, n - 1), key, limit, window, from, to, ms);
    }
  }

  lemma OnePasses(checks: seq<Check>, key: string, limit: nat, window: nat, from: nat, to: nat, ms: nat)
    requires Ordered(checks) && Clock(checks) <= ms && from <= ms <= to
    requires Counted(Final(checks, window), key, ms) < limit
    ensures var all, store := checks + [Check(key, ms)], Final(checks, window);
            && Ordered(all) && Clock(all) == ms && key in Final(all, window)
            && Final(all, window)[key] == Cell(Counted(store, key, ms) + 1, Deadline(store, key, window, ms))
            && Passed(all, key, limit, window, from, to) == Passed(checks, key, limit, window, from, to) + 1
  {
    assert Ordered(checks + [Check(key, ms)]) by {
      assert forall i :: 0 <= i < |checks| ==> checks[i].ms <= Clock(checks);
    }
    hide Final, Passed, Ordered, Clock, AfterCheck, Passes;
    OneCheck(checks, Check(key, ms), key, limit, window, from, to);
    CellAfter(Final(checks, window), key, key, limit, window, ms);
  }

  lemma {:induction false} PassedLater(
      checks: seq<Check>, key: string, limit: nat, window: nat, from: nat, to: nat, later: nat)
    requires Ordered(checks) && Clock(checks) <= to <= later
    ensures Passed(checks, key, limit, window, from, to) == Passed(checks, key, limit, window, from, later)
    decreases |checks|
  {
    if checks != [] {
      var n := |checks| - 1;
      assert n > 0 ==> checks[n - 1].ms <= checks[n].ms;
      PassedLater(checks[..n], key, limit, window, from, to, later);
    }
  }

  /** A run that lets that many through, its last window starting at the interval's end. */
  ghost predicate Reaches(checks: seq<Check>, key: string, limit: nat, window: nat, from: nat, L: nat)
  {
    && Ordered(checks) && Clock(checks) <= from + L
    && key in Final(checks, window) && Final(checks, window)[key].deadline == from + L + window * 1000
    && Passed(checks, key, limit, window, from, from + L) == limit + Cap(L, window * 1000 + 1, limit)
  }

  lemma ReachedAtOnce(key: string, limit: nat, window: nat) returns (checks: seq<Check>)
    requires limit >= 1 && window >= 1
    ensures Reaches(checks, key, limit, window, 0, 0)
  {
    checks := [] + Burst(key, 0, limit);
    BurstPasses([], key, limit, window, 0, 0, 0, limit);
    hide Burst;
  }

  lemma FirstCheck(key: string, limit: nat, window: nat, from: nat, to: nat)
    requires 0 < from
    ensures var first := [Check(key, 0)];
            && Ordered(first) && Clock(first) == 0 && Passed(first, key, limit, window, from, to) == 0
            && Counted(Final(first, window), key, window * 1000) == 1
            && Deadline(Final(first, window), key, window, window * 1000) == window * 1000
            && !Alive(Final(first, window), key, window * 1000 + 1)
  {
    var first := [Check(key, 0)];
    assert [] + first == first && Ordered(first);
    OneCheck([], first[0], key, limit, window, from, to);
    assert Final([], window) == map[];
    hide Passed, Ordered;
  }

  /** A window that starts at 0 and is filled at its last instant, before an interval's last one. */
  lemma EarlyWindow(key: string, limit: nat, window: nat, from: nat) returns (checks: seq<Check>)
    requires limit >= 1 && window >= 1 && 0 < from <= window * 1000
    ensures Ordered(checks) && Clock(checks) <= window * 1000
    ensures Passed(checks, key, limit, window, from, window * 1000 + 1) == limit - 1
    ensures !Alive(Final(checks, window), key, window * 1000 + 1)
  {
    hide Final, Passed, Burst, Ordered, Clock;
    var W, first := window * 1000, [Check(key, 0)];
    FirstCheck(key, limit, window, from, W + 1);
    if limit == 1 {
      checks := first;
    } else {
      BurstPasses(first, key, limit, window, from, W + 1, W, limit - 1);
      checks := first + Burst(key, W, limit - 1);
    }
  }

  lemma ReachedWithin(key: string, limit: nat, window: nat, L: nat) returns (checks: seq<Check>, from: nat)
    requires limit >= 1 && window >= 1 && 0 < L <= window * 1000
    ensures Reaches(checks, key, limit, window, from, L)
  {
    var d := window * 1000 + 1;
    assert Cap(L, d, limit) == limit - 1;
    hide Final, Passed, Burst, Ordered, Clock, Cap;
    from := d - L;
    checks := EarlyWindow(key, limit, window, from);
    BurstPasses(checks, key, limit, window, from, d, d, limit);
    checks := checks + Burst(key, d, limit);
  }

  /** One window more. */
  lemma ReachedLater(checks: seq<Check>, key: string, limit: nat, window: nat, from: nat, L: nat)
    requires limit >= 1 && window >= 1 && L > window * 1000
    requires Reaches(checks, key, limit, window, from, L - window * 1000 - 1)
    ensures Reaches(checks + Burst(key, from + L, limit), key, limit, window, from, L)
  {
    var d := window * 1000 + 1;
    assert Cap(L, d, limit) == limit + Cap(L - d, d, limit);
    assert Counted(Final(checks, window), key, from + L) == 0;
    assert Deadline(Final(checks, window), key, window, from + L) == from + L + window * 1000;
    hide Final, Passed, Burst, Ordered, Clock, Cap, Counted, Deadline;
    PassedLater(checks, key, limit, window, from, from + L - d, from + L);
    BurstPasses(checks, key, limit, window, from, from + L, from + L, limit);
  }

  /** Main result: the sharp bound is reached for every limit, window and length. */
  lemma {:induction false} SharpSpanReached(key: string, limit: nat, window: nat, L: nat)
      returns (checks: seq<Check>, from: nat)
    requires limit >= 1 && window >= 1
    ensures Reaches(checks, key, limit, window, from, L)
    decreases L
  {
    hide Reaches;
    if L == 0 {
      checks := ReachedAtOnce(key, limit, window);
      from := 0;
    } else if L <= window * 1000 {
      checks, from := ReachedWithin(key, limit, window, L);
    } else {
      checks, from := SharpSpanReached(key, limit, window, L - window * 1000 - 1);
      ReachedLater(checks, key, limit, window, from, L);
      checks := checks + Burst(key, from + L, limit);
    }
  }

  // ---------------------------------------------------------------------
  // Builds: two scripts per request, with callers interleaving in between
  // ---------------------------------------------------------------------

  /** A caller whose global check passed in the window ending at `window`: waiting for its
      user script, admitted, or turned away (over the user limit, or a Redis error). */
  datatype Ticket = Ticket(user: string, window: nat, stage: Stage)
  datatype Stage = Waiting | Admitted | TurnedAway

  datatype Builds = Builds(store: Store, tickets: map<nat, Ticket>, clock: nat)

  datatype Event =
    | GlobalCheck(caller: nat, user: string, ms: nat)
    | UserCheck(caller: nat, ms: nat, redisError: bool)

  predicate Enabled(b: Builds, e: Event)
  {
    && b.clock <= e.ms
    && match e
       case GlobalCheck(caller, _, _) => caller !in b.tickets
       case UserCheck(caller, _, _) => caller in b.tickets && b.tickets[caller].stage == Waiting
  }

  function Apply(b: Builds, e: Event): Builds
    requires Enabled(b, e)
  {
    match e
    case GlobalCheck(caller, user, ms) =>
      var store := AfterCheck(b.store, GLOBAL_KEY, WINDOW, ms);
      Builds(store,
             if Passes(b.store, GLOBAL_KEY, GLOBAL_LIMIT, WINDOW, ms)
             then b.tickets[caller := Ticket(user, store[GLOBAL_KEY].deadline, Waiting)]
             else b.tickets,
             ms)
    case UserCheck(caller, ms, redisError) =>
      var t := b.tickets[caller];
      if redisError then Builds(b.store, b.tickets[caller := t.(stage := TurnedAway)], ms)
      else
        Builds(AfterCheck(b.store, UserKey(t.user), WINDOW, ms),
               b.tickets[caller := t.(stage := if Passes(b.store, UserKey(t.user), USER_LIMIT, WINDOW, ms)
                                               then Admitted else TurnedAway)],
               ms)
  }

  predicate Legal(b: Builds, events: seq<Event>)
    decreases |events|
  {
    events == [] || (Enabled(b, events[0]) && Legal(Apply(b, events[0]), events[1..]))
  }

  function After(b: Builds, events: seq<Event>): Builds
    requires Legal(b, events)
    decreases |events|
  {
    if events == [] then b else After(Apply(b, events[0]), events[1..])
  }

  function InWindow(b: Builds, w: nat): set<nat>
  {
    set c | c in b.tickets && b.tickets[c].window == w
  }

  function AdmittedIn(b: Builds, w: nat): set<nat>
  {
    set c | c in b.tickets && b.tickets[c].window == w && b.tickets[c].stage == Admitted
  }

  ghost predicate Inv(b: Builds)
  {
    && (GLOBAL_KEY !in b.store ==> b.tickets == map[])
    && (GLOBAL_KEY in b.store ==>
          && (forall c :: c in b.tickets ==> b.tickets[c].window <= b.store[GLOBAL_KEY].deadline)
          && |InWindow(b, b.store[GLOBAL_KEY].deadline)| <= b.store[GLOBAL_KEY].count)
    && (forall w :: |InWindow(b, w)| <= GLOBAL_LIMIT)
  }

  lemma UserKeyIsNotGlobal(user: string)
    ensures UserKey(user) != GLOBAL_KEY
  {
    assert UserKey(user)[17] == 'u' && GLOBAL_KEY[17] == 'g';
  }

  /** Admitting `caller` into window `w'` adds it to that window and to no other. */
  lemma JoinWindow(b: Builds, b': Builds, caller: nat, t: Ticket)
    requires caller !in b.tickets && b'.tickets == b.tickets[caller := t]
    ensures InWindow(b', t.window) == InWindow(b, t.window) + {caller}
    ensures |InWindow(b', t.window)| == |InWindow(b, t.window)| + 1
    ensures forall w :: w != t.window ==> InWindow(b', w) == InWindow(b, w)
  {
    assert InWindow(b', t.window) == InWindow(b, t.window) + {caller};
    forall w | w != t.window
      ensures InWindow(b', w) == InWindow(b, w)
    {
    }
  }

  lemma GlobalCheckKeepsInv(b: Builds, caller: nat, user: string, ms: nat)
    requires Inv(b) && Enabled(b, GlobalCheck(caller, user, ms))
    ensures Inv(Apply(b, GlobalCheck(caller, user, ms)))
  {
    var b' := Apply(b, GlobalCheck(caller, user, ms));
    var w' := b'.store[GLOBAL_KEY].deadline;
    if !Alive(b.store, GLOBAL_KEY, ms) {
      assert forall c :: c in b.tickets ==> b.tickets[c].window < w';
      assert InWindow(b, w') == {};
    }
    if Passes(b.store, GLOBAL_KEY, GLOBAL_LIMIT, WINDOW, ms) {
      JoinWindow(b, b', caller, Ticket(user, w', Waiting));
    } else {
      assert b'.tickets == b.tickets;
      SameTickets(b, b');
    }
  }

  lemma SameTickets(b: Builds, b': Builds)
    requires b'.tickets.Keys == b.tickets.Keys
    requires forall c :: c in b.tickets ==> b'.tickets[c].window == b.tickets[c].window
    ensures forall w :: InWindow(b', w) == InWindow(b, w)
  {
    forall w
      ensures InWindow(b', w) == InWindow(b, w)
    {
    }
  }

  lemma UserCheckKeepsInv(b: Builds, caller: nat, ms: nat, redisError: bool)
    requires Inv(b) && Enabled(b, UserCheck(caller, ms, redisError))
    ensures Inv(Apply(b, UserCheck(caller, ms, redisError)))
  {
    var b' := Apply(b, UserCheck(caller, ms, redisError));
    UserKeyIsNotGlobal(b.tickets[caller].user);
    SameTickets(b, b');
  }

  lemma {:induction false} RunKeepsInv(b: Builds, events: seq<Event>)
    requires Inv(b) && Legal(b, events)
    ensures Inv(After(b, events))
    decreases |events|
  {
    if events != [] {
      match events[0] {
        case GlobalCheck(caller, user, ms) => GlobalCheckKeepsInv(b, caller, user, ms);
        case UserCheck(caller, ms, redisError) => UserCheckKeepsInv(b, caller, ms, redisError);
      }
      RunKeepsInv(Apply(b, events[0]), events[1..]);
    }
  }

  /** Main result: however callers interleave their two scripts, the builds whose global
      check fell in one global window and that were admitted number at most 20. */
  lemma GlobalWindowBound(events: seq<Event>, w: nat)
    requires Legal(Builds(map[], map[], 0), events)
    ensures |AdmittedIn(After(Builds(map[], map[], 0), events), w)| <= 20
  {
    var b0 := Builds(map[], map[], 0);
    assert forall w :: InWindow(b0, w) == {};
    RunKeepsInv(b0, events);
    var b := After(b0, events);
    SubsetSize(AdmittedIn(b, w), InWindow(b, w));
  }

  /** The k-th of the users of one busy window. */
  function Name(k: nat): string { seq(k, _ => 'a') }

  lemma NamesDiffer(j: nat, k: nat)
    ensures UserKey(Name(j)) == UserKey(Name(k)) <==> j == k
  {
    assert |UserKey(Name(j))| == 22 + j && |UserKey(Name(k))| == 22 + k;
  }

  /** At time 0, k users have each had a build admitted. */
  ghost predicate Filled(b: Builds, k: nat)
  {
    && b.clock == 0 && |AdmittedIn(b, 60_000)| == k
    && (k == 0 ==> GLOBAL_KEY !in b.store)
    && (k > 0 ==> GLOBAL_KEY in b.store && b.store[GLOBAL_KEY] == Cell(k, 60_000))
    && (forall c :: c in b.tickets ==> c < k)
    && (forall j: nat :: k <= j ==> UserKey(Name(j)) !in b.store)
  }

  lemma OneMoreUser(b: Builds, k: nat) returns (b1: Builds, b2: Builds)
    requires Filled(b, k) && k < 20
    ensures Enabled(b, GlobalCheck(k, Name(k), 0)) && b1 == Apply(b, GlobalCheck(k, Name(k), 0))
    ensures Enabled(b1, UserCheck(k, 0, false)) && b2 == Apply(b1, UserCheck(k, 0, false))
    ensures Filled(b2, k + 1)
  {
    forall j: nat ensures UserKey(Name(j)) != GLOBAL_KEY && (UserKey(Name(j)) == UserKey(Name(k)) <==> j == k) {
      UserKeyIsNotGlobal(Name(j));
      NamesDiffer(j, k);
    }
    hide UserKey, Name;
    b1 := Apply(b, GlobalCheck(k, Name(k), 0));
    assert b1.tickets == b.tickets[k := Ticket(Name(k), 60_000, Waiting)];
    b2 := Apply(b1, UserCheck(k, 0, false));
    assert b2.tickets == b.tickets[k := Ticket(Name(k), 60_000, Admitted)];
    assert AdmittedIn(b2, 60_000) == AdmittedIn(b, 60_000) + {k};
  }

  lemma {:induction false} FillWindow(b: Builds, k: nat) returns (events: seq<Event>)
    requires Filled(b, k) && k <= 20
    ensures Legal(b, events) && |AdmittedIn(After(b, events), 60_000)| == 20
    decreases 20 - k
  {
    if k == 20 {
      events := [];
    } else {
      var b1, b2 := OneMoreUser(b, k);
      hide Filled, Enabled, Apply, AdmittedIn;
      var rest := FillWindow(b2, k + 1);
      events := [GlobalCheck(k, Name(k), 0), UserCheck(k, 0, false)] + rest;
      assert events[1..] == [UserCheck(k, 0, false)] + rest;
      assert events[1..][1..] == rest;
    }
  }

  /** Main result: the global limit is not smaller than it says. Some run admits 20 builds in the
      window of the first minute. */
  lemma GlobalWindowReached() returns (events: seq<Event>)
    ensures Legal(Builds(map[], map[], 0), events)
    ensures |AdmittedIn(After(Builds(map[], map[], 0), events), 60_000)| == 20
  {
    assert AdmittedIn(Builds(map[], map[], 0), 60_000) == {};
    events := FillWindow(Builds(map[], map[], 0), 0);
  }

  // ---------------------------------------------------------------------
  // The object
  // ---------------------------------------------------------------------

  datatype Reply = Allowed | GlobalExceeded | UserExceeded | RedisFailed

  class BuildRateLimiter {
    var store: Store

    constructor ()
      ensures store == map[]
    {
      store := map[];
    }

    /** The script, or the error of the Eval that should have run it. */
    method CheckLimit(key: string, limit: nat, window: nat, ms: nat, fails: bool) returns (allowed: bool)
      modifies this
      ensures fails ==> store == old(store) && !allowed
      ensures !fails ==> store == AfterCheck(old(store), key, window, ms)
      ensures !fails ==> allowed == Passes(old(store), key, limit, window, ms)
    {
      if fails {
        return false;
      }
      var current := 1;
      if Alive(store, key, ms) {
        current := store[key].count + 1;
        store := store[key := store[key].(count := current)];
      } else {
        store := store[key := Cell(1, ms + window * 1000)];
      }
      return current <= limit;
    }

    /** Allow with nobody else between its two scripts. */
    method Allow(user: string, ms: nat, ms': nat, globalFails: bool, userFails: bool) returns (reply: Reply)
      requires ms <= ms'
      modifies this
      ensures globalFails ==> reply == RedisFailed && store == old(store)
      ensures !globalFails ==>
                var mid := AfterCheck(old(store), GLOBAL_KEY, WINDOW, ms);
                var globalOk := Passes(old(store), GLOBAL_KEY, GLOBAL_LIMIT, WINDOW, ms);
                && store == (if globalOk && !userFails then AfterCheck(mid, UserKey(user), WINDOW, ms') else mid)
                && (reply == Allowed <==>
                      globalOk && !userFails && Passes(mid, UserKey(user), USER_LIMIT, WINDOW, ms'))
                && (reply == GlobalExceeded <==> !globalOk)
                && (reply == RedisFailed <==> globalOk && userFails)
    {
      var globalAllowed := CheckLimit(GLOBAL_KEY, GLOBAL_LIMIT, WINDOW, ms, globalFails);
      if globalFails {
        return RedisFailed;
      }
      if !globalAllowed {
        return GlobalExceeded;
      }
      var userAllowed := CheckLimit(UserKey(user), USER_LIMIT, WINDOW, ms', userFails);
      if userFails {
        return RedisFailed;
      }
      reply := if userAllowed then Allowed else UserExceeded;
    }

    /** An error of the GET reads as a full quota. */
    method GetRemainingQuota(user: string, ms: nat, fails: bool) returns (remaining: int)
      ensures remaining == if fails then USER_LIMIT else Remaining(store, user, ms)
    {
      if !Alive(store, UserKey(user), ms) {
        return USER_LIMIT;
      }
      if fails {
        return USER_LIMIT;
      }
      remaining := USER_LIMIT - store[UserKey(user)].count;
      if remaining < 0 {
        remaining := 0;
      }
    }
  }
}

/** The cached function repository: read-through with singleflight, and background tasks
    that fill and invalidate the cache at some later time, in any order.

    Times are in seconds. A run is any interleaving of lookups, flights, writes, deletes
    and background tasks, with cache and database failures anywhere; the only promises
    are that a background task runs within D of the database access that started it and
    that a singleflight call lasts at most F.
 */
module MetadataCaches {
  import opened Common

  type Val = string // the metadata of one function

  const BASE_TTL: nat := 300
  const JITTER_MAX: nat := 60
  const MAX_TTL: nat := 359

  datatype Config = Config(D: nat, F: nat)

  /** The database content that became current at `from`. */
  datatype Version = Version(from: nat, db: map<string, Val>)

  datatype Entry = Entry(val: Val, deadline: nat)

  /** A background goroutine, started at `born`. */
  datatype Task = Fill(id: string, val: Val, born: nat) | Invalidate(id: string, born: nat)

  /** What a flight has read: nothing yet, an error, or the row (None: not found). */
  datatype Reading = NotYet | DbError | Row(val: Option<Val>)

  datatype Flight = Flight(began: nat, reading: Reading, waiters: set<nat>)

  /** A value returned by FindByID to some caller. */
  datatype Answer = Answer(id: string, val: Option<Val>, at: nat)

  datatype System = System(
    versions: seq<Version>,
    cache: map<string, Entry>,
    tasks: map<nat, Task>,
    flights: map<string, Flight>,
    missed: map<nat, string>, // callers past a cache miss, not yet in singleflight
    answers: seq<Answer>,
    now: nat)

  const INITIAL := System([Version(0, map[])], map[], map[], map[], map[], [], 0)

  function At(db: map<string, Val>, id: string): Option<Val>
  {
    if id in db then Some(db[id]) else None
  }

  function Db(s: System): map<string, Val>
    requires s.versions != []
  {
    s.versions[|s.versions| - 1].db
  }

  predicate Hit(s: System, id: string)
  {
    id in s.cache && s.now <= s.cache[id].deadline
  }

  // ---------------------------------------------------------------------
  // Steps
  // ---------------------------------------------------------------------

  datatype Event =
    | Tick(dt: nat)
    | LookupHit(id: string)
    | LookupMiss(caller: nat, id: string)       // a miss, or a cache error
    | EnterFlight(caller: nat)                  // group.Do: lead a new flight or join one
    | ReadRow(id: string, fails: bool, task: nat) // the leader's database query
    | FlightDone(id: string)                    // all its callers return
    | Save(id: string, val: Val, task: nat)
    | Delete(id: string, task: nat)
    | OtherWrite(id: string, row: Option<Val>)  // another writer, or a write whose reply was lost
    | RunTask(task: nat, jitter: nat, fails: bool)
    | CacheLoses(id: string)

  predicate Enabled(cfg: Config, s: System, e: Event)
  {
    && s.versions != []
    && match e
       case Tick(dt) =>
         && (forall t :: t in s.tasks ==> s.now + dt <= s.tasks[t].born + cfg.D)
         && (forall id :: id in s.flights ==> s.now + dt <= s.flights[id].began + cfg.F)
       case LookupHit(id) => Hit(s, id)
       case LookupMiss(caller, id) => caller !in s.missed
       case EnterFlight(caller) => caller in s.missed
       case ReadRow(id, _, task) => id in s.flights && s.flights[id].reading.NotYet? && task !in s.tasks
       case FlightDone(id) => id in s.flights && !s.flights[id].reading.NotYet?
       case Save(_, _, task) => task !in s.tasks
       case Delete(_, task) => task !in s.tasks
       case OtherWrite(_, _) => true
       case RunTask(task, jitter, _) => task in s.tasks && jitter < JITTER_MAX
       case CacheLoses(_) => true
  }

  function Write(s: System, id: string, val: Option<Val>): System
    requires s.versions != []
  {
    var db := match val case None => Db(s) - {id} case Some(v) => Db(s)[id := v];
    s.(versions := s.versions + [Version(s.now, db)])
  }

  function Apply(cfg: Config, s: System, e: Event): System
    requires Enabled(cfg, s, e)
  {
    match e
    case Tick(dt) => s.(now := s.now + dt)
    case LookupHit(id) => s.(answers := s.answers + [Answer(id, Some(s.cache[id].val), s.now)])
    case LookupMiss(caller, id) => s.(missed := s.missed[caller := id])
    case EnterFlight(caller) =>
      var id := s.missed[caller];
      var flight := if id in s.flights then s.flights[id] else Flight(s.now, NotYet, {});
      s.(missed := s.missed - {caller},
         flights := s.flights[id := flight.(waiters := flight.waiters + {caller})])
    case ReadRow(id, fails, task) =>
      var row := At(Db(s), id);
      if fails then s.(flights := s.flights[id := s.flights[id].(reading := DbError)])
      else
        s.(flights := s.flights[id := s.flights[id].(reading := Row(row))],
           tasks := if row.Some? then s.tasks[task := Fill(id, row.value, s.now)] else s.tasks)
    case FlightDone(id) =>
      s.(flights := s.flights - {id},
         answers := if s.flights[id].reading.Row?
                    then s.answers + [Answer(id, s.flights[id].reading.val, s.now)]
                    else s.answers)
    case Save(id, val, task) => Write(s, id, Some(val)).(tasks := s.tasks[task := Fill(id, val, s.now)])
    case Delete(id, task) => Write(s, id, None).(tasks := s.tasks[task := Invalidate(id, s.now)])
    case OtherWrite(id, val) => Write(s, id, val)
    case RunTask(task, jitter, fails) =>
      s.(tasks := s.tasks - {task},
         cache := if fails then s.cache
                  else match s.tasks[task]
                       case Fill(id, val, _) => s.cache[id := Entry(val, s.now + BASE_TTL + jitter)]
                       case Invalidate(id, _) => s.cache - {id})
    case CacheLoses(id) => s.(cache := s.cache - {id})
  }

  /** Runs, latest event last. */
  predicate Legal(cfg: Config, events: seq<Event>)
    decreases |events|, 0
  {
    events == [] ||
    (Legal(cfg, events[..|events| - 1]) && Enabled(cfg, Final(cfg, events[..|events| - 1]), events[|events| - 1]))
  }

  function Final(cfg: Config, events: seq<Event>): System
    requires Legal(cfg, events)
    decreases |events|, 1
  {
    if events == [] then INITIAL
    else Apply(cfg, Final(cfg, events[..|events| - 1]), events[|events| - 1])
  }

  // ---------------------------------------------------------------------
  // What the database held, and when
  // ---------------------------------------------------------------------

  /** Version `i` was current at moment `r` and held `val` for `id`. */
  ghost predicate Held(versions: seq<Version>, i: nat, id: string, val: Option<Val>, r: nat)
  {
    && i < |versions| && versions[i].from <= r
    && (i + 1 < |versions| ==> r <= versions[i + 1].from)
    && At(versions[i].db, id) == val
  }

  /** At moment `r` the database's value for `id` was `val`. Of several versions written
      at one moment, each was current at it. */
  ghost predicate WasValue(versions: seq<Version>, id: string, val: Option<Val>, r: nat)
  {
    exists i: nat :: Held(versions, i, id, val, r)
  }

  ghost predicate WasValueBetween(versions: seq<Version>, id: string, val: Option<Val>, lo: int, hi: int)
  {
    exists r: nat :: lo <= r <= hi && WasValue(versions, id, val, r)
  }

  ghost predicate Timeline(versions: seq<Version>, now: nat)
  {
    versions != [] && forall i :: 0 <= i < |versions| ==> versions[i].from <= now
  }

  lemma CurrentValue(s: System, id: string)
    requires Timeline(s.versions, s.now)
    ensures WasValue(s.versions, id, At(Db(s), id), s.now)
  {
    assert Held(s.versions, |s.versions| - 1, id, At(Db(s), id), s.now);
  }

  /** History is not rewritten. */
  lemma PastStays(versions: seq<Version>, v: Version, id: string, val: Option<Val>, r: nat)
    requires WasValue(versions, id, val, r) && r <= v.from
    ensures WasValue(versions + [v], id, val, r)
  {
    var all := versions + [v];
    var i: nat :| Held(versions, i, id, val, r);
    assert all[i] == versions[i] && (i + 1 < |versions| ==> all[i + 1] == versions[i + 1]);
    assert Held(all, i, id, val, r);
  }

  // ---------------------------------------------------------------------
  // The invariant
  // ---------------------------------------------------------------------

  ghost predicate TaskOk(cfg: Config, versions: seq<Version>, t: Task, now: nat)
  {
    && t.born <= now <= t.born + cfg.D
    && (t.Fill? ==> WasValue(versions, t.id, Some(t.val), t.born))
  }

  ghost predicate EntryOk(cfg: Config, versions: seq<Version>, id: string, e: Entry, now: nat)
  {
    WasValueBetween(versions, id, Some(e.val), e.deadline - MAX_TTL - cfg.D, now)
  }

  ghost predicate FlightOk(cfg: Config, versions: seq<Version>, id: string, f: Flight, now: nat)
  {
    && f.began <= now <= f.began + cfg.F
    && (f.reading.Row? ==> WasValueBetween(versions, id, f.reading.val, f.began, now))
  }

  function Bound(cfg: Config): nat
  {
    if MAX_TTL + cfg.D >= cfg.F then MAX_TTL + cfg.D else cfg.F
  }

  ghost predicate AnswerOk(cfg: Config, versions: seq<Version>, a: Answer, now: nat)
  {
    a.at <= now && WasValueBetween(versions, a.id, a.val, a.at - Bound(cfg), a.at)
  }

  ghost predicate Inv(cfg: Config, s: System)
  {
    && Timeline(s.versions, s.now)
    && (forall t :: t in s.tasks ==> TaskOk(cfg, s.versions, s.tasks[t], s.now))
    && (forall id :: id in s.cache ==> EntryOk(cfg, s.versions, id, s.cache[id], s.now))
    && (forall id :: id in s.flights ==> FlightOk(cfg, s.versions, id, s.flights[id], s.now))
    && (forall i :: 0 <= i < |s.answers| ==> AnswerOk(cfg, s.versions, s.answers[i], s.now))
  }

  lemma WriteKeepsInv(cfg: Config, s: System, id: string, val: Option<Val>)
    requires Inv(cfg, s)
    ensures Inv(cfg, Write(s, id, val))
    ensures WasValue(Write(s, id, val).versions, id, val, s.now)
  {
    hide WasValue;
    var s' := Write(s, id, val);
    var v := s'.versions[|s.versions|];
    assert s'.versions == s.versions + [v] && v.from == s.now;
    forall i: string, x: Option<Val>, r: nat | r <= s.now && WasValue(s.versions, i, x, r)
      ensures WasValue(s'.versions, i, x, r)
    {
      PastStays(s.versions, v, i, x, r);
    }
    WrittenNow(s, id, val);
  }

  lemma WrittenNow(s: System, id: string, val: Option<Val>)
    requires Timeline(s.versions, s.now)
    ensures WasValue(Write(s, id, val).versions, id, val, s.now)
  {
    var s' := Write(s, id, val);
    assert Held(s'.versions, |s.versions|, id, val, s.now);
  }

  lemma AnswerKeepsInv(cfg: Config, s: System, a: Answer)
    requires Inv(cfg, s) && AnswerOk(cfg, s.versions, a, s.now)
    ensures Inv(cfg, s.(answers := s.answers + [a]))
  {
    hide AnswerOk, TaskOk, EntryOk, FlightOk;
  }

  lemma TickKeepsInv(cfg: Config, s: System, dt: nat)
    requires Inv(cfg, s) && Enabled(cfg, s, Tick(dt))
    ensures Inv(cfg, Apply(cfg, s, Tick(dt)))
  {
    hide WasValue;
    var s' := Apply(cfg, s, Tick(dt));
    forall id | id in s.cache
      ensures EntryOk(cfg, s'.versions, id, s'.cache[id], s'.now)
    {
      assert EntryOk(cfg, s.versions, id, s.cache[id], s.now);
    }
    forall id | id in s.flights
      ensures FlightOk(cfg, s'.versions, id, s'.flights[id], s'.now)
    {
      assert FlightOk(cfg, s.versions, id, s.flights[id], s.now);
    }
  }

  lemma FlightStepKeepsInv(cfg: Config, s: System, e: Event)
    requires Inv(cfg, s) && Enabled(cfg, s, e) && (e.EnterFlight? || e.ReadRow?)
    ensures Inv(cfg, Apply(cfg, s, e))
  {
    hide WasValue;
    match e
    case EnterFlight(caller) =>
    case ReadRow(id, fails, _) =>
      CurrentValue(s, id);
      assert FlightOk(cfg, s.versions, id, s.flights[id], s.now);
  }

  lemma RunTaskKeepsInv(cfg: Config, s: System, task: nat, jitter: nat, fails: bool)
    requires Inv(cfg, s) && Enabled(cfg, s, RunTask(task, jitter, fails))
    ensures Inv(cfg, Apply(cfg, s, RunTask(task, jitter, fails)))
  {
    hide WasValue;
    assert TaskOk(cfg, s.versions, s.tasks[task], s.now);
    if s.tasks[task].Fill? {
      var e := Entry(s.tasks[task].val, s.now + BASE_TTL + jitter);
      assert EntryOk(cfg, s.versions, s.tasks[task].id, e, s.now) by {
        assert e.deadline - MAX_TTL - cfg.D <= s.tasks[task].born <= s.now;
      }
    }
  }

  lemma ReturnKeepsInv(cfg: Config, s: System, e: Event)
    requires Inv(cfg, s) && Enabled(cfg, s, e) && (e.LookupHit? || e.FlightDone?)
    ensures Inv(cfg, Apply(cfg, s, e))
  {
    hide WasValue;
    match e
    case LookupHit(id) =>
      assert EntryOk(cfg, s.versions, id, s.cache[id], s.now);
      AnswerKeepsInv(cfg, s, Answer(id, Some(s.cache[id].val), s.now));
    case FlightDone(id) =>
      assert FlightOk(cfg, s.versions, id, s.flights[id], s.now);
      if s.flights[id].reading.Row? {
        AnswerKeepsInv(cfg, s, Answer(id, s.flights[id].reading.val, s.now));
      }
  }

  lemma StepKeepsInv(cfg: Config, s: System, e: Event)
    requires Inv(cfg, s) && Enabled(cfg, s, e)
    ensures Inv(cfg, Apply(cfg, s, e))
  {
    hide WasValue, WasValueBetween, EntryOk, FlightOk, AnswerOk;
    match e
    case Tick(dt) => TickKeepsInv(cfg, s, dt);
    case LookupHit(_) => ReturnKeepsInv(cfg, s, e);
    case LookupMiss(_, _) =>
    case EnterFlight(_) => FlightStepKeepsInv(cfg, s, e);
    case ReadRow(_, _, _) => FlightStepKeepsInv(cfg, s, e);
    case FlightDone(_) => ReturnKeepsInv(cfg, s, e);
    case Save(id, val, _) => WriteKeepsInv(cfg, s, id, Some(val));
    case Delete(id, _) => WriteKeepsInv(cfg, s, id, None);
    case OtherWrite(id, val) => WriteKeepsInv(cfg, s, id, val);
    case RunTask(task, jitter, fails) => RunTaskKeepsInv(cfg, s, task, jitter, fails);
    case CacheLoses(_) =>
  }

  lemma {:induction false} RunKeepsInv(cfg: Config, events: seq<Event>)
    requires Legal(cfg, events)
    ensures Inv(cfg, Final(cfg, events))
    decreases |events|
  {
    if events != [] {
      hide Inv, Apply, Enabled;
      var n := |events| - 1;
      RunKeepsInv(cfg, events[..n]);
      StepKeepsInv(cfg, Final(cfg, events[..n]), events[n]);
    }
  }

  /** Main result, bounded staleness: in every run, every value FindByID returned at a time
      t was the database's value for that id at some moment between
      t - max(359 + D, F) and t. */
  lemma BoundedStaleness(cfg: Config, events: seq<Event>, i: nat)
    requires Legal(cfg, events) && i < |Final(cfg, events).answers|
    ensures
      var s := Final(cfg, events);
      var a := s.answers[i];
      WasValueBetween(s.versions, a.id, a.val, a.at - (if 359 + cfg.D >= cfg.F then 359 + cfg.D else cfg.F), a.at)
  {
    hide WasValueBetween;
    RunKeepsInv(cfg, events);
    assert AnswerOk(cfg, Final(cfg, events).versions, Final(cfg, events).answers[i], Final(cfg, events).now);
  }

  /** Exists answers true from the cache only for a function that existed within the same
      bound. */
  lemma ExistsIsBoundedlyStale(cfg: Config, events: seq<Event>, id: string)
    requires Legal(cfg, events) && Hit(Final(cfg, events), id)
    ensures
      var s := Final(cfg, events);
      exists v :: WasValueBetween(s.versions, id, Some(v), s.now - 359 - cfg.D, s.now)
  {
    hide Legal, Final;
    RunKeepsInv(cfg, events);
    HitIsBoundedlyStale(cfg, Final(cfg, events), id);
  }

  lemma HitIsBoundedlyStale(cfg: Config, s: System, id: string)
    requires Inv(cfg, s) && Hit(s, id)
    ensures WasValueBetween(s.versions, id, Some(s.cache[id].val), s.now - 359 - cfg.D, s.now)
  {
    hide WasValue;
    assert EntryOk(cfg, s.versions, id, s.cache[id], s.now);
  }

  // ---------------------------------------------------------------------
  // The bound is reached
  // ---------------------------------------------------------------------

  lemma Extend(cfg: Config, events: seq<Event>, e: Event) returns (more: seq<Event>)
    requires Legal(cfg, events) && Enabled(cfg, Final(cfg, events), e)
    ensures Legal(cfg, more) && Final(cfg, more) == Apply(cfg, Final(cfg, events), e)
  {
    more := events + [e];
    assert more[..|more| - 1] == events;
  }

  lemma EmptyRun(cfg: Config)
    ensures Legal(cfg, []) && Final(cfg, []) == INITIAL
  {
  }

  /** The history of a function saved and then deleted at time 0. */
  function SavedThenDeleted(id: string, val: Val): seq<Version>
  {
    [Version(0, map[]), Version(0, map[id := val]), Version(0, map[])]
  }

  lemma OnlyAtZero(id: string, val: Val, r: nat)
    requires WasValue(SavedThenDeleted(id, val), id, Some(val), r)
    ensures r == 0
  {
    var versions := SavedThenDeleted(id, val);
    var i: nat :| Held(versions, i, id, Some(val), r);
    assert i + 1 < |versions|;
  }

  lemma SaveThenDelete(cfg: Config, id: string, val: Val) returns (events: seq<Event>)
    ensures Legal(cfg, events)
    ensures Final(cfg, events)
        == System(SavedThenDeleted(id, val), map[], map[0 := Fill(id, val, 0)], map[], map[], [], 0)
  {
    hide Legal, Final;
    EmptyRun(cfg);
    events := Extend(cfg, [], Save(id, val, 0));
    events := Extend(cfg, events, Delete(id, 1));
    events := Extend(cfg, events, RunTask(1, 0, false));
    assert map[id := val] - {id} == map[];
    assert Final(cfg, events).tasks == map[0 := Fill(id, val, 0)] && Final(cfg, events).cache == map[];
  }

  /** Through the cache: the fill runs D late, after the delete's invalidation, with the longest
      TTL. */
  lemma StaleByCache(cfg: Config, id: string, val: Val) returns (events: seq<Event>)
    ensures Legal(cfg, events)
    ensures Final(cfg, events).versions == SavedThenDeleted(id, val)
    ensures Final(cfg, events).answers == [Answer(id, Some(val), cfg.D + 359)]
  {
    hide Legal, Final;
    events := SaveThenDelete(cfg, id, val);
    events := Extend(cfg, events, Tick(cfg.D));
    events := Extend(cfg, events, RunTask(0, 59, false));
    events := Extend(cfg, events, Tick(359));
    events := Extend(cfg, events, LookupHit(id));
  }

  lemma OpenFlight(cfg: Config, id: string, val: Val) returns (events: seq<Event>)
    ensures Legal(cfg, events)
    ensures Final(cfg, events) ==
            System([Version(0, map[]), Version(0, map[id := val])], map[], map[], map[id := Flight(0, NotYet, {0})],
                   map[], [], 0)
  {
    hide Legal, Final;
    EmptyRun(cfg);
    events := Extend(cfg, [], Save(id, val, 0));
    events := Extend(cfg, events, RunTask(0, 0, true));
    assert Final(cfg, events).tasks == map[];
    events := Extend(cfg, events, LookupMiss(0, id));
    events := Extend(cfg, events, EnterFlight(0));
    var s := Final(cfg, events);
    assert s.missed == map[];
    assert s.flights[id].waiters == {0};
    assert s.flights == map[id := Flight(0, NotYet, {0})];
    assert s.versions == [Version(0, map[]), Version(0, map[id := val])];
  }

  lemma FlightReads(cfg: Config, id: string, val: Val) returns (events: seq<Event>)
    ensures Legal(cfg, events)
    ensures Final(cfg, events) ==
            System(SavedThenDeleted(id, val), map[], map[], map[id := Flight(0, Row(Some(val)), {0})], map[], [], 0)
  {
    hide Legal, Final;
    events := OpenFlight(cfg, id, val);
    events := Extend(cfg, events, ReadRow(id, false, 1));
    events := Extend(cfg, events, RunTask(1, 0, true));
    assert Final(cfg, events).tasks == map[];
    events := Extend(cfg, events, Delete(id, 2));
    events := Extend(cfg, events, RunTask(2, 0, false));
    assert map[id := val] - {id} == map[];
    assert Final(cfg, events).tasks == map[] && Final(cfg, events).cache == map[];
  }

  /** Through a flight: it reads first and returns F later. */
  lemma StaleByFlight(cfg: Config, id: string, val: Val) returns (events: seq<Event>)
    ensures Legal(cfg, events)
    ensures Final(cfg, events).versions == SavedThenDeleted(id, val)
    ensures Final(cfg, events).answers == [Answer(id, Some(val), cfg.F)]
  {
    hide Legal, Final;
    events := FlightReads(cfg, id, val);
    events := Extend(cfg, events, Tick(cfg.F));
    events := Extend(cfg, events, FlightDone(id));
  }

  /** Main result: no smaller bound holds. For every D, F, id and value some run of the
      repository's own operations returns that value when the database last held it exactly max(359 + D, F) ago. */
  lemma StalenessReached(cfg: Config, id: string, val: Val) returns (events: seq<Event>)
    ensures Legal(cfg, events) && |Final(cfg, events).answers| == 1
    ensures
      var s := Final(cfg, events);
      var a := s.answers[0];
      && a.id == id && a.val == Some(val)
      && forall r :: WasValue(s.versions, id, a.val, r) ==>
           r == a.at - (if 359 + cfg.D >= cfg.F then 359 + cfg.D else cfg.F)
  {
    hide Legal, Final, WasValue;
    if 359 + cfg.D >= cfg.F {
      events := StaleByCache(cfg, id, val);
    } else {
      events := StaleByFlight(cfg, id, val);
    }
    forall r: nat | WasValue(Final(cfg, events).versions, id, Some(val), r)
      ensures r == 0
    {
      OnlyAtZero(id, val, r);
    }
  }

  // ---------------------------------------------------------------------
  // The object
  // ---------------------------------------------------------------------

  datatype Lookup = Found(val: Val) | NotFound | Failed

  /** A lookup past the cache with nobody else around: it leads its own flight. */
  function ReadThrough(cfg: Config, s: System, id: string, dbFails: bool, task: nat): System
    requires s.versions != [] && s.missed == map[] && s.flights == map[] && task !in s.tasks
  {
    var missed := Apply(cfg, s, LookupMiss(0, id));
    var flying := Apply(cfg, missed, EnterFlight(0));
    var row := Apply(cfg, flying, ReadRow(id, dbFails, task));
    Apply(cfg, row, FlightDone(id))
  }

  lemma ReadThroughFields(cfg: Config, s: System, id: string, dbFails: bool, task: nat)
    requires s.versions != [] && s.missed == map[] && s.flights == map[] && task !in s.tasks
    ensures var row := At(Db(s), id);
            ReadThrough(cfg, s, id, dbFails, task) ==
            if dbFails then s
            else s.(answers := s.answers + [Answer(id, row, s.now)],
                    tasks := if row.Some? then s.tasks[task := Fill(id, row.value, s.now)] else s.tasks)
  {
    var r := ReadThrough(cfg, s, id, dbFails, task);
    assert r.missed == map[] && r.flights == map[];
  }

  /** The repository with the goroutines it has started and not yet run, each call alone. */
  class CachedFunctionRepository {
    const cfg: Config
    var db: map<string, Val>
    var cache: map<string, Entry>
    var tasks: map<nat, Task>
    var now: nat
    ghost var versions: seq<Version>
    ghost var answers: seq<Answer>

    ghost function View(): System
      reads this
    {
      System(versions, cache, tasks, map[], map[], answers, now)
    }

    ghost predicate Valid()
      reads this
    {
      versions != [] && Db(View()) == db
    }

    constructor (cfg: Config)
      ensures Valid() && this.cfg == cfg && View() == INITIAL
    {
      this.cfg := cfg;
      db, cache, tasks, now := map[], map[], map[], 0;
      versions, answers := [Version(0, map[])], [];
    }

    /** A live hit is answered from the cache; anything else is read through. */
    method FindByID(id: string, cacheFails: bool, dbFails: bool, task: nat) returns (r: Lookup)
      requires Valid() && task !in tasks
      modifies this`tasks, this`answers
      ensures Valid()
      ensures var hit := !cacheFails && id in cache && now <= cache[id].deadline;
              && View() == (if hit then Apply(cfg, old(View()), LookupHit(id))
                            else ReadThrough(cfg, old(View()), id, dbFails, task))
              && r == (if hit then Found(cache[id].val)
                       else if dbFails then Failed
                       else if id in db then Found(db[id]) else NotFound)
              && tasks == (if !hit && !dbFails && id in db then old(tasks)[task := Fill(id, db[id], now)]
                           else old(tasks))
    {
      if !cacheFails && id in cache && now <= cache[id].deadline {
        answers := answers + [Answer(id, Some(cache[id].val), now)];
        return Found(cache[id].val);
      }
      ReadThroughFields(cfg, View(), id, dbFails, task);
      hide ReadThrough;
      if dbFails {
        return Failed;
      }
      answers := answers + [Answer(id, At(db, id), now)];
      if id !in db {
        return NotFound;
      }
      tasks := tasks[task := Fill(id, db[id], now)];
      return Found(db[id]);
    }

    method Save(id: string, val: Val, dbFails: bool, task: nat) returns (ok: bool)
      requires Valid() && task !in tasks
      modifies this`db, this`versions, this`tasks
      ensures Valid() && ok == !dbFails
      ensures db == if ok then old(db)[id := val] else old(db)
      ensures tasks == if ok then old(tasks)[task := Fill(id, val, now)] else old(tasks)
      ensures View() == if ok then Apply(cfg, old(View()), Event.Save(id, val, task)) else old(View())
    {
      if dbFails {
        return false;
      }
      db := db[id := val];
      versions := versions + [Version(now, db)];
      tasks := tasks[task := Fill(id, val, now)];
      return true;
    }

    method Delete(id: string, dbFails: bool, task: nat) returns (ok: bool)
      requires Valid() && task !in tasks
      modifies this`db, this`versions, this`tasks
      ensures Valid() && ok == (!dbFails && id in old(db))
      ensures db == if ok then old(db) - {id} else old(db)
      ensures tasks == if ok then old(tasks)[task := Invalidate(id, now)] else old(tasks)
      ensures View() == if ok then Apply(cfg, old(View()), Event.Delete(id, task)) else old(View())
    {
      if dbFails || id !in db {
        return false;
      }
      db := db - {id};
      versions := versions + [Version(now, db)];
      tasks := tasks[task := Invalidate(id, now)];
      return true;
    }

    /** None is the database's error. */
    method Exists(id: string, cacheFails: bool, dbFails: bool) returns (r: Option<bool>)
      ensures !cacheFails && id in cache && now <= cache[id].deadline ==> r == Some(true)
      ensures cacheFails || id !in cache || now > cache[id].deadline ==> r == if dbFails then None else Some(id in db)
    {
      if !cacheFails && id in cache && now <= cache[id].deadline {
        return Some(true);
      }
      if dbFails {
        return None;
      }
      return Some(id in db);
    }

    /** Any pending goroutine runs; setWithJitter adds less than a minute to the TTL. */
    method RunTask(task: nat, jitter: nat, fails: bool)
      requires Valid() && task in tasks && jitter < JITTER_MAX
      modifies this`tasks, this`cache
      ensures Valid() && tasks == old(tasks) - {task}
      ensures fails ==> cache == old(cache)
      ensures !fails ==> match old(tasks)[task]
                         case Fill(id, val, _) => cache == old(cache)[id := Entry(val, now + 300 + jitter)]
                         case Invalidate(id, _) => id !in cache && cache == old(cache) - {id}
      ensures View() == Apply(cfg, old(View()), Event.RunTask(task, jitter, fails))
    {
      var todo := tasks[task];
      tasks := tasks - {task};
      if fails {
        return;
      }
      match todo {
        case Fill(id, val, _) => cache := cache[id := Entry(val, now + BASE_TTL + jitter)];
        case Invalidate(id, _) => cache := cache - {id};
      }
    }
  }
}

/** What the cache's background tasks do to it, and when a deleted function is gone for good.

    The bound on staleness leaves open whether an invalidation removes anything. Here it does:
    each task's effect on the cache, the collapse of concurrent misses into one query, and the
    exact condition under which nobody is told of a deleted function again.
 */
module MetadataCacheDeletes {
  import opened Common
  import opened MetadataCaches

  // ---------------------------------------------------------------------
  // One task
  // ---------------------------------------------------------------------

  /** The caches agree on every id but this one. */
  predicate SameButFor(a: map<string, Entry>, b: map<string, Entry>, id: string)
  {
    a - {id} == b - {id}
  }

  /** Main result: a task that runs is done, and touches one entry. An invalidation that did not
      fail leaves no entry for its id; a fill leaves its value, to expire 300 to 359 seconds later;
      a failed one leaves the cache as it was. */
  lemma TaskAnswers(cfg: Config, s: System, task: nat, jitter: nat, fails: bool)
    requires Enabled(cfg, s, RunTask(task, jitter, fails))
    ensures
      var s' := Apply(cfg, s, RunTask(task, jitter, fails));
      var id := s.tasks[task].id;
      && s'.tasks == s.tasks - {task} && s'.versions == s.versions && s'.now == s.now
      && s'.answers == s.answers && s'.flights == s.flights && s'.missed == s.missed
      && SameButFor(s.cache, s'.cache, id)
      && (fails ==> s'.cache == s.cache)
      && (!fails && s.tasks[task].Invalidate? ==> id !in s'.cache)
      && (!fails && s.tasks[task].Fill? ==>
            && id in s'.cache && s'.cache[id].val == s.tasks[task].val
            && s.now + 300 <= s'.cache[id].deadline <= s.now + 359)
  {
    var s' := Apply(cfg, s, RunTask(task, jitter, fails));
    var id := s.tasks[task].id;
    assert s.cache - {id} == s'.cache - {id};
  }

  /** An entry changes only by a task about its id, or by the cache losing it. */
  lemma EntryStays(cfg: Config, s: System, e: Event, id: string)
    requires Enabled(cfg, s, e) && id in s.cache && e != CacheLoses(id)
    requires !(e.RunTask? && !e.fails && s.tasks[e.task].id == id)
    ensures id in Apply(cfg, s, e).cache && Apply(cfg, s, e).cache[id] == s.cache[id]
  {
    match e
    case Tick(_) =>
    case LookupHit(_) =>
    case LookupMiss(_, _) =>
    case EnterFlight(_) =>
    case ReadRow(_, _, _) =>
    case FlightDone(_) =>
    case Save(_, _, _) =>
    case Delete(_, _) =>
    case OtherWrite(_, _) =>
    case RunTask(_, _, _) =>
    case CacheLoses(_) =>
  }

  // ---------------------------------------------------------------------
  // Gone for good
  // ---------------------------------------------------------------------

  /** The events lead from s to s'. */
  predicate Leads(cfg: Config, s: System, events: seq<Event>, s': System)
    decreases |events|
  {
    if events == [] then s == s'
    else Enabled(cfg, s, events[0]) && Leads(cfg, Apply(cfg, s, events[0]), events[1..], s')
  }

  /** Nobody writes a row for the id. */
  predicate NeverRestored(events: seq<Event>, id: string)
  {
    forall i :: 0 <= i < |events| ==> !Restores(events[i], id)
  }

  predicate Restores(e: Event, id: string)
  {
    (e.Save? && e.id == id) || (e.OtherWrite? && e.id == id && e.row.Some?)
  }

  /** Every answer about the id from the n-th on is that there is no such function. */
  predicate SaysNotFound(answers: seq<Answer>, n: nat, id: string)
  {
    forall i :: n <= i < |answers| && answers[i].id == id ==> answers[i].val == None
  }

  /** Whatever happens, as long as nobody writes a row for it, nobody is told of the function. */
  ghost predicate ForgottenFrom(cfg: Config, s: System, id: string)
  {
    forall events, s' :: Leads(cfg, s, events, s') && NeverRestored(events, id) ==>
      SaysNotFound(s'.answers, |s.answers|, id)
  }

  /** No live entry, no pending fill and no flight holds the function. */
  predicate Gone(s: System, id: string)
  {
    && !(id in s.cache && s.now <= s.cache[id].deadline)
    && (forall t :: t in s.tasks ==> !(s.tasks[t].Fill? && s.tasks[t].id == id))
    && !(id in s.flights && s.flights[id].reading.Row? && s.flights[id].reading.val.Some?)
  }

  predicate IsAbsent(s: System, id: string)
  {
    s.versions != [] && id !in s.versions[|s.versions| - 1].db
  }

  /** A step that writes no row for the id keeps it gone and tells nobody of it. */
  lemma StepKeepsGone(cfg: Config, s: System, e: Event, id: string)
    requires IsAbsent(s, id) && Gone(s, id) && Enabled(cfg, s, e) && !Restores(e, id)
    ensures var s' := Apply(cfg, s, e);
            && IsAbsent(s', id) && Gone(s', id)
            && |s.answers| <= |s'.answers| && SaysNotFound(s'.answers, |s.answers|, id)
  {
    match e
    case Tick(_) =>
    case LookupHit(_) =>
    case LookupMiss(_, _) =>
    case EnterFlight(_) =>
    case ReadRow(_, _, _) =>
    case FlightDone(_) =>
    case Save(_, _, _) =>
    case Delete(_, _) =>
    case OtherWrite(_, _) =>
    case RunTask(_, _, _) =>
    case CacheLoses(_) =>
  }

  lemma {:induction false} RunKeepsGone(cfg: Config, s: System, events: seq<Event>, s': System, id: string)
    requires IsAbsent(s, id) && Gone(s, id) && Leads(cfg, s, events, s') && NeverRestored(events, id)
    ensures IsAbsent(s', id) && Gone(s', id)
    ensures SaysNotFound(s'.answers, |s.answers|, id) && |s.answers| <= |s'.answers|
    ensures forall i :: 0 <= i < |s.answers| ==> s'.answers[i] == s.answers[i]
    decreases |events|
  {
    if events != [] {
      var s1 := Apply(cfg, s, events[0]);
      StepKeepsGone(cfg, s, events[0], id);
      AnswersGrow(cfg, s, events[0]);
      hide Apply, Enabled, IsAbsent, Gone, Restores;
      RunKeepsGone(cfg, s1, events[1..], s', id);
    }
  }

  lemma AnswersGrow(cfg: Config, s: System, e: Event)
    requires Enabled(cfg, s, e)
    ensures s.answers <= Apply(cfg, s, e).answers
  {
  }

  lemma OneStep(cfg: Config, s: System, e: Event)
    requires Enabled(cfg, s, e)
    ensures Leads(cfg, s, [e], Apply(cfg, s, e))
  {
    hide Apply, Enabled;
    assert [e][1..] == [];
  }

  lemma TwoSteps(cfg: Config, s: System, e: Event, f: Event)
    requires Enabled(cfg, s, e) && Enabled(cfg, Apply(cfg, s, e), f)
    ensures Leads(cfg, s, [e, f], Apply(cfg, Apply(cfg, s, e), f))
  {
    OneStep(cfg, Apply(cfg, s, e), f);
    hide Apply, Enabled;
    assert [e, f][1..] == [f];
  }

  /** A state that still holds the function has a run that tells somebody of it. */
  lemma HeldIsTold(cfg: Config, s: System, id: string) returns (events: seq<Event>, s': System)
    requires s.versions != [] && !Gone(s, id)
    ensures Leads(cfg, s, events, s') && NeverRestored(events, id)
    ensures !SaysNotFound(s'.answers, |s.answers|, id)
  {
    if id in s.cache && s.now <= s.cache[id].deadline {
      events, s' := [LookupHit(id)], Apply(cfg, s, LookupHit(id));
      OneStep(cfg, s, LookupHit(id));
    } else if id in s.flights && s.flights[id].reading.Row? && s.flights[id].reading.val.Some? {
      events, s' := [FlightDone(id)], Apply(cfg, s, FlightDone(id));
      OneStep(cfg, s, FlightDone(id));
    } else {
      var t :| t in s.tasks && s.tasks[t].Fill? && s.tasks[t].id == id;
      var s1 := Apply(cfg, s, RunTask(t, 0, false));
      assert Enabled(cfg, s1, LookupHit(id));
      events, s' := [RunTask(t, 0, false), LookupHit(id)], Apply(cfg, s1, LookupHit(id));
      TwoSteps(cfg, s, RunTask(t, 0, false), LookupHit(id));
      hide Leads;
    }
    assert s'.answers[|s.answers|].id == id && s'.answers[|s.answers|].val.Some?;
  }

  /** Main result: once a function is not in the database, nobody is ever told of it again until a
      row is written for it, if and only if no live entry, no pending fill and no flight holds it. */
  lemma ForgottenIff(cfg: Config, s: System, id: string)
    requires IsAbsent(s, id)
    ensures ForgottenFrom(cfg, s, id) <==> Gone(s, id)
  {
    if Gone(s, id) {
      forall events, s' | Leads(cfg, s, events, s') && NeverRestored(events, id)
        ensures SaysNotFound(s'.answers, |s.answers|, id)
      {
        RunKeepsGone(cfg, s, events, s', id);
      }
    } else {
      var events, s' := HeldIsTold(cfg, s, id);
    }
  }

  /** Main result: the delete's invalidation does its work. If it runs without failing when no fill
      of the id is pending and no flight holds the row, then on every continuation that writes no
      row for the id, every lookup misses and every answer is that there is no such function. */
  lemma DeleteIsFinal(cfg: Config, s: System, task: nat, jitter: nat, id: string, events: seq<Event>, s': System)
    requires IsAbsent(s, id) && Enabled(cfg, s, RunTask(task, jitter, false))
    requires s.tasks[task].Invalidate? && s.tasks[task].id == id
    requires forall t :: t in s.tasks ==> !(s.tasks[t].Fill? && s.tasks[t].id == id)
    requires !(id in s.flights && s.flights[id].reading.Row? && s.flights[id].reading.val.Some?)
    requires Leads(cfg, Apply(cfg, s, RunTask(task, jitter, false)), events, s') && NeverRestored(events, id)
    ensures !(id in s'.cache && s'.now <= s'.cache[id].deadline) && IsAbsent(s', id)
    ensures SaysNotFound(s'.answers, |s.answers|, id)
  {
    var s1 := Apply(cfg, s, RunTask(task, jitter, false));
    TaskAnswers(cfg, s, task, jitter, false);
    RunKeepsGone(cfg, s1, events, s', id);
  }

  // ---------------------------------------------------------------------
  // Until the next save or read
  // ---------------------------------------------------------------------

  /** The event may start a fill of the id. */
  predicate StartsFill(e: Event, id: string)
  {
    (e.Save? || (e.ReadRow? && !e.fails)) && e.id == id
  }

  predicate Uncached(s: System, id: string)
  {
    id !in s.cache && forall t :: t in s.tasks ==> !(s.tasks[t].Fill? && s.tasks[t].id == id)
  }

  /** Main result: an id without entry and without pending fill has no entry, so no lookup of it
      hits, until its next save or its next successful query, whatever else happens. */
  lemma {:induction false} UncachedStays(cfg: Config, s: System, events: seq<Event>, s': System, id: string)
    requires Uncached(s, id) && Leads(cfg, s, events, s')
    requires forall i :: 0 <= i < |events| ==> !StartsFill(events[i], id)
    ensures Uncached(s', id)
    decreases |events|
  {
    if events != [] {
      StepKeepsUncached(cfg, s, events[0], id);
      hide Apply, Enabled, Uncached, StartsFill;
      UncachedStays(cfg, Apply(cfg, s, events[0]), events[1..], s', id);
    }
  }

  lemma StepKeepsUncached(cfg: Config, s: System, e: Event, id: string)
    requires Uncached(s, id) && Enabled(cfg, s, e) && !StartsFill(e, id)
    ensures Uncached(Apply(cfg, s, e), id)
  {
    match e
    case Tick(_) =>
    case LookupHit(_) =>
    case LookupMiss(_, _) =>
    case EnterFlight(_) =>
    case ReadRow(_, _, _) =>
    case FlightDone(_) =>
    case Save(_, _, _) =>
    case Delete(_, _) =>
    case OtherWrite(_, _) =>
    case RunTask(_, _, _) =>
    case CacheLoses(_) =>
  }

  // ---------------------------------------------------------------------
  // Singleflight
  // ---------------------------------------------------------------------

  /** Queries of the id made by `events`, and flights for it that ended. */
  function Queries(events: seq<Event>, id: string): nat
  {
    if events == [] then 0
    else Queries(events[..|events| - 1], id)
         + if events[|events| - 1].ReadRow? && events[|events| - 1].id == id then 1 else 0
  }

  function Ended(events: seq<Event>, id: string): nat
  {
    if events == [] then 0
    else Ended(events[..|events| - 1], id)
         + if events[|events| - 1].FlightDone? && events[|events| - 1].id == id then 1 else 0
  }

  /** Main result: concurrent misses collapse. In every run, however many callers miss, each flight
      that ended made one query and the one under way at most one. */
  lemma {:induction false} OneQueryPerFlight(cfg: Config, events: seq<Event>, id: string)
    requires Legal(cfg, events)
    ensures
      var s := Final(cfg, events);
      Queries(events, id) == Ended(events, id)
        + if id in s.flights && !s.flights[id].reading.NotYet? then 1 else 0
    decreases |events|
  {
    if events != [] {
      var n := |events| - 1;
      OneQueryPerFlight(cfg, events[..n], id);
      StepAndFlight(cfg, Final(cfg, events[..n]), events[n], id);
      hide Apply, Enabled;
    }
  }

  lemma StepAndFlight(cfg: Config, s: System, e: Event, id: string)
    requires Enabled(cfg, s, e)
    ensures
      var s' := Apply(cfg, s, e);
      && (if id in s'.flights && !s'.flights[id].reading.NotYet? then 1 else 0)
         == (if id in s.flights && !s.flights[id].reading.NotYet? then 1 else 0)
            + (if e.ReadRow? && e.id == id then 1 else 0) - (if e.FlightDone? && e.id == id then 1 else 0)
  {
    match e
    case Tick(_) =>
    case LookupHit(_) =>
    case LookupMiss(_, _) =>
    case EnterFlight(_) =>
    case ReadRow(_, _, _) =>
    case FlightDone(_) =>
    case Save(_, _, _) =>
    case Delete(_, _) =>
    case OtherWrite(_, _) =>
    case RunTask(_, _, _) =>
    case CacheLoses(_) =>
  }

  /** A caller that missed waits in the flight of its id until that flight ends, and the flight
      goes on as it was: it is neither restarted nor read again for the newcomer. */
  lemma CallersWait(cfg: Config, s: System, caller: nat)
    requires Enabled(cfg, s, EnterFlight(caller))
    ensures
      var id := s.missed[caller];
      var s' := Apply(cfg, s, EnterFlight(caller));
      && s'.missed == s.missed - {caller} && s'.flights - {id} == s.flights - {id}
      && id in s'.flights && caller in s'.flights[id].waiters
      && (id in s.flights ==>
            && s'.flights[id].waiters == s.flights[id].waiters + {caller}
            && s'.flights[id].began == s.flights[id].began && s'.flights[id].reading == s.flights[id].reading)
      && (id !in s.flights ==> s'.flights[id] == Flight(s.now, NotYet, {caller}))
  {
    var id := s.missed[caller];
    var s' := Apply(cfg, s, EnterFlight(caller));
    assert s'.flights - {id} == s.flights - {id};
  }

  lemma WaitersStay(cfg: Config, s: System, e: Event, id: string)
    requires Enabled(cfg, s, e) && id in s.flights && e != FlightDone(id)
    ensures id in Apply(cfg, s, e).flights && s.flights[id].waiters <= Apply(cfg, s, e).flights[id].waiters
  {
  }

  /** A query reads what the database holds at that moment, and what it found is filled in later. */
  lemma QueryAnswers(cfg: Config, s: System, id: string, fails: bool, task: nat)
    requires Enabled(cfg, s, ReadRow(id, fails, task))
    ensures
      var s' := Apply(cfg, s, ReadRow(id, fails, task));
      var db := s.versions[|s.versions| - 1].db;
      && id in s'.flights && s'.cache == s.cache && s'.versions == s.versions
      && (fails ==> s'.flights[id].reading == DbError && s'.tasks == s.tasks)
      && (!fails && id in db ==>
            s'.flights[id].reading == Row(Some(db[id])) && s'.tasks == s.tasks[task := Fill(id, db[id], s.now)])
      && (!fails && id !in db ==> s'.flights[id].reading == Row(None) && s'.tasks == s.tasks)
  {
  }
}

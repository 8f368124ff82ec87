/** The gateway's circuit breaker.

    Three layers: the critical sections as functions on `Breaker`; a system in which
    any number of calls interleave those sections; and the sequential layer, where
    calls do not overlap. The class at the end holds the fields the source mutates.
 */
module CircuitBreakers {
  import opened Common
  import opened Arithmetic

  datatype Phase = Closed | Open | HalfOpen

  datatype Config = Config(maxFailures: int, resetTimeout: nat)

  datatype Breaker = Breaker(phase: Phase, failures: nat, lastFailure: nat)

  /** One recorded result of the protected function. */
  datatype Outcome = Outcome(failed: bool, at: nat)

  const FRESH := Breaker(Closed, 0, 0)

  /** The critical section of recordResult. */
  function Record(cfg: Config, b: Breaker, failed: bool, now: nat): Breaker
  {
    if failed then
      Breaker(if b.failures + 1 >= cfg.maxFailures then Open else b.phase, b.failures + 1, now)
    else
      Breaker(if b.phase == HalfOpen then Closed else b.phase, 0, b.lastFailure)
  }

  /** The guard of handleOpen's critical section: may a trial call go through? */
  predicate TrialAllowed(cfg: Config, b: Breaker, now: nat)
  {
    now - b.lastFailure > cfg.resetTimeout
  }

  // ---------------------------------------------------------------------
  // What the recorded history says, without reference to the breaker
  // ---------------------------------------------------------------------

  /** Exactly the last `n` recorded results are failures. */
  ghost predicate IsTrailingRun(log: seq<Outcome>, n: nat)
  {
    && n <= |log|
    && (forall i :: |log| - n <= i < |log| ==> log[i].failed)
    && (n < |log| ==> !log[|log| - n - 1].failed)
  }

  /** The latest recorded failure happened at `t`. */
  ghost predicate IsLatestFailure(log: seq<Outcome>, t: nat)
  {
    exists i ::
      && 0 <= i < |log| && log[i].failed && log[i].at == t
      && forall j :: i < j < |log| ==> !log[j].failed
  }

  ghost predicate HasFailure(log: seq<Outcome>)
  {
    exists i :: 0 <= i < |log| && log[i].failed
  }

  /** A history has only one trailing run of failures. */
  lemma TrailingRunUnique(log: seq<Outcome>, m: nat, n: nat)
    requires IsTrailingRun(log, m) && IsTrailingRun(log, n)
    ensures m == n
  {
  }

  lemma LatestFailureUnique(log: seq<Outcome>, t: nat, u: nat)
    requires IsLatestFailure(log, t) && IsLatestFailure(log, u)
    ensures t == u
  {
  }

  lemma LatestFailureAfter(log: seq<Outcome>, t: nat, o: Outcome)
    requires o.failed || IsLatestFailure(log, t)
    ensures IsLatestFailure(log + [o], if o.failed then o.at else t)
  {
    var log' := log + [o];
    if o.failed {
      assert log'[|log|].failed;
    } else {
      var i :| && 0 <= i < |log| && log[i].failed && log[i].at == t
               && forall j :: i < j < |log| ==> !log[j].failed;
      assert log'[i].failed;
    }
  }

  // ---------------------------------------------------------------------
  // Interleaved calls
  // ---------------------------------------------------------------------

  /** Where a call stands: it read Open and has not yet taken handleOpen's lock, or it
      is running the user function and will record a result. */
  datatype CallPc = SawOpen | Running

  datatype System = System(b: Breaker, calls: map<nat, CallPc>, now: nat, log: seq<Outcome>)

  datatype Event =
    | Tick(dt: nat)
    | Begin(c: nat)
    | TryOpen(c: nat)
    | Finish(c: nat, failed: bool)

  const INITIAL := System(FRESH, map[], 0, [])

  predicate Enabled(s: System, e: Event)
  {
    match e
    case Tick(_) => true
    case Begin(c) => c !in s.calls
    case TryOpen(c) => c in s.calls && s.calls[c] == SawOpen
    case Finish(c, _) => c in s.calls && s.calls[c] == Running
  }

  function Apply(cfg: Config, s: System, e: Event): System
    requires Enabled(s, e)
  {
    match e
    case Tick(dt) => s.(now := s.now + dt)
    case Begin(c) => s.(calls := s.calls[c := if s.b.phase == Open then SawOpen else Running])
    case TryOpen(c) =>
      if TrialAllowed(cfg, s.b, s.now)
      then s.(b := s.b.(phase := HalfOpen), calls := s.calls[c := Running])
      else s.(calls := s.calls - {c})
    case Finish(c, failed) =>
      System(Record(cfg, s.b, failed, s.now), s.calls - {c}, s.now, s.log + [Outcome(failed, s.now)])
  }

  /** `events` can happen, in this order, from `s`. */
  predicate Legal(cfg: Config, s: System, events: seq<Event>)
    decreases |events|
  {
    events == [] || (Enabled(s, events[0]) && Legal(cfg, Apply(cfg, s, events[0]), events[1..]))
  }

  function Final(cfg: Config, s: System, events: seq<Event>): System
    requires Legal(cfg, s, events)
    decreases |events|
  {
    if events == [] then s else Final(cfg, Apply(cfg, s, events[0]), events[1..])
  }

  ghost predicate Inv(cfg: Config, s: System)
  {
    && IsTrailingRun(s.log, s.b.failures)
    && (forall i :: 0 <= i < |s.log| ==> s.log[i].at <= s.now)
    && (HasFailure(s.log) ==> IsLatestFailure(s.log, s.b.lastFailure))
    && (cfg.maxFailures >= 1 && s.b.phase == Closed ==> s.b.failures < cfg.maxFailures)
    && (s.b.phase == Open ==> HasFailure(s.log))
    && (forall c :: c in s.calls && s.calls[c] == SawOpen ==> HasFailure(s.log))
  }

  lemma RecordKeepsInv(cfg: Config, s: System, c: nat, failed: bool)
    requires Inv(cfg, s) && Enabled(s, Finish(c, failed))
    ensures Inv(cfg, Apply(cfg, s, Finish(c, failed)))
  {
    var s' := Apply(cfg, s, Finish(c, failed));
    var o := Outcome(failed, s.now);
    assert s'.log == s.log + [o];
    if HasFailure(s.log) || failed {
      LatestFailureAfter(s.log, s.b.lastFailure, o);
    }
    if HasFailure(s.log) {
      var i :| 0 <= i < |s.log| && s.log[i].failed;
      assert s'.log[i].failed;
    } else if failed {
      assert s'.log[|s.log|].failed;
    }
    forall i | 0 <= i < |s'.log|
      ensures s'.log[i].at <= s'.now && (i < |s.log| ==> s'.log[i] == s.log[i])
    {
    }
  }

  lemma StepKeepsInv(cfg: Config, s: System, e: Event)
    requires Inv(cfg, s) && Enabled(s, e)
    ensures Inv(cfg, Apply(cfg, s, e))
  {
    match e
    case Tick(_) =>
    case Begin(_) =>
    case TryOpen(_) =>
    case Finish(c, failed) => RecordKeepsInv(cfg, s, c, failed);
  }

  lemma {:induction false} RunKeepsInv(cfg: Config, s: System, events: seq<Event>)
    requires Inv(cfg, s) && Legal(cfg, s, events)
    ensures Inv(cfg, Final(cfg, s, events))
    decreases |events|
  {
    if events != [] {
      StepKeepsInv(cfg, s, events[0]);
      RunKeepsInv(cfg, Apply(cfg, s, events[0]), events[1..]);
    }
  }

  /** Main result, interleaved: after any run, `failures` counts the failures recorded
      since the last recorded success, a closed breaker is below its threshold, and
      whatever step comes next leaves Open only for HalfOpen, and only when more than
      resetTimeout has passed since the latest recorded failure. */
  lemma InterleavedBreaker(cfg: Config, events: seq<Event>, e: Event)
    requires cfg.maxFailures >= 1
    requires Legal(cfg, INITIAL, events) && Enabled(Final(cfg, INITIAL, events), e)
    ensures
      var s := Final(cfg, INITIAL, events);
      var s' := Apply(cfg, s, e);
      && IsTrailingRun(s.log, s.b.failures)
      && (s.b.phase == Closed ==> s.b.failures < cfg.maxFailures)
      && (s.b.phase == Open && s'.b.phase != Open ==>
            && s'.b.phase == HalfOpen
            && exists t :: IsLatestFailure(s.log, t) && s.now - t > cfg.resetTimeout)
  {
    RunKeepsInv(cfg, INITIAL, events);
    var s := Final(cfg, INITIAL, events);
    var s' := Apply(cfg, s, e);
    if s.b.phase == Open && s'.b.phase != Open {
      assert e.TryOpen?;
      assert IsLatestFailure(s.log, s.b.lastFailure);
    }
  }

  /** Main result, interleaved: what each step of each call does after any run, told by the
      history alone. A call that read Open goes through, half-opening the breaker, if and only
      if its moment is more than resetTimeout after the latest recorded failure; otherwise it
      is rejected and the breaker stays as it is. A failure opens the breaker if and only if
      it is at least the maxFailures-th in a row, and a success closes a half-open one. */
  lemma StepAnswers(cfg: Config, events: seq<Event>, e: Event, n: nat)
    requires Legal(cfg, INITIAL, events) && Enabled(Final(cfg, INITIAL, events), e)
    requires IsTrailingRun(Final(cfg, INITIAL, events).log, n)
    ensures
      var s := Final(cfg, INITIAL, events);
      var s' := Apply(cfg, s, e);
      match e
      case Tick(dt) => s' == s.(now := s.now + dt)
      case Begin(c) =>
        && s'.b == s.b && s'.log == s.log && s'.now == s.now
        && s'.calls == s.calls[c := if s.b.phase == Open then SawOpen else Running]
      case TryOpen(c) =>
        && s'.log == s.log && s'.now == s.now
        && exists f :: IsLatestFailure(s.log, f) && TrialTaken(s, c, s', s.now - f > cfg.resetTimeout)
      case Finish(c, failed) =>
        && s'.calls == s.calls - {c} && s'.now == s.now && s'.log == s.log + [Outcome(failed, s.now)]
        && (failed ==> s'.b.phase == if n + 1 >= cfg.maxFailures then Open else s.b.phase)
        && (!failed ==> s'.b.phase == if s.b.phase == HalfOpen then Closed else s.b.phase)
  {
    RunKeepsInv(cfg, INITIAL, events);
    var s := Final(cfg, INITIAL, events);
    TrailingRunUnique(s.log, n, s.b.failures);
    match e
    case Tick(_) =>
    case Begin(_) =>
    case Finish(_, _) =>
    case TryOpen(c) =>
      assert IsLatestFailure(s.log, s.b.lastFailure);
      assert TrialTaken(s, c, Apply(cfg, s, e), s.now - s.b.lastFailure > cfg.resetTimeout);
  }

  /** Call c becomes a running trial of a half-open breaker, or is turned away. */
  predicate TrialTaken(s: System, c: nat, s': System, taken: bool)
  {
    if taken then s'.b == s.b.(phase := HalfOpen) && s'.calls == s.calls[c := Running]
    else s'.b == s.b && s'.calls == s.calls - {c}
  }

  // ---------------------------------------------------------------------
  // When half-open means that the threshold was reached
  // ---------------------------------------------------------------------

  /** The events lead from s to s' with at most K calls in flight all the way. */
  predicate Leads(cfg: Config, K: nat, s: System, events: seq<Event>, s': System)
    decreases |events|
  {
    && |s.calls| <= K
    && if events == [] then s == s'
       else Enabled(s, events[0]) && Leads(cfg, K, Apply(cfg, s, events[0]), events[1..], s')
  }

  lemma Then(cfg: Config, K: nat, s: System, e: Event, events: seq<Event>, s': System)
    requires |s.calls| <= K && Enabled(s, e) && Leads(cfg, K, Apply(cfg, s, e), events, s')
    ensures Leads(cfg, K, s, [e] + events, s')
  {
    assert ([e] + events)[1..] == events;
  }

  lemma {:induction false} Chain(cfg: Config, K: nat, s: System, es: seq<Event>, m: System, fs: seq<Event>, s': System)
    requires Leads(cfg, K, s, es, m) && Leads(cfg, K, m, fs, s')
    ensures Leads(cfg, K, s, es + fs, s')
    decreases |es|
  {
    hide Apply, Enabled;
    if es == [] {
      assert es + fs == fs;
    } else {
      Chain(cfg, K, Apply(cfg, s, es[0]), es[1..], m, fs, s');
      assert (es + fs)[1..] == es[1..] + fs;
    }
  }

  /** A run is one whose overlap is bounded by something. */
  lemma {:induction false} LeadsIsRun(cfg: Config, K: nat, s: System, events: seq<Event>, s': System)
    requires Leads(cfg, K, s, events, s')
    ensures Legal(cfg, s, events) && Final(cfg, s, events) == s'
    decreases |events|
  {
    hide Apply, Enabled;
    if events != [] {
      LeadsIsRun(cfg, K, Apply(cfg, s, events[0]), events[1..], s');
    }
  }

  ghost predicate HalfOpenMeansThreshold(cfg: Config, K: nat)
  {
    forall events, s :: Leads(cfg, K, INITIAL, events, s) && s.b.phase == HalfOpen ==> s.b.failures >= cfg.maxFailures
  }

  /** What a lone call keeps: away from Closed the threshold is reached, a call has read Open
      exactly while the breaker is open, and half-open lasts as long as its trial. */
  ghost predicate AloneInv(cfg: Config, s: System)
  {
    && (s.b.phase == Closed <==> s.b.failures < cfg.maxFailures)
    && (s.b.phase == HalfOpen ==> s.calls != map[])
    && forall c :: c in s.calls ==> (s.calls[c] == SawOpen <==> s.b.phase == Open)
  }

  lemma OnlyCall(s: System, c: nat)
    requires |s.calls| <= 1 && c in s.calls
    ensures s.calls.Keys == {c}
  {
    assert |s.calls.Keys - {c}| == 0;
  }

  lemma StepKeepsAlone(cfg: Config, s: System, e: Event)
    requires cfg.maxFailures >= 1 && AloneInv(cfg, s) && |s.calls| <= 1
    requires Enabled(s, e) && |Apply(cfg, s, e).calls| <= 1
    ensures AloneInv(cfg, Apply(cfg, s, e))
  {
    var s' := Apply(cfg, s, e);
    match e
    case Tick(_) =>
    case Begin(c) => OnlyCall(s', c);
    case TryOpen(c) => OnlyCall(s, c);
    case Finish(c, _) => OnlyCall(s, c);
  }

  lemma {:induction false} RunKeepsAlone(cfg: Config, K: nat, s: System, events: seq<Event>, s': System)
    requires cfg.maxFailures >= 1 && K <= 1 && AloneInv(cfg, s) && Leads(cfg, K, s, events, s')
    ensures AloneInv(cfg, s')
    decreases |events|
  {
    if events != [] {
      StepKeepsAlone(cfg, s, events[0]);
      hide Apply, Enabled, AloneInv;
      RunKeepsAlone(cfg, K, Apply(cfg, s, events[0]), events[1..], s');
    }
  }

  /** With call 0 (if any) open in the background, calls that fail one after the other open
      the breaker. */
  lemma {:induction false} FailuresOpen(cfg: Config, s: System) returns (events: seq<Event>, s': System)
    requires s.b.phase == Closed && s.b.failures < cfg.maxFailures && s.calls.Keys <= {0}
    ensures Leads(cfg, 2, s, events, s')
    ensures s'.calls == s.calls && s'.now == s.now && s'.b == Breaker(Open, s'.b.failures, s.now)
    ensures s'.b.failures >= cfg.maxFailures
    decreases cfg.maxFailures - s.b.failures
  {
    var s1 := Apply(cfg, s, Begin(1));
    var s2 := Apply(cfg, s1, Finish(1, true));
    assert s1.calls.Keys <= {0, 1};
    SizeAtMost(s.calls, {0});
    SizeAtMost(s1.calls, {0, 1});
    assert s2.calls == s.calls;
    if s2.b.phase == Open {
      events, s' := [], s2;
    } else {
      events, s' := FailuresOpen(cfg, s2);
    }
    Then(cfg, 2, s1, Finish(1, true), events, s');
    Then(cfg, 2, s, Begin(1), [Finish(1, true)] + events, s');
    events := [Begin(1)] + ([Finish(1, true)] + events);
  }

  lemma SizeAtMost(calls: map<nat, CallPc>, keys: set<nat>)
    requires calls.Keys <= keys
    ensures |calls| <= |keys|
  {
    SubsetSize(calls.Keys, keys);
  }

  /** An open breaker with nothing in flight half-opens after the timeout, keeping its count. */
  lemma OpenThenTrial(cfg: Config, s: System) returns (events: seq<Event>, s': System)
    requires s.b.phase == Open && s.b.lastFailure <= s.now && s.calls == map[]
    ensures Leads(cfg, 2, s, events, s') && s'.b == s.b.(phase := HalfOpen)
  {
    var wait := Tick(cfg.resetTimeout + 1);
    var s1 := Apply(cfg, s, wait);
    var s2 := Apply(cfg, s1, Begin(2));
    s' := Apply(cfg, s2, TryOpen(2));
    assert s2.calls == map[2 := SawOpen] && s'.calls == map[2 := Running];
    assert Leads(cfg, 2, s', [], s');
    Then(cfg, 2, s2, TryOpen(2), [], s');
    Then(cfg, 2, s1, Begin(2), [TryOpen(2)] + [], s');
    Then(cfg, 2, s, wait, [Begin(2)] + ([TryOpen(2)] + []), s');
    events := [wait] + ([Begin(2)] + ([TryOpen(2)] + []));
  }

  /** First way to fail, with two calls in flight: one call is open while others fail, and its
      late success resets the count of the open breaker, which half-opens at zero. */
  lemma LateSuccessResetsOpen(cfg: Config) returns (events: seq<Event>, s': System)
    requires cfg.maxFailures >= 1
    ensures Leads(cfg, 2, INITIAL, events, s') && s'.b.phase == HalfOpen && s'.b.failures == 0
  {
    var s1 := Apply(cfg, INITIAL, Begin(0));
    assert s1.calls == map[0 := Running];
    var e1, s2 := FailuresOpen(cfg, s1);
    var s3 := Apply(cfg, s2, Finish(0, false));
    assert s3.calls == map[] && s3.b == Breaker(Open, 0, s3.now);
    var e3, s4 := OpenThenTrial(cfg, s3);
    s' := s4;
    Then(cfg, 2, s2, Finish(0, false), e3, s');
    Chain(cfg, 2, s1, e1, s2, [Finish(0, false)] + e3, s');
    Then(cfg, 2, INITIAL, Begin(0), e1 + ([Finish(0, false)] + e3), s');
    events := [Begin(0)] + (e1 + ([Finish(0, false)] + e3));
  }

  /** Second way, also with two: both read Open, the first trial succeeds and closes the
      breaker, and the second half-opens it again because handleOpen does not look at the state. */
  lemma LateTrialReopensClosed(cfg: Config) returns (events: seq<Event>, s': System)
    requires cfg.maxFailures >= 1
    ensures Leads(cfg, 2, INITIAL, events, s') && s'.b.phase == HalfOpen && s'.b.failures == 0
  {
    var e1, s1 := FailuresOpen(cfg, INITIAL);
    assert s1.calls == map[];
    var e2, s2 := TwoTrials(cfg, s1);
    Chain(cfg, 2, INITIAL, e1, s1, e2, s2);
    events, s' := e1 + e2, s2;
  }

  lemma TwoTrials(cfg: Config, s: System) returns (events: seq<Event>, s': System)
    requires s.b.phase == Open && s.b.lastFailure <= s.now && s.calls == map[]
    ensures Leads(cfg, 2, s, events, s') && s'.b == Breaker(HalfOpen, 0, s.b.lastFailure)
  {
    var wait := Tick(cfg.resetTimeout + 1);
    var s1 := Apply(cfg, s, wait);
    var s2 := Apply(cfg, s1, Begin(0));
    var s3 := Apply(cfg, s2, Begin(1));
    assert s2.calls == map[0 := SawOpen] && s3.calls == map[0 := SawOpen, 1 := SawOpen];
    var e4, s4 := FirstClosesSecondReopens(cfg, s3);
    s' := s4;
    Then(cfg, 2, s2, Begin(1), e4, s');
    Then(cfg, 2, s1, Begin(0), [Begin(1)] + e4, s');
    Then(cfg, 2, s, wait, [Begin(0)] + ([Begin(1)] + e4), s');
    events := [wait] + ([Begin(0)] + ([Begin(1)] + e4));
  }

  lemma FirstClosesSecondReopens(cfg: Config, s: System) returns (events: seq<Event>, s': System)
    requires TrialAllowed(cfg, s.b, s.now) && s.calls == map[0 := SawOpen, 1 := SawOpen]
    ensures Leads(cfg, 2, s, events, s') && s'.b == Breaker(HalfOpen, 0, s.b.lastFailure)
  {
    var s1 := Apply(cfg, s, TryOpen(0));
    var s2 := Apply(cfg, s1, Finish(0, false));
    s' := Apply(cfg, s2, TryOpen(1));
    assert s1.calls == map[0 := Running, 1 := SawOpen];
    assert s2.calls == map[1 := SawOpen] && s'.calls == map[1 := Running];
    assert Leads(cfg, 2, s', [], s');
    Then(cfg, 2, s2, TryOpen(1), [], s');
    Then(cfg, 2, s1, Finish(0, false), [TryOpen(1)] + [], s');
    Then(cfg, 2, s, TryOpen(0), [Finish(0, false)] + ([TryOpen(1)] + []), s');
    events := [TryOpen(0)] + ([Finish(0, false)] + ([TryOpen(1)] + []));
  }

  lemma {:induction false} WiderLeads(cfg: Config, K: nat, L: nat, s: System, events: seq<Event>, s': System)
    requires K <= L && Leads(cfg, K, s, events, s')
    ensures Leads(cfg, L, s, events, s')
    decreases |events|
  {
    hide Apply, Enabled;
    if events != [] {
      WiderLeads(cfg, K, L, Apply(cfg, s, events[0]), events[1..], s');
    }
  }

  /** Main result: on all runs with at most K calls in flight, half-open means that the
      threshold was reached, if and only if K is at most one (or the threshold is not positive). */
  lemma HalfOpenMeansThresholdIff(cfg: Config, K: nat)
    ensures HalfOpenMeansThreshold(cfg, K) <==> K <= 1 || cfg.maxFailures <= 0
  {
    hide Leads, Apply, Enabled;
    if cfg.maxFailures >= 1 && K <= 1 {
      forall events, s | Leads(cfg, K, INITIAL, events, s) && s.b.phase == HalfOpen
        ensures s.b.failures >= cfg.maxFailures
      {
        RunKeepsAlone(cfg, K, INITIAL, events, s);
      }
    } else if cfg.maxFailures >= 1 {
      var events, s := LateSuccessResetsOpen(cfg);
      WiderLeads(cfg, 2, K, INITIAL, events, s);
    }
  }

  // ---------------------------------------------------------------------
  // Calls that do not overlap
  // ---------------------------------------------------------------------

  /** A call that starts at `begin`; if it is let through, the protected function ends
      at `end` with the given result. */
  datatype Request = Request(begin: nat, failed: bool, end: nat)

  datatype Sequential = Sequential(b: Breaker, log: seq<Outcome>)

  predicate LetThrough(cfg: Config, b: Breaker, c: Request)
  {
    b.phase == Open ==> TrialAllowed(cfg, b, c.begin)
  }

  /** Call, run to completion before the next one starts. */
  function Perform(cfg: Config, q: Sequential, c: Request): Sequential
  {
    if LetThrough(cfg, q.b, c) then
      var b := if q.b.phase == Open then q.b.(phase := HalfOpen) else q.b;
      Sequential(Record(cfg, b, c.failed, c.end), q.log + [Outcome(c.failed, c.end)])
    else q
  }

  function PerformAll(cfg: Config, q: Sequential, calls: seq<Request>): Sequential
    decreases |calls|
  {
    if calls == [] then q else PerformAll(cfg, Perform(cfg, q, calls[0]), calls[1..])
  }

  /** Each call starts no earlier than the previous one ended. */
  predicate NonOverlapping(from: nat, calls: seq<Request>)
    decreases |calls|
  {
    calls == [] ||
    (from <= calls[0].begin <= calls[0].end && NonOverlapping(calls[0].end, calls[1..]))
  }

  /** One call run alone, as a run of the interleaved system. */
  lemma PerformIsRun(cfg: Config, s: System, call: Request) returns (events: seq<Event>, s': System)
    requires s.calls == map[] && s.now <= call.begin <= call.end
    ensures Leads(cfg, 1, s, events, s') && s'.calls == map[] && s'.now == call.end
    ensures Sequential(s'.b, s'.log) == Perform(cfg, Sequential(s.b, s.log), call)
  {
    var s0 := Apply(cfg, s, Tick(call.begin - s.now));
    var s1 := Apply(cfg, s0, Begin(0));
    assert s1.calls == map[0 := if s.b.phase == Open then SawOpen else Running];
    var more, last := CallEnds(cfg, s1, call);
    s' := last;
    Then(cfg, 1, s0, Begin(0), more, s');
    Then(cfg, 1, s, Tick(call.begin - s.now), [Begin(0)] + more, s');
    events := [Tick(call.begin - s.now)] + ([Begin(0)] + more);
  }

  lemma CallEnds(cfg: Config, s: System, call: Request) returns (events: seq<Event>, s': System)
    requires s.calls == map[0 := if s.b.phase == Open then SawOpen else Running]
    requires s.now == call.begin <= call.end
    ensures Leads(cfg, 1, s, events, s') && s'.calls == map[] && s'.now == call.end
    ensures Sequential(s'.b, s'.log) == Perform(cfg, Sequential(s.b, s.log), call)
  {
    if s.b.phase != Open {
      events, s' := FunctionEnds(cfg, s, call);
    } else {
      var s1 := Apply(cfg, s, TryOpen(0));
      if TrialAllowed(cfg, s.b, s.now) {
        assert s1.calls == map[0 := Running];
        events, s' := FunctionEnds(cfg, s1, call);
      } else {
        s' := Apply(cfg, s1, Tick(call.end - s.now));
        assert s'.calls == map[] && Leads(cfg, 1, s', [], s');
        events := [Tick(call.end - s.now)] + [];
        Then(cfg, 1, s1, Tick(call.end - s.now), [], s');
      }
      Then(cfg, 1, s, TryOpen(0), events, s');
      events := [TryOpen(0)] + events;
    }
  }

  lemma FunctionEnds(cfg: Config, s: System, call: Request) returns (events: seq<Event>, s': System)
    requires s.calls == map[0 := Running] && s.now == call.begin <= call.end
    ensures Leads(cfg, 1, s, events, s') && s'.calls == map[] && s'.now == call.end
    ensures s'.b == Record(cfg, s.b, call.failed, call.end) && s'.log == s.log + [Outcome(call.failed, call.end)]
  {
    var s1 := Apply(cfg, s, Tick(call.end - s.now));
    s' := Apply(cfg, s1, Finish(0, call.failed));
    assert s'.calls == map[] && Leads(cfg, 1, s', [], s');
    Then(cfg, 1, s1, Finish(0, call.failed), [], s');
    Then(cfg, 1, s, Tick(call.end - s.now), [Finish(0, call.failed)] + [], s');
    events := [Tick(call.end - s.now)] + ([Finish(0, call.failed)] + []);
  }

  /** Main result: every list of calls that do not overlap is a run of the interleaved system,
      with at most one call in flight, that ends in the same breaker and history. */
  lemma {:induction false} PerformAllIsRun(cfg: Config, s: System, calls: seq<Request>)
      returns (events: seq<Event>, s': System)
    requires s.calls == map[] && NonOverlapping(s.now, calls)
    ensures Leads(cfg, 1, s, events, s') && s'.calls == map[]
    ensures Sequential(s'.b, s'.log) == PerformAll(cfg, Sequential(s.b, s.log), calls)
    decreases |calls|
  {
    if calls == [] {
      events, s' := [], s;
    } else {
      var e1, s1 := PerformIsRun(cfg, s, calls[0]);
      var e2, s2 := PerformAllIsRun(cfg, s1, calls[1..]);
      Chain(cfg, 1, s, e1, s1, e2, s2);
      events, s' := e1 + e2, s2;
    }
  }

  ghost predicate SequentialInv(cfg: Config, q: Sequential)
  {
    && IsTrailingRun(q.log, q.b.failures)
    && q.b.phase == (if q.b.failures >= cfg.maxFailures then Open else Closed)
    && (q.b.failures > 0 ==> IsLatestFailure(q.log, q.b.lastFailure))
  }

  lemma PerformKeepsInv(cfg: Config, q: Sequential, c: Request)
    requires cfg.maxFailures >= 1 && SequentialInv(cfg, q)
    ensures SequentialInv(cfg, Perform(cfg, q, c))
  {
    var q' := Perform(cfg, q, c);
    if LetThrough(cfg, q.b, c) {
      assert q'.log == q.log + [Outcome(c.failed, c.end)];
      assert forall i :: 0 <= i < |q.log| ==> q'.log[i] == q.log[i];
      if c.failed {
        LatestFailureAfter(q.log, c.end, Outcome(c.failed, c.end));
      }
    }
  }

  lemma {:induction false} PerformAllKeepsInv(cfg: Config, q: Sequential, calls: seq<Request>)
    requires cfg.maxFailures >= 1 && SequentialInv(cfg, q)
    ensures SequentialInv(cfg, PerformAll(cfg, q, calls))
    decreases |calls|
  {
    if calls != [] {
      PerformKeepsInv(cfg, q, calls[0]);
      PerformAllKeepsInv(cfg, Perform(cfg, q, calls[0]), calls[1..]);
    }
  }

  /** Main result, sequential: between calls the breaker is open exactly when the
      executed calls so far end in at least maxFailures failures, and closed otherwise. */
  lemma OpenIffTrailingFailures(cfg: Config, calls: seq<Request>, n: nat)
    requires cfg.maxFailures >= 1
    requires IsTrailingRun(PerformAll(cfg, Sequential(FRESH, []), calls).log, n)
    ensures
      var b := PerformAll(cfg, Sequential(FRESH, []), calls).b;
      b.phase == (if n >= cfg.maxFailures then Open else Closed)
  {
    PerformAllKeepsInv(cfg, Sequential(FRESH, []), calls);
    var q := PerformAll(cfg, Sequential(FRESH, []), calls);
    TrailingRunUnique(q.log, n, q.b.failures);
  }

  lemma {:induction false} PerformAllThenOne(cfg: Config, q: Sequential, calls: seq<Request>, c: Request)
    ensures PerformAll(cfg, q, calls + [c]) == Perform(cfg, PerformAll(cfg, q, calls), c)
    decreases |calls|
  {
    hide Perform;
    if calls == [] {
      assert (calls + [c])[1..] == [];
    } else {
      assert (calls + [c])[1..] == calls[1..] + [c];
      PerformAllThenOne(cfg, Perform(cfg, q, calls[0]), calls[1..], c);
    }
  }

  /** Main result, sequential: the next call is executed, and its result recorded, if and only
      if fewer than maxFailures failures in a row precede it or it begins more than resetTimeout
      after the latest of them; nothing is recorded of a rejected call. */
  lemma ExecutedIff(cfg: Config, calls: seq<Request>, c: Request, n: nat, f: nat)
    requires cfg.maxFailures >= 1
    requires
      var log := PerformAll(cfg, Sequential(FRESH, []), calls).log;
      IsTrailingRun(log, n) && (n > 0 ==> IsLatestFailure(log, f))
    ensures
      var log := PerformAll(cfg, Sequential(FRESH, []), calls).log;
      PerformAll(cfg, Sequential(FRESH, []), calls + [c]).log
      == if n < cfg.maxFailures || c.begin - f > cfg.resetTimeout then log + [Outcome(c.failed, c.end)] else log
  {
    PerformAllKeepsInv(cfg, Sequential(FRESH, []), calls);
    PerformAllThenOne(cfg, Sequential(FRESH, []), calls, c);
    var q := PerformAll(cfg, Sequential(FRESH, []), calls);
    TrailingRunUnique(q.log, n, q.b.failures);
    if n > 0 {
      LatestFailureUnique(q.log, f, q.b.lastFailure);
    }
  }

  /** How many of `calls` are executed rather than rejected. */
  function Executed(cfg: Config, b: Breaker, calls: seq<Request>): nat
    decreases |calls|
  {
    if calls == [] then 0
    else
      (if LetThrough(cfg, b, calls[0]) then 1 else 0)
      + Executed(cfg, Perform(cfg, Sequential(b, []), calls[0]).b, calls[1..])
  }

  predicate OnlyFailures(calls: seq<Request>, until: nat)
  {
    forall i :: 0 <= i < |calls| ==> calls[i].failed && calls[i].begin <= until
  }

  /** An open breaker executes one trial per elapsed timeout. */
  lemma {:induction false} OpenExecutes(cfg: Config, b: Breaker, from: nat, until: nat, calls: seq<Request>)
    requires b.phase == Open && b.failures >= cfg.maxFailures
    requires NonOverlapping(from, calls) && OnlyFailures(calls, until)
    ensures Executed(cfg, b, calls) <= Whole(until - b.lastFailure, cfg.resetTimeout + 1)
    decreases |calls|
  {
    if calls != [] {
      var c := calls[0];
      var rest := calls[1..];
      assert c.failed && c.begin <= until;
      assert OnlyFailures(rest, until);
      if LetThrough(cfg, b, c) {
        var b' := Breaker(Open, b.failures + 1, c.end);
        assert Perform(cfg, Sequential(b, []), c).b == b';
        OpenExecutes(cfg, b', c.end, until, rest);
        WholeMonotone(until - c.end, until - b.lastFailure - (cfg.resetTimeout + 1), cfg.resetTimeout + 1);
      } else {
        OpenExecutes(cfg, b, c.end, until, rest);
      }
    }
  }

  /** However long ago the last failure was, only the first trial is free. */
  lemma {:induction false} OpenExecutesFrom(cfg: Config, b: Breaker, from: nat, until: nat, calls: seq<Request>)
    requires b.phase == Open && b.failures >= cfg.maxFailures
    requires NonOverlapping(from, calls) && OnlyFailures(calls, until)
    ensures Executed(cfg, b, calls) <= 1 + Whole(until - from, cfg.resetTimeout + 1)
    decreases |calls|
  {
    if calls != [] {
      var c := calls[0];
      var rest := calls[1..];
      assert c.failed && c.begin <= until;
      assert OnlyFailures(rest, until);
      WholeMonotone(until - c.end, until - from, cfg.resetTimeout + 1);
      if LetThrough(cfg, b, c) {
        var b' := Breaker(Open, b.failures + 1, c.end);
        assert Perform(cfg, Sequential(b, []), c).b == b';
        OpenExecutes(cfg, b', c.end, until, rest);
      } else {
        OpenExecutesFrom(cfg, b, c.end, until, rest);
      }
    }
  }

  lemma {:induction false} ClosedExecutes(cfg: Config, b: Breaker, from: nat, until: nat, calls: seq<Request>)
    requires b.phase == Closed && b.failures < cfg.maxFailures
    requires NonOverlapping(from, calls) && OnlyFailures(calls, until)
    ensures Executed(cfg, b, calls) <= cfg.maxFailures - b.failures + Whole(until - from, cfg.resetTimeout + 1)
    decreases |calls|
  {
    if calls != [] {
      var c := calls[0];
      var rest := calls[1..];
      assert c.failed && c.begin <= until;
      assert OnlyFailures(rest, until);
      var b' := Perform(cfg, Sequential(b, []), c).b;
      assert b'.failures == b.failures + 1 && b'.lastFailure == c.end;
      WholeMonotone(until - c.end, until - from, cfg.resetTimeout + 1);
      if b'.phase == Open {
        OpenExecutes(cfg, b', c.end, until, rest);
      } else {
        ClosedExecutes(cfg, b', c.end, until, rest);
      }
    }
  }

  /** The same of the interleaved system itself: on every run with at most one call in flight,
      between calls the breaker is open exactly when its history ends in at least maxFailures
      failures, and closed otherwise. */
  lemma AloneOpenIffTrailingFailures(cfg: Config, events: seq<Event>, s: System, n: nat)
    requires cfg.maxFailures >= 1 && Leads(cfg, 1, INITIAL, events, s) && s.calls == map[]
    requires IsTrailingRun(s.log, n)
    ensures s.b.phase == (if n >= cfg.maxFailures then Open else Closed)
  {
    hide Leads, Legal, Final, Apply, Enabled;
    RunKeepsAlone(cfg, 1, INITIAL, events, s);
    LeadsIsRun(cfg, 1, INITIAL, events, s);
    RunKeepsInv(cfg, INITIAL, events);
    TrailingRunUnique(s.log, n, s.b.failures);
  }

  /** Main result, sequential: whatever happened before, while only failures come back a
      stretch of length T executes at most maxFailures + floor(T / (resetTimeout + 1)) calls. */
  lemma SharpStretchBound(cfg: Config, before: seq<Request>, from: nat, T: nat, calls: seq<Request>)
    requires cfg.maxFailures >= 1
    requires NonOverlapping(from, calls) && OnlyFailures(calls, from + T)
    ensures Executed(cfg, PerformAll(cfg, Sequential(FRESH, []), before).b, calls)
         <= cfg.maxFailures + T / (cfg.resetTimeout + 1)
  {
    PerformAllKeepsInv(cfg, Sequential(FRESH, []), before);
    var b := PerformAll(cfg, Sequential(FRESH, []), before).b;
    WholeIsDiv(T, cfg.resetTimeout + 1);
    if b.phase == Open {
      OpenExecutesFrom(cfg, b, from, from + T, calls);
    } else {
      ClosedExecutes(cfg, b, from, from + T, calls);
    }
  }

  /** Main result: the bound is sharp. Some failing calls in any stretch reach it on a new breaker. */
  lemma SharpStretchReached(cfg: Config, from: nat, T: nat) returns (calls: seq<Request>)
    requires cfg.maxFailures >= 1
    ensures NonOverlapping(from, calls) && OnlyFailures(calls, from + T)
    ensures Executed(cfg, FRESH, calls) == cfg.maxFailures + T / (cfg.resetTimeout + 1)
  {
    WholeIsDiv(T, cfg.resetTimeout + 1);
    calls := FailuresFill(cfg, FRESH, from, from + T);
  }

  /** A trial as soon as each timeout has passed. */
  lemma {:induction false} TrialsFill(cfg: Config, b: Breaker, until: nat) returns (calls: seq<Request>)
    requires b.phase == Open && b.failures >= cfg.maxFailures
    ensures NonOverlapping(b.lastFailure, calls) && OnlyFailures(calls, until)
    ensures Executed(cfg, b, calls) == Whole(until - b.lastFailure, cfg.resetTimeout + 1)
    decreases until - b.lastFailure
  {
    var at := b.lastFailure + cfg.resetTimeout + 1;
    if at > until {
      calls := [];
    } else {
      var c := Request(at, true, at);
      var b' := Breaker(Open, b.failures + 1, at);
      assert Perform(cfg, Sequential(b, []), c).b == b';
      var rest := TrialsFill(cfg, b', until);
      calls := [c] + rest;
      assert calls[1..] == rest;
      assert LetThrough(cfg, b, calls[0]);
    }
  }

  /** Failures at one moment until the breaker opens, and then the trials. */
  lemma {:induction false} FailuresFill(cfg: Config, b: Breaker, at: nat, until: nat) returns (calls: seq<Request>)
    requires b.phase == Closed && b.failures < cfg.maxFailures && at <= until
    ensures NonOverlapping(at, calls) && OnlyFailures(calls, until)
    ensures Executed(cfg, b, calls) == cfg.maxFailures - b.failures + Whole(until - at, cfg.resetTimeout + 1)
    decreases cfg.maxFailures - b.failures
  {
    var c := Request(at, true, at);
    var b' := Perform(cfg, Sequential(b, []), c).b;
    assert b'.failures == b.failures + 1 && b'.lastFailure == at;
    var rest: seq<Request>;
    if b'.phase == Open {
      rest := TrialsFill(cfg, b', until);
    } else {
      rest := FailuresFill(cfg, b', at, until);
    }
    calls := [c] + rest;
    assert calls[1..] == rest;
  }

  /** The coarser bound with the timeout itself as the step. */
  lemma FailureStretchBound(cfg: Config, before: seq<Request>, from: nat, T: nat, calls: seq<Request>)
    requires cfg.maxFailures >= 1 && cfg.resetTimeout >= 1
    requires NonOverlapping(from, calls) && OnlyFailures(calls, from + T)
    ensures Executed(cfg, PerformAll(cfg, Sequential(FRESH, []), before).b, calls)
         <= cfg.maxFailures + T / cfg.resetTimeout
  {
    SharpStretchBound(cfg, before, from, T, calls);
    DivLarger(T, cfg.resetTimeout, cfg.resetTimeout + 1);
  }

  // ---------------------------------------------------------------------
  // The object
  // ---------------------------------------------------------------------

  class CircuitBreaker {
    const cfg: Config
    var phase: Phase
    var failures: nat
    var lastFailure: nat

    function View(): Breaker
      reads this
    {
      Breaker(phase, failures, lastFailure)
    }

    constructor (maxFailures: int, resetTimeout: nat)
      ensures cfg == Config(maxFailures, resetTimeout) && View() == FRESH
    {
      cfg := Config(maxFailures, resetTimeout);
      phase, failures, lastFailure := Closed, 0, 0;
    }

    method GetState() returns (p: Phase)
      ensures p == View().phase
    {
      p := phase;
    }

    /** handleOpen up to its unlock: true lets the trial call through. */
    method TryTrial(now: nat) returns (trial: bool)
      modifies this
      ensures trial <==> now - old(lastFailure) > cfg.resetTimeout
      ensures View() == if trial then old(View()).(phase := HalfOpen) else old(View())
    {
      if now - lastFailure <= cfg.resetTimeout {
        return false;
      }
      phase := HalfOpen;
      return true;
    }

    method RecordResult(failed: bool, now: nat)
      modifies this
      ensures failed ==> failures == old(failures) + 1 && lastFailure == now
      ensures failed ==> phase == if failures >= cfg.maxFailures then Open else old(phase)
      ensures !failed ==> failures == 0 && lastFailure == old(lastFailure)
      ensures !failed ==> phase == if old(phase) == HalfOpen then Closed else old(phase)
      ensures View() == Record(cfg, old(View()), failed, now)
    {
      if failed {
        failures := failures + 1;
        lastFailure := now;
        if failures >= cfg.maxFailures {
          phase := Open;
        }
        return;
      }
      if phase == HalfOpen {
        phase := Closed;
      }
      failures := 0;
    }

    /** Call with nothing else running; `begin`, `failed` and `end` are the clock at the
        start, the protected function's result and the clock when it returned. */
    method Call(begin: nat, failed: bool, end: nat) returns (executed: bool)
      modifies this
      ensures executed <==> old(phase) != Open || begin - old(lastFailure) > cfg.resetTimeout
      ensures View() == Perform(cfg, Sequential(old(View()), []), Request(begin, failed, end)).b
    {
      var p := GetState();
      if p == Open {
        executed := TryTrial(begin);
        if !executed {
          return;
        }
      }
      RecordResult(failed, end);
      executed := true;
    }
  }
}

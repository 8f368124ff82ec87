/** What holds in every run of the pool, whatever the interleaving: conservation and
    exclusivity of containers, safety of closing the idle channel, and use accounting.
 */
module DockerPoolRuns {
  import opened Common
  import opened DockerPools
  import opened DockerPoolPlaces
  import opened DockerPoolSafety
  import opened DockerPoolClose
  import opened DockerPoolCounts
  import opened DockerPoolRoom

  ghost predicate Sound(cfg: Config, s: Pool)
  {
    Shaped(s) && Conserved(s) && AllFit(cfg, s) && Calm(s) && Balanced(s) && Apt(cfg, s)
  }

  lemma NewIsSound(cfg: Config)
    ensures Sound(cfg, New())
  {
    assert forall p :: At(New(), p) == [];
    assert forall p, id :: !In(New(), p, id);
    assert UseCounts(New().vars.boxes) == map[] && Weights(New().threads) == map[];
  }

  lemma SweepFindsClosed(s: Pool, ev: Event)
    requires Calm(s) && Enabled(s, ev) && Sweeps(ev)
    ensures s.vars.closed
  {
    assert ThreadCalm(s.vars, s.threads[Actor(ev)]);
  }

  lemma SeedingIsUnused(cfg: Config, s: Pool, t: Tid)
    requires Shaped(s) && Conserved(s) && AllFit(cfg, s)
    ensures UnusedWhileSeeding(s, t)
  {
    if ThreadOf(s, t).at == Make(Seeding) {
      assert Shape(s.threads[t]);
      assert In(s, Keep(t), Hand(s.threads[t]));
    }
  }

  lemma StepKeepsSound(cfg: Config, s: Pool, ev: Event)
    requires Sound(cfg, s) && Enabled(s, ev)
    ensures Sound(cfg, Apply(cfg, s, ev))
  {
    hide Shaped, Conserved, AllFit, Calm, Balanced, Apt, Enabled, Apply, UnusedWhileSeeding, Sweeps;
    if Sweeps(ev) {
      SweepFindsClosed(s, ev);
    }
    SeedingIsUnused(cfg, s, Actor(ev));
    StepKeepsPlaces(cfg, s, ev);
    StepKeepsAllFit(cfg, s, ev);
    StepKeepsCalm(cfg, s, ev);
    StepKeepsBalanced(cfg, s, ev);
    StepKeepsApt(cfg, s, ev);
  }

  lemma {:induction false} RunIsSound(cfg: Config, events: seq<Event>)
    requires Legal(cfg, events)
    ensures Sound(cfg, Final(cfg, events))
    decreases |events|
  {
    hide Sound, Enabled, Apply;
    if events == [] {
      NewIsSound(cfg);
    } else {
      var n := |events| - 1;
      RunIsSound(cfg, events[..n]);
      StepKeepsSound(cfg, Final(cfg, events[..n]), events[n]);
    }
  }

  // ---------------------------------------------------------------------
  // Conservation and exclusivity
  // ---------------------------------------------------------------------

  /** Each created container is in exactly one place, once; nothing else is anywhere. */
  lemma InExactlyOnePlace(cfg: Config, events: seq<Event>, id: Id)
    requires Legal(cfg, events)
    ensures id in Final(cfg, events).vars.boxes <==> exists p :: In(Final(cfg, events), p, id)
    ensures forall p, q :: In(Final(cfg, events), p, id) && In(Final(cfg, events), q, id) ==> p == q
    ensures forall p :: NoRepeats(At(Final(cfg, events), p))
  {
    RunIsSound(cfg, events);
    hide Legal, Final, AllFit, Calm, Balanced, Shaped;
    assert id in Final(cfg, events).vars.boxes <==> Located(Final(cfg, events), id);
  }

  predicate Executes(s: Pool, t: Tid, id: Id)
  {
    t in s.threads && s.threads[t].role == Execution && id in s.threads[t].keep
  }

  /** No container is held by two executions, and the in-use map names exactly the containers
      that some execution holds between storing and deleting them. */
  lemma HeldByOneExecution(cfg: Config, events: seq<Event>, id: Id)
    requires Legal(cfg, events)
    ensures forall t, u :: Executes(Final(cfg, events), t, id) && Executes(Final(cfg, events), u, id) ==> t == u
    ensures id in Final(cfg, events).vars.inUse <==>
              exists t :: Executes(Final(cfg, events), t, id) && Using(Final(cfg, events).threads[t].at)
  {
    RunIsSound(cfg, events);
    var s := Final(cfg, events);
    hide Legal, Final, Calm, Balanced;
    forall t, u | Executes(s, t, id) && Executes(s, u, id) ensures t == u {
      assert In(s, Keep(t), id) && In(s, Keep(u), id);
    }
    forall t | Executes(s, t, id) && Using(s.threads[t].at) ensures id in s.vars.inUse {
      assert In(s, Keep(t), id);
    }
    if id in s.vars.inUse {
      assert Located(s, id);
      var p :| In(s, p, id);
      assert Fits(cfg, s.vars, SpotOf(s, p), id);
      assert Shape(s.threads[p.t]);
      assert Executes(s, p.t, id);
    }
  }

  /** The thread holds it only to stop it. */
  predicate Condemned(at: Point) { (at.Run? && at.x.Discarding?) || (at.Make? && at.m.Stopping?) }

  /** Handed to stop by whoever held it, swept by Shutdown, or given up by a timed-out or
      cancelled execution. */
  predicate Doomed(s: Pool, id: Id)
  {
    || id in s.stopped
    || id in s.vars.swept
    || exists t :: t in s.threads && id in s.threads[t].keep && Condemned(s.threads[t].at)
  }

  lemma DoomedIsNotIdle(cfg: Config, s: Pool, id: Id)
    requires Sound(cfg, s) && Doomed(s, id)
    ensures id !in s.idle
  {
    if id in s.stopped {
      assert In(s, Stopped, id);
    } else if id !in s.vars.swept {
      var t :| t in s.threads && id in s.threads[t].keep && Condemned(s.threads[t].at);
      assert In(s, Keep(t), id);
    }
    if id in s.idle {
      assert In(s, Idle, id);
    }
  }

  /** A condemned container's thread becomes Discard's goroutine or stops it, or panics. */
  lemma CondemnedEffect(cfg: Config, s: Pool, ev: Event)
    requires Enabled(s, ev) && Actor(ev) in s.threads && Condemned(s.threads[Actor(ev)].at)
    ensures var e := EffectOf(cfg, s, ev);
            || e.motion == Halt
            || (e.motion == Rest && e.next == Turns(Worker, Make(Stopping)) && e.spawn == None)
            || (e.motion == Rest && e.next == Goto(s.threads[Actor(ev)].at) && e.spawn == None)
  {
    match ev
    case X(x) =>
    case M(m) =>
    case T(k) =>
    case S(x) =>
  }

  lemma CondemnedStays(cfg: Config, s: Pool, ev: Event, t: Tid, id: Id)
    requires Shaped(s) && Enabled(s, ev) && t in s.threads && id in s.threads[t].keep && Condemned(s.threads[t].at)
    ensures Doomed(Apply(cfg, s, ev), id)
  {
    var s' := Apply(cfg, s, ev);
    StepTidy(cfg, s, ev);
    assert s.threads[t].keep == [id] by { assert Shape(s.threads[t]); }
    if t == Actor(ev) {
      CondemnedEffect(cfg, s, ev);
    }
    hide Enabled, EffectOf, Actor, Shape, Shaped;
    assert id in s'.stopped || (t in s'.threads && id in s'.threads[t].keep && Condemned(s'.threads[t].at));
  }

  lemma SweptStays(cfg: Config, s: Pool, ev: Event, id: Id)
    requires Sound(cfg, s) && Enabled(s, ev) && id in s.vars.swept
    ensures id in Apply(cfg, s, ev).vars.swept
  {
    StepVarsFit(cfg, s, ev);
    hide Sound, Enabled, EffectOf, Actor;
  }

  lemma StoppedStays(s: Pool, t: Tid, e: Effect, id: Id)
    requires id in s.stopped
    ensures id in Perform(s, t, e).stopped
  {
  }

  lemma DoomedStays(cfg: Config, s: Pool, ev: Event, id: Id)
    requires Sound(cfg, s) && Enabled(s, ev) && Doomed(s, id)
    ensures Doomed(Apply(cfg, s, ev), id)
  {
    hide Enabled, EffectOf, Actor, Condemned, Perform;
    if id in s.vars.swept {
      SweptStays(cfg, s, ev, id);
    } else if id in s.stopped {
      StoppedStays(s, Actor(ev), EffectOf(cfg, s, ev), id);
    } else {
      var t :| t in s.threads && id in s.threads[t].keep && Condemned(s.threads[t].at);
      CondemnedStays(cfg, s, ev, t, id);
    }
  }

  lemma SplitRun(cfg: Config, events: seq<Event>, more: seq<Event>)
    requires more != [] && Legal(cfg, events + more)
    ensures var init, last := events + more[..|more| - 1], more[|more| - 1];
            Legal(cfg, init) && Enabled(Final(cfg, init), last)
                && Final(cfg, events + more) == Apply(cfg, Final(cfg, init), last)
  {
    var all, n := events + more, |events + more| - 1;
    assert all[..n] == events + more[..|more| - 1] && all[n] == more[|more| - 1];
    hide Enabled, Apply;
  }

  /** A container handed to stop, or given up by a timed-out execution, stays so and is never
      in the idle channel again, so no later Acquire receives it. */
  lemma {:induction false} NeverAcquiredAgain(cfg: Config, events: seq<Event>, more: seq<Event>, id: Id)
    requires Legal(cfg, events) && Legal(cfg, events + more) && Doomed(Final(cfg, events), id)
    ensures Doomed(Final(cfg, events + more), id) && id !in Final(cfg, events + more).idle
    decreases |more|
  {
    RunIsSound(cfg, events + more);
    hide Legal, Final, Sound, Doomed, Enabled, Apply;
    if more == [] {
      assert events + more == events;
    } else {
      var init := events + more[..|more| - 1];
      SplitRun(cfg, events, more);
      NeverAcquiredAgain(cfg, events, more[..|more| - 1], id);
      RunIsSound(cfg, init);
      DoomedStays(cfg, Final(cfg, init), more[|more| - 1], id);
    }
    DoomedIsNotIdle(cfg, Final(cfg, events + more), id);
  }

  // ---------------------------------------------------------------------
  // Closing the idle channel
  // ---------------------------------------------------------------------

  /** A step at this point sends on or receives from the idle channel. */
  predicate UsesChannel(at: Point)
  {
    || at == Run(Sending)
    || at == Make(Pushing)
    || at == Tick(Draining)
    || at == Tick(PuttingBack)
    || at == Close(DrainIdle)
  }

  /** Once the channel is closed no worker registered with the WaitGroup, whenever it was
      registered, stands where it would use it, and a lifecycle goroutine is left only if Start
      overlapped Shutdown. No worker ever panics, Shutdown never closes a channel twice, a
      lifecycle goroutine panics only on the closed channel and only after such an overlap. */
  lemma CloseIsSafe(cfg: Config, events: seq<Event>, t: Tid)
    requires Legal(cfg, events)
    ensures var s := Final(cfg, events);
            && (s.vars.idleClosed && t in s.threads && s.threads[t].role.Worker? ==> !UsesChannel(s.threads[t].at))
            && (s.vars.idleClosed && t in s.threads && s.threads[t].role.Lifecycle? ==> s.vars.startRaced)
            && (s.vars.crash.Some? ==> Explained(s.vars, s.vars.crash.value))
  {
    RunIsSound(cfg, events);
    hide Legal, Final, Conserved, AllFit, Balanced, Shaped, Apt;
  }

  /** After Shutdown has closed the channel it is only ever drained, so once it is empty no
      Acquire receives anything in any continuation. */
  lemma {:induction false} ClosedChannelOnlyDrains(cfg: Config, events: seq<Event>, more: seq<Event>)
    requires Legal(cfg, events) && Legal(cfg, events + more) && Final(cfg, events).vars.idleClosed
    ensures Final(cfg, events + more).vars.idleClosed
    ensures IsSuffix(Final(cfg, events + more).idle, Final(cfg, events).idle)
    decreases |more|
  {
    hide Legal, Final, Enabled, Apply;
    if more == [] {
      assert events + more == events;
    } else {
      var init := events + more[..|more| - 1];
      SplitRun(cfg, events, more);
      ClosedChannelOnlyDrains(cfg, events, more[..|more| - 1]);
      RunIsSound(cfg, init);
      hide AllFit, Conserved, Calm, Balanced;
      ClosedChannelShrinks(cfg, Final(cfg, init), more[|more| - 1]);
    }
  }

  // ---------------------------------------------------------------------
  // Use accounting and code
  // ---------------------------------------------------------------------

  lemma FitsWithinUse(cfg: Config, v: Vars, spot: Spot, id: Id)
    requires Fits(cfg, v, spot, id)
    ensures UseWithin(cfg, v.boxes[id])
  {
  }

  lemma AllWithinUse(cfg: Config, s: Pool, id: Id)
    requires Conserved(s) && AllFit(cfg, s) && id in s.vars.boxes
    ensures UseWithin(cfg, s.vars.boxes[id])
  {
    hide At, SpotOf, Fits, UseWithin, NoRepeats;
    assert Located(s, id);
    var p :| In(s, p, id);
    FitsWithinUse(cfg, s.vars, SpotOf(s, p), id);
  }

  /** Idle containers have a use left, no container is used more than MaxUseCount times, and the
      counters add up to the warm starts (plus acquisitions about to count theirs). */
  lemma UsesAddUp(cfg: Config, events: seq<Event>, id: Id)
    requires Legal(cfg, events)
    ensures var s := Final(cfg, events);
            && TotalUses(s) == s.vars.warmStarts + Pending(s)
            && (cfg.maxUse > 0 && id in s.idle ==> id in s.vars.boxes && s.vars.boxes[id].useCount < cfg.maxUse)
            && (cfg.maxUse > 0 && id in s.vars.boxes ==> s.vars.boxes[id].useCount <= cfg.maxUse)
  {
    RunIsSound(cfg, events);
    var s := Final(cfg, events);
    hide Legal, Final, Calm, Shaped;
    if id in s.idle {
      assert In(s, Idle, id);
    }
    if id in s.vars.boxes {
      AllWithinUse(cfg, s, id);
    }
    hide Conserved;
  }

  /** Whatever an execution holds, and whatever it could receive, was seeded with the pool's code. */
  lemma RunsPoolCode(cfg: Config, events: seq<Event>, id: Id)
    requires Legal(cfg, events)
    ensures var s := Final(cfg, events);
            (id in s.idle || (exists t :: Executes(s, t, id))) ==>
              id in s.vars.boxes && s.vars.boxes[id].codeKey == cfg.codeKey
  {
    RunIsSound(cfg, events);
    var s := Final(cfg, events);
    hide Legal, Final, Calm, Balanced;
    if id in s.idle {
      assert In(s, Idle, id);
    } else if exists t :: Executes(s, t, id) {
      var t :| Executes(s, t, id);
      assert Shape(s.threads[t]) && In(s, Keep(t), id);
    }
  }

  // ---------------------------------------------------------------------
  // Reachable states
  // ---------------------------------------------------------------------

  ghost predicate Reachable(cfg: Config, s: Pool) { exists events :: Legal(cfg, events) && Final(cfg, events) == s }

  lemma Extend(cfg: Config, s: Pool, ev: Event)
    requires Reachable(cfg, s) && Enabled(s, ev)
    ensures Reachable(cfg, Apply(cfg, s, ev))
  {
    hide Enabled, Apply;
    var events :| Legal(cfg, events) && Final(cfg, events) == s;
    assert (events + [ev])[..|events|] == events;
    assert Legal(cfg, events + [ev]) && Final(cfg, events + [ev]) == Apply(cfg, s, ev);
  }

  lemma NewIsReachable(cfg: Config)
    ensures Reachable(cfg, New())
  {
    assert Legal(cfg, []) && Final(cfg, []) == New();
  }
}

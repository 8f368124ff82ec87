/** The use counters of all containers ever created add up to the warm starts counted, plus
    the acquisitions that have counted their use but not yet their warm start.
 */
module DockerPoolCounts {
  import opened Common
  import opened DockerPools
  import opened DockerPoolPlaces

  // ---------------------------------------------------------------------
  // Sums over maps
  // ---------------------------------------------------------------------

  ghost function Sum(m: map<nat, nat>): nat
    decreases |m|
  {
    if m == map[] then 0
    else
      var k :| k in m;
      m[k] + Sum(m - {k})
  }

  function Val(m: map<nat, nat>, k: nat): nat { if k in m then m[k] else 0 }

  lemma {:induction false} SumSplit(m: map<nat, nat>, k: nat)
    requires k in m
    ensures Sum(m) == m[k] + Sum(m - {k})
    decreases |m|
  {
    var j :| j in m && Sum(m) == m[j] + Sum(m - {j});
    if j != k {
      SumSplit(m - {j}, k);
      SumSplit(m - {k}, j);
      assert m - {j} - {k} == m - {k} - {j};
    }
  }

  /** Two maps that differ at one key at most. */
  lemma SumChange(m: map<nat, nat>, m': map<nat, nat>, k: nat)
    requires m - {k} == m' - {k}
    ensures Sum(m') + Val(m, k) == Sum(m) + Val(m', k)
  {
    if k in m { SumSplit(m, k); } else { assert m - {k} == m; }
    if k in m' { SumSplit(m', k); } else { assert m' - {k} == m'; }
  }

  // ---------------------------------------------------------------------
  // The two sums of the pool
  // ---------------------------------------------------------------------

  function UseCounts(boxes: map<Id, Box>): map<nat, nat> { map id | id in boxes :: boxes[id].useCount }

  function Weight(th: Thread): nat { if th.at == Run(Marked) then 1 else 0 }

  function Weights(threads: map<Tid, Thread>): map<nat, nat> { map t | t in threads :: Weight(threads[t]) }

  /** Acquisitions between counting the use and counting the warm start. */
  ghost function Pending(s: Pool): nat { Sum(Weights(s.threads)) }

  ghost function TotalUses(s: Pool): nat { Sum(UseCounts(s.vars.boxes)) }

  ghost predicate Balanced(s: Pool) { TotalUses(s) == s.vars.warmStarts + Pending(s) }

  function NextWeight(next: Next): nat { if next.Ends? || next.at != Run(Marked) then 0 else 1 }

  /** One box at most changes its count, by as much as the warm starts and the thread's weight. */
  predicate EffectBalanced(s: Pool, t: Tid, e: Effect)
  {
    var k := if e.motion.Gain? then e.motion.id else Hand(ThreadOf(s, t));
    var m, m' := UseCounts(s.vars.boxes), UseCounts(e.vars.boxes);
    && m - {k} == m' - {k}
    && Val(m', k) + s.vars.warmStarts + Weight(ThreadOf(s, t)) == Val(m, k) + e.vars.warmStarts + NextWeight(e.next)
  }

  predicate UnusedWhileSeeding(s: Pool, t: Tid)
  {
    ThreadOf(s, t).at == Make(Seeding) ==> BoxOf(s.vars, Hand(ThreadOf(s, t))).useCount == 0
  }

  lemma SetBoxCounts(boxes: map<Id, Box>, id: Id, b: Box)
    requires id in boxes
    ensures UseCounts(boxes[id := b]) - {id} == UseCounts(boxes) - {id}
    ensures Val(UseCounts(boxes[id := b]), id) == b.useCount && Val(UseCounts(boxes), id) == boxes[id].useCount
  {
  }

  /** Acquire counts a use where it will count a warm start; Release only notes the time. */
  lemma BoxStepBalanced(cfg: Config, s: Pool, ev: ExecEvent)
    requires ExecEnabled(s, ev) && ActorReady(s, ev.t) && (ev.Mark? || ev.Decide?)
    ensures EffectBalanced(s, ev.t, ExecEffect(cfg, s, ev))
  {
    var id := Hand(s.threads[ev.t]);
    var b := s.vars.boxes[id];
    SetBoxCounts(s.vars.boxes, id, b.(useCount := b.useCount + 1, lastUsed := ev.now));
    SetBoxCounts(s.vars.boxes, id, b.(lastUsed := ev.now));
    hide UseCounts, Val, Shape;
  }

  lemma OtherExecBalanced(cfg: Config, s: Pool, ev: ExecEvent)
    requires ExecEnabled(s, ev) && ActorReady(s, ev.t) && !ev.Mark? && !ev.Decide?
    ensures EffectBalanced(s, ev.t, ExecEffect(cfg, s, ev))
  {
    assert ExecEffect(cfg, s, ev).vars.boxes == s.vars.boxes;
    hide UseCounts, Shape;
  }

  lemma ExecBalanced(cfg: Config, s: Pool, ev: ExecEvent)
    requires ExecEnabled(s, ev) && ActorReady(s, ev.t)
    ensures EffectBalanced(s, ev.t, ExecEffect(cfg, s, ev))
  {
    hide ExecEnabled, ActorReady, EffectBalanced, ExecEffect;
    if ev.Mark? || ev.Decide? {
      BoxStepBalanced(cfg, s, ev);
    } else {
      OtherExecBalanced(cfg, s, ev);
    }
  }

  lemma MakeBalanced(cfg: Config, s: Pool, ev: MakeEvent)
    requires MakeEnabled(s, ev) && ActorReady(s, ev.t)
    requires UnusedWhileSeeding(s, ev.t)
    ensures EffectBalanced(s, ev.t, MakeEffect(cfg, s, ev))
  {
  }

  lemma TickBalanced(cfg: Config, s: Pool, ev: TickEvent)
    requires TickEnabled(s, ev) && ActorReady(s, ev.t)
    ensures EffectBalanced(s, ev.t, TickEffect(cfg, s, ev))
  {
    TickPlain(cfg, s, ev);
    hide TickEffect, TickEnabled, UseCounts;
  }

  lemma StopBalanced(s: Pool, ev: StopEvent)
    requires StopEnabled(s, ev) && ActorReady(s, ev.t)
    ensures EffectBalanced(s, ev.t, StopEffect(s, ev))
  {
    StopPlain(s, ev);
    hide StopEffect, StopEnabled, UseCounts;
  }

  lemma PendingAfter(s: Pool, t: Tid, e: Effect)
    requires Tidy(s, t, e)
    ensures Pending(Perform(s, t, e)) + Weight(ThreadOf(s, t)) == Pending(s) + NextWeight(e.next)
  {
    hide Sum, Can, Hands, IdleAfter, StoppedAfter, Shape;
    var th := ThreadOf(s, t);
    var rest := Continue(s.threads, t, Hands(s.idle, th, e.motion), e.next);
    assert Weights(s.threads) - {t} == Weights(rest) - {t};
    SumChange(Weights(s.threads), Weights(rest), t);
    if e.spawn.Some? {
      var g := e.spawn.value;
      assert Weights(rest) - {g} == Weights(Launched(rest, e.spawn)) - {g};
      SumChange(Weights(rest), Weights(Launched(rest, e.spawn)), g);
    }
  }

  lemma PerformBalanced(s: Pool, t: Tid, e: Effect)
    requires Balanced(s) && Tidy(s, t, e) && EffectBalanced(s, t, e)
    ensures Balanced(Perform(s, t, e))
  {
    hide Sum, Tidy;
    PendingAfter(s, t, e);
    var k := if e.motion.Gain? then e.motion.id else Hand(ThreadOf(s, t));
    SumChange(UseCounts(s.vars.boxes), UseCounts(e.vars.boxes), k);
  }

  lemma StepKeepsBalanced(cfg: Config, s: Pool, ev: Event)
    requires Shaped(s) && Conserved(s) && Balanced(s) && Enabled(s, ev)
    requires UnusedWhileSeeding(s, Actor(ev))
    ensures Balanced(Apply(cfg, s, ev))
  {
    ActorIsReady(s, Actor(ev));
    StepTidy(cfg, s, ev);
    hide ExecEnabled, MakeEnabled, TickEnabled, StopEnabled, ExecEffect, MakeEffect, TickEffect, StopEffect;
    hide Shaped, Conserved, Balanced, Perform, Tidy, EffectBalanced, ActorReady, UnusedWhileSeeding;
    match ev
    case X(x) => ExecBalanced(cfg, s, x); PerformBalanced(s, x.t, ExecEffect(cfg, s, x));
    case M(m) => MakeBalanced(cfg, s, m); PerformBalanced(s, m.t, MakeEffect(cfg, s, m));
    case T(k) => TickBalanced(cfg, s, k); PerformBalanced(s, k.t, TickEffect(cfg, s, k));
    case S(x) => StopBalanced(s, x); PerformBalanced(s, x.t, StopEffect(s, x));
  }
}

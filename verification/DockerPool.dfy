/** The warm-container pool of one function, as the small steps its threads take.

    Executions acquire, release and discard containers; goroutines fill the pool, tick,
    replenish and shut it down. A step is one channel operation, one critical section,
    one atomic load or one Docker call; steps of different threads interleave freely.
    Docker hands out new IDs and may fail. Touching the idle channel in a way that Go
    answers with a panic ends the run with a recorded crash.
 */
module DockerPools {
  import opened Common

  type Id = nat // container
  type Tid = nat // execution or goroutine

  datatype Config = Config(minSize: int, maxSize: nat, maxUse: int, maxIdle: int, codeKey: string)

  /** The fields of a container that the pool reads. */
  datatype Box = Box(useCount: nat, lastUsed: nat, codeKey: string)

  /** Workers and the lifecycle goroutine are registered with the WaitGroup; executions and
      callers of Start, CreateNew and Shutdown are not. */
  datatype Role = Execution | Worker | Lifecycle | Starter | Maker | Stopper

  /** Acquire, Release and Discard, as the next thing an execution does. */
  datatype ExecPoint =
    | Got         // received a container
    | Marked      // its use is counted and it is stored in inUse
    | Holding     // the warm start is counted; Acquire has returned
    | Releasing   // Release deleted it from inUse
    | Sending     // Release found the pool open
    | Retired     // Release stopped it and will start a replacement
    | Discarding  // Discard deleted it from inUse

  /** enqueueNew and its callers: replenishOne, Discard's goroutine, Start. */
  datatype MakePoint =
    | Enqueue | Creating | Seeding | Checking | Pushing
    | Replenish | Stopping
    | Fill | Launch

  /** runLifecycle and evictAndReplenish. */
  datatype TickPoint = Select | Draining | Evicting | PuttingBack | Counting | Spawning(n: nat)

  /** Shutdown; within Wait, Asleep is registered as a waiter and Woken is about to look again. */
  datatype StopPoint = CloseStop | AwaitGroup | Asleep | Woken | CloseIdle | DrainIdle | Sweep

  datatype Point = Run(x: ExecPoint) | Make(m: MakePoint) | Tick(k: TickPoint) | Close(c: StopPoint)

  /** Containers in a thread's variables: the one it works on or the tick's `keep` list,
      and the tick's `toEvict` list. */
  datatype Thread = Thread(role: Role, at: Point, keep: seq<Id>, evict: seq<Id>)

  datatype Cause = ClosedChannel | WaitGroup

  datatype Crash = Crash(role: Role, cause: Cause)

  datatype Vars = Vars(
    boxes: map<Id, Box>, // every container Docker created for the pool
    inUse: set<Id>,
    swept: set<Id>,      // stopped by Shutdown while in use
    closed: bool,
    stopClosed: bool,    // stopCh is closed
    waiters: bool,       // Shutdown sleeps in the WaitGroup's Wait
    waited: bool,        // Shutdown's Wait has returned
    idleClosed: bool,
    warmStarts: nat,
    startRaced: bool,    // Start and Shutdown have overlapped
    crash: Option<Crash>)

  datatype Pool = Pool(
    idle: seq<Id>,
    stopped: seq<Id>, // handed to stopDockerContainer, oldest first
    threads: map<Tid, Thread>,
    vars: Vars)

  function New(): Pool { Pool([], [], map[], Vars(map[], {}, {}, false, false, false, false, false, 0, false, None)) }

  predicate Tracked(r: Role) { r.Worker? || r.Lifecycle? }

  // ---------------------------------------------------------------------
  // What a step does: containers move, the thread goes on, variables change
  // ---------------------------------------------------------------------

  datatype Motion =
    | Rest
    | Gain(id: Id) // Docker created it for the thread
    | Take         // idle -> keep
    | TakeStale    // idle -> evict
    | Give         // keep -> idle
    | Halt         // keep -> stopped
    | HaltStale    // evict -> stopped
    | HaltIdle     // idle -> stopped

  /** Where the thread goes. A caller whose last act is a `go` statement turns into the
      goroutine it leaves behind. */
  datatype Next = Ends | Goto(at: Point) | Turns(role: Role, at: Point)

  datatype Effect = Effect(motion: Motion, next: Next, vars: Vars, spawn: Option<Tid> := None)

  /** The thread, or one with empty hands about to begin. */
  function ThreadOf(s: Pool, t: Tid): Thread
  {
    if t in s.threads then s.threads[t] else Thread(Execution, Run(Got), [], [])
  }

  predicate Can(idle: seq<Id>, th: Thread, m: Motion)
  {
    match m
    case Rest => true
    case Gain(_) => true
    case Take => idle != []
    case TakeStale => idle != []
    case Give => th.keep != []
    case Halt => th.keep != []
    case HaltStale => th.evict != []
    case HaltIdle => idle != []
  }

  function Hands(idle: seq<Id>, th: Thread, m: Motion): Thread
  {
    if !Can(idle, th, m) then th
    else
      match m
      case Gain(id) => th.(keep := th.keep + [id])
      case Take => th.(keep := th.keep + [idle[0]])
      case TakeStale => th.(evict := th.evict + [idle[0]])
      case Give => th.(keep := th.keep[1..])
      case Halt => th.(keep := th.keep[1..])
      case HaltStale => th.(evict := th.evict[1..])
      case _ => th
  }

  function IdleAfter(idle: seq<Id>, th: Thread, m: Motion): seq<Id>
  {
    if !Can(idle, th, m) then idle
    else if m.Take? || m.TakeStale? || m.HaltIdle? then idle[1..]
    else if m.Give? then idle + [th.keep[0]]
    else idle
  }

  function StoppedAfter(idle: seq<Id>, stopped: seq<Id>, th: Thread, m: Motion): seq<Id>
  {
    if !Can(idle, th, m) then stopped
    else if m.Halt? then stopped + [th.keep[0]]
    else if m.HaltStale? then stopped + [th.evict[0]]
    else if m.HaltIdle? then stopped + [idle[0]]
    else stopped
  }

  function Continue(threads: map<Tid, Thread>, t: Tid, th: Thread, next: Next): map<Tid, Thread>
  {
    match next
    case Ends => threads - {t}
    case Goto(at) => threads[t := th.(at := at)]
    case Turns(role, at) => threads[t := th.(role := role, at := at)]
  }

  function Launched(threads: map<Tid, Thread>, spawn: Option<Tid>): map<Tid, Thread>
  {
    if spawn.None? then threads else threads[spawn.value := Thread(Worker, Make(Enqueue), [], [])]
  }

  function Perform(s: Pool, t: Tid, e: Effect): Pool
  {
    var th := ThreadOf(s, t);
    Pool(IdleAfter(s.idle, th, e.motion), StoppedAfter(s.idle, s.stopped, th, e.motion),
         Launched(Continue(s.threads, t, Hands(s.idle, th, e.motion), e.next), e.spawn), e.vars)
  }

  function Hand(th: Thread): Id { if th.keep == [] then 0 else th.keep[0] }

  function BoxOf(v: Vars, id: Id): Box { if id in v.boxes then v.boxes[id] else Box(0, 0, "") }

  function SetBox(v: Vars, id: Id, b: Box): Vars { v.(boxes := v.boxes[id := b]) }

  /** Go ends the process: a send on or a nil from the closed idle channel, a channel closed
      twice, or a WaitGroup used again while its Wait is not done. */
  function Panic(s: Pool, th: Thread, cause: Cause): Effect
  {
    Effect(Rest, Goto(th.at), s.vars.(crash := Some(Crash(th.role, cause))))
  }

  /** A non-blocking send on the open idle channel. It is taken if there is room, or if the
      channel is empty and a receiver waits; otherwise the container is stopped. */
  function Offer(cfg: Config, s: Pool, waiting: bool): Motion
  {
    if |s.idle| < cfg.maxSize || (waiting && s.idle == []) then Give else Halt
  }

  /** The WaitGroup's counter is zero. */
  predicate NoneTracked(s: Pool) { forall h :: h in s.threads ==> !Tracked(s.threads[h].role) }

  /** The WaitGroup's Add followed by a go statement. An Add that finds the counter at zero before
      the waiter was let go panics. */
  function Register(s: Pool, th: Thread, role: Role, at: Point): Effect
  {
    if s.vars.waiters && NoneTracked(s) then Panic(s, th, WaitGroup) else Effect(Rest, Turns(role, at), s.vars)
  }

  // ---------------------------------------------------------------------
  // Executions: Acquire, Release, Discard
  // ---------------------------------------------------------------------

  datatype ExecEvent =
    | Receive(t: Tid)
    | Mark(t: Tid, now: nat)
    | CountWarm(t: Tid)
    | BeginRelease(t: Tid)  // the execution ended by itself
    | BeginDiscard(t: Tid)  // it timed out or was cancelled
    | Decide(t: Tid, now: nat, stopOk: bool)
    | Push(t: Tid, waiting: bool)
    | Respawn(t: Tid)
    | SpawnDiscard(t: Tid)

  predicate Runs(s: Pool, t: Tid) { t in s.threads && s.threads[t].at.Run? }

  predicate ExecEnabled(s: Pool, ev: ExecEvent)
  {
    match ev
    case Receive(t) => t !in s.threads && s.idle != []
    case Mark(t, _) => Runs(s, t) && s.threads[t].at.x.Got?
    case CountWarm(t) => Runs(s, t) && s.threads[t].at.x.Marked?
    case BeginRelease(t) => Runs(s, t) && s.threads[t].at.x.Holding?
    case BeginDiscard(t) => Runs(s, t) && s.threads[t].at.x.Holding?
    case Decide(t, _, _) => Runs(s, t) && s.threads[t].at.x.Releasing?
    case Push(t, _) => Runs(s, t) && s.threads[t].at.x.Sending?
    case Respawn(t) => Runs(s, t) && s.threads[t].at.x.Retired?
    case SpawnDiscard(t) => Runs(s, t) && s.threads[t].at.x.Discarding?
  }

  predicate UsedUp(cfg: Config, b: Box) { cfg.maxUse > 0 && b.useCount >= cfg.maxUse }

  function ExecEffect(cfg: Config, s: Pool, ev: ExecEvent): Effect
  {
    var v, th := s.vars, ThreadOf(s, ev.t);
    var id := Hand(th);
    var b := BoxOf(v, id);
    match ev
    case Receive(t) => Effect(Take, Turns(Execution, Run(Got)), v)
    case Mark(t, now) =>
      Effect(Rest, Goto(Run(Marked)),
             SetBox(v, id, b.(useCount := b.useCount + 1, lastUsed := now)).(inUse := v.inUse + {id}))
    case CountWarm(t) => Effect(Rest, Goto(Run(Holding)), v.(warmStarts := v.warmStarts + 1))
    case BeginRelease(t) => Effect(Rest, Goto(Run(Releasing)), v.(inUse := v.inUse - {id}))
    case BeginDiscard(t) => Effect(Rest, Goto(Run(Discarding)), v.(inUse := v.inUse - {id}))
    case Decide(t, now, stopOk) =>
      if UsedUp(cfg, b) then Effect(Halt, if stopOk then Goto(Run(Retired)) else Ends, v)
      else if v.closed then Effect(Halt, Ends, SetBox(v, id, b.(lastUsed := now)))
      else Effect(Rest, Goto(Run(Sending)), SetBox(v, id, b.(lastUsed := now)))
    case Push(t, waiting) =>
      if v.idleClosed then Panic(s, th, ClosedChannel) else Effect(Offer(cfg, s, waiting), Ends, v)
    case Respawn(t) => Register(s, th, Worker, Make(Replenish))
    case SpawnDiscard(t) => Register(s, th, Worker, Make(Stopping))
  }

  // ---------------------------------------------------------------------
  // Making containers: enqueueNew, replenishOne, Start, CreateNew
  // ---------------------------------------------------------------------

  datatype MakeEvent =
    | BeginStart(t: Tid)
    | BeginCreateNew(t: Tid)
    | FillOne(t: Tid)
    | LaunchLifecycle(t: Tid)
    | StopDiscarded(t: Tid)
    | CheckSize(t: Tid)
    | CheckClosed(t: Tid)
    | Create(t: Tid, id: Id, ok: bool)
    | Seed(t: Tid, now: nat, ok: bool)
    | Recheck(t: Tid)
    | PushNew(t: Tid, waiting: bool)

  predicate Makes(s: Pool, t: Tid) { t in s.threads && s.threads[t].at.Make? }

  predicate MakeEnabled(s: Pool, ev: MakeEvent)
  {
    match ev
    case BeginStart(t) => t !in s.threads
    case BeginCreateNew(t) => t !in s.threads
    case FillOne(t) => Makes(s, t) && s.threads[t].at.m.Fill?
    case LaunchLifecycle(t) => Makes(s, t) && s.threads[t].at.m.Launch?
    case StopDiscarded(t) => Makes(s, t) && s.threads[t].at.m.Stopping?
    case CheckSize(t) => Makes(s, t) && s.threads[t].at.m.Replenish?
    case CheckClosed(t) => Makes(s, t) && s.threads[t].at.m.Enqueue?
    case Create(t, id, _) => Makes(s, t) && s.threads[t].at.m.Creating? && id !in s.vars.boxes
    case Seed(t, _, _) => Makes(s, t) && s.threads[t].at.m.Seeding?
    case Recheck(t) => Makes(s, t) && s.threads[t].at.m.Checking?
    case PushNew(t, _) => Makes(s, t) && s.threads[t].at.m.Pushing?
  }

  /** enqueueNew returns: Start goes on filling or gives up; everyone else is done. */
  function Return(th: Thread, ok: bool): Next
  {
    if th.role.Starter? then Goto(Make(if ok then Fill else Launch)) else Ends
  }

  function MakeEffect(cfg: Config, s: Pool, ev: MakeEvent): Effect
  {
    var v, th := s.vars, ThreadOf(s, ev.t);
    match ev
    case BeginStart(t) => Effect(Rest, Turns(Starter, Make(Fill)), v.(startRaced := v.startRaced || v.closed))
    case BeginCreateNew(t) => Effect(Rest, Turns(Maker, Make(Enqueue)), v)
    case FillOne(t) => Effect(Rest, Goto(Make(if |s.idle| < cfg.minSize then Enqueue else Launch)), v)
    case LaunchLifecycle(t) => Register(s, th, Lifecycle, Tick(Select))
    case StopDiscarded(t) => Effect(Halt, Goto(Make(Replenish)), v)
    case CheckSize(t) => Effect(Rest, if |s.idle| >= cfg.minSize then Ends else Goto(Make(Enqueue)), v)
    case CheckClosed(t) => Effect(Rest, if v.closed then Return(th, false) else Goto(Make(Creating)), v)
    case Create(t, id, ok) =>
      if ok then Effect(Gain(id), Goto(Make(Seeding)), SetBox(v, id, Box(0, 0, "")))
      else Effect(Rest, Return(th, false), v)
    case Seed(t, now, ok) =>
      if ok then Effect(Rest, Goto(Make(Checking)), SetBox(v, Hand(th), Box(0, now, cfg.codeKey)))
      else Effect(Halt, Return(th, false), v)
    case Recheck(t) =>
      if v.closed then Effect(Halt, Return(th, false), v) else Effect(Rest, Goto(Make(Pushing)), v)
    case PushNew(t, waiting) =>
      if v.idleClosed then Panic(s, th, ClosedChannel) else Effect(Offer(cfg, s, waiting), Return(th, true), v)
  }

  // ---------------------------------------------------------------------
  // The lifecycle tick: evictAndReplenish
  // ---------------------------------------------------------------------

  datatype TickEvent =
    | BeginTick(t: Tid)
    | Quit(t: Tid) // stopCh or the service context is done
    | DrainOne(t: Tid, now: nat)
    | EvictOne(t: Tid)
    | PutBackOne(t: Tid, waiting: bool)
    | CountDeficit(t: Tid)
    | SpawnOne(t: Tid, g: Tid)

  predicate Ticks(s: Pool, t: Tid) { t in s.threads && s.threads[t].at.Tick? }

  predicate TickEnabled(s: Pool, ev: TickEvent)
  {
    match ev
    case BeginTick(t) => Ticks(s, t) && s.threads[t].at.k.Select?
    case Quit(t) => Ticks(s, t) && s.threads[t].at.k.Select?
    case DrainOne(t, _) => Ticks(s, t) && s.threads[t].at.k.Draining?
    case EvictOne(t) => Ticks(s, t) && s.threads[t].at.k.Evicting?
    case PutBackOne(t, _) => Ticks(s, t) && s.threads[t].at.k.PuttingBack?
    case CountDeficit(t) => Ticks(s, t) && s.threads[t].at.k.Counting?
    case SpawnOne(t, g) => Ticks(s, t) && s.threads[t].at.k.Spawning? && g !in s.threads
  }

  predicate Fresh(cfg: Config, b: Box, now: nat) { now - b.lastUsed < cfg.maxIdle }

  function Deficit(cfg: Config, s: Pool): nat { if cfg.minSize > |s.idle| then cfg.minSize - |s.idle| else 0 }

  function TickEffect(cfg: Config, s: Pool, ev: TickEvent): Effect
    requires TickEnabled(s, ev)
  {
    var v, th := s.vars, ThreadOf(s, ev.t);
    match ev
    case BeginTick(t) => Effect(Rest, Goto(Tick(Draining)), v)
    case Quit(t) => Effect(Rest, Ends, v)
    case DrainOne(t, now) =>
      if s.idle != [] then Effect(if Fresh(cfg, BoxOf(v, s.idle[0]), now) then Take else TakeStale, Goto(th.at), v)
      else if v.idleClosed then Panic(s, th, ClosedChannel)
      else Effect(Rest, Goto(Tick(Evicting)), v)
    case EvictOne(t) =>
      if th.evict != [] then Effect(HaltStale, Goto(th.at), v) else Effect(Rest, Goto(Tick(PuttingBack)), v)
    case PutBackOne(t, waiting) =>
      if th.keep == [] then Effect(Rest, Goto(Tick(Counting)), v)
      else if v.idleClosed then Panic(s, th, ClosedChannel)
      else Effect(Offer(cfg, s, waiting), Goto(th.at), v)
    case CountDeficit(t) => Effect(Rest, Goto(Tick(Spawning(Deficit(cfg, s)))), v)
    case SpawnOne(t, g) =>
      if th.at.k.n == 0 then Effect(Rest, Goto(Tick(Select)), v)
      else Effect(Rest, Goto(Tick(Spawning(th.at.k.n - 1))), v, Some(g))
  }

  // ---------------------------------------------------------------------
  // Shutdown
  // ---------------------------------------------------------------------

  datatype StopEvent =
    | BeginShutdown(t: Tid) // the compare-and-swap
    | CloseStopCh(t: Tid)
    | WaitReturns(t: Tid) // the counter is zero
    | FallAsleep(t: Tid)  // it is not
    | WakeUp(t: Tid)      // the last Done lets the waiter go
    | Reread(t: Tid)      // the waiter looks at the counter again
    | CloseIdleCh(t: Tid)
    | DrainShutdown(t: Tid)
    | SweepOne(t: Tid, id: Id)
    | EndShutdown(t: Tid)

  predicate Closes(s: Pool, t: Tid) { t in s.threads && s.threads[t].at.Close? }

  predicate SomeRole(s: Pool, r: Role) { exists t :: t in s.threads && s.threads[t].role == r }

  predicate StopEnabled(s: Pool, ev: StopEvent)
  {
    match ev
    case BeginShutdown(t) => t !in s.threads
    case CloseStopCh(t) => Closes(s, t) && s.threads[t].at.c.CloseStop?
    case WaitReturns(t) => Closes(s, t) && s.threads[t].at.c.AwaitGroup? && NoneTracked(s)
    case FallAsleep(t) => Closes(s, t) && s.threads[t].at.c.AwaitGroup? && !NoneTracked(s)
    case WakeUp(t) => Closes(s, t) && s.threads[t].at.c.Asleep? && NoneTracked(s)
    case Reread(t) => Closes(s, t) && s.threads[t].at.c.Woken?
    case CloseIdleCh(t) => Closes(s, t) && s.threads[t].at.c.CloseIdle?
    case DrainShutdown(t) => Closes(s, t) && s.threads[t].at.c.DrainIdle? && (s.idle != [] || s.vars.idleClosed)
    case SweepOne(t, id) => Closes(s, t) && s.threads[t].at.c.Sweep? && id in s.vars.inUse
    case EndShutdown(t) => Closes(s, t) && s.threads[t].at.c.Sweep?
  }

  function StopEffect(s: Pool, ev: StopEvent): Effect
  {
    var v, th := s.vars, ThreadOf(s, ev.t);
    match ev
    case BeginShutdown(t) =>
      if v.closed then Effect(Rest, Turns(Stopper, Close(DrainIdle)), v)
      else Effect(Rest, Turns(Stopper, Close(CloseStop)),
                  v.(closed := true, startRaced := v.startRaced || SomeRole(s, Starter)))
    case CloseStopCh(t) =>
      if v.stopClosed then Panic(s, th, ClosedChannel)
      else Effect(Rest, Goto(Close(AwaitGroup)), v.(stopClosed := true))
    case WaitReturns(t) => Effect(Rest, Goto(Close(CloseIdle)), v.(waited := true))
    case FallAsleep(t) => Effect(Rest, Goto(Close(Asleep)), v.(waiters := true))
    case WakeUp(t) => Effect(Rest, Goto(Close(Woken)), v.(waiters := false))
    case Reread(t) =>
      if NoneTracked(s) then Effect(Rest, Goto(Close(CloseIdle)), v.(waited := true)) else Panic(s, th, WaitGroup)
    case CloseIdleCh(t) =>
      if v.idleClosed then Panic(s, th, ClosedChannel) else Effect(Rest, Goto(Close(DrainIdle)), v.(idleClosed := true))
    case DrainShutdown(t) =>
      if s.idle != [] then Effect(HaltIdle, Goto(th.at), v) else Effect(Rest, Goto(Close(Sweep)), v)
    case SweepOne(t, id) => Effect(Rest, Goto(th.at), v.(swept := v.swept + {id}))
    case EndShutdown(t) => Effect(Rest, Ends, v)
  }

  // ---------------------------------------------------------------------
  // Runs
  // ---------------------------------------------------------------------

  datatype Event = X(x: ExecEvent) | M(m: MakeEvent) | T(tick: TickEvent) | S(stop: StopEvent)

  function Actor(ev: Event): Tid
  {
    match ev case X(x) => x.t case M(m) => m.t case T(k) => k.t case S(x) => x.t
  }

  predicate Enabled(s: Pool, ev: Event)
  {
    && s.vars.crash.None?
    && match ev
       case X(x) => ExecEnabled(s, x)
       case M(m) => MakeEnabled(s, m)
       case T(k) => TickEnabled(s, k)
       case S(x) => StopEnabled(s, x)
  }

  function EffectOf(cfg: Config, s: Pool, ev: Event): Effect
    requires Enabled(s, ev)
  {
    match ev
    case X(x) => ExecEffect(cfg, s, x)
    case M(m) => MakeEffect(cfg, s, m)
    case T(k) => TickEffect(cfg, s, k)
    case S(x) => StopEffect(s, x)
  }

  function Apply(cfg: Config, s: Pool, ev: Event): Pool
    requires Enabled(s, ev)
  {
    Perform(s, Actor(ev), EffectOf(cfg, s, ev))
  }

  /** Runs of one pool, latest event last. */
  predicate Legal(cfg: Config, events: seq<Event>)
    decreases |events|, 0
  {
    events == [] ||
    (Legal(cfg, events[..|events| - 1]) && Enabled(Final(cfg, events[..|events| - 1]), events[|events| - 1]))
  }

  function Final(cfg: Config, events: seq<Event>): Pool
    requires Legal(cfg, events)
    decreases |events|, 1
  {
    if events == [] then New()
    else Apply(cfg, Final(cfg, events[..|events| - 1]), events[|events| - 1])
  }

  /** The events take the pool from s to s'. */
  predicate Leads(cfg: Config, s: Pool, events: seq<Event>, s': Pool)
    decreases |events|
  {
    if events == [] then s == s'
    else Enabled(s, events[0]) && Leads(cfg, Apply(cfg, s, events[0]), events[1..], s')
  }

  lemma Then(cfg: Config, s: Pool, ev: Event, events: seq<Event>, s': Pool)
    requires Enabled(s, ev) && Leads(cfg, Apply(cfg, s, ev), events, s')
    ensures Leads(cfg, s, [ev] + events, s')
  {
    hide Enabled, Apply;
    assert ([ev] + events)[1..] == events;
  }
}

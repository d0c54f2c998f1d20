/** What a run can still lead to: after a stop, another cycle starts exactly when something
    that leads there is under way. */
module Continuations {
  import opened MotionTypes
  import opened GroupBarrier
  import opened Coordination
  import opened Lockstep
  import opened StopBounds

  // ----- Going on from a world -----------------------------------------------------------------------

  /** Steps lead from one world to the other. */
  ghost predicate Leads(w: World, v: World) {
    exists path :: Path(path) && path[0] == w && path[|path| - 1] == v
  }

  /** The world is in order, and steps lead there. */
  ghost predicate Goes(w: World, v: World) { Leads(w, v) && WorldOk(v) }

  lemma GoesNowhere(w: World)
    requires WorldOk(w)
    ensures Goes(w, w)
  {
    assert forall i: nat :: StepAt([w], i);
    assert Path([w]);
  }

  lemma PathSnoc(path: seq<World>, next: World)
    requires Path(path) && Next(path[|path| - 1], next)
    ensures Path(path + [next])
  {
    forall i: nat ensures StepAt(path + [next], i) { assert StepAt(path, i); }
  }

  lemma GoesOn(w: World, v: World, next: World)
    requires Goes(w, v) && Next(v, next)
    ensures Goes(w, next)
  {
    var path :| Path(path) && path[0] == w && path[|path| - 1] == v;
    PathSnoc(path, next);
    assert (path + [next])[|path|] == next;
    StepOk(v, next);
  }

  /** A start command is out that no PC has taken up. */
  ghost predicate Startable(w: World) {
    Active(w.c) && w.c.b.state.StartScheduled? && w.c.b.triggered == map[] && w.c.b.cycle + 1 == w.starts
    && exists command :: FreshStart(w, command)
  }

  ghost predicate FreshStart(w: World, command: Command) {
    && command in w.commands && command.kind == At(StartAt) && command.cycle == w.starts
    && forall pc :: pc in w.pcs ==> command.id !in w.pcs[pc].seen
  }

  /** Nothing that says when to stop has changed. */
  ghost predicate SameBounds(c: Coordinator, d: Coordinator) {
    && d.plan == c.plan && d.b.target == c.b.target && d.b.stopAfterCycle == c.b.stopAfterCycle
    && d.b.participants == c.b.participants
  }

  /** One more start has gone out. */
  ghost predicate Began(v: World, u: World) {
    u.starts == v.starts + 1 && Startable(u) && SameBounds(v.c, u.c)
  }

  // ----- Single steps ------------------------------------------------------------------------------------

  lemma Hear(w: World, v: World, event: Event, around: Surroundings)
    requires Goes(w, v) && event in v.events
    ensures Goes(w, After(v, OnEvent(v.c, event, around)))
  {
    var next := After(v, OnEvent(v.c, event, around));
    assert CoordinatorStep(v, next);
    GoesOn(w, v, next);
  }

  lemma HearAnswer(w: World, v: World, event: Event, o: Outcome)
    requires Goes(w, v) && event in v.events && OnEvent(v.c, event, Well) == o
    ensures Goes(w, After(v, o))
  {
    Hear(w, v, event, Well);
  }

  /** An answer that sends a start. */
  ghost predicate Starts(o: Outcome) {
    StartsIn(o.1) == 1 && Active(o.0) && o.0.b.state.StartScheduled? && o.0.b.triggered == map[]
  }

  lemma StartIsFresh(v: World, o: Outcome)
    requires WorldOk(v) && Fitting(v, o) && Starts(o) && SameBounds(v.c, o.0)
    ensures Began(v, After(v, o))
  {
    var next := After(v, o);
    assert o.1[0] in next.commands;
    forall pc | pc in v.pcs ensures o.1[0].id !in v.pcs[pc].seen { assert SettledAsSeen(v, pc); }
    assert FreshStart(next, o.1[0]);
  }

  lemma HearStart(v: World, event: Event, around: Surroundings)
    requires WorldOk(v) && event in v.events && Starts(OnEvent(v.c, event, around))
    requires SameBounds(v.c, OnEvent(v.c, event, around).0)
    ensures Began(v, After(v, OnEvent(v.c, event, around)))
  {
    assert EventOk(v, event);
    EventSound(v.c, v.starts, event, around);
    EventKeeps(v.c, 0, v.starts, v.events, v.pcs.Keys, event, around);
    StartIsFresh(v, OnEvent(v.c, event, around));
  }

  lemma ClockStart(v: World, pc: Pc)
    requires WorldOk(v) && Starts(SyncAcknowledged(v.c, pc)) && SameBounds(v.c, SyncAcknowledged(v.c, pc).0)
    ensures Began(v, After(v, SyncAcknowledged(v.c, pc)))
  {
    SyncSound(v.c, v.starts, pc);
    SyncKeeps(v.c, 0, v.starts, v.events, v.pcs.Keys, pc);
    StartIsFresh(v, SyncAcknowledged(v.c, pc));
  }

  /** A PC says something, and the coordinator hears it. */
  lemma SayAndHear(w: World, v: World, event: Event, around: Surroundings) returns (said: World)
    requires Goes(w, v) && !event.MotionStarted? && !event.MotionDone? && !event.CycleInitialized?
    ensures said == v.(events := v.events + {event}) && WorldOk(said)
    ensures Goes(w, After(said, OnEvent(v.c, event, around)))
  {
    said := v.(events := v.events + {event});
    assert Chatter(v, said, event);
    GoesOn(w, v, said);
    Hear(w, said, event, around);
  }

  lemma KnowClock(w: World, v: World, pc: Pc)
    requires Goes(w, v)
    ensures Goes(w, After(v, SyncAcknowledged(v.c, pc)))
  {
    var next := After(v, SyncAcknowledged(v.c, pc));
    assert CoordinatorStep(v, next);
    GoesOn(w, v, next);
  }

  /** Some PC is missing. */
  lemma Missing(some: set<Pc>, all: set<Pc>) returns (pc: Pc)
    requires some < all
    ensures pc in all && pc !in some
    ensures all - (some + {pc}) < all - some
  {
    pc :| pc in all && pc !in some;
    assert pc in all - some && pc !in all - (some + {pc});
  }

  // ----- The clocks, then the action ---------------------------------------------------------------------

  /** The action that waited has gone out. */
  ghost predicate Acted(v: World, u: World, kind: ActionKind) {
    && NextAction(v.c.b, kind).Some? && u.c.b == NextAction(v.c.b, kind).value.0
    && u.c.sync.None? && u.c.timers == v.c.timers && SameBounds(v.c, u.c) && u.events == v.events
    && u.starts == v.starts + (if kind.StartAt? then 1 else 0)
    && (kind.StartAt? ==> Began(v, u))
  }

  /** One more clock is known. */
  lemma ClockHeard(c: Coordinator, kind: ActionKind, pc: Pc)
    requires Active(c) && c.sync == Some(kind) && NextAction(c.b, kind).Some?
    requires pc in c.b.participants && pc != c.plan.me
    ensures var (next, sent) := SyncAcknowledged(c, pc);
            || (next == c.(syncReady := c.syncReady + {pc}) && sent == [])
            || (&& next.b == NextAction(c.b, kind).value.0 && next.sync.None? && next.timers == c.timers
                && next.plan == c.plan && SameBounds(c, next)
                && if kind.StartAt? then Starts((next, sent)) else StartsIn(sent) == 0)
  {
  }

  lemma {:induction false} ClocksKnown(w: World, v: World, kind: ActionKind) returns (u: World)
    requires Goes(w, v) && Active(v.c) && v.c.sync == Some(kind) && NextAction(v.c.b, kind).Some?
    ensures Goes(w, u) && Acted(v, u, kind)
    decreases v.c.b.participants - v.c.syncReady
  {
    var pc := Missing(v.c.syncReady, v.c.b.participants);
    u := After(v, SyncAcknowledged(v.c, pc));
    KnowClock(w, v, pc);
    ClockHeard(v.c, kind, pc);
    if u.c.sync.Some? {
      u := ClocksKnown(w, u, kind);
    } else if kind.StartAt? {
      ClockStart(v, pc);
    }
  }

  // ----- From every phase to the next start ----------------------------------------------------------------

  const Well: Surroundings := Surroundings(true, true)

  /** The next start waits for the clocks. */
  ghost predicate StartWaits(c: Coordinator) {
    Active(c) && c.sync == Some(StartAt) && (c.b.state.Armed? || c.b.state.CycleReady?)
  }

  lemma FromWaiting(w: World, v: World) returns (u: World)
    requires Goes(w, v) && StartWaits(v.c)
    ensures Goes(w, u) && Began(v, u)
  {
    u := ClocksKnown(w, v, StartAt);
  }

  /** The start is out, or waits. */
  lemma StartComes(w: World, v: World, next: World) returns (u: World)
    requires Goes(w, next) && (Began(v, next) || (StartWaits(next.c) && SameBounds(v.c, next.c) && next.starts == v.starts))
    ensures Goes(w, u) && Began(v, u)
  {
    if Began(v, next) { u := next; } else { u := FromWaiting(w, next); }
  }

  /** A PC settles, if it has not done so. */
  lemma Settles(w: World, v: World, pc: Pc) returns (u: World)
    requires Goes(w, v) && Active(v.c) && v.c.b.state.CycleInitializing? && pc in v.c.b.participants
    ensures Goes(w, u) && u.c == v.c && u.starts == v.starts && CycleInitialized(pc, v.c.b.cycle) in u.events
  {
    if CycleInitialized(pc, v.c.b.cycle) in v.events {
      u := v;
    } else {
      var command :| command in v.commands && command.kind == At(CycleInitializeAt) && command.cycle == v.c.b.cycle;
      assert SettledAsSeen(v, pc);
      u := Report(v, pc, Local(Settled(command.cycle), v.pcs[pc].seen + {command.id}),
        CycleInitialized(pc, command.cycle));
      assert Settle(v, u, pc, command);
      GoesOn(w, v, u);
    }
  }

  lemma SettledHeard(c: Coordinator, pc: Pc)
    requires Active(c) && c.b.state.CycleInitializing? && pc in c.b.participants
    ensures var (next, sent) := OnEvent(c, CycleInitialized(pc, c.b.cycle), Well);
            || (next == c.(b := c.b.(initialized := c.b.initialized + {pc})) && sent == [])
            || (Starts((next, sent)) && SameBounds(c, next))
            || (StartWaits(next) && SameBounds(c, next) && sent == [])
  {
  }

  lemma {:induction false} FromSettling(w: World, v: World) returns (u: World)
    requires Goes(w, v) && Active(v.c) && v.c.b.state.CycleInitializing?
    ensures Goes(w, u) && Began(v, u)
    decreases v.c.b.participants - v.c.b.initialized
  {
    var pc := Missing(v.c.b.initialized, v.c.b.participants);
    var settled := Settles(w, v, pc);
    var next := After(settled, OnEvent(v.c, CycleInitialized(pc, v.c.b.cycle), Well));
    Hear(w, settled, CycleInitialized(pc, v.c.b.cycle), Well);
    SettledHeard(v.c, pc);
    if next.c == v.c.(b := v.c.b.(initialized := v.c.b.initialized + {pc})) && next.starts == v.starts {
      u := FromSettling(w, next);
    } else {
      if Starts(OnEvent(v.c, CycleInitialized(pc, v.c.b.cycle), Well)) {
        HearStart(settled, CycleInitialized(pc, v.c.b.cycle), Well);
      }
      u := StartComes(w, v, next);
    }
  }

  /** The PCs settle. */
  ghost predicate SettlingIn(v: World) { Active(v.c) && v.c.b.state.CycleInitializing? }

  lemma ClocksThenSettling(w: World, v: World) returns (u: World)
    requires Goes(w, v) && Active(v.c) && v.c.b.state.MotionCompleted? && v.c.sync == Some(CycleInitializeAt)
    ensures Goes(w, u) && SettlingIn(u) && SameBounds(v.c, u.c) && u.starts == v.starts
  {
    u := ClocksKnown(w, v, CycleInitializeAt);
  }

  lemma SettlingComes(w: World, v: World) returns (u: World)
    requires Goes(w, v) && Active(v.c) && SettlingNext(v.c)
    ensures Goes(w, u) && SettlingIn(u) && SameBounds(v.c, u.c) && u.starts == v.starts
  {
    u := v;
    if v.c.b.state.MotionCompleted? && v.c.timers > 0 {
      u := After(v, TimerFired(v.c, true));
      assert CoordinatorStep(v, u);
      GoesOn(w, v, u);
    }
    if u.c.b.state.MotionCompleted? {
      u := ClocksThenSettling(w, u);
    }
  }

  lemma ArmedHeard(c: Coordinator, pc: Pc)
    requires Active(c) && c.b.state.Initializing? && !c.plan.initializeOnly && Unarmed(c.b)
    requires pc in c.b.participants && pc !in c.b.armed
    ensures var (next, sent) := OnEvent(c, ArmedReport(pc, 0), Well);
            || (next == c.(b := c.b.(armed := c.b.armed + {pc})) && sent == [])
            || (Starts((next, sent)) && SameBounds(c, next))
            || (StartWaits(next) && SameBounds(c, next) && sent == [])
  {
  }

  lemma {:induction false} FromInitializing(w: World, v: World) returns (u: World)
    requires Goes(w, v) && Active(v.c) && v.c.b.state.Initializing? && !v.c.plan.initializeOnly
    ensures Goes(w, u) && Began(v, u)
    decreases v.c.b.participants - v.c.b.armed
  {
    var pc := Missing(v.c.b.armed, v.c.b.participants);
    var said := SayAndHear(w, v, ArmedReport(pc, 0), Well);
    var next := After(said, OnEvent(v.c, ArmedReport(pc, 0), Well));
    ArmedHeard(v.c, pc);
    if next.c == v.c.(b := v.c.b.(armed := v.c.b.armed + {pc})) && next.starts == v.starts {
      u := FromInitializing(w, next);
    } else {
      if Starts(OnEvent(v.c, ArmedReport(pc, 0), Well)) { HearStart(said, ArmedReport(pc, 0), Well); }
      u := StartComes(w, v, next);
    }
  }

  lemma FromReady(w: World, v: World) returns (u: World)
    requires Goes(w, v) && Active(v.c) && v.c.sync == Some(InitializeAt) && !v.c.plan.initializeOnly
    ensures Goes(w, u) && Began(v, u)
  {
    var initializing := ClocksKnown(w, v, InitializeAt);
    u := FromInitializing(w, initializing);
  }

  lemma ReadyHeard(c: Coordinator, pc: Pc)
    requires Active(c) && c.b.state.Preparing? && c.sync.None? && pc in c.b.participants && pc !in c.b.ready
    ensures var (next, sent) := OnEvent(c, ReadyReport(pc, 0), Well);
            && Active(next) && SameBounds(c, next) && StartsIn(sent) == 0
            && (|| (next.b == c.b.(ready := c.b.ready + {pc}) && (next.sync.None? || next.sync == Some(InitializeAt)))
                || next.b.state.Initializing?)
  {
  }

  lemma PreparingWaits(c: Coordinator, starts: nat)
    requires Known(c, starts) && Active(c) && c.b.state.Preparing?
    ensures c.sync.None? || c.sync == Some(InitializeAt)
  {
    if c.sync.Some? {
      match c.sync.value {
        case InitializeAt =>
        case CycleInitializeAt =>
        case StartAt =>
      }
    }
  }

  lemma {:induction false} FromPreparing(w: World, v: World) returns (u: World)
    requires Goes(w, v) && Active(v.c) && v.c.b.state.Preparing? && v.c.sync.None? && !v.c.plan.initializeOnly
    ensures Goes(w, u) && Began(v, u)
    decreases v.c.b.participants - v.c.b.ready
  {
    var pc := Missing(v.c.b.ready, v.c.b.participants);
    var said := SayAndHear(w, v, ReadyReport(pc, 0), Well);
    var next := After(said, OnEvent(v.c, ReadyReport(pc, 0), Well));
    ReadyHeard(v.c, pc);
    if next.c.b.state.Initializing? {
      u := FromInitializing(w, next);
    } else if next.c.sync.Some? {
      u := FromReady(w, next);
    } else {
      u := FromPreparing(w, next);
    }
  }

  /** Where something leads to another start, another start can come. */
  lemma AnotherStart(w: World, v: World) returns (u: World)
    requires Goes(w, v) && MayStart(v.c)
    ensures Goes(w, u) && Began(v, u)
  {
    if v.c.sync == Some(InitializeAt) && !v.c.plan.initializeOnly {
      u := FromReady(w, v);
    } else {
      match v.c.b.state {
        case CycleInitializing => u := FromSettling(w, v);
        case CycleReady => u := FromWaiting(w, v);
        case Armed => u := FromWaiting(w, v);
        case MotionCompleted =>
          u := SettlingComes(w, v);
          u := FromSettling(w, u);
        case Initializing => u := FromInitializing(w, v);
        case Preparing =>
          PreparingWaits(v.c, v.starts);
          u := FromPreparing(w, v);
      }
    }
  }

  // ----- After a stop ----------------------------------------------------------------------------------------

  ghost predicate Continues(run: seq<World>, longer: seq<World>) {
    Run(longer) && |run| <= |longer| && longer[..|run|] == run
  }

  function End(run: seq<World>): World
    requires run != []
  {
    run[|run| - 1]
  }

  /** However the run goes on, no further start goes out. */
  ghost predicate NoMoreStarts(run: seq<World>)
    requires run != []
  {
    forall longer :: Continues(run, longer) ==> End(longer).starts == End(run).starts
  }

  lemma Joined(run: seq<World>, path: seq<World>)
    requires Run(run) && Path(path) && path[0] == End(run)
    ensures Continues(run, run + path[1..]) && End(run + path[1..]) == End(path)
  {
    var longer := run + path[1..];
    forall i: nat ensures StepAt(longer, i) {
      if i + 1 < |run| {
        assert StepAt(run, i) && longer[i] == run[i] && longer[i + 1] == run[i + 1];
      } else if i + 1 < |longer| {
        var k := i + 1 - |run|;
        assert StepAt(path, k) && longer[i] == path[k] && longer[i + 1] == path[k + 1];
      }
    }
  }

  /** A run that leads to a world can be continued up to there. */
  lemma Extended(run: seq<World>, u: World) returns (longer: seq<World>)
    requires Run(run) && Goes(End(run), u)
    ensures Continues(run, longer) && End(longer) == u
  {
    var path :| Path(path) && path[0] == End(run) && path[|path| - 1] == u;
    Joined(run, path);
    longer := run + path[1..];
  }

  /** With a stop due, another start can still come if and only if something is under way
      that leads to one. */
  lemma StopDecides(run: seq<World>)
    requires Run(run) && Stopping(End(run).c)
    ensures NoMoreStarts(run) <==> !MayStart(End(run).c)
  {
    if MayStart(End(run).c) {
      RunOk(run, |run| - 1);
      GoesNowhere(End(run));
      var u := AnotherStart(End(run), End(run));
      var longer := Extended(run, u);
    } else {
      forall longer | Continues(run, longer) ensures End(longer).starts == End(run).starts {
        assert longer[|run| - 1] == longer[..|run|][|run| - 1];
        NothingMoreStarts(longer, |run| - 1, |longer| - 1);
      }
    }
  }

  function Requested(run: seq<World>): seq<World>
    requires run != []
  {
    run + [After(End(run), StopRequested(End(run).c, true))]
  }

  function Commanded(run: seq<World>): seq<World>
    requires run != []
  {
    run + [After(End(run), (StopCommanded(End(run).c), []))]
  }

  lemma StoppedRuns(run: seq<World>)
    requires Run(run)
    ensures Run(Requested(run)) && Run(Commanded(run))
  {
    assert CoordinatorStep(End(run), End(Requested(run))) && CoordinatorStep(End(run), End(Commanded(run)));
    PathSnoc(run, End(Requested(run)));
    PathSnoc(run, End(Commanded(run)));
  }

  /** What a requested stop does not hold up: PCs that settle, or are about to, and clocks
      that are asked for before the first initialization. */
  predicate Unstoppable(c: Coordinator) {
    SettlingNext(c) || (c.sync == Some(InitializeAt) && !c.plan.initializeOnly)
  }

  /** A stop that an operator requests lets no further cycle start, if and only if none of
      these is under way. */
  lemma RequestedStopDecides(run: seq<World>)
    requires Run(run) && Active(End(run).c)
    ensures Run(Requested(run))
    ensures NoMoreStarts(Requested(run)) <==> !Unstoppable(End(run).c)
  {
    StoppedRuns(run);
    StopDecides(Requested(run));
  }

  /** A stop that another PC asks for only sets the flag: it also lets a first cycle start
      that is being prepared, and a start that waits for the clocks. */
  lemma CommandedStopDecides(run: seq<World>)
    requires Run(run) && Active(End(run).c)
    ensures Run(Commanded(run))
    ensures NoMoreStarts(Commanded(run)) <==> !MayStart(End(run).c)
  {
    StoppedRuns(run);
    StopDecides(Commanded(run));
  }

  // ----- Such a stop is reached ----------------------------------------------------------------------------------

  /** The start command is out; who has reported a start has also completed the motion. */
  ghost predicate Leaving(v: World, command: Command) {
    && Active(v.c) && v.c.b.state.StartScheduled? && v.c.b.cycle + 1 == v.starts
    && command in v.commands && command.kind == At(StartAt) && command.cycle == v.starts
    && v.c.b.triggered.Keys < v.c.b.participants
    && (forall pc :: pc in v.c.b.triggered ==> LeftAndDone(v, pc))
    && (forall pc :: pc in v.pcs && pc !in v.c.b.triggered ==> command.id !in v.pcs[pc].seen)
  }

  ghost predicate LeftAndDone(v: World, pc: Pc) {
    pc in v.c.b.triggered && v.c.b.triggered[pc] == 0 && MotionDone(pc, v.starts) in v.events
  }

  lemma NoSpread(times: map<Pc, nat>)
    requires forall pc :: pc in times ==> times[pc] == 0
    ensures times != map[] ==> SpreadOf(times) == 0
  {
    SpreadIsWidest(times);
  }

  /** A PC has taken up the start, moved, and completed the motion. */
  ghost predicate Moved(v: World, u: World, pc: Pc) {
    && u.c == v.c && u.starts == v.starts && u.commands == v.commands && u.pcs.Keys == v.pcs.Keys
    && u.events == v.events + {MotionStarted(pc, v.starts, 0), MotionDone(pc, v.starts)}
    && forall q :: q in v.pcs && q != pc ==> u.pcs[q] == v.pcs[q]
  }

  lemma MovesAndCompletes(w: World, v: World, pc: Pc, command: Command) returns (u: World)
    requires Goes(w, v) && Leaving(v, command) && pc in v.c.b.participants && pc !in v.c.b.triggered
    ensures Goes(w, u) && Moved(v, u, pc)
  {
    var moving := Local(Moving(v.starts), v.pcs[pc].seen + {command.id});
    var started := Report(v, pc, moving, MotionStarted(pc, v.starts, 0));
    assert Start(v, started, pc, command, 0);
    GoesOn(w, v, started);
    u := Report(started, pc, moving.(phase := Completed(v.starts)), MotionDone(pc, v.starts));
    assert Complete(started, u, pc);
    GoesOn(w, started, u);
  }

  /** One more start is counted; with the last, the motors move. */
  function AfterStart(c: Coordinator, pc: Pc): Coordinator {
    var times := c.b.triggered[pc := 0];
    c.(b := if times.Keys >= c.b.participants
            then c.b.(triggered := times, startSpread := Some(0), cycle := c.b.cycle + 1, state := Running)
            else c.b.(triggered := times))
  }

  lemma StartedHeard(c: Coordinator, pc: Pc)
    requires Active(c) && pc in c.b.participants && Within(c.b.startSpread, MaxStartSpread)
    requires forall q :: q in c.b.triggered ==> c.b.triggered[q] == 0
    ensures OnEvent(c, MotionStarted(pc, c.b.cycle + 1, 0), Well) == (AfterStart(c, pc), [])
  {
    NoSpread(c.b.triggered[pc := 0]);
  }

  /** The motors move, and every PC has said that its motion is completed. */
  ghost predicate AllDone(v: World) {
    && Active(v.c) && v.c.b.state.Running?
    && forall pc :: pc in v.c.b.participants ==> MotionDone(pc, v.c.b.cycle) in v.events
  }

  /** The coordinator hears of a start whose PC has completed the motion since. */
  function HeardOf(v: World, moved: World, pc: Pc): World {
    After(moved, (AfterStart(v.c, pc), []))
  }

  lemma StartIsHeard(w: World, v: World, moved: World, pc: Pc, command: Command)
    requires Goes(w, moved) && Leaving(v, command) && pc in v.c.b.participants && Moved(v, moved, pc)
    ensures Goes(w, HeardOf(v, moved, pc))
  {
    forall q | q in v.c.b.triggered ensures v.c.b.triggered[q] == 0 { assert LeftAndDone(v, q); }
    StartedHeard(v.c, pc);
    HearAnswer(w, moved, MotionStarted(pc, v.starts, 0), (AfterStart(v.c, pc), []));
  }

  lemma HeardAndDone(v: World, moved: World, pc: Pc, command: Command, q: Pc)
    requires Leaving(v, command) && Moved(v, moved, pc) && q in v.c.b.triggered[pc := 0]
    ensures v.c.b.triggered[pc := 0][q] == 0 && MotionDone(q, v.starts) in HeardOf(v, moved, pc).events
  {
    assert q != pc ==> LeftAndDone(v, q);
  }

  lemma OneMoreLeft(v: World, moved: World, pc: Pc, command: Command)
    requires Leaving(v, command) && pc in v.c.b.participants && pc !in v.c.b.triggered
    requires Moved(v, moved, pc) && !(v.c.b.triggered.Keys + {pc} >= v.c.b.participants)
    ensures Leaving(HeardOf(v, moved, pc), command)
    ensures HeardOf(v, moved, pc).c.b.triggered.Keys == v.c.b.triggered.Keys + {pc}
  {
    forall q | q in v.c.b.triggered[pc := 0] ensures LeftAndDone(HeardOf(v, moved, pc), q) {
      HeardAndDone(v, moved, pc, command, q);
    }
  }

  lemma AllHaveLeft(v: World, moved: World, pc: Pc, command: Command)
    requires Leaving(v, command) && pc in v.c.b.participants
    requires Moved(v, moved, pc) && v.c.b.triggered.Keys + {pc} >= v.c.b.participants
    ensures AllDone(HeardOf(v, moved, pc)) && HeardOf(v, moved, pc).c.b.cycle == v.starts
  {
    forall q | q in v.c.b.participants ensures MotionDone(q, v.starts) in HeardOf(v, moved, pc).events {
      HeardAndDone(v, moved, pc, command, q);
    }
  }

  /** One more PC moves, completes, and is heard. */
  lemma OneMoves(w: World, v: World, pc: Pc, command: Command) returns (u: World)
    requires Goes(w, v) && Leaving(v, command) && pc in v.c.b.participants && pc !in v.c.b.triggered
    ensures Goes(w, u) && SameBounds(v.c, u.c) && u.c.b.completed == v.c.b.completed && u.starts == v.starts
    ensures || (AllDone(u) && u.c.b.cycle == v.starts)
            || (Leaving(u, command) && u.c.b.triggered.Keys == v.c.b.triggered.Keys + {pc})
  {
    var moved := MovesAndCompletes(w, v, pc, command);
    StartIsHeard(w, v, moved, pc, command);
    u := HeardOf(v, moved, pc);
    if v.c.b.triggered.Keys + {pc} >= v.c.b.participants {
      AllHaveLeft(v, moved, pc, command);
    } else {
      OneMoreLeft(v, moved, pc, command);
    }
  }

  lemma {:induction false} EveryoneMoves(w: World, v: World, command: Command) returns (u: World)
    requires Goes(w, v) && Leaving(v, command)
    ensures Goes(w, u) && AllDone(u) && u.c.b.cycle == v.starts && SameBounds(v.c, u.c)
    ensures u.c.b.completed == v.c.b.completed
    decreases v.c.b.participants - v.c.b.triggered.Keys
  {
    var pc := Missing(v.c.b.triggered.Keys, v.c.b.participants);
    u := OneMoves(w, v, pc, command);
    if !AllDone(u) {
      u := EveryoneMoves(w, u, command);
    }
  }

  /** The coordinator hears that one more PC has completed the motion, and the cycle is not
      the last. */
  lemma DoneHeard(c: Coordinator, starts: nat, pc: Pc)
    requires Known(c, starts) && Active(c) && c.b.state.Running? && pc in c.b.participants && !IsLast(c)
    ensures var (next, sent) := OnEvent(c, MotionDone(pc, c.b.cycle), Well);
            || next == c.(b := c.b.(completed := c.b.completed + {pc}))
            || (Active(next) && SettlingNext(next) && SameBounds(c, next))
  {
    MarkDoneSound(c, starts, pc, c.b.cycle);
  }

  lemma {:induction false} EveryoneIsHeard(w: World, v: World) returns (u: World)
    requires Goes(w, v) && AllDone(v) && !IsLast(v.c) && v.c.b.completed < v.c.b.participants
    ensures Goes(w, u) && Active(u.c) && SettlingNext(u.c) && SameBounds(v.c, u.c)
    decreases v.c.b.participants - v.c.b.completed
  {
    var pc := Missing(v.c.b.completed, v.c.b.participants);
    u := After(v, OnEvent(v.c, MotionDone(pc, v.c.b.cycle), Well));
    Hear(w, v, MotionDone(pc, v.c.b.cycle), Well);
    DoneHeard(v.c, v.starts, pc);
    if !Active(u.c) || !SettlingNext(u.c) {
      u := EveryoneIsHeard(w, u);
    }
  }

  lemma StartableLeaves(v: World) returns (command: Command)
    requires WorldOk(v) && Startable(v)
    ensures Leaving(v, command) && v.c.b.completed == {}
  {
    command :| FreshStart(v, command);
  }

  /** A cycle that is not the last can be played until the PCs settle. */
  lemma CyclePlays(w: World, v: World) returns (u: World)
    requires Goes(w, v) && Startable(v) && !Stopping(v.c) && (v.c.b.target > 0 ==> v.starts < v.c.b.target)
    ensures Goes(w, u) && SettlingIn(u) && SameBounds(v.c, u.c)
  {
    var command := StartableLeaves(v);
    u := EveryoneMoves(w, v, command);
    u := EveryoneIsHeard(w, u);
    u := SettlingComes(w, u);
  }

  /** A run that is to play more than one cycle. */
  ghost predicate PlaysOn(w: World) {
    Init(w) && !w.c.plan.initializeOnly && !w.c.plan.once && w.c.b.target != 1
  }

  lemma FirstWorld(w: World)
    requires PlaysOn(w)
    ensures Run([w]) && Goes(w, w) && MayStart(w.c) && !Stopping(w.c) && w.starts == 0
  {
    FirstOk(w);
    GoesNowhere(w);
    assert forall i: nat :: StepAt([w], i);
  }

  /** Any such run can come to where the PCs settle. */
  lemma SettlingIsReached(w: World) returns (run: seq<World>)
    requires PlaysOn(w)
    ensures Run(run) && run[0] == w && SettlingIn(End(run)) && !Stopping(End(run).c)
  {
    FirstWorld(w);
    var u := AnotherStart(w, w);
    u := CyclePlays(w, u);
    run := Extended([w], u);
    assert run[0] == run[..1][0];
  }

  /** So a stop can come where one more cycle starts after it, in any such run. */
  lemma StopWhileSettling(w: World) returns (run: seq<World>, longer: seq<World>)
    requires PlaysOn(w)
    ensures Run(run) && run[0] == w && SettlingIn(End(run)) && !Stopping(End(run).c)
    ensures Continues(Requested(run), longer) && End(longer).starts == End(run).starts + 1
  {
    run := SettlingIsReached(w);
    StoppedRuns(run);
    var v := End(Requested(run));
    RunOk(Requested(run), |run|);
    GoesNowhere(v);
    var u := AnotherStart(v, v);
    longer := Extended(Requested(run), u);
  }
}

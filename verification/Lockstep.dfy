/** Whole runs of a group execution: one coordinator, the PCs, and a network that delays,
    repeats, reorders and loses messages. */
module Lockstep {
  import opened MotionTypes
  import opened GroupBarrier
  import opened Coordination

  // A `limit` of 0 stands for no limit on the number of cycles.

  // ----- What the coordinator keeps ------------------------------------------------------------

  ghost predicate DoneBy(events: set<Event>, everyone: set<Pc>, cycle: nat) {
    forall q :: q in everyone ==> MotionDone(q, cycle) in events
  }

  ghost predicate SettledBy(events: set<Event>, everyone: set<Pc>, cycle: nat) {
    forall q :: q in everyone ==> CycleInitialized(q, cycle) in events
  }

  predicate Resting(state: State) { state.Stopped? || state.Releasing? || state.Failed? }

  predicate Starting(state: State) { state.Preparing? || state.Initializing? || state.Armed? }

  predicate BetweenMotions(state: State) { state.MotionCompleted? || state.CycleInitializing? || state.CycleReady? }

  /** What the phase says about the rest; `starts` counts the start commands sent so far. */
  ghost predicate Shape(c: Coordinator, starts: nat) {
    var b, s := c.b, c.b.state;
    && (starts == b.cycle + 1 ==>
          (s.StartScheduled? || Resting(s)) && c.sync.None? && c.timers == 0 && b.completed == {})
    && (s.StartScheduled? ==> starts == b.cycle + 1)
    && (Starting(s) ==> starts == 0 && c.timers == 0)
    && (s.Running? || BetweenMotions(s) ==> b.cycle >= 1)
    && (BetweenMotions(s) ==> b.completed == b.participants)
    && (s.CycleReady? ==> b.initialized == b.participants)
    && SyncShape(c, starts)
  }

  ghost predicate SyncShape(c: Coordinator, starts: nat) {
    var s := c.b.state;
    && (c.sync == Some(InitializeAt) ==> starts == 0 && (s.Preparing? || Resting(s)))
    && (c.sync == Some(StartAt) ==> s.Armed? || s.CycleReady? || Resting(s))
    && (c.sync == Some(CycleInitializeAt) || c.timers > 0 ==> c.b.cycle >= 1 && (s.MotionCompleted? || Resting(s)))
    && (c.timers == 0 || (c.timers == 1 && c.sync.None?))
  }

  /** What is counted was reported. */
  ghost predicate Evidence(b: Barrier, events: set<Event>) {
    && (forall q :: q in b.completed ==> MotionDone(q, b.cycle) in events)
    && (b.state.CycleInitializing? || b.state.CycleReady? ==>
          forall q :: q in b.initialized ==> CycleInitialized(q, b.cycle) in events)
  }

  ghost predicate Good(c: Coordinator, limit: nat, starts: nat, events: set<Event>, everyone: set<Pc>) {
    && c.b.cycle <= starts <= c.b.cycle + 1
    && (Active(c) ==> c.b.participants == everyone && Shape(c, starts) && Evidence(c.b, events))
    && (limit > 0 ==> starts <= limit && (Active(c) ==> Limited(c, limit)))
  }

  /** The coordinator is bound to stop after `limit` cycles: it was told to stop, or plays
      once, or has that target; and once there, nothing that leads to another start is
      under way. */
  ghost predicate Limited(c: Coordinator, limit: nat) {
    && (c.b.stopAfterCycle || c.plan.once || c.b.target == limit)
    && (c.b.cycle >= limit ==>
          c.sync.None? && c.timers == 0 && !c.b.state.CycleInitializing? && !c.b.state.CycleReady?)
  }

  /** One for a start command, nothing for anything else. */
  function StartsIn(commands: seq<Command>): nat {
    if commands != [] && commands[0].kind == At(StartAt) then 1 else 0
  }

  /** A start may only go out when every PC has completed and settled the cycle before;
      the settling may only begin when every PC has completed the motion. */
  ghost predicate Justified(commands: seq<Command>, starts: nat, events: set<Event>, everyone: set<Pc>) {
    && |commands| <= 1
    && (StartsIn(commands) == 1 ==>
          && commands[0].cycle == starts + 1
          && (starts > 0 ==> DoneBy(events, everyone, starts) && SettledBy(events, everyone, starts)))
    && (commands != [] && commands[0].kind == At(CycleInitializeAt) ==> DoneBy(events, everyone, commands[0].cycle))
  }

  ghost predicate GoodOutcome(
    c: Coordinator, o: Outcome, limit: nat, starts: nat, events: set<Event>, everyone: set<Pc>)
  {
    && Good(o.0, limit, starts + StartsIn(o.1), events, everyone)
    && Justified(o.1, starts, events, everyone)
    && c.nextId <= o.0.nextId
    && (o.1 != [] ==> o.1[0].id == c.nextId < o.0.nextId)
  }

  // ----- Every answer keeps it ---------------------------------------------------------------------

  lemma ReleaseKeeps(
    c: Coordinator, limit: nat, starts: nat, events: set<Event>, everyone: set<Pc>, released: bool, error: bool)
    requires Good(c, limit, starts, events, everyone)
    ensures GoodOutcome(c, EnterRelease(c, released, error), limit, starts, events, everyone)
  {
  }

  lemma GivingUpKeeps(
    c: Coordinator, limit: nat, starts: nat, events: set<Event>, everyone: set<Pc>, released: bool)
    requires Good(c, limit, starts, events, everyone)
    ensures GoodOutcome(c, PeerFailure(c), limit, starts, events, everyone)
    ensures GoodOutcome(c, Cancel(c, released), limit, starts, events, everyone)
    ensures GoodOutcome(c, BeginRelease(c, released), limit, starts, events, everyone)
  {
    ReleaseKeeps(c, limit, starts, events, everyone, released, false);
    ReleaseKeeps(c, limit, starts, events, everyone, true, true);
  }

  lemma CompleteSyncKeeps(c: Coordinator, limit: nat, starts: nat, events: set<Event>, everyone: set<Pc>)
    requires Good(c, limit, starts, events, everyone) && Active(c)
    ensures GoodOutcome(c, CompleteSync(c), limit, starts, events, everyone)
  {
    if c.sync.Some? && !(c.syncReady < c.b.participants) {
      match c.sync.value {
        case InitializeAt =>
        case CycleInitializeAt =>
        case StartAt =>
      }
    }
  }

  lemma NextStartKeeps(c: Coordinator, limit: nat, starts: nat, events: set<Event>, everyone: set<Pc>, healthy: bool)
    requires Good(c, limit, starts, events, everyone) && Active(c) && (c.b.state.Armed? || c.b.state.CycleReady?)
    ensures GoodOutcome(c, NextStart(c, healthy), limit, starts, events, everyone)
  {
    if healthy {
      CompleteSyncKeeps(c.(sync := Some(StartAt), syncReady := {c.plan.me}), limit, starts, events, everyone);
    } else {
      GivingUpKeeps(c, limit, starts, events, everyone, true);
    }
  }

  lemma NextInitializationKeeps(c: Coordinator, limit: nat, starts: nat, events: set<Event>, everyone: set<Pc>, healthy: bool)
    requires Good(c, limit, starts, events, everyone) && Active(c)
    requires limit > 0 ==> c.b.cycle < limit
    requires starts == c.b.cycle >= 1 && c.timers == 0 && (c.b.state.MotionCompleted? || Resting(c.b.state))
    ensures GoodOutcome(c, NextInitialization(c, healthy), limit, starts, events, everyone)
  {
    if healthy {
      CompleteSyncKeeps(c.(sync := Some(CycleInitializeAt), syncReady := {c.plan.me}), limit, starts, events, everyone);
    } else {
      GivingUpKeeps(c, limit, starts, events, everyone, true);
    }
  }

  lemma TimerKeeps(c: Coordinator, limit: nat, starts: nat, events: set<Event>, everyone: set<Pc>, healthy: bool)
    requires Good(c, limit, starts, events, everyone)
    ensures GoodOutcome(c, TimerFired(c, healthy), limit, starts, events, everyone)
  {
    if c.timers > 0 && Active(c) {
      NextInitializationKeeps(c.(timers := 0), limit, starts, events, everyone, healthy);
    }
  }

  lemma AcknowledgedKeeps(c: Coordinator, limit: nat, starts: nat, events: set<Event>, everyone: set<Pc>, pc: Pc, id: nat)
    requires Good(c, limit, starts, events, everyone)
    ensures Good(Acknowledged(c, pc, id), limit, starts, events, everyone)
    ensures Acknowledged(c, pc, id).b == c.b && Acknowledged(c, pc, id).nextId == c.nextId
  {
  }

  lemma ReadyKeeps(c: Coordinator, limit: nat, starts: nat, events: set<Event>, everyone: set<Pc>, pc: Pc, id: nat)
    requires Good(c, limit, starts, events, everyone) && Active(c)
    ensures GoodOutcome(c, OnReady(c, pc, id), limit, starts, events, everyone)
  {
    AcknowledgedKeeps(c, limit, starts, events, everyone, pc, id);
    var acked := Acknowledged(c, pc, id);
    var marked := MarkReady(acked.b, pc);
    if marked.Some? {
      var next := acked.(b := marked.value);
      CompleteSyncKeeps(next.(sync := Some(InitializeAt), syncReady := {c.plan.me}), limit, starts, events, everyone);
    }
  }

  lemma ArmedKeeps(
    c: Coordinator, limit: nat, starts: nat, events: set<Event>, everyone: set<Pc>, pc: Pc, at: nat, healthy: bool)
    requires Good(c, limit, starts, events, everyone) && Active(c)
    ensures GoodOutcome(c, OnArmed(c, pc, at, healthy), limit, starts, events, everyone)
  {
    var marked := MarkArmed(c.b, pc, at);
    if marked.Some? {
      var next := c.(b := marked.value);
      assert Good(next, limit, starts, events, everyone);
      if next.b.state == Armed {
        NextStartKeeps(next, limit, starts, events, everyone, healthy);
      }
    }
  }

  /** A report of a start says that its command went out, so the barrier may count the
      cycle. */
  lemma StartedKeeps(
    c: Coordinator, limit: nat, starts: nat, events: set<Event>, everyone: set<Pc>, pc: Pc, cycle: nat, at: nat)
    requires Good(c, limit, starts, events, everyone) && Active(c) && cycle <= starts
    ensures GoodOutcome(c, OnMotionStarted(c, pc, cycle, at), limit, starts, events, everyone)
  {
    var marked := MarkTriggered(c.b, pc, cycle, at);
    if marked.Some? {
      assert Good(c.(b := marked.value), limit, starts, events, everyone);
    }
  }

  /** Nothing is being synchronised while the motors move. */
  lemma RunningIsQuiet(c: Coordinator, limit: nat, starts: nat, events: set<Event>, everyone: set<Pc>)
    requires Good(c, limit, starts, events, everyone) && Active(c) && c.b.state.Running?
    ensures c.sync.None? && c.timers == 0 && starts == c.b.cycle
  {
    if c.sync.Some? {
      match c.sync.value {
        case InitializeAt =>
        case CycleInitializeAt =>
        case StartAt =>
      }
    }
  }

  lemma MarkDoneKeeps(c: Coordinator, limit: nat, starts: nat, events: set<Event>, everyone: set<Pc>, pc: Pc, cycle: nat)
    requires Good(c, limit, starts, events, everyone) && Active(c) && MotionDone(pc, cycle) in events
    requires MarkMotionCompleted(c.b, pc, cycle).Some?
    ensures Good(c.(b := MarkMotionCompleted(c.b, pc, cycle).value), limit, starts, events, everyone)
    ensures c.sync.None? && c.timers == 0 && starts == c.b.cycle
  {
    RunningIsQuiet(c, limit, starts, events, everyone);
  }

  /** Once the last PC has completed the motion. */
  lemma BarrierKeeps(
    c: Coordinator, limit: nat, starts: nat, events: set<Event>, everyone: set<Pc>, around: Surroundings)
    requires Good(c, limit, starts, events, everyone) && Active(c) && c.b.state.MotionCompleted?
    requires c.sync.None? && c.timers == 0 && starts == c.b.cycle
    requires limit > 0 && !Stopping(c) ==> c.b.cycle < limit
    ensures GoodOutcome(c, AtBarrier(c, around), limit, starts, events, everyone)
  {
    if Stopping(c) {
      GivingUpKeeps(c, limit, starts, events, everyone, around.released);
    } else if !c.plan.dwell {
      NextInitializationKeeps(c, limit, starts, events, everyone, around.healthy);
    }
  }

  lemma DoneKeeps(
    c: Coordinator, limit: nat, starts: nat, events: set<Event>, everyone: set<Pc>, pc: Pc, cycle: nat, around: Surroundings)
    requires Good(c, limit, starts, events, everyone) && Active(c) && MotionDone(pc, cycle) in events
    ensures GoodOutcome(c, OnMotionDone(c, pc, cycle, around), limit, starts, events, everyone)
  {
    var marked := MarkMotionCompleted(c.b, pc, cycle);
    if marked.Some? {
      var next := c.(b := marked.value);
      MarkDoneKeeps(c, limit, starts, events, everyone, pc, cycle);
      if next.b.state == MotionCompleted {
        BarrierKeeps(next, limit, starts, events, everyone, around);
      }
    }
  }

  lemma InitializedKeeps(
    c: Coordinator, limit: nat, starts: nat, events: set<Event>, everyone: set<Pc>, pc: Pc, cycle: nat, healthy: bool)
    requires Good(c, limit, starts, events, everyone) && Active(c) && CycleInitialized(pc, cycle) in events
    ensures GoodOutcome(c, OnCycleInitialized(c, pc, cycle, healthy), limit, starts, events, everyone)
  {
    var marked := MarkCycleInitialized(c.b, pc, cycle);
    if marked.Some? {
      var next := c.(b := marked.value);
      assert Good(next, limit, starts, events, everyone);
      if next.b.state == CycleReady {
        NextStartKeeps(next, limit, starts, events, everyone, healthy);
      }
    }
  }

  lemma StoppedKeeps(
    c: Coordinator, limit: nat, starts: nat, events: set<Event>, everyone: set<Pc>, pc: Pc, id: nat, released: bool)
    requires Good(c, limit, starts, events, everyone) && Active(c)
    ensures GoodOutcome(c, OnStopped(c, pc, id, released), limit, starts, events, everyone)
  {
    AcknowledgedKeeps(c, limit, starts, events, everyone, pc, id);
    GivingUpKeeps(c, limit, starts, events, everyone, released);
  }

  lemma RejectedKeeps(
    c: Coordinator, limit: nat, starts: nat, events: set<Event>, everyone: set<Pc>, released: bool)
    requires Good(c, limit, starts, events, everyone)
    ensures GoodOutcome(c, OnRejected(c, released), limit, starts, events, everyone)
  {
    GivingUpKeeps(c, limit, starts, events, everyone, released);
  }

  lemma ReservedKeeps(
    c: Coordinator, limit: nat, starts: nat, events: set<Event>, everyone: set<Pc>, pc: Pc, cycle: nat, id: nat)
    requires Good(c, limit, starts, events, everyone) && Active(c)
    ensures GoodOutcome(c, OnStartReserved(c, pc, cycle, id), limit, starts, events, everyone)
  {
    var marked := MarkScheduled(c.b, pc, cycle);
    if marked.Some? {
      AcknowledgedKeeps(c.(b := marked.value), limit, starts, events, everyone, pc, id);
    }
  }

  /** Reports of a PC that gets ready for its first motion. */
  predicate BeforeTheMotion(event: Event) {
    event.ReadyReport? || event.ArmedReport? || event.InitializationScheduled? || event.StartReserved?
  }

  lemma EarlyEventKeeps(
    c: Coordinator, limit: nat, starts: nat, events: set<Event>, everyone: set<Pc>, event: Event, around: Surroundings)
    requires Good(c, limit, starts, events, everyone) && Active(c) && BeforeTheMotion(event)
    ensures GoodOutcome(c, OnEvent(c, event, around), limit, starts, events, everyone)
  {
    match event {
      case ReadyReport(pc, id) => ReadyKeeps(c, limit, starts, events, everyone, pc, id);
      case ArmedReport(pc, at) => ArmedKeeps(c, limit, starts, events, everyone, pc, at, around.healthy);
      case InitializationScheduled(pc, id) => AcknowledgedKeeps(c, limit, starts, events, everyone, pc, id);
      case StartReserved(pc, cycle, id) => ReservedKeeps(c, limit, starts, events, everyone, pc, cycle, id);
    }
  }

  lemma EventKeeps(
    c: Coordinator, limit: nat, starts: nat, events: set<Event>, everyone: set<Pc>, event: Event, around: Surroundings)
    requires Good(c, limit, starts, events, everyone) && event in events
    requires event.MotionStarted? ==> event.cycle <= starts
    ensures GoodOutcome(c, OnEvent(c, event, around), limit, starts, events, everyone)
  {
    if Active(c) {
      if BeforeTheMotion(event) {
        EarlyEventKeeps(c, limit, starts, events, everyone, event, around);
      } else {
        match event {
          case Rejected(_) => RejectedKeeps(c, limit, starts, events, everyone, around.released);
          case MotionStarted(pc, cycle, at) => StartedKeeps(c, limit, starts, events, everyone, pc, cycle, at);
          case MotionDone(pc, cycle) => DoneKeeps(c, limit, starts, events, everyone, pc, cycle, around);
          case CycleInitialized(pc, cycle) => InitializedKeeps(c, limit, starts, events, everyone, pc, cycle, around.healthy);
          case StoppedReport(pc, id) => StoppedKeeps(c, limit, starts, events, everyone, pc, id, around.released);
          case Error(_) => GivingUpKeeps(c, limit, starts, events, everyone, around.released);
        }
      }
    }
  }

  lemma StopKeeps(c: Coordinator, limit: nat, starts: nat, events: set<Event>, everyone: set<Pc>, afterCycle: bool)
    requires Good(c, limit, starts, events, everyone)
    ensures GoodOutcome(c, StopRequested(c, afterCycle), limit, starts, events, everyone)
    ensures Good(StopCommanded(c), limit, starts, events, everyone)
  {
  }

  lemma SyncKeeps(c: Coordinator, limit: nat, starts: nat, events: set<Event>, everyone: set<Pc>, pc: Pc)
    requires Good(c, limit, starts, events, everyone)
    ensures GoodOutcome(c, SyncAcknowledged(c, pc), limit, starts, events, everyone)
  {
    if Active(c) {
      CompleteSyncKeeps(c.(syncReady := c.syncReady + {pc}), limit, starts, events, everyone);
    }
  }

  lemma DeadlineKeeps(
    c: Coordinator, limit: nat, starts: nat, events: set<Event>, everyone: set<Pc>, late: bool, released: bool)
    requires Good(c, limit, starts, events, everyone)
    ensures GoodOutcome(c, AckDeadline(c, late, released), limit, starts, events, everyone)
  {
    GivingUpKeeps(c, limit, starts, events, everyone, released);
  }

  // ----- Runs -----------------------------------------------------------------------------------------

  datatype Phase = Waiting | Moving(cycle: nat) | Completed(cycle: nat) | Settled(cycle: nat) | Halted

  /** A PC: what it is doing, and the commands it has taken up. */
  datatype Local = Local(phase: Phase, seen: set<nat>)

  /** The coordinator, the PCs, and every message sent so far: the network may hand any
      of them over, at any time, as often as it likes, or never.  `starts` is history. */
  datatype World = World(
    c: Coordinator, pcs: map<Pc, Local>, commands: set<Command>, events: set<Event>, starts: nat)

  ghost predicate Init(w: World) {
    && w.c == Coordinator(w.c.plan, Fresh(w.pcs.Keys, w.c.b.target), None, {}, 0, Awaiting(Prepare, 0), {}, false, 1)
    && w.pcs.Keys != {} && (forall pc :: pc in w.pcs ==> w.pcs[pc] == Local(Waiting, {}))
    && w.commands == {Command(0, Prepare, 0)} && w.events == {} && w.starts == 0
  }

  function After(w: World, o: Outcome): World {
    World(o.0, w.pcs, w.commands + (set command | command in o.1), w.events, w.starts + StartsIn(o.1))
  }

  ghost predicate CoordinatorStep(w: World, next: World) {
    || (exists event, around :: event in w.events && next == After(w, OnEvent(w.c, event, around)))
    || (exists pc :: next == After(w, SyncAcknowledged(w.c, pc)))
    || (exists healthy :: next == After(w, TimerFired(w.c, healthy)))
    || (exists afterCycle :: next == After(w, StopRequested(w.c, afterCycle)))
    || (exists late, released :: next == After(w, AckDeadline(w.c, late, released)))
    || (exists released :: next == After(w, Cancel(w.c, released)))
    || next == After(w, PeerFailure(w.c))
    || next == After(w, (StopCommanded(w.c), []))
  }

  function Report(w: World, pc: Pc, local: Local, event: Event): World {
    w.(pcs := w.pcs[pc := local], events := w.events + {event})
  }

  /** A PC takes up a start command once, and then moves. */
  ghost predicate Start(w: World, next: World, pc: Pc, command: Command, at: nat) {
    && pc in w.pcs && command in w.commands && command.kind == At(StartAt) && command.id !in w.pcs[pc].seen
    && next == Report(w, pc, Local(Moving(command.cycle), w.pcs[pc].seen + {command.id}),
                      MotionStarted(pc, command.cycle, at))
  }

  ghost predicate Complete(w: World, next: World, pc: Pc) {
    && pc in w.pcs && w.pcs[pc].phase.Moving?
    && next == Report(w, pc, w.pcs[pc].(phase := Completed(w.pcs[pc].phase.cycle)),
                      MotionDone(pc, w.pcs[pc].phase.cycle))
  }

  ghost predicate Settle(w: World, next: World, pc: Pc, command: Command) {
    && pc in w.pcs && command in w.commands && command.kind == At(CycleInitializeAt)
    && command.id !in w.pcs[pc].seen
    && next == Report(w, pc, Local(Settled(command.cycle), w.pcs[pc].seen + {command.id}),
                      CycleInitialized(pc, command.cycle))
  }

  /** Every other report may come at any time, from anyone. */
  ghost predicate Chatter(w: World, next: World, event: Event) {
    && !event.MotionStarted? && !event.MotionDone? && !event.CycleInitialized?
    && next == w.(events := w.events + {event})
  }

  /** A PC stops on its own, or on a stop command. */
  ghost predicate StopLocally(w: World, next: World, pc: Pc) {
    pc in w.pcs && next == w.(pcs := w.pcs[pc := w.pcs[pc].(phase := Halted)])
  }

  ghost predicate Next(w: World, next: World) {
    || CoordinatorStep(w, next)
    || (exists pc, command, at :: Start(w, next, pc, command, at))
    || (exists pc :: Complete(w, next, pc))
    || (exists pc, command :: Settle(w, next, pc, command))
    || (exists event :: Chatter(w, next, event))
    || (exists pc :: StopLocally(w, next, pc))
  }

  // ----- What every reachable world keeps -----------------------------------------------------------------

  /** Before any PC gets a start command, every PC had finished all earlier cycles. */
  ghost predicate History(w: World) {
    forall cycle: nat :: 1 <= cycle < w.starts ==> Finished(w, cycle)
  }

  ghost predicate Finished(w: World, cycle: nat) {
    DoneBy(w.events, w.pcs.Keys, cycle) && SettledBy(w.events, w.pcs.Keys, cycle)
  }

  ghost predicate CommandOk(w: World, command: Command) {
    && command.id < w.c.nextId
    && (command.kind == At(StartAt) ==> 1 <= command.cycle <= w.starts)
    && (command.kind == At(CycleInitializeAt) ==> DoneBy(w.events, w.pcs.Keys, command.cycle))
  }

  ghost predicate Commands(w: World) {
    forall command :: command in w.commands ==> CommandOk(w, command)
  }

  /** No cycle is started by two commands. */
  ghost predicate OneEach(w: World) {
    forall a, b :: a in w.commands && b in w.commands && a.kind == b.kind == At(StartAt) && a.cycle == b.cycle ==>
      a == b
  }

  ghost predicate EventOk(w: World, event: Event) {
    && (event.MotionStarted? ==> event.cycle <= w.starts)
    && (event.MotionDone? ==> event.cycle <= w.starts && TookUp(w, event.pc, event.cycle))
  }

  ghost predicate Events(w: World) {
    forall event :: event in w.events ==> EventOk(w, event)
  }

  /** The PC has taken up every start command of that cycle. */
  ghost predicate TookUp(w: World, pc: Pc, cycle: nat) {
    && pc in w.pcs
    && forall command :: command in w.commands && command.kind == At(StartAt) && command.cycle == cycle ==>
         command.id in w.pcs[pc].seen
  }

  ghost predicate LocalOk(w: World, pc: Pc) {
    pc in w.pcs && w.pcs[pc].phase.Moving? ==>
      var cycle := w.pcs[pc].phase.cycle;
      1 <= cycle <= w.starts && TookUp(w, pc, cycle) && MotionDone(pc, cycle) !in w.events
  }

  ghost predicate Locals(w: World) {
    forall pc :: LocalOk(w, pc)
  }

  ghost predicate Inv(w: World, limit: nat) {
    && Good(w.c, limit, w.starts, w.events, w.pcs.Keys)
    && History(w) && Commands(w) && OneEach(w) && Events(w) && Locals(w)
  }

  lemma InitKeeps(w: World, limit: nat)
    requires Init(w) && (limit > 0 ==> w.c.plan.once || w.c.b.target == limit)
    ensures Inv(w, limit)
  {
  }

  lemma AfterKeeps(w: World, o: Outcome, limit: nat)
    requires Inv(w, limit) && GoodOutcome(w.c, o, limit, w.starts, w.events, w.pcs.Keys)
    ensures Inv(After(w, o), limit)
  {
    var next := After(w, o);
    forall cycle: nat | 1 <= cycle < next.starts ensures Finished(next, cycle) {
      if cycle < w.starts { assert Finished(w, cycle); }
    }
    forall command | command in next.commands ensures CommandOk(next, command) {
      assert command in w.commands ==> CommandOk(w, command);
    }
    AfterKeepsOneEach(w, o, limit);
    AfterKeepsTaken(w, o, limit);
  }

  lemma AfterKeepsOneEach(w: World, o: Outcome, limit: nat)
    requires Inv(w, limit) && GoodOutcome(w.c, o, limit, w.starts, w.events, w.pcs.Keys)
    ensures OneEach(After(w, o))
  {
    forall command | command in w.commands ensures CommandOk(w, command) {}
  }

  /** A new start command is for a cycle that nobody has been told to start before. */
  lemma AfterKeepsTaken(w: World, o: Outcome, limit: nat)
    requires Inv(w, limit) && GoodOutcome(w.c, o, limit, w.starts, w.events, w.pcs.Keys)
    ensures Events(After(w, o)) && Locals(After(w, o))
  {
    var next := After(w, o);
    forall pc, cycle: nat | cycle <= w.starts && TookUp(w, pc, cycle) ensures TookUp(next, pc, cycle) {
    }
    forall event | event in next.events ensures EventOk(next, event) {
      assert EventOk(w, event);
    }
    forall pc ensures LocalOk(next, pc) {
      assert LocalOk(w, pc);
    }
  }

  /** A PC changes its own state and reports it. */
  lemma ReportKeeps(w: World, pc: Pc, local: Local, event: Event, limit: nat)
    requires Inv(w, limit) && pc in w.pcs && local.seen >= w.pcs[pc].seen
    requires EventOk(Report(w, pc, local, event), event) && LocalOk(Report(w, pc, local, event), pc)
    requires event.MotionDone? ==> event.pc == pc
    ensures Inv(Report(w, pc, local, event), limit)
  {
    var next := Report(w, pc, local, event);
    assert next.pcs.Keys == w.pcs.Keys;
    forall q, cycle | TookUp(w, q, cycle) ensures TookUp(next, q, cycle) {
    }
    forall cycle: nat | 1 <= cycle < next.starts ensures Finished(next, cycle) {
      assert Finished(w, cycle);
    }
    forall command | command in next.commands ensures CommandOk(next, command) {
      assert CommandOk(w, command);
    }
    forall e | e in next.events ensures EventOk(next, e) {
      assert e in w.events ==> EventOk(w, e);
    }
    forall q ensures LocalOk(next, q) {
      assert LocalOk(w, q);
    }
  }

  lemma StartKeeps(w: World, next: World, pc: Pc, command: Command, at: nat, limit: nat)
    requires Inv(w, limit) && Start(w, next, pc, command, at)
    ensures Inv(next, limit)
  {
    var cycle := command.cycle;
    assert CommandOk(w, command);
    assert MotionDone(pc, cycle) in w.events ==> EventOk(w, MotionDone(pc, cycle));
    ReportKeeps(w, pc, Local(Moving(cycle), w.pcs[pc].seen + {command.id}), MotionStarted(pc, cycle, at), limit);
  }

  lemma CompleteKeeps(w: World, next: World, pc: Pc, limit: nat)
    requires Inv(w, limit) && Complete(w, next, pc)
    ensures Inv(next, limit)
  {
    assert LocalOk(w, pc);
    var cycle := w.pcs[pc].phase.cycle;
    ReportKeeps(w, pc, w.pcs[pc].(phase := Completed(cycle)), MotionDone(pc, cycle), limit);
  }

  lemma SettleKeeps(w: World, next: World, pc: Pc, command: Command, limit: nat)
    requires Inv(w, limit) && Settle(w, next, pc, command)
    ensures Inv(next, limit)
  {
    ReportKeeps(w, pc, Local(Settled(command.cycle), w.pcs[pc].seen + {command.id}),
      CycleInitialized(pc, command.cycle), limit);
  }

  lemma ChatterKeeps(w: World, next: World, event: Event, limit: nat)
    requires Inv(w, limit) && Chatter(w, next, event)
    ensures Inv(next, limit)
  {
    forall q, cycle | TookUp(w, q, cycle) ensures TookUp(next, q, cycle) {
    }
    forall cycle: nat | 1 <= cycle < next.starts ensures Finished(next, cycle) {
      assert Finished(w, cycle);
    }
    forall command | command in next.commands ensures CommandOk(next, command) {
      assert CommandOk(w, command);
    }
    forall e | e in next.events ensures EventOk(next, e) {
      assert e in w.events ==> EventOk(w, e);
    }
    forall q ensures LocalOk(next, q) {
      assert LocalOk(w, q);
    }
  }

  lemma StopLocallyKeeps(w: World, next: World, pc: Pc, limit: nat)
    requires Inv(w, limit) && StopLocally(w, next, pc)
    ensures Inv(next, limit)
  {
    assert next.pcs.Keys == w.pcs.Keys;
    forall q, cycle | TookUp(w, q, cycle) ensures TookUp(next, q, cycle) {
    }
    forall cycle: nat | 1 <= cycle < next.starts ensures Finished(next, cycle) {
      assert Finished(w, cycle);
    }
    forall command | command in next.commands ensures CommandOk(next, command) {
      assert CommandOk(w, command);
    }
    forall e | e in next.events ensures EventOk(next, e) {
      assert EventOk(w, e);
    }
    forall q ensures LocalOk(next, q) {
      assert LocalOk(w, q);
    }
  }

  lemma CoordinatorKeeps(w: World, next: World, limit: nat)
    requires Inv(w, limit) && CoordinatorStep(w, next)
    ensures Inv(next, limit)
  {
    var everyone := w.pcs.Keys;
    if event, around :| event in w.events && next == After(w, OnEvent(w.c, event, around)) {
      assert EventOk(w, event);
      EventKeeps(w.c, limit, w.starts, w.events, everyone, event, around);
      AfterKeeps(w, OnEvent(w.c, event, around), limit);
    } else if pc :| next == After(w, SyncAcknowledged(w.c, pc)) {
      SyncKeeps(w.c, limit, w.starts, w.events, everyone, pc);
      AfterKeeps(w, SyncAcknowledged(w.c, pc), limit);
    } else if healthy :| next == After(w, TimerFired(w.c, healthy)) {
      TimerKeeps(w.c, limit, w.starts, w.events, everyone, healthy);
      AfterKeeps(w, TimerFired(w.c, healthy), limit);
    } else {
      GivingUpStepKeeps(w, next, limit);
    }
  }

  lemma GivingUpStepKeeps(w: World, next: World, limit: nat)
    requires Inv(w, limit)
    requires
      || (exists afterCycle :: next == After(w, StopRequested(w.c, afterCycle)))
      || (exists late, released :: next == After(w, AckDeadline(w.c, late, released)))
      || (exists released :: next == After(w, Cancel(w.c, released)))
      || next == After(w, PeerFailure(w.c))
      || next == After(w, (StopCommanded(w.c), []))
    ensures Inv(next, limit)
  {
    var everyone := w.pcs.Keys;
    if afterCycle :| next == After(w, StopRequested(w.c, afterCycle)) {
      StopKeeps(w.c, limit, w.starts, w.events, everyone, afterCycle);
      AfterKeeps(w, StopRequested(w.c, afterCycle), limit);
    } else if late, released :| next == After(w, AckDeadline(w.c, late, released)) {
      DeadlineKeeps(w.c, limit, w.starts, w.events, everyone, late, released);
      AfterKeeps(w, AckDeadline(w.c, late, released), limit);
    } else if released :| next == After(w, Cancel(w.c, released)) {
      GivingUpKeeps(w.c, limit, w.starts, w.events, everyone, released);
      AfterKeeps(w, Cancel(w.c, released), limit);
    } else if next == After(w, PeerFailure(w.c)) {
      GivingUpKeeps(w.c, limit, w.starts, w.events, everyone, true);
      AfterKeeps(w, PeerFailure(w.c), limit);
    } else {
      StopKeeps(w.c, limit, w.starts, w.events, everyone, true);
      AfterKeeps(w, (StopCommanded(w.c), []), limit);
    }
  }

  lemma NextKeeps(w: World, next: World, limit: nat)
    requires Inv(w, limit) && Next(w, next)
    ensures Inv(next, limit)
  {
    if CoordinatorStep(w, next) {
      CoordinatorKeeps(w, next, limit);
    } else if pc, command, at :| Start(w, next, pc, command, at) {
      StartKeeps(w, next, pc, command, at, limit);
    } else if pc :| Complete(w, next, pc) {
      CompleteKeeps(w, next, pc, limit);
    } else if pc, command :| Settle(w, next, pc, command) {
      SettleKeeps(w, next, pc, command, limit);
    } else if event :| Chatter(w, next, event) {
      ChatterKeeps(w, next, event, limit);
    } else {
      var pc :| StopLocally(w, next, pc);
      StopLocallyKeeps(w, next, pc, limit);
    }
  }

  // ----- The guarantees -----------------------------------------------------------------------------------

  ghost predicate StepAt(run: seq<World>, i: nat) {
    i + 1 < |run| ==> Next(run[i], run[i + 1])
  }

  ghost predicate Path(path: seq<World>) {
    path != [] && forall i: nat :: StepAt(path, i)
  }

  ghost predicate Run(run: seq<World>) {
    Path(run) && Init(run[0])
  }

  lemma {:induction false} RunKeeps(run: seq<World>, i: nat, j: nat, limit: nat)
    requires Run(run) && i <= j < |run| && Inv(run[i], limit)
    ensures Inv(run[j], limit)
    decreases j - i
  {
    if i < j {
      assert StepAt(run, i);
      NextKeeps(run[i], run[i + 1], limit);
      RunKeeps(run, i + 1, j, limit);
    }
  }

  lemma RunInv(run: seq<World>, i: nat)
    requires Run(run) && i < |run|
    ensures Inv(run[i], 0)
  {
    InitKeeps(run[0], 0);
    RunKeeps(run, 0, i, 0);
  }

  /** Lockstep: no PC starts motion `c + 1` before every PC has completed motion `c` and
      reported that it has settled. */
  lemma NobodyRunsAhead(run: seq<World>, i: nat, pc: Pc, command: Command, at: nat, cycle: nat)
    requires Run(run) && i + 1 < |run| && Start(run[i], run[i + 1], pc, command, at)
    requires 1 <= cycle < command.cycle
    ensures forall q :: q in run[0].pcs ==>
              MotionDone(q, cycle) in run[i].events && CycleInitialized(q, cycle) in run[i].events
  {
    RunInv(run, i);
    assert CommandOk(run[i], command);
    assert Finished(run[i], cycle);
    SamePcs(run, 0, i);
  }

  /** No PC settles for the next cycle before every PC has completed the motion. */
  lemma NobodySettlesEarly(run: seq<World>, i: nat, pc: Pc, command: Command)
    requires Run(run) && i + 1 < |run| && Settle(run[i], run[i + 1], pc, command)
    ensures forall q :: q in run[0].pcs ==> MotionDone(q, command.cycle) in run[i].events
  {
    RunInv(run, i);
    assert CommandOk(run[i], command);
    SamePcs(run, 0, i);
  }

  lemma CoordinatorSamePcs(w: World, next: World)
    requires CoordinatorStep(w, next)
    ensures next.pcs == w.pcs
  {
  }

  lemma NextSamePcs(w: World, next: World)
    requires Next(w, next)
    ensures next.pcs.Keys == w.pcs.Keys
  {
    if CoordinatorStep(w, next) {
      CoordinatorSamePcs(w, next);
    } else if pc, command, at :| Start(w, next, pc, command, at) {
    } else if pc :| Complete(w, next, pc) {
    } else if pc, command :| Settle(w, next, pc, command) {
    } else if event :| Chatter(w, next, event) {
    } else {
      var pc :| StopLocally(w, next, pc);
    }
  }

  lemma StepSamePcs(run: seq<World>, i: nat)
    requires Run(run) && i + 1 < |run|
    ensures run[i].pcs.Keys == run[i + 1].pcs.Keys
  {
    assert StepAt(run, i);
    NextSamePcs(run[i], run[i + 1]);
  }

  lemma {:induction false} SamePcs(run: seq<World>, i: nat, j: nat)
    requires Run(run) && i <= j < |run|
    ensures run[i].pcs.Keys == run[j].pcs.Keys
    decreases j - i
  {
    if i < j {
      StepSamePcs(run, i);
      SamePcs(run, i + 1, j);
    }
  }

  /** Two PCs never move in different cycles. */
  lemma NeverInDifferentCycles(run: seq<World>, i: nat, p: Pc, q: Pc)
    requires Run(run) && i < |run| && p in run[i].pcs && q in run[i].pcs
    requires run[i].pcs[p].phase.Moving? && run[i].pcs[q].phase.Moving?
    ensures run[i].pcs[p].phase.cycle == run[i].pcs[q].phase.cycle
  {
    RunInv(run, i);
    var w := run[i];
    var c, d := w.pcs[p].phase.cycle, w.pcs[q].phase.cycle;
    assert LocalOk(w, p) && LocalOk(w, q);
    assert c < d ==> Finished(w, c);
    assert d < c ==> Finished(w, d);
  }

  /** A run with a target never goes past it. */
  lemma TargetIsKept(run: seq<World>, i: nat)
    requires Run(run) && i < |run| && run[0].c.b.target > 0
    ensures run[i].c.b.cycle <= run[0].c.b.target
    ensures forall pc :: pc in run[i].pcs && run[i].pcs[pc].phase.Moving? ==>
              run[i].pcs[pc].phase.cycle <= run[0].c.b.target
  {
    InitKeeps(run[0], run[0].c.b.target);
    RunKeeps(run, 0, i, run[0].c.b.target);
    forall pc | pc in run[i].pcs && run[i].pcs[pc].phase.Moving?
      ensures run[i].pcs[pc].phase.cycle <= run[0].c.b.target
    {
      assert LocalOk(run[i], pc);
    }
  }

  /** A run that is to play once starts no second cycle. */
  lemma OnceIsOnce(run: seq<World>, i: nat)
    requires Run(run) && i < |run| && run[0].c.plan.once
    ensures run[i].c.b.cycle <= 1
  {
    InitKeeps(run[0], 1);
    RunKeeps(run, 0, i, 1);
  }

  /** Once a stop after the cycle is asked for, at most one more cycle is played. */
  lemma AtMostOneMore(run: seq<World>, i: nat, j: nat)
    requires Run(run) && i <= j < |run| && run[i].c.b.stopAfterCycle
    ensures run[j].c.b.cycle <= run[i].c.b.cycle + 1
  {
    RunInv(run, i);
    RunKeeps(run, i, j, run[i].c.b.cycle + 1);
  }
}

/** What a stop after the cycle is worth: exactly when no further cycle starts. */
module StopBounds {
  import opened MotionTypes
  import opened GroupBarrier
  import opened Coordination
  import opened Lockstep

  // ----- Where another start can come from --------------------------------------------------------

  /** The PCs settle, or are about to. */
  predicate SettlingNext(c: Coordinator) {
    || c.b.state.CycleInitializing?
    || (c.b.state.MotionCompleted? && (c.sync == Some(CycleInitializeAt) || c.timers > 0))
  }

  /** Something is under way that leads to another start, stop or no stop: the PCs settle or
      are about to, or they get ready for the first motion. */
  predicate MayStart(c: Coordinator) {
    && Active(c)
    && (|| SettlingNext(c) || c.b.state.CycleReady? || c.b.state.Armed?
        || (!c.plan.initializeOnly
            && (c.b.state.Preparing? || c.b.state.Initializing? || c.sync == Some(InitializeAt))))
  }

  /** What follows from the phase alone. */
  ghost predicate Known(c: Coordinator, starts: nat) {
    c.b.cycle <= starts <= c.b.cycle + 1 && (Active(c) ==> Shape(c, starts))
  }

  // ----- What every answer keeps --------------------------------------------------------------------

  /** The plan and the PCs do not change, and a stop is not forgotten. */
  ghost predicate Carries(c: Coordinator, o: Outcome) {
    && o.0.plan == c.plan && o.0.b.target == c.b.target
    && (c.b.stopAfterCycle ==> o.0.b.stopAfterCycle)
    && (Active(o.0) ==> o.0.b.participants == c.b.participants)
  }

  predicate IsAction(commands: seq<Command>, kind: ActionKind) {
    commands != [] && commands[0].kind == At(kind)
  }

  /** With a stop due and nothing on its way, nothing gets on its way. */
  ghost predicate Still(c: Coordinator, o: Outcome) {
    Stopping(c) && !MayStart(c) ==>
      !MayStart(o.0) && !IsAction(o.1, StartAt) && !IsAction(o.1, CycleInitializeAt)
  }

  /** No PC's armed report is missing its place. */
  ghost predicate Unarmed(b: Barrier) {
    b.initializeTriggered.Keys <= b.armed < b.participants && b.initializeSpread.None?
  }

  /** What is under way can still be carried out. */
  ghost predicate Poised(c: Coordinator) {
    Active(c) ==>
      && (c.b.state.Preparing? || c.b.state.Initializing? || c.sync == Some(InitializeAt) ==> Unarmed(c.b))
      && (c.sync == Some(InitializeAt) ==> c.b.ready == c.b.participants)
      && (c.b.state.Preparing? && c.sync.None? ==> c.b.ready < c.b.participants)
      && (c.b.state.Armed? || c.b.state.CycleReady? ==> c.sync == Some(StartAt))
      && (c.b.state.CycleInitializing? ==> c.b.initialized < c.b.participants)
      && Within(c.b.startSpread, MaxStartSpread)
      && (c.sync.Some? ==> c.plan.me in c.syncReady && c.syncReady < c.b.participants)
  }

  /** Settling and releasing come with the command that asks for them. */
  ghost predicate Traced(c: Coordinator, o: Outcome) {
    && (Active(o.0) && o.0.b.state.CycleInitializing? ==>
          || (c.b.state.CycleInitializing? && c.b.cycle == o.0.b.cycle)
          || o.1 == [Command(c.nextId, At(CycleInitializeAt), o.0.b.cycle)])
    && (Active(o.0) && Cancelling(o.0) ==>
          || c.pending == o.0.pending
          || o.1 == [Command(o.0.pending.id, CancelBeforeStart, c.b.cycle)])
  }

  ghost predicate Sound(c: Coordinator, o: Outcome) {
    Carries(c, o) && Still(c, o) && (Poised(c) ==> Poised(o.0)) && Traced(c, o)
  }

  /** An answer in two parts. */
  lemma SoundThen(c: Coordinator, next: Coordinator, o: Outcome)
    requires Sound(c, (next, [])) && Sound(next, o) && next.nextId == c.nextId && next.b.cycle == c.b.cycle
    ensures Sound(c, o)
  {
  }

  /** The last PC's clock is known. */
  lemma LastClockSound(c: Coordinator, next: Coordinator, starts: nat)
    requires Known(c, starts) && Active(c) && c.sync.Some? && next == c.(syncReady := next.syncReady)
    requires !(next.syncReady < c.b.participants)
    ensures Sound(c, CompleteSync(next))
  {
    LastClockTraced(c, next);
    match c.sync.value {
      case InitializeAt =>
      case CycleInitializeAt =>
      case StartAt =>
    }
  }

  lemma LastClockTraced(c: Coordinator, next: Coordinator)
    requires c.sync.Some? && next == c.(syncReady := next.syncReady) && !(next.syncReady < c.b.participants)
    ensures Traced(c, CompleteSync(next)) && Carries(c, CompleteSync(next))
  {
  }

  lemma SyncSound(c: Coordinator, starts: nat, pc: Pc)
    requires Known(c, starts)
    ensures Sound(c, SyncAcknowledged(c, pc))
  {
    var next := c.(syncReady := c.syncReady + {pc});
    if Active(c) && c.sync.Some? && !(next.syncReady < c.b.participants) {
      LastClockSound(c, next, starts);
    }
  }

  lemma ReleaseSound(c: Coordinator, starts: nat, released: bool, error: bool)
    requires Known(c, starts)
    ensures Sound(c, EnterRelease(c, released, error))
  {
  }

  lemma GivingUpSound(c: Coordinator, starts: nat, released: bool)
    requires Known(c, starts)
    ensures Sound(c, PeerFailure(c)) && Sound(c, Cancel(c, released)) && Sound(c, BeginRelease(c, released))
  {
    ReleaseSound(c, starts, released, false);
    ReleaseSound(c, starts, true, true);
  }

  lemma StopSound(c: Coordinator, starts: nat, afterCycle: bool)
    requires Known(c, starts)
    ensures Sound(c, StopRequested(c, afterCycle)) && Sound(c, (StopCommanded(c), []))
  {
  }

  lemma TimerSound(c: Coordinator, starts: nat, healthy: bool)
    requires Known(c, starts)
    ensures Sound(c, TimerFired(c, healthy))
  {
  }

  lemma AcknowledgedSound(c: Coordinator, starts: nat, pc: Pc, id: nat)
    requires Known(c, starts)
    ensures Sound(c, (Acknowledged(c, pc, id), [])) && Known(Acknowledged(c, pc, id), starts)
  {
  }

  lemma LastReadySound(c: Coordinator, starts: nat, pc: Pc)
    requires Known(c, starts) && Active(c) && MarkReady(c.b, pc).Some?
    ensures var next := c.(b := MarkReady(c.b, pc).value);
            Sound(c, if next.b.ready == next.b.participants then BeginSync(next, InitializeAt) else (next, []))
  {
  }

  lemma ReadySound(c: Coordinator, starts: nat, pc: Pc, id: nat)
    requires Known(c, starts) && Active(c)
    ensures Sound(c, OnReady(c, pc, id))
  {
    var acked := Acknowledged(c, pc, id);
    AcknowledgedSound(c, starts, pc, id);
    if MarkReady(acked.b, pc).Some? {
      LastReadySound(acked, starts, pc);
      SoundThen(c, acked, OnReady(c, pc, id));
    }
  }

  /** The last armed report, or the last report of a settled PC: the next start is prepared. */
  lemma NextStartSound(c: Coordinator, next: Coordinator, starts: nat, healthy: bool)
    requires MayStart(c) && next == c.(b := next.b)
    requires Carries(c, (next, [])) && Active(next) && (next.b.state.Armed? || next.b.state.CycleReady?)
    requires next.b.startSpread == c.b.startSpread
    requires next.b.state.CycleReady? ==> next.b.initialized == next.b.participants
    ensures Sound(c, NextStart(next, healthy))
  {
  }

  lemma ArmedSound(c: Coordinator, starts: nat, pc: Pc, at: nat, healthy: bool)
    requires Known(c, starts) && Active(c)
    ensures Sound(c, OnArmed(c, pc, at, healthy))
  {
    var marked := MarkArmed(c.b, pc, at);
    if marked.Some? {
      var next := c.(b := marked.value);
      if next.b.state == Armed && Within(next.b.initializeSpread, MaxStartSpread) && !c.plan.initializeOnly {
        NextStartSound(c, next, starts, healthy);
      }
    }
  }

  lemma StartedSound(c: Coordinator, starts: nat, pc: Pc, cycle: nat, at: nat)
    requires Known(c, starts) && Active(c) && cycle <= starts
    ensures Sound(c, OnMotionStarted(c, pc, cycle, at))
  {
  }

  lemma BarrierSound(c: Coordinator, starts: nat, around: Surroundings)
    requires Active(c) && c.b.state.MotionCompleted? && c.sync.None? && c.timers == 0
    requires Known(c, starts)
    ensures Sound(c, AtBarrier(c, around))
  {
    if Stopping(c) { GivingUpSound(c, starts, around.released); }
  }

  lemma MarkDoneSound(c: Coordinator, starts: nat, pc: Pc, cycle: nat)
    requires Known(c, starts) && Active(c) && MarkMotionCompleted(c.b, pc, cycle).Some?
    ensures var next := c.(b := MarkMotionCompleted(c.b, pc, cycle).value);
            Sound(c, (next, [])) && Known(next, starts) && next.sync.None? && next.timers == 0
  {
    if c.sync.Some? {
      match c.sync.value {
        case InitializeAt =>
        case CycleInitializeAt =>
        case StartAt =>
      }
    }
  }

  lemma DoneSound(c: Coordinator, starts: nat, pc: Pc, cycle: nat, around: Surroundings)
    requires Known(c, starts) && Active(c)
    ensures Sound(c, OnMotionDone(c, pc, cycle, around))
  {
    var marked := MarkMotionCompleted(c.b, pc, cycle);
    if marked.Some? {
      var next := c.(b := marked.value);
      MarkDoneSound(c, starts, pc, cycle);
      if next.b.state == MotionCompleted {
        BarrierSound(next, starts, around);
        SoundThen(c, next, AtBarrier(next, around));
      }
    }
  }

  lemma InitializedSound(c: Coordinator, starts: nat, pc: Pc, cycle: nat, healthy: bool)
    requires Known(c, starts) && Active(c)
    ensures Sound(c, OnCycleInitialized(c, pc, cycle, healthy))
  {
    var marked := MarkCycleInitialized(c.b, pc, cycle);
    if marked.Some? && marked.value.state == CycleReady {
      NextStartSound(c, c.(b := marked.value), starts, healthy);
    }
  }

  lemma StoppedSound(c: Coordinator, starts: nat, pc: Pc, id: nat, released: bool)
    requires Known(c, starts) && Active(c)
    ensures Sound(c, OnStopped(c, pc, id, released))
  {
    AcknowledgedSound(c, starts, pc, id);
    GivingUpSound(c, starts, released);
  }

  lemma DeadlineSound(c: Coordinator, starts: nat, late: bool, released: bool)
    requires Known(c, starts)
    ensures Sound(c, AckDeadline(c, late, released))
  {
    GivingUpSound(c, starts, released);
  }

  lemma EarlyEventSound(c: Coordinator, starts: nat, event: Event, around: Surroundings)
    requires Known(c, starts) && Active(c) && BeforeTheMotion(event)
    ensures Sound(c, OnEvent(c, event, around))
  {
    match event {
      case ReadyReport(pc, id) => ReadySound(c, starts, pc, id);
      case ArmedReport(pc, at) => ArmedSound(c, starts, pc, at, around.healthy);
      case InitializationScheduled(pc, id) => AcknowledgedSound(c, starts, pc, id);
      case StartReserved(pc, cycle, id) =>
        if MarkScheduled(c.b, pc, cycle).Some? {
          var next := c.(b := MarkScheduled(c.b, pc, cycle).value);
          AcknowledgedSound(next, starts, pc, id);
          SoundThen(c, next, (Acknowledged(next, pc, id), []));
        }
    }
  }

  lemma EventSound(c: Coordinator, starts: nat, event: Event, around: Surroundings)
    requires Known(c, starts) && (event.MotionStarted? ==> event.cycle <= starts)
    ensures Sound(c, OnEvent(c, event, around))
  {
    if Active(c) {
      if BeforeTheMotion(event) {
        EarlyEventSound(c, starts, event, around);
      } else {
        match event {
          case Rejected(_) => GivingUpSound(c, starts, around.released);
          case MotionStarted(pc, cycle, at) => StartedSound(c, starts, pc, cycle, at);
          case MotionDone(pc, cycle) => DoneSound(c, starts, pc, cycle, around);
          case CycleInitialized(pc, cycle) => InitializedSound(c, starts, pc, cycle, around.healthy);
          case StoppedReport(pc, id) => StoppedSound(c, starts, pc, id, around.released);
          case Error(_) => GivingUpSound(c, starts, around.released);
        }
      }
    }
  }

  // ----- Worlds --------------------------------------------------------------------------------------

  /** What the messages tell: the command that is being carried out was sent, no two
      commands have one id, and who has taken up a settling command has reported it. */
  ghost predicate Told(w: World) {
    && (Active(w.c) && w.c.b.state.CycleInitializing? ==> Sent(w, At(CycleInitializeAt), w.c.b.cycle))
    && (Active(w.c) && Cancelling(w.c) ==> ReleaseSent(w, w.c.pending.id))
    && (forall a, b :: a in w.commands && b in w.commands && a.id == b.id ==> a == b)
    && (forall pc :: SettledAsSeen(w, pc))
  }

  ghost predicate Sent(w: World, kind: CommandKind, cycle: nat) {
    exists command :: command in w.commands && command.kind == kind && command.cycle == cycle
  }

  ghost predicate ReleaseSent(w: World, id: nat) {
    exists command :: command in w.commands && command.kind == CancelBeforeStart && command.id == id
  }

  ghost predicate SettledAsSeen(w: World, pc: Pc) {
    pc in w.pcs ==>
      && (forall id :: id in w.pcs[pc].seen ==> id < w.c.nextId)
      && forall command :: command in w.commands && command.kind == At(CycleInitializeAt) ==>
           command.id in w.pcs[pc].seen ==> CycleInitialized(pc, command.cycle) in w.events
  }

  ghost predicate WorldOk(w: World) {
    Inv(w, 0) && Poised(w.c) && Told(w)
  }

  ghost predicate Fitting(w: World, o: Outcome) {
    Sound(w.c, o) && GoodOutcome(w.c, o, 0, w.starts, w.events, w.pcs.Keys)
  }

  /** Every step of the coordinator is one of its answers. */
  lemma AnswerOf(w: World, next: World) returns (o: Outcome)
    requires Inv(w, 0) && CoordinatorStep(w, next)
    ensures next == After(w, o) && Fitting(w, o)
  {
    var everyone := w.pcs.Keys;
    if event, around :| event in w.events && next == After(w, OnEvent(w.c, event, around)) {
      assert EventOk(w, event);
      EventSound(w.c, w.starts, event, around);
      EventKeeps(w.c, 0, w.starts, w.events, everyone, event, around);
      o := OnEvent(w.c, event, around);
    } else if pc :| next == After(w, SyncAcknowledged(w.c, pc)) {
      SyncSound(w.c, w.starts, pc);
      SyncKeeps(w.c, 0, w.starts, w.events, everyone, pc);
      o := SyncAcknowledged(w.c, pc);
    } else if healthy :| next == After(w, TimerFired(w.c, healthy)) {
      TimerSound(w.c, w.starts, healthy);
      TimerKeeps(w.c, 0, w.starts, w.events, everyone, healthy);
      o := TimerFired(w.c, healthy);
    } else {
      o := GivingUpAnswer(w, next);
    }
  }

  lemma GivingUpAnswer(w: World, next: World) returns (o: Outcome)
    requires Inv(w, 0)
    requires
      || (exists afterCycle :: next == After(w, StopRequested(w.c, afterCycle)))
      || (exists late, released :: next == After(w, AckDeadline(w.c, late, released)))
      || (exists released :: next == After(w, Cancel(w.c, released)))
      || next == After(w, PeerFailure(w.c))
      || next == After(w, (StopCommanded(w.c), []))
    ensures next == After(w, o) && Fitting(w, o)
  {
    var everyone := w.pcs.Keys;
    if afterCycle :| next == After(w, StopRequested(w.c, afterCycle)) {
      o := StopRequested(w.c, afterCycle);
      StopSound(w.c, w.starts, afterCycle);
      StopKeeps(w.c, 0, w.starts, w.events, everyone, afterCycle);
    } else if late, released :| next == After(w, AckDeadline(w.c, late, released)) {
      o := AckDeadline(w.c, late, released);
      DeadlineSound(w.c, w.starts, late, released);
      DeadlineKeeps(w.c, 0, w.starts, w.events, everyone, late, released);
    } else if released :| next == After(w, Cancel(w.c, released)) {
      o := Cancel(w.c, released);
      GivingUpSound(w.c, w.starts, released);
      GivingUpKeeps(w.c, 0, w.starts, w.events, everyone, released);
    } else if next == After(w, PeerFailure(w.c)) {
      o := PeerFailure(w.c);
      GivingUpSound(w.c, w.starts, true);
      GivingUpKeeps(w.c, 0, w.starts, w.events, everyone, true);
    } else {
      o := (StopCommanded(w.c), []);
      StopSound(w.c, w.starts, true);
      StopKeeps(w.c, 0, w.starts, w.events, everyone, true);
    }
  }

  lemma AfterTells(w: World, o: Outcome)
    requires WorldOk(w) && Fitting(w, o)
    ensures Told(After(w, o))
  {
    var next := After(w, o);
    forall command | command in w.commands ensures command.id < w.c.nextId { assert CommandOk(w, command); }
    forall pc ensures SettledAsSeen(next, pc) { assert SettledAsSeen(w, pc); }
    if Active(o.0) && o.0.b.state.CycleInitializing? { CycleInitializeSent(w, o); }
    if Active(o.0) && Cancelling(o.0) { ReleaseIsSent(w, o); }
  }

  lemma CycleInitializeSent(w: World, o: Outcome)
    requires WorldOk(w) && Fitting(w, o) && Active(o.0) && o.0.b.state.CycleInitializing?
    ensures Sent(After(w, o), At(CycleInitializeAt), o.0.b.cycle)
  {
    if o.1 == [Command(w.c.nextId, At(CycleInitializeAt), o.0.b.cycle)] {
      assert o.1[0] in After(w, o).commands;
    } else {
      var command :| command in w.commands && command.kind == At(CycleInitializeAt) && command.cycle == w.c.b.cycle;
      assert command in After(w, o).commands;
    }
  }

  lemma ReleaseIsSent(w: World, o: Outcome)
    requires WorldOk(w) && Fitting(w, o) && Active(o.0) && Cancelling(o.0)
    ensures ReleaseSent(After(w, o), o.0.pending.id)
  {
    if o.1 == [Command(o.0.pending.id, CancelBeforeStart, w.c.b.cycle)] {
      assert o.1[0] in After(w, o).commands;
    } else {
      var command :| command in w.commands && command.kind == CancelBeforeStart && command.id == w.c.pending.id;
      assert command in After(w, o).commands;
    }
  }

  /** The PCs leave the coordinator as it is, and send no commands. */
  ghost predicate PcStep(w: World, next: World) {
    next.c == w.c && next.commands == w.commands && next.starts == w.starts && w.events <= next.events
  }

  lemma PcStepTells(w: World, next: World)
    requires WorldOk(w) && PcStep(w, next) && forall pc :: SettledAsSeen(next, pc)
    ensures Told(next)
  {
    if Active(w.c) && w.c.b.state.CycleInitializing? {
      var command :| command in w.commands && command.kind == At(CycleInitializeAt) && command.cycle == w.c.b.cycle;
      assert command in next.commands;
    }
    if Active(w.c) && Cancelling(w.c) {
      var command :| command in w.commands && command.kind == CancelBeforeStart && command.id == w.c.pending.id;
      assert command in next.commands;
    }
  }

  lemma ReportTells(w: World, pc: Pc, local: Local, event: Event, command: Command)
    requires WorldOk(w) && pc in w.pcs && command in w.commands && local.seen <= w.pcs[pc].seen + {command.id}
    requires command.kind == At(CycleInitializeAt) ==> event == CycleInitialized(pc, command.cycle)
    ensures Told(Report(w, pc, local, event))
  {
    var next := Report(w, pc, local, event);
    assert CommandOk(w, command);
    forall q ensures SettledAsSeen(next, q) { assert SettledAsSeen(w, q); }
    PcStepTells(w, next);
  }

  /** No command went out that lets a cycle begin or settle. */
  ghost predicate NothingSent(w: World, next: World) {
    && next.starts == w.starts
    && forall command :: command in next.commands && (command.kind == At(StartAt) || command.kind == At(CycleInitializeAt)) ==>
         command in w.commands
  }

  /** With a stop due and nothing on its way, the step sends nothing and leaves it so. */
  ghost predicate StaysStill(w: World, next: World) {
    Stopping(w.c) && !MayStart(w.c) ==> Stopping(next.c) && !MayStart(next.c) && NothingSent(w, next)
  }

  lemma AnswerOk(w: World, o: Outcome)
    requires WorldOk(w) && Fitting(w, o)
    ensures StaysStill(w, After(w, o)) && Poised(After(w, o).c)
  {
  }

  /** A step is an answer of the coordinator, or leaves it alone. */
  lemma StepOk(w: World, next: World)
    requires WorldOk(w) && Next(w, next)
    ensures WorldOk(next) && StaysStill(w, next)
  {
    NextKeeps(w, next, 0);
    TellsOn(w, next);
  }

  lemma TellsOn(w: World, next: World)
    requires WorldOk(w) && Next(w, next)
    ensures Told(next) && Poised(next.c) && StaysStill(w, next)
  {
    if CoordinatorStep(w, next) {
      var o := AnswerOf(w, next);
      AfterTells(w, o);
      AnswerOk(w, o);
    } else {
      PcStepOk(w, next);
    }
  }

  lemma StartTells(w: World, next: World, pc: Pc, command: Command, at: nat)
    requires WorldOk(w) && Start(w, next, pc, command, at)
    ensures PcStep(w, next) && Told(next)
  {
    ReportTells(w, pc, next.pcs[pc], MotionStarted(pc, command.cycle, at), command);
  }

  lemma SettleTells(w: World, next: World, pc: Pc, command: Command)
    requires WorldOk(w) && Settle(w, next, pc, command)
    ensures PcStep(w, next) && Told(next)
  {
    ReportTells(w, pc, next.pcs[pc], CycleInitialized(pc, command.cycle), command);
  }

  lemma PcStepOk(w: World, next: World)
    requires WorldOk(w) && Next(w, next) && !CoordinatorStep(w, next)
    ensures PcStep(w, next) && Told(next)
  {
    if pc, command, at :| Start(w, next, pc, command, at) {
      StartTells(w, next, pc, command, at);
    } else if pc, command :| Settle(w, next, pc, command) {
      SettleTells(w, next, pc, command);
    } else {
      QuietStepOk(w, next);
    }
  }

  /** A PC takes up no command. */
  lemma QuietStepOk(w: World, next: World)
    requires WorldOk(w) && PcStep(w, next) && next.pcs.Keys == w.pcs.Keys
    requires forall pc :: pc in w.pcs ==> next.pcs[pc].seen == w.pcs[pc].seen
    ensures Told(next)
  {
    forall q ensures SettledAsSeen(next, q) { assert SettledAsSeen(w, q); }
    PcStepTells(w, next);
  }

  // ----- Runs --------------------------------------------------------------------------------------------

  lemma FirstOk(w: World)
    requires Init(w)
    ensures WorldOk(w)
  {
    InitKeeps(w, 0);
  }

  lemma {:induction false} RunOk(run: seq<World>, i: nat)
    requires Run(run) && i < |run|
    ensures WorldOk(run[i])
    decreases i
  {
    if i == 0 {
      FirstOk(run[0]);
    } else {
      RunOk(run, i - 1);
      assert StepAt(run, i - 1);
      StepOk(run[i - 1], run[i]);
    }
  }

  /** Once a stop is due and nothing is on its way, no start and no settling is asked for
      any more, whatever happens. */
  lemma {:induction false} NothingMoreStarts(run: seq<World>, i: nat, j: nat)
    requires Run(run) && i <= j < |run| && Stopping(run[i].c) && !MayStart(run[i].c)
    ensures Stopping(run[j].c) && !MayStart(run[j].c) && NothingSent(run[i], run[j])
    decreases j - i
  {
    if i < j {
      NothingMoreStarts(run, i, j - 1);
      RunOk(run, j - 1);
      assert StepAt(run, j - 1);
      StepOk(run[j - 1], run[j]);
    }
  }

  lemma StepKeepsStop(w: World, next: World)
    requires WorldOk(w) && Next(w, next)
    ensures next.c.plan == w.c.plan && next.c.b.target == w.c.b.target
    ensures w.c.b.stopAfterCycle ==> next.c.b.stopAfterCycle
  {
    if CoordinatorStep(w, next) {
      var o := AnswerOf(w, next);
    } else {
      PcStepOk(w, next);
    }
  }

  /** A stop is not forgotten, nor is the plan. */
  lemma {:induction false} StopIsKept(run: seq<World>, i: nat, j: nat)
    requires Run(run) && i <= j < |run|
    ensures run[j].c.plan == run[i].c.plan && run[j].c.b.target == run[i].c.b.target
    ensures run[i].c.b.stopAfterCycle ==> run[j].c.b.stopAfterCycle
    decreases j - i
  {
    if i < j {
      StopIsKept(run, i, j - 1);
      RunOk(run, j - 1);
      assert StepAt(run, j - 1);
      StepKeepsStop(run[j - 1], run[j]);
    }
  }

  // ----- The barrier after the motion -------------------------------------------------------------------------

  /** The coordinator takes the report with which every PC has completed the motion. */
  ghost predicate Barrier(w: World, next: World, pc: Pc, cycle: nat, around: Surroundings) {
    && Active(w.c) && MotionDone(pc, cycle) in w.events
    && MarkMotionCompleted(w.c.b, pc, cycle).Some?
    && MarkMotionCompleted(w.c.b, pc, cycle).value.completed == w.c.b.participants
    && next == After(w, OnEvent(w.c, MotionDone(pc, cycle), around))
  }

  /** The execution is to end with this cycle. */
  predicate IsLast(c: Coordinator) {
    Stopping(c) || (c.b.target > 0 && c.b.cycle >= c.b.target)
  }

  /** Every PC is asked to let go, or all have. */
  ghost predicate Releases(w: World, next: World) {
    Active(next.c) ==>
      && Cancelling(next.c) && ReleaseSent(next, next.c.pending.id)
      && (next.c.b.state.Releasing? <==> !Cancelling(w.c))
  }

  lemma ReleaseAtBarrier(c: Coordinator, around: Surroundings)
    requires Active(c) && c.b.state.MotionCompleted? && c.sync.None? && c.timers == 0 && Stopping(c)
    ensures var (next, sent) := AtBarrier(c, around);
            && Stopping(next) && !MayStart(next) && !IsAction(sent, StartAt) && !IsAction(sent, CycleInitializeAt)
            && |sent| <= 1 && (Active(next) ==> Cancelling(next) && (next.b.state.Releasing? <==> !Cancelling(c)))
  {
  }

  lemma AnswerAtBarrier(w: World, next: World, pc: Pc, cycle: nat, around: Surroundings)
    requires WorldOk(w) && Barrier(w, next, pc, cycle, around)
    ensures var c := w.c.(b := MarkMotionCompleted(w.c.b, pc, cycle).value);
            && next == After(w, AtBarrier(c, around)) && Known(c, w.starts)
            && Active(c) && c.b.state.MotionCompleted? && c.sync.None? && c.timers == 0
            && (Stopping(c) <==> IsLast(w.c)) && c.pending == w.c.pending
  {
    MarkDoneSound(w.c, w.starts, pc, cycle);
  }

  lemma BarrierReleases(w: World, next: World, pc: Pc, cycle: nat, around: Surroundings)
    requires WorldOk(w) && Barrier(w, next, pc, cycle, around) && IsLast(w.c) && Told(next)
    ensures Releases(w, next) && Stopping(next.c) && !MayStart(next.c) && NothingSent(w, next)
  {
    AnswerAtBarrier(w, next, pc, cycle, around);
    ReleaseAtBarrier(w.c.(b := MarkMotionCompleted(w.c.b, pc, cycle).value), around);
  }

  /** The next settling comes: the PCs dwell before it, or their clocks are asked for it, or
      the command for it is out. */
  ghost predicate SettlesNext(w: World, next: World) {
    if w.c.plan.dwell then next.c.b.state.MotionCompleted? && next.c.timers == 1
    else
      || (next.c.b.state.MotionCompleted? && next.c.sync == Some(CycleInitializeAt))
      || (next.c.b.state.CycleInitializing? && Command(w.c.nextId, At(CycleInitializeAt), w.c.b.cycle) in next.commands)
  }

  lemma CycleGoesOn(c: Coordinator, around: Surroundings)
    requires Active(c) && c.b.state.MotionCompleted? && c.sync.None? && c.timers == 0 && !Stopping(c)
    requires c.b.completed == c.b.participants
    ensures var (next, sent) := AtBarrier(c, around);
            Active(next) ==>
              if c.plan.dwell then next.b.state.MotionCompleted? && next.timers == 1
              else
                || (next.b.state.MotionCompleted? && next.sync == Some(CycleInitializeAt))
                || (next.b.state.CycleInitializing? && sent == [Command(c.nextId, At(CycleInitializeAt), c.b.cycle)])
  {
  }

  lemma BarrierGoesOn(w: World, next: World, pc: Pc, cycle: nat, around: Surroundings)
    requires WorldOk(w) && Barrier(w, next, pc, cycle, around) && !IsLast(w.c) && Active(next.c)
    ensures SettlesNext(w, next)
  {
    AnswerAtBarrier(w, next, pc, cycle, around);
    var c := w.c.(b := MarkMotionCompleted(w.c.b, pc, cycle).value);
    CycleGoesOn(c, around);
    assert AtBarrier(c, around).1 != [] ==> AtBarrier(c, around).1[0] in next.commands;
  }

  lemma BarrierInRun(run: seq<World>, j: nat, pc: Pc, cycle: nat, around: Surroundings)
    requires Run(run) && j + 1 < |run| && Barrier(run[j], run[j + 1], pc, cycle, around)
    ensures IsLast(run[j].c) ==>
              && Releases(run[j], run[j + 1]) && NothingSent(run[j], run[j + 1])
              && Stopping(run[j + 1].c) && !MayStart(run[j + 1].c)
    ensures !IsLast(run[j].c) && Active(run[j + 1].c) ==> SettlesNext(run[j], run[j + 1])
  {
    RunOk(run, j);
    if IsLast(run[j].c) {
      RunOk(run, j + 1);
      BarrierReleases(run[j], run[j + 1], pc, cycle, around);
    } else if Active(run[j + 1].c) {
      BarrierGoesOn(run[j], run[j + 1], pc, cycle, around);
    }
  }

  /** After a stop was asked for, or with a run that plays once or has reached its target,
      the next completed barrier leads to the release of every PC, and nothing is started
      or settled any more.  A release that was under way before goes on. */
  lemma CompletionReleases(
    run: seq<World>, i: nat, j: nat, k: nat, pc: Pc, cycle: nat, around: Surroundings)
    requires Run(run) && i <= j < k < |run| && Barrier(run[j], run[j + 1], pc, cycle, around)
    requires IsLast(run[j].c) || run[i].c.b.stopAfterCycle
    ensures Releases(run[j], run[j + 1]) && NothingSent(run[j], run[k])
  {
    StopIsKept(run, i, j);
    BarrierInRun(run, j, pc, cycle, around);
    NothingMoreStarts(run, j + 1, k);
  }

  /** Every other completed barrier leads on: unless the execution is given up, the PCs are
      told to settle, or will be once the clocks are known or the dwell is over. */
  lemma OtherBarriersGoOn(run: seq<World>, j: nat, pc: Pc, cycle: nat, around: Surroundings)
    requires Run(run) && j + 1 < |run| && Barrier(run[j], run[j + 1], pc, cycle, around)
    requires !IsLast(run[j].c) && Active(run[j + 1].c)
    ensures SettlesNext(run[j], run[j + 1])
  {
    BarrierInRun(run, j, pc, cycle, around);
  }
}

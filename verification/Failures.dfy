/** What ends an execution: a PC reports an error or refuses a command, or the PCs were too
    far apart. */
module Failures {
  import opened MotionTypes
  import opened GroupBarrier
  import opened Coordination
  import opened Lockstep
  import opened StopBounds
  import opened Continuations

  // ----- An execution that has ended ------------------------------------------------------------------

  /** The coordinator answers that report. */
  ghost predicate Answers(w: World, next: World, event: Event, around: Surroundings) {
    event in w.events && next == After(w, OnEvent(w.c, event, around))
  }

  /** A command that was not there before. */
  ghost predicate SentNow(w: World, next: World, kind: CommandKind) {
    exists command :: command in next.commands && command !in w.commands && command.kind == kind
  }

  /** Every PC is told to stop at once, and the execution is over. */
  ghost predicate Failed(w: World, next: World) {
    !Active(next.c) && next.c.b.state.Failed? && SentNow(w, next, StopAll)
  }

  /** Nothing comes any more: no command, no cycle. */
  ghost predicate Over(w: World, later: World) {
    !Active(later.c) && later.c.b == w.c.b && later.commands == w.commands && later.starts == w.starts
  }

  lemma InactiveAnswer(c: Coordinator, event: Event, around: Surroundings)
    requires !Active(c)
    ensures OnEvent(c, event, around) == (c, [])
  {
  }

  lemma OverStays(w: World, next: World)
    requires Next(w, next) && !Active(w.c)
    ensures Over(w, next)
  {
    if CoordinatorStep(w, next) {
      if event, around :| event in w.events && next == After(w, OnEvent(w.c, event, around)) {
        InactiveAnswer(w.c, event, around);
      }
    } else if pc, command, at :| Start(w, next, pc, command, at) {
    } else if pc :| Complete(w, next, pc) {
    } else if pc, command :| Settle(w, next, pc, command) {
    } else if event :| Chatter(w, next, event) {
    } else {
      var pc :| StopLocally(w, next, pc);
    }
  }

  /** Once an execution is over, the coordinator sends nothing more for it. */
  lemma {:induction false} OverForGood(run: seq<World>, i: nat, j: nat)
    requires Run(run) && i <= j < |run| && !Active(run[i].c)
    ensures Over(run[i], run[j])
    decreases j - i
  {
    if i < j {
      OverForGood(run, i, j - 1);
      assert StepAt(run, j - 1);
      OverStays(run[j - 1], run[j]);
    }
  }

  // ----- Errors --------------------------------------------------------------------------------------------

  lemma HaltIsFailure(w: World, c: Coordinator)
    requires Inv(w, 0) && c.nextId == w.c.nextId
    ensures Failed(w, After(w, Halt(c)))
  {
    var command := Command(c.nextId, StopAll, c.b.cycle);
    forall sent | sent in w.commands ensures sent.id < w.c.nextId { assert CommandOk(w, sent); }
    assert command in After(w, Halt(c)).commands;
  }

  /** A PC reports an error: every PC is told to stop, the execution has failed, and no
      command goes out for it any more. */
  lemma ErrorStopsAll(run: seq<World>, i: nat, j: nat, pc: Pc, around: Surroundings)
    requires Run(run) && i < j < |run| && Active(run[i].c) && Answers(run[i], run[i + 1], Error(pc), around)
    ensures Failed(run[i], run[i + 1]) && Over(run[i + 1], run[j])
  {
    RunInv(run, i);
    HaltIsFailure(run[i], run[i].c);
    OverForGood(run, i + 1, j);
  }

  /** The states in which a refused command only cancels: before the first motion, and while
      the PCs rest or settle between two motions. */
  predicate MayCancel(state: State) {
    || state.Preparing? || state.Initializing? || state.Armed? || state.StartScheduled?
    || state.MotionCompleted? || state.CycleInitializing?
  }

  /** A PC refuses a command at any other time: as with an error. */
  lemma RejectionStopsAll(run: seq<World>, i: nat, j: nat, pc: Pc, around: Surroundings)
    requires Run(run) && i < j < |run| && Active(run[i].c) && Answers(run[i], run[i + 1], Rejected(pc), around)
    requires !MayCancel(run[i].c.b.state)
    ensures Failed(run[i], run[i + 1]) && Over(run[i + 1], run[j])
  {
    RunInv(run, i);
    HaltIsFailure(run[i], run[i].c);
    OverForGood(run, i + 1, j);
  }

  // ----- PCs too far apart -----------------------------------------------------------------------------------

  /** Every PC's time is known, and two of them are more than 70 ms apart. */
  ghost predicate TooFarApart(times: map<Pc, nat>, everyone: set<Pc>) {
    && times.Keys == everyone
    && exists p, q :: p in times && q in times && times[p] > times[q] + 70_000_000
  }

  lemma SpreadTells(times: map<Pc, nat>, everyone: set<Pc>)
    requires TooFarApart(times, everyone)
    ensures !Within(Some(SpreadOf(times)), MaxStartSpread)
  {
    SpreadIsWidest(times);
  }

  /** The last PC reports that it is armed, and they were not armed together. */
  lemma ArmedApartStopsAll(run: seq<World>, i: nat, j: nat, pc: Pc, at: nat, around: Surroundings)
    requires Run(run) && i < j < |run| && Active(run[i].c) && Answers(run[i], run[i + 1], ArmedReport(pc, at), around)
    requires var b := run[i].c.b;
             && (b.state.Initializing? || b.state.Armed?) && at > 0
             && pc in b.participants && b.armed + {pc} == b.participants
             && TooFarApart(b.initializeTriggered[pc := at], b.participants)
    ensures Failed(run[i], run[i + 1]) && Over(run[i + 1], run[j])
  {
    var c := run[i].c;
    RunInv(run, i);
    SpreadTells(c.b.initializeTriggered[pc := at], c.b.participants);
    var next := c.(b := MarkArmed(c.b, pc, at).value);
    assert OnEvent(c, ArmedReport(pc, at), around) == Halt(next);
    HaltIsFailure(run[i], next);
    OverForGood(run, i + 1, j);
  }

  /** The last PC reports that it has started, and they did not start together. */
  lemma StartedApartStopsAll(run: seq<World>, i: nat, j: nat, pc: Pc, cycle: nat, at: nat, around: Surroundings)
    requires Run(run) && i < j < |run| && Active(run[i].c)
    requires Answers(run[i], run[i + 1], MotionStarted(pc, cycle, at), around)
    requires var b := run[i].c.b;
             cycle == b.cycle + 1 && pc in b.participants && TooFarApart(b.triggered[pc := at], b.participants)
    ensures Failed(run[i], run[i + 1]) && Over(run[i + 1], run[j])
  {
    var c := run[i].c;
    RunInv(run, i);
    SpreadTells(c.b.triggered[pc := at], c.b.participants);
    var next := c.(b := MarkTriggered(c.b, pc, cycle, at).value);
    assert OnEvent(c, MotionStarted(pc, cycle, at), around) == Halt(next);
    HaltIsFailure(run[i], next);
    OverForGood(run, i + 1, j);
  }

  // ----- Ill health -------------------------------------------------------------------------------------------

  /** Before a start or a settling the coordinator finds that a PC is not well. */
  lemma UnhealthyStopsAll(run: seq<World>, i: nat, j: nat, event: Event, around: Surroundings)
    requires Run(run) && i < j < |run| && Active(run[i].c) && Answers(run[i], run[i + 1], event, around)
    requires !around.healthy && LeadsOn(run[i].c, event)
    ensures Failed(run[i], run[i + 1]) && Over(run[i + 1], run[j])
  {
    var c := run[i].c;
    RunInv(run, i);
    var next := MarkedBy(c, event);
    assert OnEvent(c, event, around) == Halt(next);
    HaltIsFailure(run[i], next);
    OverForGood(run, i + 1, j);
  }

  /** The last report of the PCs that are armed together, or have settled. */
  ghost predicate LeadsOn(c: Coordinator, event: Event) {
    match event
    case ArmedReport(pc, at) =>
      && c.b.state.Initializing? && pc in c.b.participants && c.b.armed + {pc} == c.b.participants
      && !c.plan.initializeOnly
    case CycleInitialized(pc, cycle) =>
      && c.b.state.CycleInitializing? && pc in c.b.participants && cycle == c.b.cycle
      && c.b.initialized + {pc} == c.b.participants
    case _ => false
  }

  ghost function MarkedBy(c: Coordinator, event: Event): Coordinator
    requires LeadsOn(c, event)
  {
    match event
    case ArmedReport(pc, at) => c.(b := MarkArmed(c.b, pc, at).value)
    case CycleInitialized(pc, cycle) => c.(b := MarkCycleInitialized(c.b, pc, cycle).value)
  }

  lemma UnhealthyTimerStopsAll(run: seq<World>, i: nat, j: nat)
    requires Run(run) && i < j < |run| && Active(run[i].c) && run[i].c.timers > 0
    requires run[i + 1] == After(run[i], TimerFired(run[i].c, false))
    ensures Failed(run[i], run[i + 1]) && Over(run[i + 1], run[j])
  {
    var c := run[i].c;
    RunInv(run, i);
    HaltIsFailure(run[i], c.(timers := c.timers - 1));
    OverForGood(run, i + 1, j);
  }

  // ----- A command that is refused while it can be cancelled -----------------------------------------------------

  /** The execution is over, without a word to the PCs. */
  ghost predicate Dropped(w: World, next: World) {
    !Active(next.c) && next.c.b.state.Failed? && next.commands == w.commands
  }

  /** Every PC is told to let go, and the coordinator waits for their answers; its own worker
      has let go.  The execution is to end as failed. */
  ghost predicate LettingGo(w: World, next: World) {
    && Active(next.c) && next.c.b.state.Releasing? && Cancelling(next.c) && next.c.acks == {w.c.plan.me}
    && next.c.releaseError && AsksToLetGo(w, next, next.c.pending.id)
  }

  ghost predicate AsksToLetGo(w: World, next: World, id: nat) {
    exists command :: command in next.commands && command !in w.commands && command.kind == CancelBeforeStart && command.id == id
  }

  lemma OneAlone(some: set<Pc>, pc: Pc)
    requires |some| > 1
    ensures !({pc} >= some)
  {
    if {pc} >= some { SubsetIsSmaller(some, {pc}); }
  }

  lemma SubsetIsSmaller(a: set<Pc>, b: set<Pc>)
    requires a <= b
    ensures |a| <= |b|
  {
    assert b == a + (b - a);
  }

  lemma EnteringRelease(w: World)
    requires Inv(w, 0) && |w.c.b.participants| > 1
    ensures LettingGo(w, After(w, EnterRelease(w.c, true, true)))
  {
    OneAlone(w.c.b.participants, w.c.plan.me);
    var command := Command(w.c.nextId, CancelBeforeStart, w.c.b.cycle);
    forall sent | sent in w.commands ensures sent.id < w.c.nextId { assert CommandOk(w, sent); }
    assert command in After(w, EnterRelease(w.c, true, true)).commands;
  }

  /** A PC refuses a command before the first motion, or between two: the PCs are told to
      let go if the coordinator's own worker has, and else the execution is over. */
  lemma RejectionCancels(run: seq<World>, i: nat, pc: Pc, around: Surroundings)
    requires Run(run) && i + 1 < |run| && Active(run[i].c) && Answers(run[i], run[i + 1], Rejected(pc), around)
    requires MayCancel(run[i].c.b.state)
    ensures if around.released && |run[i].c.b.participants| > 1 then LettingGo(run[i], run[i + 1])
            else Dropped(run[i], run[i + 1])
  {
    RunInv(run, i);
    if around.released && |run[i].c.b.participants| > 1 { EnteringRelease(run[i]); }
  }

  /** The last PC answers that it has let go: the execution is over, as failed or as stopped,
      and nothing comes any more. */
  lemma LettingGoEnds(run: seq<World>, i: nat, j: nat, pc: Pc, around: Surroundings)
    requires Run(run) && i < j < |run| && Active(run[i].c) && Cancelling(run[i].c)
    requires Answers(run[i], run[i + 1], StoppedReport(pc, run[i].c.pending.id), around)
    requires run[i].c.acks + {pc} >= run[i].c.b.participants
    ensures !Active(run[i + 1].c) && run[i + 1].commands == run[i].commands && Over(run[i + 1], run[j])
    ensures if run[i].c.releaseError then run[i + 1].c.b.state.Failed? else run[i + 1].c.b.state.Stopped?
  {
    OverForGood(run, i + 1, j);
  }

  // ----- What may still come after it -------------------------------------------------------------------------------

  /** The execution rests, no start is on its way, and no clock is asked for to initialize. */
  ghost predicate AtRestNow(c: Coordinator, starts: nat) {
    Active(c) ==> Resting(c.b.state) && c.b.cycle == starts && c.sync != Some(InitializeAt)
  }

  ghost predicate StaysAtRest(o: Outcome, starts: nat) {
    AtRestNow(o.0, starts) && !IsAction(o.1, StartAt) && !IsAction(o.1, CycleInitializeAt)
  }

  lemma RestingAnswer(c: Coordinator, starts: nat, event: Event, around: Surroundings)
    requires AtRestNow(c, starts) && (event.MotionStarted? ==> event.cycle <= starts)
    ensures StaysAtRest(OnEvent(c, event, around), starts)
  {
  }

  lemma RestingClock(c: Coordinator, starts: nat, pc: Pc)
    requires AtRestNow(c, starts) && Known(c, starts)
    ensures StaysAtRest(SyncAcknowledged(c, pc), starts)
  {
  }

  lemma RestingTimer(c: Coordinator, starts: nat, healthy: bool)
    requires AtRestNow(c, starts)
    ensures StaysAtRest(TimerFired(c, healthy), starts)
  {
  }

  lemma RestingStop(c: Coordinator, starts: nat, afterCycle: bool)
    requires AtRestNow(c, starts)
    ensures StaysAtRest(StopRequested(c, afterCycle), starts) && |StopRequested(c, afterCycle).1| <= 1
    ensures StaysAtRest((StopCommanded(c), []), starts)
  {
  }

  lemma RestingGivingUp(c: Coordinator, starts: nat, released: bool)
    requires AtRestNow(c, starts)
    ensures StaysAtRest(Cancel(c, released), starts) && |Cancel(c, released).1| <= 1
    ensures StaysAtRest(PeerFailure(c), starts) && |PeerFailure(c).1| <= 1
  {
  }

  lemma RestingDeadline(c: Coordinator, starts: nat, late: bool, released: bool)
    requires AtRestNow(c, starts)
    ensures StaysAtRest(AckDeadline(c, late, released), starts) && |AckDeadline(c, late, released).1| <= 1
  {
    RestingGivingUp(c, starts, released);
  }

  lemma RestedAfter(w: World, o: Outcome)
    requires StaysAtRest(o, w.starts) && |o.1| <= 1
    ensures AtRestNow(After(w, o).c, After(w, o).starts) && NothingSent(w, After(w, o))
  {
  }

  lemma RestingStep(w: World, next: World)
    requires WorldOk(w) && CoordinatorStep(w, next) && AtRestNow(w.c, w.starts)
    ensures AtRestNow(next.c, next.starts) && NothingSent(w, next)
  {
    var everyone := w.pcs.Keys;
    if event, around :| event in w.events && next == After(w, OnEvent(w.c, event, around)) {
      assert EventOk(w, event);
      EventKeeps(w.c, 0, w.starts, w.events, everyone, event, around);
      RestingAnswer(w.c, w.starts, event, around);
      RestedAfter(w, OnEvent(w.c, event, around));
    } else if pc :| next == After(w, SyncAcknowledged(w.c, pc)) {
      RestingClock(w.c, w.starts, pc);
      RestedAfter(w, SyncAcknowledged(w.c, pc));
    } else if healthy :| next == After(w, TimerFired(w.c, healthy)) {
      TimerKeeps(w.c, 0, w.starts, w.events, everyone, healthy);
      RestingTimer(w.c, w.starts, healthy);
      RestedAfter(w, TimerFired(w.c, healthy));
    } else {
      RestingOtherStep(w, next);
    }
  }

  lemma RestingOtherStep(w: World, next: World)
    requires AtRestNow(w.c, w.starts)
    requires
      || (exists afterCycle :: next == After(w, StopRequested(w.c, afterCycle)))
      || (exists late, released :: next == After(w, AckDeadline(w.c, late, released)))
      || (exists released :: next == After(w, Cancel(w.c, released)))
      || next == After(w, PeerFailure(w.c))
      || next == After(w, (StopCommanded(w.c), []))
    ensures AtRestNow(next.c, next.starts) && NothingSent(w, next)
  {
    if afterCycle :| next == After(w, StopRequested(w.c, afterCycle)) {
      RestingStop(w.c, w.starts, afterCycle);
      RestedAfter(w, StopRequested(w.c, afterCycle));
    } else if late, released :| next == After(w, AckDeadline(w.c, late, released)) {
      RestingDeadline(w.c, w.starts, late, released);
      RestedAfter(w, AckDeadline(w.c, late, released));
    } else if released :| next == After(w, Cancel(w.c, released)) {
      RestingGivingUp(w.c, w.starts, released);
      RestedAfter(w, Cancel(w.c, released));
    } else if next == After(w, PeerFailure(w.c)) {
      RestingGivingUp(w.c, w.starts, true);
      RestedAfter(w, PeerFailure(w.c));
    } else {
      RestingStop(w.c, w.starts, true);
      RestedAfter(w, (StopCommanded(w.c), []));
    }
  }

  lemma {:induction false} RestForGood(run: seq<World>, i: nat, j: nat)
    requires Run(run) && i <= j < |run| && AtRestNow(run[i].c, run[i].starts)
    ensures AtRestNow(run[j].c, run[j].starts) && NothingSent(run[i], run[j])
    decreases j - i
  {
    if i < j {
      RestForGood(run, i, j - 1);
      RunOk(run, j - 1);
      assert StepAt(run, j - 1);
      if CoordinatorStep(run[j - 1], run[j]) {
        RestingStep(run[j - 1], run[j]);
      } else {
        PcStepOk(run[j - 1], run[j]);
      }
    }
  }

  // ----- What may still come, exactly ---------------------------------------------------------------------------------

  /** The run, with the answer to a refused command; the coordinator's own worker lets go. */
  function Refused(run: seq<World>, pc: Pc, healthy: bool): seq<World>
    requires run != []
  {
    run + [After(End(run), OnEvent(End(run).c, Rejected(pc), Surroundings(healthy, true)))]
  }

  lemma RefusedRuns(run: seq<World>, pc: Pc, healthy: bool)
    requires Run(run) && Rejected(pc) in End(run).events
    ensures Run(Refused(run, pc, healthy))
  {
    assert CoordinatorStep(End(run), End(Refused(run, pc, healthy)));
    PathSnoc(run, End(Refused(run, pc, healthy)));
  }

  /** No start is on its way, and the run is not for initializing alone. */
  ghost predicate Quiet(w: World) {
    Active(w.c) && w.starts == w.c.b.cycle && !w.c.plan.initializeOnly && |w.c.b.participants| > 1
  }

  lemma RefusedLetsGo(run: seq<World>, pc: Pc, healthy: bool)
    requires Run(run) && Rejected(pc) in End(run).events && Quiet(End(run)) && MayCancel(End(run).c.b.state)
    ensures var next := End(Refused(run, pc, healthy));
            && LettingGo(End(run), next) && next.starts == End(run).starts == next.c.b.cycle
            && next.c.sync == End(run).c.sync && next.c.plan == End(run).c.plan
  {
    RunInv(run, |run| - 1);
    EnteringRelease(End(run));
  }

  /** After a refused command that is cancelled, with no start on its way, another cycle can
      still start if and only if the clocks are being asked for before the first
      initialization. */
  lemma RefusalDecides(run: seq<World>, pc: Pc, healthy: bool)
    requires Run(run) && Rejected(pc) in End(run).events && Quiet(End(run)) && MayCancel(End(run).c.b.state)
    ensures Run(Refused(run, pc, healthy))
    ensures NoMoreStarts(Refused(run, pc, healthy)) <==> End(run).c.sync != Some(InitializeAt)
  {
    var refused := Refused(run, pc, healthy);
    RefusedRuns(run, pc, healthy);
    RefusedLetsGo(run, pc, healthy);
    if End(run).c.sync == Some(InitializeAt) {
      RunOk(refused, |refused| - 1);
      GoesNowhere(End(refused));
      var u := AnotherStart(End(refused), End(refused));
      var longer := Continuations.Extended(refused, u);
    } else {
      forall longer | Continues(refused, longer) ensures End(longer).starts == End(refused).starts {
        assert longer[|refused| - 1] == longer[..|refused|][|refused| - 1];
        RestForGood(longer, |refused| - 1, |longer| - 1);
      }
    }
  }

  // ----- Stops that an operator asks for ------------------------------------------------------------------------------

  /** A stop at once: every PC is told, and nothing comes any more. */
  lemma StopEndsAtOnce(run: seq<World>, i: nat, j: nat)
    requires Run(run) && i < j < |run| && Active(run[i].c)
    requires run[i + 1] == After(run[i], StopRequested(run[i].c, false))
    ensures !Active(run[i + 1].c) && run[i + 1].c.b.state.Stopped? && SentNow(run[i], run[i + 1], StopAll)
    ensures Over(run[i + 1], run[j])
  {
    var c := run[i].c;
    RunInv(run, i);
    forall sent | sent in run[i].commands ensures sent.id < c.nextId { assert CommandOk(run[i], sent); }
    assert Command(c.nextId, StopAll, c.b.cycle) in run[i + 1].commands;
    OverForGood(run, i + 1, j);
  }

  /** A stop after the cycle: every PC is told, and the stop is kept. */
  lemma StopAfterCycleIsTold(run: seq<World>, i: nat, j: nat)
    requires Run(run) && i < j < |run| && Active(run[i].c)
    requires run[i + 1] == After(run[i], StopRequested(run[i].c, true))
    ensures SentNow(run[i], run[i + 1], StopAfterCycle) && Active(run[i + 1].c) && run[j].c.b.stopAfterCycle
  {
    var c := run[i].c;
    RunInv(run, i);
    forall sent | sent in run[i].commands ensures sent.id < c.nextId { assert CommandOk(run[i], sent); }
    assert Command(c.nextId, StopAfterCycle, c.b.cycle) in run[i + 1].commands;
    StopIsKept(run, i + 1, j);
  }

  // ----- Commands that nobody acknowledges ------------------------------------------------------------------------------

  /** A command was sent, and some PC has not acknowledged it in time. */
  ghost predicate Unanswered(c: Coordinator) {
    Active(c) && c.pending.Awaiting? && !(c.acks >= c.b.participants)
  }

  /** Before anything can have moved, the execution is cancelled. */
  predicate CancelsWhenLate(kind: CommandKind, late: bool) {
    kind.Prepare? || (kind.At? && !(kind.action.StartAt? && late))
  }

  lemma LateAnswerCancels(run: seq<World>, i: nat, late: bool, released: bool)
    requires Run(run) && i + 1 < |run| && Unanswered(run[i].c)
    requires run[i + 1] == After(run[i], AckDeadline(run[i].c, late, released))
    requires CancelsWhenLate(run[i].c.pending.kind, late)
    ensures if released && |run[i].c.b.participants| > 1 then LettingGo(run[i], run[i + 1])
            else Dropped(run[i], run[i + 1])
  {
    RunInv(run, i);
    if released && |run[i].c.b.participants| > 1 { EnteringRelease(run[i]); }
  }

  /** Otherwise everybody is stopped. */
  lemma LateAnswerStopsAll(run: seq<World>, i: nat, j: nat, late: bool, released: bool)
    requires Run(run) && i < j < |run| && Unanswered(run[i].c)
    requires run[i + 1] == After(run[i], AckDeadline(run[i].c, late, released))
    requires !CancelsWhenLate(run[i].c.pending.kind, late)
    ensures Failed(run[i], run[i + 1]) && Over(run[i + 1], run[j])
  {
    RunInv(run, i);
    HaltIsFailure(run[i], run[i].c);
    OverForGood(run, i + 1, j);
  }

  /** The report that a command has been scheduled. */
  predicate Acknowledges(c: Coordinator, event: Event, pc: Pc) {
    c.pending.Awaiting? &&
    match event
    case InitializationScheduled(q, id) => q == pc && id == c.pending.id
    case StartReserved(q, cycle, id) =>
      q == pc && id == c.pending.id && pc in c.b.participants && c.b.state.StartScheduled? && cycle == c.b.cycle + 1
    case _ => false
  }

  /** It is counted, and with the last one nothing is waited for any more. */
  lemma AnswersAreCounted(run: seq<World>, i: nat, pc: Pc, event: Event, around: Surroundings)
    requires Run(run) && i + 1 < |run| && Active(run[i].c) && Answers(run[i], run[i + 1], event, around)
    requires Acknowledges(run[i].c, event, pc)
    ensures run[i + 1].c.acks == run[i].c.acks + {pc} && run[i + 1].commands == run[i].commands
    ensures run[i + 1].c.pending ==
            if run[i].c.acks + {pc} >= run[i].c.b.participants then Nothing else run[i].c.pending
  {
  }

  /** A PC has stopped of its own accord: a run that is to stop releases everybody, any other
      one rests. */
  lemma StoppingEnds(run: seq<World>, i: nat, pc: Pc, id: nat, around: Surroundings)
    requires Run(run) && i + 1 < |run| && Active(run[i].c) && !Cancelling(run[i].c)
    requires Answers(run[i], run[i + 1], StoppedReport(pc, id), around)
    ensures Stopping(run[i].c) ==> Releases(run[i], run[i + 1])
    ensures !Stopping(run[i].c) && !run[i].c.b.state.Releasing? ==>
              run[i + 1].c.b.state.Stopped? && run[i + 1].commands == run[i].commands
  {
    RunOk(run, i);
    RunOk(run, i + 1);
  }

  // ----- Initializing alone ----------------------------------------------------------------------------------------------

  /** The PCs get ready or rest, and nothing but that is under way. */
  ghost predicate Initializes(c: Coordinator) {
    c.plan.initializeOnly &&
    (Active(c) ==>
       && (c.b.state.Preparing? || c.b.state.Initializing? || Resting(c.b.state)) && c.b.cycle == 0
       && (c.sync.None? || c.sync == Some(InitializeAt)) && c.timers == 0)
  }

  ghost predicate StaysInitializing(o: Outcome) {
    Initializes(o.0) && StartsIn(o.1) == 0
  }

  lemma InitializingEarly(c: Coordinator, event: Event, around: Surroundings)
    requires Initializes(c) && BeforeTheMotion(event)
    ensures StaysInitializing(OnEvent(c, event, around))
  {
  }

  lemma InitializingLate(c: Coordinator, event: Event, around: Surroundings)
    requires Initializes(c) && !BeforeTheMotion(event) && (event.MotionStarted? ==> event.cycle == 0)
    ensures StaysInitializing(OnEvent(c, event, around))
  {
  }

  lemma InitializingClock(c: Coordinator, pc: Pc, healthy: bool)
    requires Initializes(c)
    ensures StaysInitializing(SyncAcknowledged(c, pc)) && StaysInitializing(TimerFired(c, healthy))
  {
  }

  lemma InitializingStop(c: Coordinator, afterCycle: bool, late: bool, released: bool)
    requires Initializes(c)
    ensures StaysInitializing(StopRequested(c, afterCycle)) && StaysInitializing((StopCommanded(c), []))
    ensures StaysInitializing(Cancel(c, released)) && StaysInitializing(PeerFailure(c))
    ensures StaysInitializing(AckDeadline(c, late, released))
  {
  }

  lemma InitializingAfter(w: World, o: Outcome)
    requires StaysInitializing(o) && w.starts == 0
    ensures Initializes(After(w, o).c) && After(w, o).starts == 0
  {
  }

  lemma InitializingHears(w: World, event: Event, around: Surroundings)
    requires Inv(w, 0) && Initializes(w.c) && w.starts == 0 && event in w.events
    ensures Initializes(After(w, OnEvent(w.c, event, around)).c) && After(w, OnEvent(w.c, event, around)).starts == 0
  {
    assert EventOk(w, event);
    if BeforeTheMotion(event) {
      InitializingEarly(w.c, event, around);
    } else {
      InitializingLate(w.c, event, around);
    }
    InitializingAfter(w, OnEvent(w.c, event, around));
  }

  lemma InitializingStep(w: World, next: World)
    requires Inv(w, 0) && CoordinatorStep(w, next) && Initializes(w.c) && w.starts == 0
    ensures Initializes(next.c) && next.starts == 0
  {
    if event, around :| event in w.events && next == After(w, OnEvent(w.c, event, around)) {
      InitializingHears(w, event, around);
    } else if pc :| next == After(w, SyncAcknowledged(w.c, pc)) {
      InitializingClock(w.c, pc, true);
      InitializingAfter(w, SyncAcknowledged(w.c, pc));
    } else if healthy :| next == After(w, TimerFired(w.c, healthy)) {
      InitializingClock(w.c, 0, healthy);
      InitializingAfter(w, TimerFired(w.c, healthy));
    } else if afterCycle :| next == After(w, StopRequested(w.c, afterCycle)) {
      InitializingStop(w.c, afterCycle, true, true);
      InitializingAfter(w, StopRequested(w.c, afterCycle));
    } else {
      InitializingGivesUp(w, next);
    }
  }

  lemma InitializingGivesUp(w: World, next: World)
    requires Initializes(w.c) && w.starts == 0
    requires
      || (exists late, released :: next == After(w, AckDeadline(w.c, late, released)))
      || (exists released :: next == After(w, Cancel(w.c, released)))
      || next == After(w, PeerFailure(w.c))
      || next == After(w, (StopCommanded(w.c), []))
    ensures Initializes(next.c) && next.starts == 0
  {
    if late, released :| next == After(w, AckDeadline(w.c, late, released)) {
      InitializingStop(w.c, true, late, released);
      InitializingAfter(w, AckDeadline(w.c, late, released));
    } else if released :| next == After(w, Cancel(w.c, released)) {
      InitializingStop(w.c, true, true, released);
      InitializingAfter(w, Cancel(w.c, released));
    } else if next == After(w, PeerFailure(w.c)) {
      InitializingStop(w.c, true, true, true);
      InitializingAfter(w, PeerFailure(w.c));
    } else {
      InitializingStop(w.c, true, true, true);
      InitializingAfter(w, (StopCommanded(w.c), []));
    }
  }

  /** A run that is only to initialize starts no motion. */
  lemma {:induction false} InitializingStartsNothing(run: seq<World>, j: nat)
    requires Run(run) && j < |run| && run[0].c.plan.initializeOnly
    ensures Initializes(run[j].c) && run[j].starts == 0
    decreases j
  {
    if j > 0 {
      InitializingStartsNothing(run, j - 1);
      RunInv(run, j - 1);
      assert StepAt(run, j - 1);
      if CoordinatorStep(run[j - 1], run[j]) {
        InitializingStep(run[j - 1], run[j]);
      } else {
        RunOk(run, j - 1);
        PcStepOk(run[j - 1], run[j]);
      }
    }
  }

  /** Once its PCs are armed together, it is over, and they are told to let go. */
  lemma InitializingEnds(run: seq<World>, i: nat, j: nat, pc: Pc, at: nat, around: Surroundings)
    requires Run(run) && i < j < |run| && Active(run[i].c) && Answers(run[i], run[i + 1], ArmedReport(pc, at), around)
    requires var c := run[i].c;
             && c.plan.initializeOnly && c.b.state.Initializing? && pc in c.b.participants
             && c.b.armed + {pc} == c.b.participants
             && Within(MarkArmed(c.b, pc, at).value.initializeSpread, 70_000_000)
    ensures !Active(run[i + 1].c) && run[i + 1].c.b.state.Stopped? && SentNow(run[i], run[i + 1], CancelBeforeStart)
    ensures Over(run[i + 1], run[j])
  {
    var c := run[i].c;
    RunInv(run, i);
    forall sent | sent in run[i].commands ensures sent.id < c.nextId { assert CommandOk(run[i], sent); }
    assert Command(c.nextId, CancelBeforeStart, c.b.cycle) in run[i + 1].commands;
    OverForGood(run, i + 1, j);
  }
}

/** The coordinator around the barrier: how it answers the reports of the PCs, when it
    synchronises clocks, and which commands it sends out. */
module Coordination {
  import opened MotionTypes
  import opened GroupBarrier

  datatype CommandKind = Prepare | At(action: ActionKind) | CancelBeforeStart | StopAll | StopAfterCycle

  datatype Command = Command(id: nat, kind: CommandKind, cycle: nat)

  /** What a PC reports; reports of other kinds, or of a failure to do what they name,
      change nothing. */
  datatype Event =
    | ReadyReport(pc: Pc, id: nat)
    | Rejected(pc: Pc)
    | ArmedReport(pc: Pc, at: nat)
    | InitializationScheduled(pc: Pc, id: nat)
    | StartReserved(pc: Pc, cycle: nat, id: nat)
    | MotionStarted(pc: Pc, cycle: nat, at: nat)
    | MotionDone(pc: Pc, cycle: nat)
    | CycleInitialized(pc: Pc, cycle: nat)
    | StoppedReport(pc: Pc, id: nat)
    | Error(pc: Pc)

  /** What the coordinator finds out while it answers: whether the other PCs are healthy,
      and whether its own worker let go. */
  datatype Surroundings = Surroundings(healthy: bool, released: bool)

  /** The command whose acknowledgements are awaited. */
  datatype Pending = Nothing | Awaiting(kind: CommandKind, id: nat)

  datatype Plan = Plan(me: Pc, once: bool, initializeOnly: bool, dwell: bool)

  datatype Coordinator = Coordinator(
    plan: Plan, b: Barrier, sync: Option<ActionKind>, syncReady: set<Pc>, timers: nat,
    pending: Pending, acks: set<Pc>, releaseError: bool, nextId: nat)

  type Outcome = (Coordinator, seq<Command>)

  /** 70 ms, in nanoseconds. */
  const MaxStartSpread: nat := 70_000_000

  predicate Active(c: Coordinator) { c.b.participants != {} }

  // ----- Giving up -------------------------------------------------------------------------------

  function StopAndClear(c: Coordinator, error: bool): Coordinator {
    c.(b := StopNow(c.b, error).(participants := {}),
       sync := None, syncReady := {}, pending := Nothing, acks := {}, releaseError := false)
  }

  function Halt(c: Coordinator): Outcome {
    (StopAndClear(c, true).(nextId := c.nextId + 1), [Command(c.nextId, StopAll, c.b.cycle)])
  }

  function PeerFailure(c: Coordinator): Outcome {
    if !Active(c) then (c, []) else Halt(c)
  }

  function EnterRelease(c: Coordinator, released: bool, error: bool): Outcome {
    var acks := if released then {c.plan.me} else {};
    var next := c.(b := c.b.(state := Releasing), pending := Awaiting(CancelBeforeStart, c.nextId),
                   acks := acks, releaseError := error, nextId := c.nextId + 1);
    if acks >= c.b.participants then (StopAndClear(next, error), [])
    else (next, [Command(c.nextId, CancelBeforeStart, c.b.cycle)])
  }

  predicate Cancelling(c: Coordinator) { c.pending.Awaiting? && c.pending.kind == CancelBeforeStart }

  function BeginRelease(c: Coordinator, released: bool): Outcome {
    if !Active(c) || Cancelling(c) then (c, []) else EnterRelease(c, released, false)
  }

  function Cancel(c: Coordinator, released: bool): Outcome {
    if !Active(c) then (c, [])
    else if released && |c.b.participants| > 1 then EnterRelease(c, true, true)
    else (StopAndClear(c, true), [])
  }

  // ----- Going on ----------------------------------------------------------------------------------

  function Publish(c: Coordinator, action: Action): Outcome {
    (c.(pending := Awaiting(At(action.kind), c.nextId), acks := {}, nextId := c.nextId + 1),
     [Command(c.nextId, At(action.kind), action.cycle)])
  }

  function NextAction(b: Barrier, kind: ActionKind): Option<(Barrier, Action)> {
    match kind
    case InitializeAt => InitializeAction(b)
    case CycleInitializeAt => CycleInitializeAction(b)
    case StartAt => StartAction(b)
  }

  /** Once every PC's clock is known, the action that was waiting for it goes out. */
  function CompleteSync(c: Coordinator): Outcome {
    if c.sync.None? || c.syncReady < c.b.participants then (c, [])
    else
      var next := NextAction(c.b, c.sync.value);
      if next.None? then (c.(sync := None), [])
      else Publish(c.(sync := None, b := next.value.0), next.value.1)
  }

  function BeginSync(c: Coordinator, kind: ActionKind): Outcome {
    CompleteSync(c.(sync := Some(kind), syncReady := {c.plan.me}))
  }

  /** A PC acknowledges its clock offset. */
  function SyncAcknowledged(c: Coordinator, pc: Pc): Outcome {
    if c.sync.None? || pc !in c.b.participants || pc == c.plan.me then (c, [])
    else CompleteSync(c.(syncReady := c.syncReady + {pc}))
  }

  function NextStart(c: Coordinator, healthy: bool): Outcome {
    if !healthy then PeerFailure(c) else BeginSync(c, StartAt)
  }

  function NextInitialization(c: Coordinator, healthy: bool): Outcome {
    if !healthy then PeerFailure(c) else BeginSync(c, CycleInitializeAt)
  }

  function NextCycle(c: Coordinator, healthy: bool): Outcome {
    if c.plan.dwell then (c.(timers := c.timers + 1), []) else NextInitialization(c, healthy)
  }

  /** The dwell between two cycles is over. */
  function TimerFired(c: Coordinator, healthy: bool): Outcome {
    if c.timers == 0 then (c, [])
    else
      var next := c.(timers := c.timers - 1);
      if !Active(next) then (next, []) else NextInitialization(next, healthy)
  }

  function Acknowledged(c: Coordinator, pc: Pc, id: nat): Coordinator {
    if c.pending.Nothing? || id != c.pending.id then c
    else
      var acks := c.acks + {pc};
      c.(acks := acks, pending := if acks >= c.b.participants then Nothing else c.pending)
  }

  function FinishInitialization(c: Coordinator): Outcome {
    (StopAndClear(c, false).(nextId := c.nextId + 1), [Command(c.nextId, CancelBeforeStart, c.b.cycle)])
  }

  // ----- Answering a report ---------------------------------------------------------------------------

  function OnReady(c: Coordinator, pc: Pc, id: nat): Outcome {
    var acked := Acknowledged(c, pc, id);
    var marked := MarkReady(acked.b, pc);
    if marked.None? then (acked, [])
    else
      var next := acked.(b := marked.value);
      if next.b.ready == next.b.participants then BeginSync(next, InitializeAt) else (next, [])
  }

  predicate Cancellable(state: State) {
    (BeforeMotion(state) && state != CycleReady) || state.MotionCompleted? || state.CycleInitializing?
  }

  function OnRejected(c: Coordinator, released: bool): Outcome {
    if Cancellable(c.b.state) then Cancel(c, released) else PeerFailure(c)
  }

  function OnArmed(c: Coordinator, pc: Pc, at: nat, healthy: bool): Outcome {
    var marked := MarkArmed(c.b, pc, at);
    if marked.None? then (c, [])
    else
      var next := c.(b := marked.value);
      if next.b.state != Armed then (next, [])
      else if !Within(next.b.initializeSpread, MaxStartSpread) then Halt(next)
      else if c.plan.initializeOnly then FinishInitialization(next)
      else NextStart(next, healthy)
  }

  function OnStartReserved(c: Coordinator, pc: Pc, cycle: nat, id: nat): Outcome {
    var marked := MarkScheduled(c.b, pc, cycle);
    if marked.None? then (c, []) else (Acknowledged(c.(b := marked.value), pc, id), [])
  }

  function OnMotionStarted(c: Coordinator, pc: Pc, cycle: nat, at: nat): Outcome {
    var marked := MarkTriggered(c.b, pc, cycle, at);
    if marked.None? then (c, [])
    else
      var next := c.(b := marked.value);
      if !Within(next.b.startSpread, MaxStartSpread) then Halt(next) else (next, [])
  }

  predicate Stopping(c: Coordinator) { c.b.stopAfterCycle || c.plan.once }

  /** Every PC has completed the motion: the end, or the next cycle. */
  function AtBarrier(c: Coordinator, around: Surroundings): Outcome {
    if Stopping(c) then BeginRelease(c, around.released) else NextCycle(c, around.healthy)
  }

  function OnMotionDone(c: Coordinator, pc: Pc, cycle: nat, around: Surroundings): Outcome {
    var marked := MarkMotionCompleted(c.b, pc, cycle);
    if marked.None? then (c, [])
    else
      var next := c.(b := marked.value);
      if next.b.state != MotionCompleted then (next, []) else AtBarrier(next, around)
  }

  function OnCycleInitialized(c: Coordinator, pc: Pc, cycle: nat, healthy: bool): Outcome {
    var marked := MarkCycleInitialized(c.b, pc, cycle);
    if marked.None? then (c, [])
    else
      var next := c.(b := marked.value);
      if next.b.state == CycleReady then NextStart(next, healthy) else (next, [])
  }

  function OnStopped(c: Coordinator, pc: Pc, id: nat, released: bool): Outcome {
    if Cancelling(c) then
      if id != c.pending.id then (c, [])
      else
        var next := Acknowledged(c, pc, id);
        if next.acks >= next.b.participants then (StopAndClear(next, next.releaseError), []) else (next, [])
    else if Stopping(c) then BeginRelease(c, released)
    else if c.b.state != Releasing then (c.(b := StopNow(c.b, false)), [])
    else (c, [])
  }

  function OnEvent(c: Coordinator, event: Event, around: Surroundings): Outcome {
    if !Active(c) then (c, [])
    else match event
      case ReadyReport(pc, id) => OnReady(c, pc, id)
      case Rejected(_) => OnRejected(c, around.released)
      case ArmedReport(pc, at) => OnArmed(c, pc, at, around.healthy)
      case InitializationScheduled(pc, id) => (Acknowledged(c, pc, id), [])
      case StartReserved(pc, cycle, id) => OnStartReserved(c, pc, cycle, id)
      case MotionStarted(pc, cycle, at) => OnMotionStarted(c, pc, cycle, at)
      case MotionDone(pc, cycle) => OnMotionDone(c, pc, cycle, around)
      case CycleInitialized(pc, cycle) => OnCycleInitialized(c, pc, cycle, around.healthy)
      case StoppedReport(pc, id) => OnStopped(c, pc, id, around.released)
      case Error(_) => PeerFailure(c)
  }

  /** An operator asks this PC for a stop after the cycle, or for a stop at once. */
  function StopRequested(c: Coordinator, afterCycle: bool): Outcome {
    if !Active(c) then (c, [])
    else if afterCycle then
      (c.(b := RequestStopAfterCycle(c.b), nextId := c.nextId + 1), [Command(c.nextId, StopAfterCycle, c.b.cycle)])
    else (StopAndClear(c, false).(nextId := c.nextId + 1), [Command(c.nextId, StopAll, c.b.cycle)])
  }

  /** Another PC asks for a stop after the cycle: only the flag is set. */
  function StopCommanded(c: Coordinator): Coordinator {
    if !Active(c) then c else c.(b := c.b.(stopAfterCycle := true))
  }

  /** A command was not acknowledged in time. */
  function AckDeadline(c: Coordinator, late: bool, released: bool): Outcome {
    if c.pending.Nothing? || c.acks >= c.b.participants then (c, [])
    else if c.pending.kind.Prepare? || (c.pending.kind.At? && !(c.pending.kind.action.StartAt? && late))
    then Cancel(c, released)
    else PeerFailure(c)
  }

  // ----- The object -------------------------------------------------------------------------------------

  class CoordinationNode {
    const plan: Plan
    const execution: GroupExecution
    var sync: Option<ActionKind>
    var syncReady: set<Pc>
    var timers: nat
    var pending: Pending
    var acks: set<Pc>
    var releaseError: bool
    var nextId: nat

    function Now(): Coordinator
      reads this, execution
    {
      Coordinator(plan, execution.Now(), sync, syncReady, timers, pending, acks, releaseError, nextId)
    }

    constructor (plan: Plan)
      ensures this.plan == plan && fresh(execution)
      ensures execution.Now() == Fresh({}, 0).(state := Idle)
      ensures sync == None && timers == 0 && pending == Nothing
    {
      this.plan := plan;
      execution := new GroupExecution();
      sync, syncReady, timers, pending, acks, releaseError, nextId := None, {}, 0, Nothing, {}, false, 0;
    }

    /** Starts an execution: everything of an earlier one is forgotten (a timer that it
        left running would find another execution and do nothing), and every PC is asked
        to prepare. */
    method StartGroup(selected: set<Pc>, cycles: nat) returns (commands: seq<Command>)
      modifies this, execution
      ensures commands == [] ==> Now() == old(Now())
      ensures commands != [] ==>
                && 2 <= |selected| <= 8 && plan.me in selected && old(execution.participants) == {}
                && commands == [Command(old(nextId), Prepare, 0)]
                && Now() == Coordinator(plan, Fresh(selected, cycles), None, {}, 0,
                              Awaiting(Prepare, old(nextId)), {}, false, old(nextId) + 1)
    {
      if |selected| < 2 {
        return [];
      }
      var ok := execution.Begin(plan.me, selected, cycles);
      if !ok {
        return [];
      }
      commands := [Command(nextId, Prepare, 0)];
      sync, syncReady, pending, acks, nextId := None, {}, Awaiting(Prepare, nextId), {}, nextId + 1;
      releaseError, timers := false, 0;
    }

    method ClearActive(error: bool)
      modifies this`sync, this`syncReady, this`pending, this`acks, this`releaseError, execution
      ensures Now() == StopAndClear(old(Now()), error)
    {
      execution.Stop(error);
      execution.ClearActive();
      sync, syncReady, pending, acks, releaseError := None, {}, Nothing, {}, false;
    }

    method HaltAll() returns (commands: seq<Command>)
      modifies this, execution
      ensures (Now(), commands) == Halt(old(Now()))
    {
      commands := [Command(nextId, StopAll, execution.cycle)];
      ClearActive(true);
      nextId := nextId + 1;
    }

    method StopForPeerFailure() returns (commands: seq<Command>)
      modifies this, execution
      ensures (Now(), commands) == PeerFailure(old(Now()))
    {
      if execution.participants == {} {
        return [];
      }
      commands := HaltAll();
    }

    method EnterGroupRelease(released: bool, error: bool) returns (commands: seq<Command>)
      modifies this, execution
      ensures (Now(), commands) == EnterRelease(old(Now()), released, error)
    {
      commands := [Command(nextId, CancelBeforeStart, execution.cycle)];
      pending, nextId := Awaiting(CancelBeforeStart, nextId), nextId + 1;
      execution.state := Releasing;
      acks := if released then {plan.me} else {};
      releaseError := error;
      if acks >= execution.participants {
        ClearActive(error);
        return [];
      }
    }

    method BeginGroupRelease(released: bool) returns (commands: seq<Command>)
      modifies this, execution
      ensures (Now(), commands) == BeginRelease(old(Now()), released)
    {
      if execution.participants == {} {
        return [];
      }
      if pending.Awaiting? && pending.kind == CancelBeforeStart {
        return [];
      }
      commands := EnterGroupRelease(released, false);
    }

    method CancelExecution(released: bool) returns (commands: seq<Command>)
      modifies this, execution
      ensures (Now(), commands) == Cancel(old(Now()), released)
    {
      commands := [];
      if execution.participants == {} {
        return;
      }
      if !released {
        ClearActive(true);
        return;
      }
      if |execution.participants| > 1 {
        commands := EnterGroupRelease(true, true);
      } else {
        ClearActive(true);
      }
    }

    method PublishAction(action: Action) returns (commands: seq<Command>)
      modifies this`pending, this`acks, this`nextId
      ensures (Now(), commands) == Publish(old(Now()), action)
    {
      commands := [Command(nextId, At(action.kind), action.cycle)];
      pending, acks, nextId := Awaiting(At(action.kind), nextId), {}, nextId + 1;
    }

    method TakeAction(kind: ActionKind) returns (action: Option<Action>)
      modifies execution
      ensures NextAction(old(execution.Now()), kind).None? ==> action.None? && execution.Now() == old(execution.Now())
      ensures NextAction(old(execution.Now()), kind).Some? ==>
                action.Some? && (execution.Now(), action.value) == NextAction(old(execution.Now()), kind).value
    {
      match kind {
        case InitializeAt => action := execution.BeginInitialization();
        case CycleInitializeAt => action := execution.BeginCycleInitialization();
        case StartAt => action := execution.BeginStart();
      }
    }

    method CompleteTriggerSyncIfReady() returns (commands: seq<Command>)
      modifies this, execution
      ensures (Now(), commands) == CompleteSync(old(Now()))
    {
      commands := [];
      if sync.None? {
        return;
      }
      if syncReady < execution.participants {
        return;
      }
      var kind := sync.value;
      sync := None;
      var action := TakeAction(kind);
      if action.Some? {
        commands := PublishAction(action.value);
      }
    }

    method BeginTriggerSync(kind: ActionKind) returns (commands: seq<Command>)
      modifies this, execution
      ensures (Now(), commands) == BeginSync(old(Now()), kind)
    {
      sync, syncReady := Some(kind), {plan.me};
      commands := CompleteTriggerSyncIfReady();
    }

    method AcceptSyncResult(pc: Pc) returns (commands: seq<Command>)
      modifies this, execution
      ensures (Now(), commands) == SyncAcknowledged(old(Now()), pc)
    {
      commands := [];
      if sync.None? || pc !in execution.participants || pc == plan.me {
        return;
      }
      syncReady := syncReady + {pc};
      commands := CompleteTriggerSyncIfReady();
    }

    method PublishNextStart(healthy: bool) returns (commands: seq<Command>)
      modifies this, execution
      ensures (Now(), commands) == NextStart(old(Now()), healthy)
    {
      if !healthy {
        commands := StopForPeerFailure();
      } else {
        commands := BeginTriggerSync(StartAt);
      }
    }

    method PublishNextCycle(healthy: bool) returns (commands: seq<Command>)
      modifies this, execution
      ensures (Now(), commands) == NextCycle(old(Now()), healthy)
    {
      commands := [];
      if plan.dwell {
        timers := timers + 1;
      } else {
        commands := PublishNextCycleInitialization(healthy);
      }
    }

    method PublishNextCycleInitialization(healthy: bool) returns (commands: seq<Command>)
      modifies this, execution
      ensures (Now(), commands) == NextInitialization(old(Now()), healthy)
    {
      if !healthy {
        commands := StopForPeerFailure();
      } else {
        commands := BeginTriggerSync(CycleInitializeAt);
      }
    }

    method OnTimer(healthy: bool) returns (commands: seq<Command>)
      modifies this, execution
      ensures (Now(), commands) == TimerFired(old(Now()), healthy)
    {
      commands := [];
      if timers == 0 {
        return;
      }
      timers := timers - 1;
      if execution.participants != {} {
        commands := PublishNextCycleInitialization(healthy);
      }
    }

    method RecordAck(pc: Pc, id: nat)
      modifies this`acks, this`pending
      ensures Now() == Acknowledged(old(Now()), pc, id)
    {
      if pending.Nothing? || id != pending.id {
        return;
      }
      acks := acks + {pc};
      if acks >= execution.participants {
        pending := Nothing;
      }
    }

    method AcceptReady(pc: Pc, id: nat) returns (commands: seq<Command>)
      modifies this, execution
      ensures (Now(), commands) == OnReady(old(Now()), pc, id)
    {
      commands := [];
      RecordAck(pc, id);
      var ok := execution.AcceptReady(pc);
      if ok && execution.ready == execution.participants {
        commands := BeginTriggerSync(InitializeAt);
      }
    }

    method AcceptArmed(pc: Pc, at: nat, healthy: bool) returns (commands: seq<Command>)
      modifies this, execution
      ensures (Now(), commands) == OnArmed(old(Now()), pc, at, healthy)
    {
      commands := [];
      var ok := execution.AcceptArmed(pc, at);
      if !ok || execution.state != Armed {
        return;
      }
      if !Within(execution.initializeSpread, MaxStartSpread) {
        commands := HaltAll();
      } else if plan.initializeOnly {
        commands := [Command(nextId, CancelBeforeStart, execution.cycle)];
        ClearActive(false);
        nextId := nextId + 1;
      } else {
        commands := PublishNextStart(healthy);
      }
    }

    method AcceptStarted(pc: Pc, cycle: nat, at: nat) returns (commands: seq<Command>)
      modifies this, execution
      ensures (Now(), commands) == OnMotionStarted(old(Now()), pc, cycle, at)
    {
      commands := [];
      var ok := execution.AcceptTriggered(pc, cycle, at);
      if ok && !Within(execution.startSpread, MaxStartSpread) {
        commands := HaltAll();
      }
    }

    method AcceptDone(pc: Pc, cycle: nat, around: Surroundings) returns (commands: seq<Command>)
      modifies this, execution
      ensures (Now(), commands) == OnMotionDone(old(Now()), pc, cycle, around)
    {
      commands := [];
      var ok := execution.AcceptMotionCompleted(pc, cycle);
      if !ok || execution.state != MotionCompleted {
        return;
      }
      if execution.stopAfterCycle || plan.once {
        commands := BeginGroupRelease(around.released);
      } else {
        commands := PublishNextCycle(around.healthy);
      }
    }

    method AcceptInitialized(pc: Pc, cycle: nat, healthy: bool) returns (commands: seq<Command>)
      modifies this, execution
      ensures (Now(), commands) == OnCycleInitialized(old(Now()), pc, cycle, healthy)
    {
      commands := [];
      var ok := execution.AcceptCycleInitialized(pc, cycle);
      if ok && execution.state == CycleReady {
        commands := PublishNextStart(healthy);
      }
    }

    method AcceptStopped(pc: Pc, id: nat, released: bool) returns (commands: seq<Command>)
      modifies this, execution
      ensures (Now(), commands) == OnStopped(old(Now()), pc, id, released)
    {
      commands := [];
      if pending.Awaiting? && pending.kind == CancelBeforeStart {
        if id == pending.id {
          RecordAck(pc, id);
          if acks >= execution.participants {
            ClearActive(releaseError);
          }
        }
      } else if execution.stopAfterCycle || plan.once {
        commands := BeginGroupRelease(released);
      } else if execution.state != Releasing {
        execution.Stop(false);
      }
    }

    method EventCallback(event: Event, around: Surroundings) returns (commands: seq<Command>)
      modifies this, execution
      ensures (Now(), commands) == OnEvent(old(Now()), event, around)
    {
      commands := [];
      if execution.participants == {} {
        return;
      }
      match event {
        case ReadyReport(pc, id) => commands := AcceptReady(pc, id);
        case Rejected(_) =>
          if Cancellable(execution.state) {
            commands := CancelExecution(around.released);
          } else {
            commands := StopForPeerFailure();
          }
        case ArmedReport(pc, at) => commands := AcceptArmed(pc, at, around.healthy);
        case InitializationScheduled(pc, id) => RecordAck(pc, id);
        case StartReserved(pc, cycle, id) =>
          var ok := execution.AcceptScheduled(pc, cycle);
          if ok {
            RecordAck(pc, id);
          }
        case MotionStarted(pc, cycle, at) => commands := AcceptStarted(pc, cycle, at);
        case MotionDone(pc, cycle) => commands := AcceptDone(pc, cycle, around);
        case CycleInitialized(pc, cycle) => commands := AcceptInitialized(pc, cycle, around.healthy);
        case StoppedReport(pc, id) => commands := AcceptStopped(pc, id, around.released);
        case Error(_) => commands := StopForPeerFailure();
      }
    }
  }
}

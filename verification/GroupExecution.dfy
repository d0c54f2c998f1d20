/** The coordinator's barrier over the PCs of one group execution.  It never moves
    anything itself: it counts reports and says when the next command may go out. */
module GroupBarrier {
  import opened MotionTypes
  import opened Sorting

  type Pc = nat

  datatype State =
    | Idle | Preparing | Initializing | Armed | StartScheduled | Running | MotionCompleted
    | CycleInitializing | CycleReady | Stopped | Releasing | Failed

  datatype ActionKind = InitializeAt | CycleInitializeAt | StartAt

  datatype Action = Action(kind: ActionKind, cycle: nat)

  /** Everything the barrier remembers.  Trigger times are nanoseconds of the
      coordinator's clock. */
  datatype Barrier = Barrier(
    participants: set<Pc>, state: State, cycle: nat,
    ready: set<Pc>, armed: set<Pc>, completed: set<Pc>, initialized: set<Pc>, scheduled: set<Pc>,
    initializeTriggered: map<Pc, nat>, triggered: map<Pc, nat>,
    initializeSpread: Option<nat>, startSpread: Option<nat>,
    stopAfterCycle: bool, target: nat)

  function Fresh(participants: set<Pc>, target: nat): Barrier {
    Barrier(participants, Preparing, 0, {}, {}, {}, {}, {}, map[], map[], None, None, false, target)
  }

  /** The time between the first and the last of these times. */
  function SpreadOf(times: map<Pc, nat>): nat {
    var ordered := SortedSet(times.Values);
    if |ordered| < 2 then 0
    else
      assert ordered[0] < ordered[|ordered| - 1];
      ordered[|ordered| - 1] - ordered[0]
  }

  /** No two of the times lie further apart, and some two do lie that far apart. */
  lemma SpreadIsWidest(times: map<Pc, nat>)
    ensures forall p, q :: p in times && q in times ==> times[p] <= times[q] + SpreadOf(times)
    ensures times != map[] ==>
              exists p, q :: p in times && q in times && times[p] == times[q] + SpreadOf(times)
  {
    var ordered := SortedSet(times.Values);
    forall p, q | p in times && q in times ensures times[p] <= times[q] + SpreadOf(times) {
      Between(ordered, times[p]);
      Between(ordered, times[q]);
    }
    if times != map[] {
      var some :| some in times;
      assert times[some] in times.Values && times[some] in ordered;
      assert ordered[0] in times.Values && ordered[|ordered| - 1] in times.Values;
      var p :| p in times && times[p] == ordered[|ordered| - 1];
      var q :| q in times && times[q] == ordered[0];
    }
  }

  lemma Between(ordered: seq<nat>, x: nat)
    requires Increasing(ordered) && x in ordered
    ensures ordered[0] <= x <= ordered[|ordered| - 1]
  {
    var i :| 0 <= i < |ordered| && ordered[i] == x;
  }

  // ----- What every operation does; None is a refused call -------------------------------------

  function MarkReady(b: Barrier, pc: Pc): Option<Barrier> {
    if pc !in b.participants || b.state != Preparing then None
    else Some(b.(ready := b.ready + {pc}))
  }

  /** Does not ask what state the execution is in. */
  function InitializeAction(b: Barrier): Option<(Barrier, Action)> {
    if b.ready != b.participants then None
    else Some((b.(state := Initializing, scheduled := {}), Action(InitializeAt, 0)))
  }

  function MarkArmed(b: Barrier, pc: Pc, at: nat): Option<Barrier> {
    if pc !in b.participants || (b.state != Initializing && b.state != Armed) then None
    else
      var armed := b.armed + {pc};
      var times := if at > 0 then b.initializeTriggered[pc := at] else b.initializeTriggered;
      var next := b.(armed := armed, initializeTriggered := times);
      if armed != b.participants then Some(next)
      else if times.Keys >= b.participants then
        Some(next.(state := Armed, initializeSpread := Some(SpreadOf(times))))
      else Some(next.(state := Armed))
  }

  function StartAction(b: Barrier): Option<(Barrier, Action)> {
    var next := b.(state := StartScheduled, completed := {}, scheduled := {}, triggered := map[]);
    if b.state == Armed then Some((next, Action(StartAt, 1)))
    else if b.state == CycleReady && b.initialized == b.participants then Some((next, Action(StartAt, b.cycle + 1)))
    else None
  }

  function MarkScheduled(b: Barrier, pc: Pc, cycle: nat): Option<Barrier> {
    if pc !in b.participants || b.state != StartScheduled || cycle != b.cycle + 1 then None
    else Some(b.(scheduled := b.scheduled + {pc}))
  }

  /** Does not ask what state the execution is in. */
  function MarkTriggered(b: Barrier, pc: Pc, cycle: nat, at: nat): Option<Barrier> {
    if pc !in b.participants || cycle != b.cycle + 1 then None
    else
      var times := b.triggered[pc := at];
      if times.Keys >= b.participants then
        Some(b.(triggered := times, startSpread := Some(SpreadOf(times)), cycle := cycle, state := Running))
      else Some(b.(triggered := times))
  }

  /** No motion is under way or being wound up. */
  predicate BeforeMotion(state: State) {
    state.Preparing? || state.Initializing? || state.Armed? || state.CycleReady? || state.StartScheduled?
  }

  predicate AtRest(state: State) { state.Idle? || state.Stopped? || state.Failed? }

  function RequestStopAfterCycle(b: Barrier): Barrier {
    if BeforeMotion(b.state)
    then b.(stopAfterCycle := true, state := Stopped) else b.(stopAfterCycle := true)
  }

  function MarkMotionCompleted(b: Barrier, pc: Pc, cycle: nat): Option<Barrier> {
    if pc !in b.participants || b.state != Running || cycle != b.cycle then None
    else
      var next := b.(completed := b.completed + {pc});
      if next.completed != b.participants then Some(next)
      else if b.target > 0 && b.cycle >= b.target then Some(RequestStopAfterCycle(next.(state := MotionCompleted)))
      else Some(next.(state := MotionCompleted))
  }

  function CycleInitializeAction(b: Barrier): Option<(Barrier, Action)> {
    if b.state != MotionCompleted || b.completed != b.participants then None
    else Some((b.(state := CycleInitializing, initialized := {}, scheduled := {}), Action(CycleInitializeAt, b.cycle)))
  }

  function MarkCycleInitialized(b: Barrier, pc: Pc, cycle: nat): Option<Barrier> {
    if pc !in b.participants || b.state != CycleInitializing || cycle != b.cycle then None
    else
      var next := b.(initialized := b.initialized + {pc});
      if next.initialized == b.participants then Some(next.(state := CycleReady)) else Some(next)
  }

  function StopNow(b: Barrier, error: bool): Barrier {
    b.(state := if error then Failed else Stopped)
  }

  function Within(spread: Option<nat>, limit: nat): bool {
    spread.None? || spread.value <= limit
  }

  // ----- The object --------------------------------------------------------------------------------

  class GroupExecution {
    var participants: set<Pc>
    var state: State
    var cycle: nat
    var ready: set<Pc>
    var armed: set<Pc>
    var completed: set<Pc>
    var initialized: set<Pc>
    var scheduled: set<Pc>
    var initializeTriggered: map<Pc, nat>
    var triggered: map<Pc, nat>
    var initializeSpread: Option<nat>
    var startSpread: Option<nat>
    var stopAfterCycle: bool
    var target: nat

    function Now(): Barrier
      reads this
    {
      Barrier(participants, state, cycle, ready, armed, completed, initialized, scheduled,
        initializeTriggered, triggered, initializeSpread, startSpread, stopAfterCycle, target)
    }

    constructor ()
      ensures Now() == Fresh({}, 0).(state := Idle)
    {
      participants, state, cycle, stopAfterCycle, target := {}, Idle, 0, false, 0;
      ready, armed, completed, initialized, scheduled := {}, {}, {}, {}, {};
      initializeTriggered, triggered, initializeSpread, startSpread := map[], map[], None, None;
    }

    /** Starts a new execution with one to eight PCs, the coordinator among them, unless
        one is still held. */
    method Begin(coordinator: Pc, selected: set<Pc>, cycles: nat) returns (ok: bool)
      modifies this
      ensures ok <==>
              && 1 <= |selected| <= 8 && coordinator in selected
              && old(participants) == {} && AtRest(old(state))
      ensures Now() == if ok then Fresh(selected, cycles) else old(Now())
    {
      ok := 1 <= |selected| <= 8 && coordinator in selected && participants == {} && AtRest(state);
      if ok {
        Reset(selected, cycles);
      }
    }

    method ClearReports()
      modifies this`ready, this`armed, this`completed, this`initialized, this`scheduled
      modifies this`initializeTriggered, this`triggered, this`initializeSpread, this`startSpread
      ensures ready == armed == completed == initialized == scheduled == {}
      ensures initializeTriggered == triggered == map[] && initializeSpread == startSpread == None
    {
      ready, armed, completed, initialized, scheduled := {}, {}, {}, {}, {};
      initializeTriggered, triggered, initializeSpread, startSpread := map[], map[], None, None;
    }

    method Reset(selected: set<Pc>, cycles: nat)
      modifies this
      ensures Now() == Fresh(selected, cycles)
    {
      ClearReports();
      participants, state, cycle, stopAfterCycle, target := selected, Preparing, 0, false, cycles;
    }

    /** Gives the execution up, but keeps the state it ended in. */
    method ClearActive()
      modifies this`participants
      ensures Now() == old(Now()).(participants := {})
    {
      participants := {};
    }

    method AcceptReady(pc: Pc) returns (ok: bool)
      modifies this`ready
      ensures ok <==> MarkReady(old(Now()), pc).Some?
      ensures Now() == if ok then MarkReady(old(Now()), pc).value else old(Now())
    {
      if pc !in participants || state != Preparing {
        return false;
      }
      ready := ready + {pc};
      return true;
    }

    method BeginInitialization() returns (action: Option<Action>)
      modifies this`state, this`scheduled
      ensures action.Some? <==> InitializeAction(old(Now())).Some?
      ensures action.Some? ==> (Now(), action.value) == InitializeAction(old(Now())).value
      ensures action.None? ==> Now() == old(Now())
    {
      if ready != participants {
        return None;
      }
      state, scheduled := Initializing, {};
      return Some(Action(InitializeAt, 0));
    }

    method AcceptArmed(pc: Pc, at: nat) returns (ok: bool)
      modifies this`armed, this`initializeTriggered, this`initializeSpread, this`state
      ensures ok <==> MarkArmed(old(Now()), pc, at).Some?
      ensures Now() == if ok then MarkArmed(old(Now()), pc, at).value else old(Now())
    {
      ok := pc in participants && (state == Initializing || state == Armed);
      if !ok {
        return;
      }
      NoteArmed(pc, at);
      if armed == participants {
        CompleteArming();
      }
    }

    method NoteArmed(pc: Pc, at: nat)
      modifies this`armed, this`initializeTriggered
      ensures armed == old(armed) + {pc}
      ensures initializeTriggered == if at > 0 then old(initializeTriggered)[pc := at] else old(initializeTriggered)
    {
      armed := armed + {pc};
      if at > 0 {
        initializeTriggered := initializeTriggered[pc := at];
      }
    }

    method CompleteArming()
      modifies this`initializeSpread, this`state
      ensures state == Armed
      ensures initializeSpread ==
              if initializeTriggered.Keys >= participants then Some(SpreadOf(initializeTriggered))
              else old(initializeSpread)
    {
      if initializeTriggered.Keys >= participants {
        initializeSpread := Some(SpreadOf(initializeTriggered));
      }
      state := Armed;
    }

    method BeginStart() returns (action: Option<Action>)
      modifies this`state, this`completed, this`scheduled, this`triggered
      ensures action.Some? <==> StartAction(old(Now())).Some?
      ensures action.Some? ==> (Now(), action.value) == StartAction(old(Now())).value
      ensures action.None? ==> Now() == old(Now())
    {
      var next: nat;
      if state == Armed {
        next := 1;
      } else if state == CycleReady && initialized == participants {
        next := cycle + 1;
      } else {
        return None;
      }
      state, completed, scheduled, triggered := StartScheduled, {}, {}, map[];
      return Some(Action(StartAt, next));
    }

    method AcceptScheduled(pc: Pc, number: nat) returns (ok: bool)
      modifies this`scheduled
      ensures ok <==> MarkScheduled(old(Now()), pc, number).Some?
      ensures Now() == if ok then MarkScheduled(old(Now()), pc, number).value else old(Now())
    {
      if pc !in participants || state != StartScheduled || number != cycle + 1 {
        return false;
      }
      scheduled := scheduled + {pc};
      return true;
    }

    method AcceptTriggered(pc: Pc, number: nat, at: nat) returns (ok: bool)
      modifies this`triggered, this`startSpread, this`cycle, this`state
      ensures ok <==> MarkTriggered(old(Now()), pc, number, at).Some?
      ensures Now() == if ok then MarkTriggered(old(Now()), pc, number, at).value else old(Now())
    {
      if pc !in participants || number != cycle + 1 {
        return false;
      }
      triggered := triggered[pc := at];
      if triggered.Keys >= participants {
        startSpread := Some(SpreadOf(triggered));
        cycle, state := number, Running;
      }
      return true;
    }

    method StopAfterThisCycle()
      modifies this`stopAfterCycle, this`state
      ensures Now() == RequestStopAfterCycle(old(Now()))
    {
      stopAfterCycle := true;
      if BeforeMotion(state) {
        state := Stopped;
      }
    }

    method AcceptMotionCompleted(pc: Pc, number: nat) returns (ok: bool)
      modifies this`completed, this`state, this`stopAfterCycle
      ensures ok <==> MarkMotionCompleted(old(Now()), pc, number).Some?
      ensures Now() == if ok then MarkMotionCompleted(old(Now()), pc, number).value else old(Now())
    {
      if pc !in participants || state != Running || number != cycle {
        return false;
      }
      completed := completed + {pc};
      if completed == participants {
        state := MotionCompleted;
        if target > 0 && cycle >= target {
          StopAfterThisCycle();
        }
      }
      return true;
    }

    method BeginCycleInitialization() returns (action: Option<Action>)
      modifies this`state, this`initialized, this`scheduled
      ensures action.Some? <==> CycleInitializeAction(old(Now())).Some?
      ensures action.Some? ==> (Now(), action.value) == CycleInitializeAction(old(Now())).value
      ensures action.None? ==> Now() == old(Now())
    {
      if state != MotionCompleted || completed != participants {
        return None;
      }
      state, initialized, scheduled := CycleInitializing, {}, {};
      return Some(Action(CycleInitializeAt, cycle));
    }

    method AcceptCycleInitialized(pc: Pc, number: nat) returns (ok: bool)
      modifies this`initialized, this`state
      ensures ok <==> MarkCycleInitialized(old(Now()), pc, number).Some?
      ensures Now() == if ok then MarkCycleInitialized(old(Now()), pc, number).value else old(Now())
    {
      if pc !in participants || state != CycleInitializing || number != cycle {
        return false;
      }
      initialized := initialized + {pc};
      if initialized == participants {
        state := CycleReady;
      }
      return true;
    }

    method Stop(error: bool)
      modifies this`state
      ensures Now() == StopNow(old(Now()), error)
    {
      state := if error then Failed else Stopped;
    }
  }
}

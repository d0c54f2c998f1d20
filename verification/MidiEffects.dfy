/** What the messages about the MIDI surface do: who is told of a choice, what a grant, its
    end or a value changes, and how long a silent stream is believed in. */
module MidiEffects {
  import opened MotionTypes
  import opened MidiRelay

  ghost predicate Told(w: World, source: Pc, target: Pc, owned: bool, time: nat) {
    exists g :: g in w.grants && g.source == source && g.target == target && g.owned == owned && g.sentAt == time
  }

  /** A choice is told to the PC that is chosen, and its end to the PC that was. */
  lemma {:induction false} ChoiceIsTold(
    run: seq<World>, dev: Pc, timing: Timing, i: nat, pc: Pc, wanted: Option<Pc>)
    requires Run(run, dev, timing) && i + 1 < |run| && Chooses(run[i], run[i + 1], dev, pc, wanted)
    ensures run[i + 1].relays[pc].target == wanted
    ensures wanted.Some? ==> Told(run[i + 1], pc, wanted.value, true, run[i].now)
    ensures var before := run[i].relays[pc].target;
            before.Some? && before != wanted ==> Told(run[i + 1], pc, before.value, false, run[i].now)
  {
    RunInv(run, dev, timing, i);
    var r := run[i].relays[pc];
    assert RelayOk(run[i], dev, timing, pc);
    var sent := SetTarget(r, wanted, run[i].now).value.1;
    if wanted.Some? { assert sent[|sent| - 1] in run[i + 1].grants; }
    if r.target.Some? && r.target != wanted { assert sent[0] in run[i + 1].grants; }
  }

  /** Unplugged, the device is lent no more, and the PC that had the surface is told. */
  lemma {:induction false} UnpluggingIsTold(run: seq<World>, dev: Pc, timing: Timing, i: nat)
    requires Run(run, dev, timing) && i + 1 < |run| && run[i].relays[dev].deviceConnected
    requires run[i + 1] == Act(run[i], dev, dev, OnConnection(run[i].relays[dev], false, run[i].now))
    ensures run[i + 1].relays[dev].target == None && !HoldsDevice(run[i + 1].relays[dev])
    ensures var before := run[i].relays[dev].target;
            before.Some? && before.value != dev ==> Told(run[i + 1], dev, before.value, false, run[i].now)
  {
    RunInv(run, dev, timing, i);
    assert RelayOk(run[i], dev, timing, dev);
    var r := run[i].relays[dev];
    if r.target.Some? && r.target.value != dev {
      assert OnConnection(r, false, run[i].now).1[0] in run[i + 1].grants;
    }
  }

  /** A PC without the device has the surface with a grant, and no longer has it with its
      end; after that, values count anew. */
  lemma {:induction false} GrantDecides(run: seq<World>, dev: Pc, timing: Timing, i: nat, pc: Pc, g: Grant)
    requires Run(run, dev, timing) && i + 1 < |run| && Receives(run[i], run[i + 1], dev, timing, pc, g)
    requires pc != dev && run[i].relays[pc].grouped && g.target == pc && g.source != pc
    ensures OwnsSurface(run[i + 1].relays[pc]) <==> g.owned
    ensures !g.owned ==> run[i + 1].relays[pc].target == None && run[i + 1].relays[pc].gate == None
  {
    RunInv(run, dev, timing, i);
    assert RelayOk(run[i], dev, timing, pc);
  }

  /** The value is for this PC, which has a grant, and newer than all that it has taken. */
  predicate IsNew(r: Relay, v: Value) {
    && r.granted && r.grouped && v.target == r.me && v.source != r.me
    && (r.gate.None? || r.gate.value < v.number)
  }

  /** Such a value shows where the surface is, and that it is alive; any other one changes nothing. */
  lemma {:induction false} ValuesCount(run: seq<World>, dev: Pc, timing: Timing, i: nat, pc: Pc, v: Value)
    requires Run(run, dev, timing) && i + 1 < |run| && Hears(run[i], run[i + 1], dev, pc, v)
    ensures var r := run[i + 1].relays[pc];
            if IsNew(run[i].relays[pc], v)
            then r.remoteSource == Some(v.source) && r.remoteSeenAt == Some(run[i].now) && r.gate == Some(v.number)
            else r == run[i].relays[pc]
  {}

  // ----- A PC in one step --------------------------------------------------------------------------------

  /** What can be done to a PC, other than that time goes on for it. */
  ghost predicate Acts(r: Relay, next: Relay, now: nat) {
    || next == r
    || (exists wanted :: SetTarget(r, wanted, now).Ok? && next == SetTarget(r, wanted, now).value.0)
    || (exists connected :: next == OnConnection(r, connected, now).0)
    || (exists g :: next == OnGrant(r, g, now))
    || (exists v :: next == OnValue(r, v, now))
  }

  ghost predicate Steps(r: Relay, next: Relay, now: nat, ticked: bool) {
    if ticked then next == Tick(r, now).0 else Acts(r, next, now)
  }

  lemma {:induction false} PcSteps(w: World, next: World, dev: Pc, timing: Timing, pc: Pc)
    requires Inv(w, dev, timing) && Next(w, next, dev, timing) && pc in w.relays
    ensures pc in next.relays && pc in next.lastTick && w.now <= next.now
    ensures || (Steps(w.relays[pc], next.relays[pc], w.now, false) && next.lastTick[pc] == w.lastTick[pc])
            || (Steps(w.relays[pc], next.relays[pc], w.now, true) && next.lastTick[pc] == w.now)
  {
    assert RelayOk(w, dev, timing, pc);
    if p, wanted :| Chooses(w, next, dev, p, wanted) {
    } else if connected :| next == Act(w, dev, dev, OnConnection(w.relays[dev], connected, w.now)) {
    } else if p, g :| Receives(w, next, dev, timing, p, g) {
    } else if p, v :| Hears(w, next, dev, p, v) {
    } else if p :| Ticks(w, next, dev, p) {
    }
  }

  ghost predicate Stepped(w: World, next: World, pc: Pc, ticked: bool) {
    && pc in w.relays && pc in next.relays && pc in w.lastTick && pc in next.lastTick
    && Steps(w.relays[pc], next.relays[pc], w.now, ticked)
    && w.lastTick[pc] <= w.now <= next.now && next.lastTick[pc] == if ticked then w.now else w.lastTick[pc]
  }

  lemma {:induction false} RunSteps(run: seq<World>, dev: Pc, timing: Timing, i: nat, pc: Pc) returns (ticked: bool)
    requires Run(run, dev, timing) && i + 1 < |run| && pc in run[i].relays
    ensures Stepped(run[i], run[i + 1], pc, ticked)
  {
    RunInv(run, dev, timing, i);
    assert StepAt(run, dev, timing, i) && RelayOk(run[i], dev, timing, pc);
    PcSteps(run[i], run[i + 1], dev, timing, pc);
    ticked := !(Steps(run[i].relays[pc], run[i + 1].relays[pc], run[i].now, false)
                && run[i + 1].lastTick[pc] == run[i].lastTick[pc]);
  }

  // ----- A silent stream ---------------------------------------------------------------------------------

  /** At its last tick, the PC had heard something not long before, or believed in nothing. */
  ghost predicate Alive(w: World, pc: Pc) {
    && pc in w.relays && pc in w.lastTick
    && (w.relays[pc].remoteSeenAt.Some? ==>
          w.lastTick[pc] <= w.relays[pc].remoteSeenAt.value + StreamTimeout && w.relays[pc].remoteSeenAt.value <= w.now)
  }

  /** When a PC was last heard of changes with a value and at the end of the stream only; the
      gate only rises or opens. */
  predicate Heeds(r: Relay, next: Relay, now: nat) {
    && (next.remoteSeenAt == r.remoteSeenAt || next.remoteSeenAt == None || next.remoteSeenAt == Some(now))
    && (r.gate.Some? && next.gate.Some? ==> r.gate.value <= next.gate.value)
  }

  lemma {:induction false} ChoiceHeeds(r: Relay, wanted: Option<Pc>, now: nat)
    requires SetTarget(r, wanted, now).Ok?
    ensures Heeds(r, SetTarget(r, wanted, now).value.0, now)
  {}

  lemma {:induction false} MessagesHeed(r: Relay, connected: bool, g: Grant, v: Value, now: nat)
    ensures Heeds(r, OnConnection(r, connected, now).0, now)
    ensures Heeds(r, OnGrant(r, g, now), now)
    ensures Heeds(r, OnValue(r, v, now), now)
  {}

  lemma {:induction false} ActsHeed(r: Relay, next: Relay, now: nat)
    requires Acts(r, next, now)
    ensures Heeds(r, next, now)
  {
    forall wanted | SetTarget(r, wanted, now).Ok? ensures Heeds(r, SetTarget(r, wanted, now).value.0, now) {
      ChoiceHeeds(r, wanted, now);
    }
    forall connected ensures Heeds(r, OnConnection(r, connected, now).0, now) {
      MessagesHeed(r, connected, Grant(0, 0, false, false, 0), Value(0, 0, 0), now);
    }
    forall g ensures Heeds(r, OnGrant(r, g, now), now) { MessagesHeed(r, false, g, Value(0, 0, 0), now); }
    forall v ensures Heeds(r, OnValue(r, v, now), now) {
      MessagesHeed(r, false, Grant(0, 0, false, false, 0), v, now);
    }
  }

  lemma {:induction false} TickHeeds(r: Relay, now: nat)
    ensures Heeds(r, Tick(r, now).0, now)
    ensures var next := Tick(r, now).0;
            next.remoteSeenAt.Some? ==> now <= next.remoteSeenAt.value + StreamTimeout
  {}

  lemma {:induction false} RunAlive(run: seq<World>, dev: Pc, timing: Timing, i: nat, pc: Pc)
    requires Run(run, dev, timing) && i < |run| && pc in run[0].relays
    ensures Alive(run[i], pc)
  {
    if i > 0 {
      RunAlive(run, dev, timing, i - 1, pc);
      var ticked := RunSteps(run, dev, timing, i - 1, pc);
      if ticked {
        TickHeeds(run[i - 1].relays[pc], run[i - 1].now);
      } else {
        ActsHeed(run[i - 1].relays[pc], run[i].relays[pc], run[i - 1].now);
      }
    }
  }

  /** Over every run: a stream of values is believed in for a second and a tick after the last
      one that was taken, and no longer. */
  lemma {:induction false} SilentStreamEnds(run: seq<World>, dev: Pc, timing: Timing, i: nat, pc: Pc)
    requires Run(run, dev, timing) && i < |run| && pc in run[0].relays
    ensures pc in run[i].relays
    ensures var seenAt := run[i].relays[pc].remoteSeenAt;
            seenAt.Some? ==> seenAt.value <= run[i].now <= seenAt.value + StreamTimeout + timing.tick
  {
    RunAlive(run, dev, timing, i, pc);
    RunInv(run, dev, timing, i);
    assert RelayOk(run[i], dev, timing, pc);
  }

  // ----- Rising numbers ----------------------------------------------------------------------------------

  ghost predicate GateShut(w: World, pc: Pc) { pc in w.relays && w.relays[pc].gate.Some? }

  /** The gate of the PC stays closed to old values. */
  ghost predicate StaysShut(run: seq<World>, i: nat, j: nat, pc: Pc) {
    i <= j < |run| && forall m :: i <= m <= j ==> GateShut(run[m], pc)
  }

  /** Over every run: as long as it does, what the PC takes only rises. */
  lemma {:induction false} TakenRise(run: seq<World>, dev: Pc, timing: Timing, i: nat, j: nat, pc: Pc)
    requires Run(run, dev, timing) && StaysShut(run, i, j, pc)
    ensures GateShut(run[i], pc) && GateShut(run[j], pc)
    ensures run[i].relays[pc].gate.value <= run[j].relays[pc].gate.value
    decreases j - i
  {
    if i < j {
      TakenRise(run, dev, timing, i, j - 1, pc);
      var ticked := RunSteps(run, dev, timing, j - 1, pc);
      if ticked {
        TickHeeds(run[j - 1].relays[pc], run[j - 1].now);
      } else {
        ActsHeed(run[j - 1].relays[pc], run[j].relays[pc], run[j - 1].now);
      }
    }
  }
}

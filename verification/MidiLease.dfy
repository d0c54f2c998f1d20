/** Leases that are renewed do not end: the PC that was chosen has the surface. */
module MidiLease {
  import opened MotionTypes
  import opened MidiRelay

  // ----- The device PC goes on lending --------------------------------------------------------

  ghost predicate Lends(g: Grant, dev: Pc, pc: Pc) { g.owned && g.source == dev && g.target == pc }

  /** A grant to the PC that was sent at that time. */
  ghost predicate LentAt(w: World, dev: Pc, pc: Pc, time: nat) {
    exists g :: g in w.grants && Lends(g, dev, pc) && g.sentAt == time
  }

  /** Within the repeat period, and one tick, before that time. */
  ghost predicate LentBefore(w: World, dev: Pc, timing: Timing, pc: Pc, time: nat) {
    exists sentAt: nat :: LentAt(w, dev, pc, sentAt) && sentAt <= time < sentAt + GrantRepeat + timing.tick
  }

  /** Ever since the device PC made its choice, it has never been silent for longer. */
  ghost predicate KeepsLending(w: World, dev: Pc, timing: Timing)
    requires dev in w.relays && dev in w.lastTick
  {
    var r := w.relays[dev];
    r.target.Some? && r.target.value != dev ==>
      && LentAt(w, dev, r.target.value, r.lastGrantAt)
      && r.lastGrantAt <= w.now && w.lastTick[dev] < r.lastGrantAt + GrantRepeat
      && forall time: nat :: w.changedAt <= time <= w.now ==> LentBefore(w, dev, timing, r.target.value, time)
  }

  /** Who takes the surface back is the device PC, before its last choice, or a PC from
      itself. */
  ghost predicate RevokeOk(w: World, dev: Pc, g: Grant) {
    !g.owned ==> g.source == g.target || (g.source == dev && g.sentAt <= w.changedAt)
  }

  ghost predicate TargetOk(w: World, dev: Pc, pc: Pc) {
    pc in w.relays && pc != dev ==> w.relays[pc].target.None? || w.relays[pc].target == Some(pc)
  }

  ghost predicate Lending(w: World, dev: Pc, timing: Timing) {
    && Inv(w, dev, timing) && dev in w.lastTick && KeepsLending(w, dev, timing)
    && (forall g :: g in w.grants ==> RevokeOk(w, dev, g))
    && (forall pc :: TargetOk(w, dev, pc))
  }

  lemma GrantsGrow(w: World, next: World, dev: Pc, timing: Timing, pc: Pc, time: nat)
    requires w.grants <= next.grants && LentBefore(w, dev, timing, pc, time)
    ensures LentBefore(next, dev, timing, pc, time)
  {
    var sentAt: nat :| LentAt(w, dev, pc, sentAt) && sentAt <= time < sentAt + GrantRepeat + timing.tick;
    var g :| g in w.grants && Lends(g, dev, pc) && g.sentAt == sentAt;
    assert g in next.grants;
    assert LentAt(next, dev, pc, sentAt);
  }

  /** The device PC has not changed its mind, and time has not passed. */
  lemma SameLending(w: World, next: World, dev: Pc, timing: Timing)
    requires dev in w.relays && dev in w.lastTick && KeepsLending(w, dev, timing)
    requires dev in next.relays && dev in next.lastTick
    requires next.lastTick[dev] == w.lastTick[dev] || next.lastTick[dev] < next.relays[dev].lastGrantAt + GrantRepeat
    requires next.relays[dev].target == w.relays[dev].target
    requires next.relays[dev].lastGrantAt == w.relays[dev].lastGrantAt
    requires w.grants <= next.grants && next.now == w.now && next.changedAt == w.changedAt
    ensures KeepsLending(next, dev, timing)
  {
    var r := w.relays[dev];
    if r.target.Some? && r.target.value != dev {
      forall time: nat | w.changedAt <= time <= w.now ensures LentBefore(next, dev, timing, r.target.value, time) {
        GrantsGrow(w, next, dev, timing, r.target.value, time);
      }
      var g :| g in w.grants && Lends(g, dev, r.target.value) && g.sentAt == r.lastGrantAt;
      assert g in next.grants;
    }
  }

  /** The device PC lends the surface to a PC, anew or again. */
  lemma LendsNow(w: World, next: World, dev: Pc, timing: Timing, g: Grant)
    requires dev in w.relays && dev in w.lastTick && KeepsLending(w, dev, timing) && w.changedAt <= w.now
    requires dev in next.relays && dev in next.lastTick && next.now == w.now && w.grants <= next.grants
    requires next.relays[dev].target == Some(g.target) && next.relays[dev].lastGrantAt == w.now == g.sentAt
    requires g in next.grants && Lends(g, dev, g.target) && next.lastTick[dev] <= w.now
    requires next.changedAt == if next.relays[dev].target != w.relays[dev].target then w.now else w.changedAt
    ensures KeepsLending(next, dev, timing)
  {
    assert LentAt(next, dev, g.target, w.now);
    if g.target != dev {
      forall time: nat | next.changedAt <= time <= w.now ensures LentBefore(next, dev, timing, g.target, time) {
        if time < w.now {
          GrantsGrow(w, next, dev, timing, g.target, time);
        }
      }
    }
  }

  // ----- Every step keeps it ----------------------------------------------------------------------

  /** One PC acts; what it sends and how it lends are in order. */
  lemma ActLends(w: World, dev: Pc, timing: Timing, pc: Pc, sent: Sent)
    requires Lending(w, dev, timing) && pc in w.relays && Inv(Act(w, dev, pc, sent), dev, timing)
    requires KeepsLending(Act(w, dev, pc, sent), dev, timing)
    requires pc != dev ==> sent.0.target.None? || sent.0.target == Some(pc)
    requires forall g :: g in sent.1 ==> RevokeOk(Act(w, dev, pc, sent), dev, g)
    ensures Lending(Act(w, dev, pc, sent), dev, timing)
  {
    var next := Act(w, dev, pc, sent);
    forall g | g in next.grants ensures RevokeOk(next, dev, g) {
      assert g in w.grants ==> RevokeOk(w, dev, g);
    }
    forall q ensures TargetOk(next, dev, q) { assert TargetOk(w, dev, q); }
  }

  /** What another PC does, the device PC does not notice. */
  lemma OthersAct(w: World, dev: Pc, timing: Timing, pc: Pc, sent: Sent)
    requires Lending(w, dev, timing) && pc in w.relays && pc != dev
    ensures KeepsLending(Act(w, dev, pc, sent), dev, timing)
  {
    SameLending(w, Act(w, dev, pc, sent), dev, timing);
  }

  lemma ChoosesLends(w: World, next: World, dev: Pc, timing: Timing, pc: Pc, wanted: Option<Pc>)
    requires Lending(w, dev, timing) && Chooses(w, next, dev, pc, wanted)
    ensures Lending(next, dev, timing)
  {
    var sent := SetTarget(w.relays[pc], wanted, w.now).value;
    ChoosesKeeps(w, next, dev, timing, pc, wanted);
    assert RelayOk(w, dev, timing, pc) && TargetOk(w, dev, pc);
    if pc != dev {
      OthersAct(w, dev, timing, pc, sent);
    } else if wanted.Some? {
      var g := GrantTo(w.relays[pc], wanted.value, true, w.now);
      assert g in sent.1 by { assert sent.1[|sent.1| - 1] == g; }
      LendsNow(w, next, dev, timing, g);
    }
    ActLends(w, dev, timing, pc, sent);
  }

  lemma PluggingLends(w: World, next: World, dev: Pc, timing: Timing, connected: bool)
    requires Lending(w, dev, timing) && next == Act(w, dev, dev, OnConnection(w.relays[dev], connected, w.now))
    ensures Lending(next, dev, timing)
  {
    PluggingKeeps(w, next, dev, timing, connected);
    assert RelayOk(w, dev, timing, dev);
    if connected == w.relays[dev].deviceConnected {
      SameLending(w, next, dev, timing);
    }
    ActLends(w, dev, timing, dev, OnConnection(w.relays[dev], connected, w.now));
  }

  lemma ReceivesLends(w: World, next: World, dev: Pc, timing: Timing, pc: Pc, g: Grant)
    requires Lending(w, dev, timing) && Receives(w, next, dev, timing, pc, g)
    ensures Lending(next, dev, timing)
  {
    ReceivesKeeps(w, next, dev, timing, pc, g);
    assert RelayOk(w, dev, timing, pc) && TargetOk(w, dev, pc) && GrantOk(w, dev, g);
    if pc != dev {
      OthersAct(w, dev, timing, pc, (OnGrant(w.relays[pc], g, w.now), []));
    } else if OnGrant(w.relays[dev], g, w.now) == w.relays[dev] {
      SameLending(w, next, dev, timing);
    }
    ActLends(w, dev, timing, pc, (OnGrant(w.relays[pc], g, w.now), []));
  }

  lemma HearsLends(w: World, next: World, dev: Pc, timing: Timing, pc: Pc, v: Value)
    requires Lending(w, dev, timing) && Hears(w, next, dev, pc, v)
    ensures Lending(next, dev, timing)
  {
    HearsKeeps(w, next, dev, timing, pc, v);
    assert RelayOk(w, dev, timing, pc) && TargetOk(w, dev, pc);
    if pc != dev {
      OthersAct(w, dev, timing, pc, (OnValue(w.relays[pc], v, w.now), []));
    } else {
      SameLending(w, next, dev, timing);
    }
    ActLends(w, dev, timing, pc, (OnValue(w.relays[pc], v, w.now), []));
  }

  lemma PassesLends(w: World, next: World, dev: Pc, timing: Timing)
    requires Lending(w, dev, timing) && TimePasses(w, next, timing)
    ensures Lending(next, dev, timing)
  {
    PassesKeeps(w, next, dev, timing);
    var r := w.relays[dev];
    if r.target.Some? && r.target.value != dev {
      var g :| g in w.grants && Lends(g, dev, r.target.value) && g.sentAt == r.lastGrantAt;
      assert LentAt(next, dev, r.target.value, r.lastGrantAt);
      forall time: nat | w.changedAt <= time <= next.now ensures LentBefore(next, dev, timing, r.target.value, time) {
        if time <= w.now { GrantsGrow(w, next, dev, timing, r.target.value, time); }
      }
    }
    forall h | h in next.grants ensures RevokeOk(next, dev, h) { assert RevokeOk(w, dev, h); }
    forall q ensures TargetOk(next, dev, q) { assert TargetOk(w, dev, q); }
  }

  /** The device PC's own tick renews what it lends. */
  lemma DeviceTicks(w: World, next: World, dev: Pc, timing: Timing)
    requires Lending(w, dev, timing) && Ticks(w, next, dev, dev)
    ensures KeepsLending(next, dev, timing)
  {
    var r := w.relays[dev];
    assert RelayOk(w, dev, timing, dev);
    if r.target.Some? && r.target.value != dev {
      var sent := Tick(r, w.now);
      if w.now - r.lastGrantAt >= GrantRepeat {
        LendsNow(w, next, dev, timing, sent.1[0]);
      } else {
        SameLending(w, next, dev, timing);
      }
    }
  }

  lemma TicksLends(w: World, next: World, dev: Pc, timing: Timing, pc: Pc)
    requires Lending(w, dev, timing) && Ticks(w, next, dev, pc)
    ensures Lending(next, dev, timing)
  {
    TicksKeeps(w, next, dev, timing, pc);
    assert RelayOk(w, dev, timing, pc) && TargetOk(w, dev, pc);
    if pc != dev {
      SameLending(w, next, dev, timing);
    } else {
      DeviceTicks(w, next, dev, timing);
    }
    forall g | g in next.grants ensures RevokeOk(next, dev, g) { assert g in w.grants ==> RevokeOk(w, dev, g); }
    forall q ensures TargetOk(next, dev, q) { assert TargetOk(w, dev, q); }
  }

  lemma NextLends(w: World, next: World, dev: Pc, timing: Timing)
    requires Lending(w, dev, timing) && Next(w, next, dev, timing)
    ensures Lending(next, dev, timing)
  {
    if pc, wanted :| Chooses(w, next, dev, pc, wanted) {
      ChoosesLends(w, next, dev, timing, pc, wanted);
    } else if connected :| next == Act(w, dev, dev, OnConnection(w.relays[dev], connected, w.now)) {
      PluggingLends(w, next, dev, timing, connected);
    } else if pc, g :| Receives(w, next, dev, timing, pc, g) {
      ReceivesLends(w, next, dev, timing, pc, g);
    } else if pc, v :| Hears(w, next, dev, pc, v) {
      HearsLends(w, next, dev, timing, pc, v);
    } else if pc :| Ticks(w, next, dev, pc) {
      TicksLends(w, next, dev, timing, pc);
    } else {
      PassesLends(w, next, dev, timing);
    }
  }

  // ----- Runs ------------------------------------------------------------------------------------------

  lemma {:induction false} RunLends(run: seq<World>, dev: Pc, timing: Timing, i: nat)
    requires Run(run, dev, timing) && i < |run|
    ensures Lending(run[i], dev, timing)
  {
    if i == 0 {
      RunInv(run, dev, timing, 0);
    } else {
      RunLends(run, dev, timing, i - 1);
      assert StepAt(run, dev, timing, i - 1);
      NextLends(run[i - 1], run[i], dev, timing);
    }
  }

  /** Time and changes of choice move forward, and a choice changes only when it is noted. */
  ghost predicate Later(w: World, next: World, dev: Pc) {
    && dev in w.relays && dev in next.relays && w.relays.Keys == next.relays.Keys
    && (forall pc :: pc in w.relays ==> next.relays[pc].grouped == w.relays[pc].grouped)
    && w.now <= next.now && w.changedAt <= next.changedAt <= next.now
    && (next.relays[dev].target != w.relays[dev].target ==> next.changedAt >= w.now)
    && (next.changedAt != w.changedAt ==> next.changedAt >= w.now)
  }

  lemma ActIsLater(w: World, next: World, dev: Pc, pc: Pc, sent: Sent)
    requires dev in w.relays && pc in w.relays && w.changedAt <= w.now
    requires sent.0.grouped == w.relays[pc].grouped && next == Act(w, dev, pc, sent).(lastTick := next.lastTick)
    ensures Later(w, next, dev)
  {
  }

  lemma ChoosesLater(w: World, next: World, dev: Pc, pc: Pc, wanted: Option<Pc>)
    requires dev in w.relays && w.changedAt <= w.now && Chooses(w, next, dev, pc, wanted)
    ensures Later(w, next, dev)
  {
    ActIsLater(w, next, dev, pc, SetTarget(w.relays[pc], wanted, w.now).value);
  }

  lemma TicksLater(w: World, next: World, dev: Pc, pc: Pc)
    requires dev in w.relays && w.changedAt <= w.now && Ticks(w, next, dev, pc)
    ensures Later(w, next, dev)
  {
    ActIsLater(w, next, dev, pc, Tick(w.relays[pc], w.now));
  }

  lemma HandedLater(w: World, next: World, dev: Pc, timing: Timing)
    requires dev in w.relays && w.changedAt <= w.now
    requires (exists pc, g :: Receives(w, next, dev, timing, pc, g)) || (exists pc, v :: Hears(w, next, dev, pc, v))
    ensures Later(w, next, dev)
  {
    if pc, g :| Receives(w, next, dev, timing, pc, g) {
      ActIsLater(w, next, dev, pc, (OnGrant(w.relays[pc], g, w.now), []));
    } else {
      var pc, v :| Hears(w, next, dev, pc, v);
      ActIsLater(w, next, dev, pc, (OnValue(w.relays[pc], v, w.now), []));
    }
  }

  lemma StepIsLater(w: World, next: World, dev: Pc, timing: Timing)
    requires dev in w.relays && w.changedAt <= w.now && Next(w, next, dev, timing)
    ensures Later(w, next, dev)
  {
    if pc, wanted :| Chooses(w, next, dev, pc, wanted) {
      ChoosesLater(w, next, dev, pc, wanted);
    } else if connected :| next == Act(w, dev, dev, OnConnection(w.relays[dev], connected, w.now)) {
      ActIsLater(w, next, dev, dev, OnConnection(w.relays[dev], connected, w.now));
    } else if pc :| Ticks(w, next, dev, pc) {
      TicksLater(w, next, dev, pc);
    } else if !TimePasses(w, next, timing) {
      HandedLater(w, next, dev, timing);
    }
  }

  lemma LaterStill(w: World, v: World, next: World, dev: Pc)
    requires Later(w, v, dev) && Later(v, next, dev)
    ensures Later(w, next, dev)
  {
  }

  lemma {:induction false} RunIsLater(run: seq<World>, dev: Pc, timing: Timing, i: nat, j: nat)
    requires Run(run, dev, timing) && i <= j < |run|
    ensures Later(run[i], run[j], dev)
    decreases j
  {
    if i == j {
      RunInv(run, dev, timing, i);
    } else {
      RunIsLater(run, dev, timing, i, j - 1);
      assert StepAt(run, dev, timing, j - 1);
      StepIsLater(run[j - 1], run[j], dev, timing);
      LaterStill(run[i], run[j - 1], run[j], dev);
    }
  }

  /** The network delivers the grant: some step before hands it over. */
  ghost predicate HandedOver(run: seq<World>, dev: Pc, timing: Timing, pc: Pc, g: Grant, i: nat)
    requires i < |run| && forall k :: 0 <= k < |run| ==> dev in run[k].relays
  {
    exists m: nat :: m < i && Receives(run[m], run[m + 1], dev, timing, pc, g)
  }

  /** No grant to the PC gets lost, or comes later than a message may take. */
  ghost predicate Reaches(run: seq<World>, dev: Pc, timing: Timing, pc: Pc, i: nat)
    requires i < |run| && forall k :: 0 <= k < |run| ==> dev in run[k].relays
  {
    forall g :: g in run[i].grants && Lends(g, dev, pc) && g.sentAt + timing.delay < run[i].now ==>
      HandedOver(run, dev, timing, pc, g, i)
  }

  /** The surface was lent to the PC not before `since`. */
  ghost predicate Holds(w: World, pc: Pc, since: nat) {
    && pc in w.relays && w.relays[pc].granted
    && w.relays[pc].grantedAt.Some? && w.relays[pc].grantedAt.value >= since
  }

  lemma ActHolds(w: World, next: World, dev: Pc, p: Pc, sent: Sent, pc: Pc, since: nat)
    requires dev in w.relays && p in w.relays && Holds(w, pc, since)
    requires next == Act(w, dev, p, sent).(lastTick := next.lastTick)
    requires p == pc ==> sent.0.granted && sent.0.grantedAt.Some? && sent.0.grantedAt.value >= since
    ensures Holds(next, pc, since)
  {
  }

  /** No PC that acts lets go of the surface, unless it is told to or its lease is up. */
  lemma ReceivesHolds(w: World, next: World, dev: Pc, timing: Timing, p: Pc, g: Grant, pc: Pc, since: nat)
    requires Lending(w, dev, timing) && Receives(w, next, dev, timing, p, g) && pc != dev && Holds(w, pc, since)
    requires since > w.changedAt + timing.delay && since <= w.now
    ensures Holds(next, pc, since)
  {
    assert RevokeOk(w, dev, g) && RelayOk(w, dev, timing, p);
    ActHolds(w, next, dev, p, (OnGrant(w.relays[p], g, w.now), []), pc, since);
  }

  lemma TicksHolds(w: World, next: World, dev: Pc, p: Pc, pc: Pc, since: nat)
    requires dev in w.relays && Ticks(w, next, dev, p) && Holds(w, pc, since) && w.now <= since + GrantLease
    ensures Holds(next, pc, since)
  {
    ActHolds(w, next, dev, p, Tick(w.relays[p], w.now), pc, since);
  }

  lemma ChoosesHolds(w: World, next: World, dev: Pc, p: Pc, wanted: Option<Pc>, pc: Pc, since: nat)
    requires dev in w.relays && Chooses(w, next, dev, p, wanted) && Holds(w, pc, since)
    ensures Holds(next, pc, since)
  {
    ActHolds(w, next, dev, p, SetTarget(w.relays[p], wanted, w.now).value, pc, since);
  }

  lemma HearsHolds(w: World, next: World, dev: Pc, p: Pc, v: Value, pc: Pc, since: nat)
    requires dev in w.relays && Hears(w, next, dev, p, v) && Holds(w, pc, since)
    ensures Holds(next, pc, since)
  {
    ActHolds(w, next, dev, p, (OnValue(w.relays[p], v, w.now), []), pc, since);
  }

  /** While the choice stands and the lease is not up, the PC keeps the surface. */
  lemma StepHolds(w: World, next: World, dev: Pc, timing: Timing, pc: Pc, since: nat)
    requires Lending(w, dev, timing) && Next(w, next, dev, timing) && pc != dev && Holds(w, pc, since)
    requires since > w.changedAt + timing.delay && since <= w.now <= since + GrantLease
    ensures Holds(next, pc, since)
  {
    if p, wanted :| Chooses(w, next, dev, p, wanted) {
      ChoosesHolds(w, next, dev, p, wanted, pc, since);
    } else if connected :| next == Act(w, dev, dev, OnConnection(w.relays[dev], connected, w.now)) {
      ActHolds(w, next, dev, dev, OnConnection(w.relays[dev], connected, w.now), pc, since);
    } else if p, g :| Receives(w, next, dev, timing, p, g) {
      ReceivesHolds(w, next, dev, timing, p, g, pc, since);
    } else if p, v :| Hears(w, next, dev, p, v) {
      HearsHolds(w, next, dev, p, v, pc, since);
    } else if p :| Ticks(w, next, dev, p) {
      TicksHolds(w, next, dev, p, pc, since);
    }
  }

  /** The choice has stood for longer than a message takes, and the lease is not up. */
  predicate InLease(w: World, timing: Timing, since: nat) {
    since > w.changedAt + timing.delay && w.now <= since + GrantLease
  }

  lemma HoldsOn(run: seq<World>, dev: Pc, timing: Timing, pc: Pc, since: nat, i: nat)
    requires Run(run, dev, timing) && i + 1 < |run| && pc != dev && Holds(run[i], pc, since)
    requires since <= run[i].now && InLease(run[i], timing, since)
    ensures Holds(run[i + 1], pc, since)
  {
    RunLends(run, dev, timing, i);
    assert StepAt(run, dev, timing, i);
    StepHolds(run[i], run[i + 1], dev, timing, pc, since);
  }

  lemma StillInLease(run: seq<World>, dev: Pc, timing: Timing, since: nat, i: nat, k: nat, j: nat)
    requires Run(run, dev, timing) && i <= k <= j < |run| && since <= run[i].now && InLease(run[j], timing, since)
    ensures since <= run[k].now && InLease(run[k], timing, since)
  {
    RunIsLater(run, dev, timing, i, k);
    RunIsLater(run, dev, timing, k, j);
  }

  lemma {:induction false} RunHolds(run: seq<World>, dev: Pc, timing: Timing, pc: Pc, since: nat, i: nat, j: nat)
    requires Run(run, dev, timing) && i <= j < |run| && pc != dev && Holds(run[i], pc, since)
    requires since <= run[i].now && InLease(run[j], timing, since)
    ensures Holds(run[j], pc, since)
    decreases j
  {
    if i < j {
      StillInLease(run, dev, timing, since, i, j - 1, j);
      RunHolds(run, dev, timing, pc, since, i, j - 1);
      HoldsOn(run, dev, timing, pc, since, j - 1);
    }
  }

  /** How long it takes at most until a choice has settled: twice the delay of a message,
      the time between two grants, and a tick. */
  function Settling(timing: Timing): nat { 2 * timing.delay + GrantRepeat + timing.tick + 1 }

  /** A grant that has been handed over by now, and is younger than the lease. */
  lemma RecentGrant(run: seq<World>, dev: Pc, timing: Timing, i: nat, pc: Pc) returns (g: Grant, m: nat)
    requires Run(run, dev, timing) && i < |run| && pc != dev && Reaches(run, dev, timing, pc, i)
    requires run[i].relays[dev].target == Some(pc) && run[i].now > run[i].changedAt + timing.delay
    ensures m < i && Receives(run[m], run[m + 1], dev, timing, pc, g) && Lends(g, dev, pc)
    ensures run[i].now <= g.sentAt + timing.delay + GrantRepeat + timing.tick
  {
    var time := run[i].now - timing.delay - 1;
    RunLends(run, dev, timing, i);
    assert LentBefore(run[i], dev, timing, pc, time);
    var sentAt: nat :| LentAt(run[i], dev, pc, sentAt) && sentAt <= time < sentAt + GrantRepeat + timing.tick;
    g :| g in run[i].grants && Lends(g, dev, pc) && g.sentAt == sentAt;
    assert HandedOver(run, dev, timing, pc, g, i);
    m :| m < i && Receives(run[m], run[m + 1], dev, timing, pc, g);
  }

  lemma ReceivedHolds(run: seq<World>, dev: Pc, timing: Timing, m: nat, pc: Pc, g: Grant)
    requires Run(run, dev, timing) && m + 1 < |run| && pc != dev && Lends(g, dev, pc)
    requires Receives(run[m], run[m + 1], dev, timing, pc, g) && run[m].relays[pc].grouped
    ensures Holds(run[m + 1], pc, g.sentAt) && g.sentAt <= run[m + 1].now
  {
    RunInv(run, dev, timing, m);
    assert RelayOk(run[m], dev, timing, pc) && GrantOk(run[m], dev, g);
  }

  /** If the time between two grants, a tick and the delay of a message fit into the lease,
      and no grant is lost, then the PC that was chosen has the surface as long as the
      choice stands, once it has settled. */
  lemma ChosenHasIt(run: seq<World>, dev: Pc, timing: Timing, i: nat, pc: Pc)
    requires Run(run, dev, timing) && i < |run| && pc in run[i].relays && pc != dev
    requires GrantRepeat + timing.tick + timing.delay <= GrantLease && Reaches(run, dev, timing, pc, i)
    requires run[i].relays[pc].grouped && run[i].relays[dev].target == Some(pc)
    requires run[i].now > run[i].changedAt + Settling(timing)
    ensures OwnsSurface(run[i].relays[pc])
  {
    var g, m := RecentGrant(run, dev, timing, i, pc);
    RunIsLater(run, dev, timing, m, i);
    ReceivedHolds(run, dev, timing, m, pc, g);
    RunHolds(run, dev, timing, pc, g.sentAt, m + 1, i);
    RunInv(run, dev, timing, i);
    assert RelayOk(run[i], dev, timing, pc);
  }
}

/** One MIDI surface, lent by the PC it is plugged into to one PC of the group at a time.
    Times are milliseconds. */
module MidiRelay {
  import opened MotionTypes

  type Pc = nat

  const GrantRepeat: nat := 1000
  const GrantLease: nat := 3000
  const StreamTimeout: nat := 1000

  // ----- Sequence numbers ----------------------------------------------------------------------

  /** Lets only rising sequence numbers through. */
  class SequenceGate {
    var last: Option<int>

    constructor ()
      ensures last == None
    {
      last := None;
    }

    method Accepts(number: int) returns (ok: bool)
      modifies this
      ensures ok == Passes(old(last), number)
      ensures last == if ok then Some(number) else old(last)
    {
      if last.Some? && number <= last.value {
        return false;
      }
      last := Some(number);
      return true;
    }

    method Reset()
      modifies this
      ensures last == None
    {
      last := None;
    }
  }

  predicate Passes(last: Option<int>, number: int) { last.None? || last.value < number }

  /** The numbers of a stream that get through. */
  function Passed(last: Option<int>, stream: seq<int>): seq<int>
    decreases |stream|
  {
    if stream == [] then []
    else if Passes(last, stream[0]) then [stream[0]] + Passed(Some(stream[0]), stream[1..])
    else Passed(last, stream[1..])
  }

  ghost predicate Rising(numbers: seq<int>) {
    forall i, j :: 0 <= i < j < |numbers| ==> numbers[i] < numbers[j]
  }

  lemma {:induction false} PassedCame(last: Option<int>, stream: seq<int>)
    ensures forall n :: n in Passed(last, stream) ==> n in stream && Passes(last, n)
    decreases |stream|
  {
    if stream != [] {
      PassedCame(if Passes(last, stream[0]) then Some(stream[0]) else last, stream[1..]);
    }
  }

  /** However a stream is reordered or repeated, what gets through only rises. */
  lemma {:induction false} GateOnlyRises(last: Option<int>, stream: seq<int>)
    ensures Rising(Passed(last, stream))
    decreases |stream|
  {
    if stream != [] {
      if Passes(last, stream[0]) {
        var rest := Passed(Some(stream[0]), stream[1..]);
        GateOnlyRises(Some(stream[0]), stream[1..]);
        PassedCame(Some(stream[0]), stream[1..]);
        assert forall i :: 0 <= i < |rest| ==> rest[i] in rest;
      } else {
        GateOnlyRises(last, stream[1..]);
      }
    }
  }

  /** A number is held back only when one at least as high has got through before. */
  lemma {:induction false} GateLosesNothingNew(last: Option<int>, stream: seq<int>, k: nat)
    requires k < |stream| && stream[k] !in Passed(last, stream)
    ensures (last.Some? && stream[k] <= last.value) || exists n :: n in Passed(last, stream[..k]) && stream[k] <= n
    decreases |stream|
  {
    var next := if Passes(last, stream[0]) then Some(stream[0]) else last;
    assert Passes(last, stream[0]) ==> Passed(last, stream)[0] == stream[0];
    if k > 0 {
      var head := stream[..k];
      assert head[1..] == stream[1..][..k - 1];
      GateLosesNothingNew(next, stream[1..], k - 1);
      var rest := Passed(next, head[1..]);
      if Passes(last, stream[0]) {
        assert Passed(last, head) == [stream[0]] + rest;
        if stream[k] > stream[0] {
          var n :| n in rest && stream[k] <= n;
          assert n in Passed(last, head);
        } else {
          assert Passed(last, head)[0] == stream[0];
          assert stream[0] in Passed(last, head);
        }
      }
    }
  }

  // ----- One PC ----------------------------------------------------------------------------------

  /** A message that lends the surface, or takes it back. */
  datatype Grant = Grant(source: Pc, target: Pc, owned: bool, connected: bool, sentAt: nat)

  datatype Value = Value(source: Pc, target: Pc, number: int)

  datatype Relay = Relay(
    me: Pc, grouped: bool, device: Option<Pc>, target: Option<Pc>, deviceConnected: bool,
    granted: bool, grantedAt: Option<nat>, remoteConnected: bool, remoteSource: Option<Pc>,
    remoteSeenAt: Option<nat>, lastGrantAt: nat, gate: Option<int>)

  type Sent = (Relay, seq<Grant>)

  function Unplugged(me: Pc, grouped: bool): Relay {
    Relay(me, grouped, None, None, false, false, None, false, None, None, 0, None)
  }

  predicate HoldsDevice(r: Relay) { r.device == Some(r.me) }

  predicate Relaying(r: Relay) { r.grouped && r.device.Some? && r.target.Some? && r.device != r.target }

  predicate OwnsSurface(r: Relay) { if HoldsDevice(r) then !Relaying(r) else r.granted }

  function RefreshDevice(r: Relay): Relay {
    r.(device := if r.deviceConnected then Some(r.me) else r.remoteSource)
  }

  function GrantTo(r: Relay, target: Pc, owned: bool, now: nat): Grant {
    Grant(r.me, target, owned, r.deviceConnected, now)
  }

  /** Chooses who uses the surface; no PC takes it back. */
  function SetTarget(r: Relay, wanted: Option<Pc>, now: nat): Result<Sent> {
    if wanted.Some? && !r.grouped then Err("no group")
    else if wanted.Some? && !r.deviceConnected then Err("the device is not here")
    else
      var revokes := if r.target.Some? && r.target != wanted then [GrantTo(r, r.target.value, false, now)] else [];
      var grants := if wanted.Some? then [GrantTo(r, wanted.value, true, now)] else [];
      Ok((r.(target := wanted, gate := None,
             lastGrantAt := if revokes + grants == [] then r.lastGrantAt else now), revokes + grants))
  }

  function OnConnection(r: Relay, connected: bool, now: nat): Sent {
    if connected == r.deviceConnected then (r, [])
    else if connected then (RefreshDevice(r.(deviceConnected := true)), [])
    else
      var off := r.(deviceConnected := false);
      var revoke := r.target.Some? && r.target.value != r.me;
      (RefreshDevice(off.(target := None, lastGrantAt := if revoke then now else r.lastGrantAt)),
       if revoke then [GrantTo(off, r.target.value, false, now)] else [])
  }

  predicate Accepts(r: Relay, source: Pc, target: Pc) { r.grouped && target == r.me && source != r.me }

  function OnGrant(r: Relay, g: Grant, now: nat): Relay {
    if !Accepts(r, g.source, g.target) then r
    else if g.owned then
      RefreshDevice(r.(granted := true, remoteConnected := g.connected, grantedAt := Some(now),
                       remoteSource := Some(g.source), target := Some(r.me)))
    else
      RefreshDevice(r.(granted := false, remoteConnected := g.connected, grantedAt := None,
                       remoteSource := None, remoteSeenAt := None, target := None, gate := None))
  }

  function OnValue(r: Relay, v: Value, now: nat): Relay {
    if !r.granted || !Accepts(r, v.source, v.target) || !Passes(r.gate, v.number) then r
    else
      RefreshDevice(r.(gate := Some(v.number), remoteSource := Some(v.source), remoteSeenAt := Some(now),
                       target := Some(v.target))).(remoteConnected := true)
  }

  function ExpireGrant(r: Relay, now: nat): Relay {
    if !r.granted || r.grantedAt.None? || now - r.grantedAt.value <= GrantLease then r
    else
      RefreshDevice(r.(granted := false, grantedAt := None, remoteConnected := false,
                       remoteSource := None, remoteSeenAt := None, target := None, gate := None))
  }

  function ExpireStream(r: Relay, now: nat): Relay {
    if r.remoteSeenAt.None? || now - r.remoteSeenAt.value <= StreamTimeout then r
    else
      RefreshDevice(r.(remoteSeenAt := None, remoteSource := None, gate := None, remoteConnected := false,
                       target := if r.deviceConnected then r.target else None))
  }

  function Reassert(r: Relay, now: nat): Sent {
    if !(HoldsDevice(r) && Relaying(r)) || now - r.lastGrantAt < GrantRepeat then (r, [])
    else (r.(lastGrantAt := now), [GrantTo(r, r.target.value, true, now)])
  }

  function Tick(r: Relay, now: nat): Sent {
    Reassert(ExpireStream(ExpireGrant(r, now), now), now)
  }

  // ----- The object --------------------------------------------------------------------------------

  class MidiRelayBridge {
    const me: Pc
    const grouped: bool
    var device: Option<Pc>
    var target: Option<Pc>
    var deviceConnected: bool
    var granted: bool
    var grantedAt: Option<nat>
    var remoteConnected: bool
    var remoteSource: Option<Pc>
    var remoteSeenAt: Option<nat>
    var lastGrantAt: nat
    const gate: SequenceGate

    function Now(): Relay
      reads this, gate
    {
      Relay(me, grouped, device, target, deviceConnected, granted, grantedAt, remoteConnected,
        remoteSource, remoteSeenAt, lastGrantAt, gate.last)
    }

    constructor (me: Pc, grouped: bool)
      ensures fresh(gate) && Now() == Unplugged(me, grouped)
    {
      this.me, this.grouped := me, grouped;
      device, target, deviceConnected := None, None, false;
      granted, grantedAt, remoteConnected, remoteSource, remoteSeenAt := false, None, false, None, None;
      lastGrantAt := 0;
      gate := new SequenceGate();
    }

    method Refresh()
      modifies this`device
      ensures Now() == RefreshDevice(old(Now()))
    {
      if deviceConnected {
        device := Some(me);
      } else {
        device := remoteSource;
      }
    }

    method SendGrant(to: Pc, owned: bool, now: nat) returns (grant: Grant)
      modifies this`lastGrantAt
      ensures grant == GrantTo(old(Now()), to, owned, now)
      ensures Now() == old(Now()).(lastGrantAt := now)
    {
      grant := Grant(me, to, owned, deviceConnected, now);
      lastGrantAt := now;
    }

    method ChooseTarget(wanted: Option<Pc>, now: nat) returns (r: Result<seq<Grant>>)
      modifies this, gate
      ensures r.Err? <==> SetTarget(old(Now()), wanted, now).Err?
      ensures r.Err? ==> Now() == old(Now())
      ensures r.Ok? ==> (Now(), r.value) == SetTarget(old(Now()), wanted, now).value
    {
      if wanted.Some? {
        if !grouped {
          return Err("no group");
        }
        if !deviceConnected {
          return Err("the device is not here");
        }
      }
      var previous := target;
      target := wanted;
      var grants := [];
      if previous.Some? && previous != wanted {
        var revoke := SendGrant(previous.value, false, now);
        grants := grants + [revoke];
      }
      if wanted.Some? {
        var grant := SendGrant(wanted.value, true, now);
        grants := grants + [grant];
      }
      gate.Reset();
      assert grants == SetTarget(old(Now()), wanted, now).value.1;
      return Ok(grants);
    }

    method DeviceChanged(connected: bool, now: nat) returns (grants: seq<Grant>)
      modifies this
      ensures (Now(), grants) == OnConnection(old(Now()), connected, now)
    {
      grants := [];
      if connected == deviceConnected {
        return;
      }
      deviceConnected := connected;
      if !connected {
        var previous := target;
        target := None;
        if previous.Some? && previous.value != me {
          var revoke := SendGrant(previous.value, false, now);
          grants := [revoke];
        }
      }
      Refresh();
    }

    method OwnerGrant(g: Grant, now: nat)
      modifies this, gate
      ensures Now() == OnGrant(old(Now()), g, now)
    {
      if !Accepts(Now(), g.source, g.target) {
        return;
      }
      granted, remoteConnected := g.owned, g.connected;
      if granted {
        grantedAt, remoteSource, target := Some(now), Some(g.source), Some(me);
      } else {
        grantedAt, remoteSource, remoteSeenAt, target := None, None, None, None;
        gate.Reset();
      }
      Refresh();
    }

    method GroupValue(v: Value, now: nat)
      modifies this, gate
      ensures Now() == OnValue(old(Now()), v, now)
    {
      if !granted || !Accepts(Now(), v.source, v.target) {
        return;
      }
      var ok := gate.Accepts(v.number);
      if !ok {
        return;
      }
      remoteSource, remoteSeenAt, target := Some(v.source), Some(now), Some(v.target);
      Refresh();
      remoteConnected := true;
    }

    method ExpireLease(now: nat)
      modifies this, gate
      ensures Now() == ExpireGrant(old(Now()), now)
    {
      if !granted || grantedAt.None? || now - grantedAt.value <= GrantLease {
        return;
      }
      granted, grantedAt, remoteConnected := false, None, false;
      remoteSource, remoteSeenAt, target := None, None, None;
      gate.Reset();
      Refresh();
    }

    method ExpireRemoteStream(now: nat)
      modifies this, gate
      ensures Now() == ExpireStream(old(Now()), now)
    {
      if remoteSeenAt.None? || now - remoteSeenAt.value <= StreamTimeout {
        return;
      }
      remoteSeenAt, remoteSource := None, None;
      gate.Reset();
      if !deviceConnected {
        target := None;
      }
      remoteConnected := false;
      Refresh();
    }

    method ReassertGrant(now: nat) returns (grants: seq<Grant>)
      modifies this`lastGrantAt
      ensures (Now(), grants) == Reassert(old(Now()), now)
    {
      if !(HoldsDevice(Now()) && Relaying(Now())) || now - lastGrantAt < GrantRepeat {
        return [];
      }
      var grant := SendGrant(target.value, true, now);
      return [grant];
    }

    method OnTick(now: nat) returns (grants: seq<Grant>)
      modifies this, gate
      ensures (Now(), grants) == Tick(old(Now()), now)
    {
      ExpireLease(now);
      ExpireRemoteStream(now);
      grants := ReassertGrant(now);
    }
  }

  // ----- A group over time ----------------------------------------------------------------------------

  /** How often every PC ticks at least, and how long a message takes at most; a message
      may also be lost, repeated or overtaken. */
  datatype Timing = Timing(tick: nat, delay: nat)

  /** The PCs, every grant and value sent so far, the time of each PC's last tick, and,
      as history, when the device PC last changed whom it lends the surface to. */
  datatype World = World(
    now: nat, relays: map<Pc, Relay>, grants: set<Grant>, lastTick: map<Pc, nat>, changedAt: nat)

  /** The device is only ever plugged into the PC `dev`. */
  ghost predicate Init(w: World, dev: Pc) {
    && dev in w.relays && w.lastTick.Keys == w.relays.Keys
    && (forall pc :: pc in w.relays ==> w.relays[pc] == Unplugged(pc, w.relays[pc].grouped) && w.lastTick[pc] == w.now)
    && w.grants == {} && w.changedAt == w.now
  }

  /** One PC acts; the history notes when the device PC's lending changes. */
  function Act(w: World, dev: Pc, pc: Pc, sent: Sent): World
    requires dev in w.relays
  {
    var relays := w.relays[pc := sent.0];
    w.(relays := relays, grants := w.grants + (set g | g in sent.1),
       changedAt := if relays[dev].target != w.relays[dev].target then w.now else w.changedAt)
  }

  ghost predicate Next(w: World, next: World, dev: Pc, timing: Timing)
    requires dev in w.relays
  {
    || (exists pc, wanted :: Chooses(w, next, dev, pc, wanted))
    || (exists connected :: next == Act(w, dev, dev, OnConnection(w.relays[dev], connected, w.now)))
    || (exists pc, g :: Receives(w, next, dev, timing, pc, g))
    || (exists pc, v :: Hears(w, next, dev, pc, v))
    || (exists pc :: Ticks(w, next, dev, pc))
    || TimePasses(w, next, timing)
  }

  ghost predicate Chooses(w: World, next: World, dev: Pc, pc: Pc, wanted: Option<Pc>)
    requires dev in w.relays
  {
    && pc in w.relays && SetTarget(w.relays[pc], wanted, w.now).Ok?
    && next == Act(w, dev, pc, SetTarget(w.relays[pc], wanted, w.now).value)
  }

  ghost predicate Receives(w: World, next: World, dev: Pc, timing: Timing, pc: Pc, g: Grant)
    requires dev in w.relays
  {
    && pc in w.relays && g in w.grants && w.now <= g.sentAt + timing.delay
    && next == Act(w, dev, pc, (OnGrant(w.relays[pc], g, w.now), []))
  }

  /** Values of the surface come from other PCs, in any order. */
  ghost predicate Hears(w: World, next: World, dev: Pc, pc: Pc, v: Value)
    requires dev in w.relays
  {
    pc in w.relays && next == Act(w, dev, pc, (OnValue(w.relays[pc], v, w.now), []))
  }

  ghost predicate Ticks(w: World, next: World, dev: Pc, pc: Pc)
    requires dev in w.relays
  {
    && pc in w.relays && pc in w.lastTick
    && next == Act(w, dev, pc, Tick(w.relays[pc], w.now)).(lastTick := w.lastTick[pc := w.now])
  }

  /** A millisecond passes, unless some PC's tick is due. */
  ghost predicate TimePasses(w: World, next: World, timing: Timing) {
    && next == w.(now := w.now + 1)
    && forall pc :: pc in w.lastTick ==> next.now <= w.lastTick[pc] + timing.tick
  }

  // ----- What every reachable world keeps ----------------------------------------------------------------

  /** A PC believes it may use the surface only on the word of a recent grant. */
  ghost predicate Lent(w: World, timing: Timing, pc: Pc, g: Grant) {
    && g in w.grants && g.owned && g.target == pc
    && pc in w.relays && w.relays[pc].grantedAt.Some?
    && w.relays[pc].grantedAt.value <= g.sentAt + timing.delay
  }

  ghost predicate RelayOk(w: World, dev: Pc, timing: Timing, pc: Pc) {
    pc in w.relays && pc in w.lastTick &&
    var r := w.relays[pc];
    && r.me == pc && w.lastTick[pc] <= w.now <= w.lastTick[pc] + timing.tick
    && r.remoteSource != Some(pc)
    && (r.deviceConnected ==> pc == dev)
    && (pc == dev ==> !r.granted && (r.target.Some? ==> r.deviceConnected && r.grouped))
    && (r.device == Some(pc) <==> r.deviceConnected)
    && (r.granted ==> r.grantedAt.Some? && w.lastTick[pc] <= r.grantedAt.value + GrantLease)
    && (r.granted ==> exists g :: Lent(w, timing, pc, g))
  }

  /** Nobody but the device PC lends, and it lends to nobody but its target of the time. */
  ghost predicate GrantOk(w: World, dev: Pc, g: Grant) {
    && dev in w.relays && g.sentAt <= w.now
    && (g.owned ==> g.source == dev && (g.sentAt <= w.changedAt || w.relays[dev].target == Some(g.target)))
  }

  ghost predicate Inv(w: World, dev: Pc, timing: Timing) {
    && dev in w.relays && w.changedAt <= w.now
    && (forall pc :: pc in w.relays || pc in w.lastTick ==> RelayOk(w, dev, timing, pc))
    && (forall g :: g in w.grants ==> GrantOk(w, dev, g))
  }

  lemma ActKeeps(w: World, dev: Pc, timing: Timing, pc: Pc, sent: Sent)
    requires Inv(w, dev, timing) && pc in w.relays
    requires RelayOk(Act(w, dev, pc, sent), dev, timing, pc)
    requires forall g :: g in sent.1 ==> GrantOk(Act(w, dev, pc, sent), dev, g)
    ensures Inv(Act(w, dev, pc, sent), dev, timing)
  {
    var next := Act(w, dev, pc, sent);
    forall q | q in next.relays || q in next.lastTick ensures RelayOk(next, dev, timing, q) {
      assert RelayOk(w, dev, timing, q);
      forall g | Lent(w, timing, q, g) && q != pc ensures Lent(next, timing, q, g) {}
    }
    forall g | g in next.grants ensures GrantOk(next, dev, g) {
      assert g in w.grants ==> GrantOk(w, dev, g);
    }
  }

  lemma ChoosesKeeps(w: World, next: World, dev: Pc, timing: Timing, pc: Pc, wanted: Option<Pc>)
    requires Inv(w, dev, timing) && Chooses(w, next, dev, pc, wanted)
    ensures Inv(next, dev, timing)
  {
    assert RelayOk(w, dev, timing, pc);
    forall g | Lent(w, timing, pc, g) ensures Lent(next, timing, pc, g) {}
    ActKeeps(w, dev, timing, pc, SetTarget(w.relays[pc], wanted, w.now).value);
  }

  lemma PluggingKeeps(w: World, next: World, dev: Pc, timing: Timing, connected: bool)
    requires Inv(w, dev, timing) && next == Act(w, dev, dev, OnConnection(w.relays[dev], connected, w.now))
    ensures Inv(next, dev, timing)
  {
    assert RelayOk(w, dev, timing, dev);
    forall g | Lent(w, timing, dev, g) ensures Lent(next, timing, dev, g) {}
    ActKeeps(w, dev, timing, dev, OnConnection(w.relays[dev], connected, w.now));
  }

  lemma ReceivesKeeps(w: World, next: World, dev: Pc, timing: Timing, pc: Pc, g: Grant)
    requires Inv(w, dev, timing) && Receives(w, next, dev, timing, pc, g)
    ensures Inv(next, dev, timing)
  {
    assert RelayOk(w, dev, timing, pc) && GrantOk(w, dev, g);
    forall h | Lent(w, timing, pc, h) && OnGrant(w.relays[pc], g, w.now) == w.relays[pc]
      ensures Lent(next, timing, pc, h) {}
    assert OnGrant(w.relays[pc], g, w.now) != w.relays[pc] && g.owned ==> Lent(next, timing, pc, g);
    ActKeeps(w, dev, timing, pc, (OnGrant(w.relays[pc], g, w.now), []));
  }

  lemma HearsKeeps(w: World, next: World, dev: Pc, timing: Timing, pc: Pc, v: Value)
    requires Inv(w, dev, timing) && Hears(w, next, dev, pc, v)
    ensures Inv(next, dev, timing)
  {
    assert RelayOk(w, dev, timing, pc);
    forall g | Lent(w, timing, pc, g) ensures Lent(next, timing, pc, g) {}
    ActKeeps(w, dev, timing, pc, (OnValue(w.relays[pc], v, w.now), []));
  }

  lemma TicksKeeps(w: World, next: World, dev: Pc, timing: Timing, pc: Pc)
    requires Inv(w, dev, timing) && Ticks(w, next, dev, pc)
    ensures Inv(next, dev, timing)
  {
    assert RelayOk(w, dev, timing, pc);
    var acted := Act(w, dev, pc, Tick(w.relays[pc], w.now));
    forall g | Lent(w, timing, pc, g) && acted.relays[pc].granted
      ensures Lent(acted, timing, pc, g) && Lent(next, timing, pc, g) {}
    ActKeeps(w, dev, timing, pc, Tick(w.relays[pc], w.now));
    TickNoted(acted, next, dev, timing, pc);
  }

  /** Noting the time of a tick. */
  lemma TickNoted(acted: World, next: World, dev: Pc, timing: Timing, pc: Pc)
    requires Inv(acted, dev, timing) && pc in acted.lastTick
    requires next == acted.(lastTick := acted.lastTick[pc := acted.now])
    requires RelayOk(next, dev, timing, pc)
    ensures Inv(next, dev, timing)
  {
    forall q | q in next.relays || q in next.lastTick ensures RelayOk(next, dev, timing, q) {
      assert RelayOk(acted, dev, timing, q);
      forall g | Lent(acted, timing, q, g) ensures Lent(next, timing, q, g) {}
    }
    forall g | g in next.grants ensures GrantOk(next, dev, g) {
      assert GrantOk(acted, dev, g);
    }
  }

  lemma PassesKeeps(w: World, next: World, dev: Pc, timing: Timing)
    requires Inv(w, dev, timing) && TimePasses(w, next, timing)
    ensures Inv(next, dev, timing)
  {
    forall q | q in next.relays || q in next.lastTick ensures RelayOk(next, dev, timing, q) {
      assert RelayOk(w, dev, timing, q);
      forall g | Lent(w, timing, q, g) ensures Lent(next, timing, q, g) {}
    }
    forall g | g in next.grants ensures GrantOk(next, dev, g) {
      assert GrantOk(w, dev, g);
    }
  }

  lemma NextKeeps(w: World, next: World, dev: Pc, timing: Timing)
    requires Inv(w, dev, timing) && Next(w, next, dev, timing)
    ensures Inv(next, dev, timing)
  {
    if pc, wanted :| Chooses(w, next, dev, pc, wanted) {
      ChoosesKeeps(w, next, dev, timing, pc, wanted);
    } else if connected :| next == Act(w, dev, dev, OnConnection(w.relays[dev], connected, w.now)) {
      PluggingKeeps(w, next, dev, timing, connected);
    } else if pc, g :| Receives(w, next, dev, timing, pc, g) {
      ReceivesKeeps(w, next, dev, timing, pc, g);
    } else if pc, v :| Hears(w, next, dev, pc, v) {
      HearsKeeps(w, next, dev, timing, pc, v);
    } else if pc :| Ticks(w, next, dev, pc) {
      TicksKeeps(w, next, dev, timing, pc);
    } else {
      PassesKeeps(w, next, dev, timing);
    }
  }

  // ----- The guarantees -------------------------------------------------------------------------------

  ghost predicate StepAt(run: seq<World>, dev: Pc, timing: Timing, i: nat) {
    i + 1 < |run| ==> dev in run[i].relays && Next(run[i], run[i + 1], dev, timing)
  }

  ghost predicate Run(run: seq<World>, dev: Pc, timing: Timing) {
    && run != [] && Init(run[0], dev)
    && (forall i :: 0 <= i < |run| ==> dev in run[i].relays)
    && forall i: nat :: StepAt(run, dev, timing, i)
  }

  lemma {:induction false} RunInv(run: seq<World>, dev: Pc, timing: Timing, i: nat)
    requires Run(run, dev, timing) && i < |run|
    ensures Inv(run[i], dev, timing)
  {
    if i > 0 {
      RunInv(run, dev, timing, i - 1);
      assert StepAt(run, dev, timing, i - 1);
      NextKeeps(run[i - 1], run[i], dev, timing);
    }
  }

  /** How long a PC may go on believing that it has the surface after the last grant was
      sent to it: the message's delay, the lease, and one tick. */
  function Window(timing: Timing): nat { timing.delay + GrantLease + timing.tick }

  /** A PC without the device has the surface only while some grant to it is younger than
      that, whether or not the message that takes the surface back arrives. */
  lemma LeaseEnds(run: seq<World>, dev: Pc, timing: Timing, i: nat, pc: Pc)
    requires Run(run, dev, timing) && i < |run| && pc in run[i].relays && pc != dev
    requires OwnsSurface(run[i].relays[pc])
    ensures exists g :: g in run[i].grants && g.owned && g.source == dev && g.target == pc
                        && run[i].now <= g.sentAt + Window(timing)
  {
    var w := run[i];
    RunInv(run, dev, timing, i);
    assert RelayOk(w, dev, timing, pc);
    var g :| Lent(w, timing, pc, g);
    assert GrantOk(w, dev, g);
  }

  /** Once the device PC has left its choice alone for that long, a PC without the device
      has the surface only if it is the one that was chosen. */
  lemma OnlyTheChosen(run: seq<World>, dev: Pc, timing: Timing, i: nat, pc: Pc)
    requires Run(run, dev, timing) && i < |run| && pc in run[i].relays && pc != dev
    requires OwnsSurface(run[i].relays[pc]) && run[i].now > run[i].changedAt + Window(timing)
    ensures run[i].relays[dev].target == Some(pc)
  {
    var w := run[i];
    RunInv(run, dev, timing, i);
    assert RelayOk(w, dev, timing, pc);
    var g :| Lent(w, timing, pc, g);
    assert GrantOk(w, dev, g);
  }

  /** While the device PC lends the surface, it does not use it. */
  lemma DeviceKeepsOrLends(run: seq<World>, dev: Pc, timing: Timing, i: nat)
    requires Run(run, dev, timing) && i < |run|
    requires run[i].relays[dev].target.Some? && run[i].relays[dev].target.value != dev
    ensures !OwnsSurface(run[i].relays[dev])
  {
    RunInv(run, dev, timing, i);
    assert RelayOk(run[i], dev, timing, dev);
  }

  /** Two PCs have the surface at once only within that time after the device PC changed
      its choice, or took the surface back. */
  lemma OneOwner(run: seq<World>, dev: Pc, timing: Timing, i: nat, p: Pc, q: Pc)
    requires Run(run, dev, timing) && i < |run| && p in run[i].relays && q in run[i].relays && p != q
    requires OwnsSurface(run[i].relays[p]) && OwnsSurface(run[i].relays[q])
    ensures run[i].now <= run[i].changedAt + Window(timing)
  {
    if run[i].now > run[i].changedAt + Window(timing) {
      if p != dev && q != dev {
        OnlyTheChosen(run, dev, timing, i, p);
        OnlyTheChosen(run, dev, timing, i, q);
      } else if p == dev {
        OnlyTheChosen(run, dev, timing, i, q);
        DeviceKeepsOrLends(run, dev, timing, i);
      } else {
        OnlyTheChosen(run, dev, timing, i, p);
        DeviceKeepsOrLends(run, dev, timing, i);
      }
    }
  }
}

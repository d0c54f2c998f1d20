/** Merging recorded layers into one.  The merged layer keeps what the composition
    does inside the spans that playback owns, and nothing else; the motors must not
    notice the difference. */
module Merging {
  import opened MotionTypes
  import opened Timeline
  import opened LayerConflicts
  import opened Rendering
  import opened Ownership

  // ----- What the program does ----------------------------------------------------------

  function OwnedValues(values: map<Axis, real>, table: Table, tick: nat): map<Axis, real> {
    map axis | axis in values && (axis !in table || OwnedAt(table[axis], tick)) :: values[axis]
  }

  function OwnedFrames(frames: seq<Frame>, table: Table): (r: seq<Frame>)
    ensures |r| == |frames|
    ensures forall i :: 0 <= i < |frames| ==>
              r[i] == Frame(frames[i].tick, OwnedValues(frames[i].values, table, frames[i].tick))
  {
    seq(|frames|, i requires 0 <= i < |frames| =>
      Frame(frames[i].tick, OwnedValues(frames[i].values, table, frames[i].tick)))
  }

  /** Keeps the values of the times that were recorded. */
  method OnlyRecordedValues(frames: seq<Frame>, table: Table) returns (trimmed: seq<Frame>)
    ensures trimmed == OwnedFrames(frames, table)
  {
    if table == map[] {
      forall i | 0 <= i < |frames| ensures OwnedFrames(frames, table)[i] == frames[i] {
        assert OwnedValues(frames[i].values, table, frames[i].tick) == frames[i].values;
      }
      return frames;
    }
    trimmed := [];
    for i := 0 to |frames|
      invariant trimmed == OwnedFrames(frames, table)[..i]
    {
      trimmed := trimmed + [Frame(frames[i].tick, OwnedValues(frames[i].values, table, frames[i].tick))];
    }
  }

  function FirstTick(frames: seq<Frame>): nat
    requires frames != []
  {
    if |frames| == 1 then frames[0].tick else Min(FirstTick(Front(frames)), Last(frames).tick)
  }

  function ShiftFrames(frames: seq<Frame>, offset: nat): (r: seq<Frame>)
    ensures |r| == |frames|
    ensures forall i :: 0 <= i < |frames| ==> r[i] == Frame(frames[i].tick + offset, frames[i].values)
  {
    seq(|frames|, i requires 0 <= i < |frames| => Frame(frames[i].tick + offset, frames[i].values))
  }

  function ShiftPoints(points: seq<CurvePoint>, offset: nat): (r: seq<CurvePoint>)
    ensures |r| == |points|
    ensures forall i :: 0 <= i < |points| ==> r[i] == points[i].(tick := points[i].tick + offset)
  {
    seq(|points|, i requires 0 <= i < |points| => points[i].(tick := points[i].tick + offset))
  }

  function ShiftCurve(curve: Curve, offset: nat): Curve { curve.(points := ShiftPoints(curve.points, offset)) }

  function ShiftCurves(curves: seq<Curve>, offset: nat): (r: seq<Curve>)
    ensures |r| == |curves|
    ensures forall i :: 0 <= i < |curves| ==> r[i] == ShiftCurve(curves[i], offset)
  {
    seq(|curves|, i requires 0 <= i < |curves| => ShiftCurve(curves[i], offset))
  }

  /** How far the appended layer moves so that it starts one tick after the others end. */
  function AppendOffset(stationary: seq<Layer>, appended: Layer): nat
    requires appended.frames != []
  {
    if Duration(stationary) + 1 > FirstTick(appended.frames)
    then Duration(stationary) + 1 - FirstTick(appended.frames) else 0
  }

  function Shifted(stationary: seq<Layer>, appended: Layer): Layer
    requires appended.frames != []
  {
    var offset := AppendOffset(stationary, appended);
    appended.(frames := ShiftFrames(appended.frames, offset), curves := ShiftCurves(appended.curves, offset))
  }

  function Chosen(layers: seq<Layer>, ids: set<string>): (r: seq<Layer>)
    ensures forall layer :: layer in r ==> layer.enabled && layer.id in ids
  {
    if layers == [] then []
    else (if layers[0].id in ids then [layers[0].(enabled := true)] else []) + Chosen(layers[1..], ids)
  }

  function IndexOf(layers: seq<Layer>, id: string): (i: nat)
    requires exists layer :: layer in layers && layer.id == id
    ensures i < |layers| && layers[i].id == id
  {
    if layers[0].id == id then 0 else 1 + IndexOf(layers[1..], id)
  }

  /** The layers that are composed: the chosen ones, the appended one moved. */
  function Sources(layers: seq<Layer>, ids: set<string>, appendId: Option<string>): Result<seq<Layer>> {
    var chosen := Chosen(layers, ids);
    if |ids| < 2 then Err("fewer than two layers")
    else if |chosen| != |ids| then Err("some layer is missing")
    else if exists i :: 0 <= i < |chosen| && AxesOf(chosen[i].frames) == {} then Err("a layer has no data")
    else if appendId.None? then Ok(chosen)
    else if !exists layer :: layer in chosen && layer.id == appendId.value then Err("the appended layer is not chosen")
    else
      var k := IndexOf(chosen, appendId.value);
      NoAxesWithoutFrames(chosen[k]);
      Ok(chosen[k := Shifted(chosen[..k] + chosen[k + 1..], chosen[k])])
  }

  lemma NoAxesWithoutFrames(layer: Layer)
    ensures layer.frames == [] ==> AxesOf(layer.frames) == {}
  {
  }

  /** What merging returns: the composition of the sources, cut down to what they own. */
  ghost predicate IsMerge(merged: Layer, sources: seq<Layer>, manual: map<Axis, real>) {
    exists table ::
      && IsOwnership(table, sources)
      && merged.enabled
      && merged.frames == MergedFrames(sources, manual, table)
  }

  /** The frames of the merged layer; its curves come later. */
  method MergeFrames(
    layers: seq<Layer>, ids: set<string>, appendId: Option<string>, manual: map<Axis, real>, id: string, name: string)
    returns (r: Result<Layer>)
    ensures r.Ok? <==>
              && Sources(layers, ids, appendId).Ok?
              && ProjectConflicts(Sources(layers, ids, appendId).value, None) == []
    ensures r.Ok? ==> IsMerge(r.value, Sources(layers, ids, appendId).value, manual)
    ensures r.Ok? ==> r.value.id == id && r.value.name == name && r.value.curves == []
  {
    var sources := Sources(layers, ids, appendId);
    if sources.Err? {
      return Err(sources.reason);
    }
    var conflicts := ListConflicts(sources.value, None);
    if conflicts != [] {
      return Err("the layers conflict");
    }
    var rendered := RenderProject(sources.value, {}, manual);
    SourcesHaveAxes(layers, ids, appendId);
    var table := PlaybackOwnership(sources.value);
    var frames := OnlyRecordedValues(rendered.value, table);
    r := Ok(Layer(id, name, true, frames, []));
    assert IsOwnership(table, sources.value);
  }

  lemma {:induction false} AllEnabled(layers: seq<Layer>)
    requires forall i :: 0 <= i < |layers| ==> layers[i].enabled
    ensures Enabled(layers) == layers
  {
    if layers != [] {
      AllEnabled(layers[1..]);
    }
  }

  lemma SourcesAreEnabled(layers: seq<Layer>, ids: set<string>, appendId: Option<string>)
    requires Sources(layers, ids, appendId).Ok?
    ensures Enabled(Sources(layers, ids, appendId).value) == Sources(layers, ids, appendId).value
    ensures |Sources(layers, ids, appendId).value| >= 2
  {
    var chosen, sources := Chosen(layers, ids), Sources(layers, ids, appendId).value;
    forall i | 0 <= i < |sources| ensures sources[i].enabled {
      assert chosen[i] in chosen;
    }
    AllEnabled(sources);
  }

  lemma SourcesHaveAxes(layers: seq<Layer>, ids: set<string>, appendId: Option<string>)
    requires Sources(layers, ids, appendId).Ok?
    ensures ProjectAxes(Sources(layers, ids, appendId).value) != {}
  {
    var chosen, sources := Chosen(layers, ids), Sources(layers, ids, appendId).value;
    SourcesAreEnabled(layers, ids, appendId);
    var axis :| axis in AxesOf(chosen[0].frames);
    if sources[0] != chosen[0] {
      ShiftKeepsAxes(chosen[0].frames, AppendOffset(chosen[1..], chosen[0]), axis);
    }
    assert sources[0] in sources;
  }

  lemma ShiftKeepsAxes(frames: seq<Frame>, offset: nat, axis: Axis)
    requires axis in AxesOf(frames)
    ensures axis in AxesOf(ShiftFrames(frames, offset))
  {
    var frame :| frame in frames && axis in frame.values;
    var i :| 0 <= i < |frames| && frames[i] == frame;
    assert ShiftFrames(frames, offset)[i] in ShiftFrames(frames, offset);
  }

  // ----- Cutting a motion down to what is owned ------------------------------------------------

  /** `cut` keeps of a motion what is owned, except tick 0, which rendering never emits. */
  ghost predicate IsCut(cut: nat -> Option<real>, owned: nat -> bool, motion: nat -> real) {
    forall tick: nat :: cut(tick) == if tick > 0 && owned(tick) then Some(motion(tick)) else None
  }

  /** Every owned stretch starts with a recorded value, and every such value is owned. */
  ghost predicate OwnershipOf(owned: nat -> bool, supply: nat -> Option<real>) {
    && (forall tick: nat :: supply(tick).Some? ==> owned(tick))
    && (forall tick: nat :: StartsRecorded(owned, supply, tick))
  }

  ghost predicate StartsRecorded(owned: nat -> bool, supply: nat -> Option<real>, tick: nat) {
    owned(tick) ==> exists start: nat :: OwnedFrom(owned, supply, start, tick)
  }

  ghost predicate OwnedFrom(owned: nat -> bool, supply: nat -> Option<real>, start: nat, tick: nat) {
    start <= tick && supply(start).Some? && forall t: nat :: start <= t <= tick ==> owned(t)
  }

  ghost predicate IsMotion(motion: nat -> real, supply: nat -> Option<real>, initial: Option<real>) {
    forall tick: nat :: motion(tick) == Motion(supply, initial, tick)
  }

  /** `next` is the first owned tick after zero. */
  ghost predicate NextOwned(owned: nat -> bool, next: nat) {
    next > 0 && owned(next) && forall t: nat :: 0 < t < next ==> !owned(t)
  }

  /** Where an axis waits for its first value. */
  function PreStart(initial: Option<real>, value: real): real {
    if initial.Some? then initial.value else value
  }

  lemma NextIsSupplied(owned: nat -> bool, supply: nat -> Option<real>, next: nat)
    requires OwnershipOf(owned, supply) && next > 1 && NextOwned(owned, next)
    ensures supply(next).Some?
  {
    assert StartsRecorded(owned, supply, next);
    var start: nat :| OwnedFrom(owned, supply, start, next);
    var before: nat := next - 1;
    assert start <= before ==> owned(before);
  }

  /** A tick that nothing owns, before the first owned tick after zero. */
  lemma CutBeforeFirst(
    cut: nat -> Option<real>, owned: nat -> bool, motion: nat -> real, initial: Option<real>, tick: nat, next: nat)
    requires IsCut(cut, owned, motion) && NextOwned(owned, next) && 0 < tick < next
    ensures Motion(cut, initial, tick) == PreStart(initial, motion(next))
  {
    assert IsFirst(cut, next);
    MotionBeforeFirst(cut, initial, tick, next);
  }

  /** A tick that nothing owns, after some owned tick. */
  lemma CutHolds(
    cut: nat -> Option<real>, owned: nat -> bool, motion: nat -> real, initial: Option<real>, tick: nat, t: nat)
    requires IsCut(cut, owned, motion) && 0 < t <= tick && owned(t) && !owned(tick)
    ensures Motion(cut, initial, tick) == Motion(cut, initial, tick - 1)
  {
    assert cut(t).Some? && cut(tick).None?;
    forall first: nat | IsFirst(cut, first) ensures first <= tick {}
    MotionHolds(cut, initial, tick);
  }

  /** A motion holds where nothing is supplied and nothing starts later. */
  lemma Holds(supply: nat -> Option<real>, initial: Option<real>, tick: nat)
    requires tick > 0 && supply(tick).None?
    requires (exists t: nat :: t <= tick && supply(t).Some?) || forall t: nat :: supply(t).Some? ==> t <= tick
    ensures Motion(supply, initial, tick) == Motion(supply, initial, tick - 1)
  {
    forall first: nat | IsFirst(supply, first) ensures first <= tick {
      assert supply(first).Some?;
    }
    MotionHolds(supply, initial, tick);
  }

  lemma {:induction false} FirstOwned(owned: nat -> bool, from: nat, t: nat) returns (next: nat)
    requires from <= t && owned(t)
    ensures from <= next <= t && owned(next) && forall u: nat :: from <= u < next ==> !owned(u)
    decreases t - from
  {
    if owned(from) { next := from; } else { next := FirstOwned(owned, from + 1, t); }
  }

  /** The value at tick 0, when nothing else is owned before `next`, is one that the merged
      layer loses: that is harmless only if the axis then starts from zero anyway. */
  ghost predicate HarmlessTickZero(owned: nat -> bool, supply: nat -> Option<real>, initial: Option<real>) {
    owned(0) ==> forall next: nat :: next > 1 && NextOwned(owned, next) && supply(next).Some? ==>
      PreStart(initial, supply(next).value) == 0.0
  }

  lemma {:induction false} MotionStartsAtZero(supply: nat -> Option<real>, initial: Option<real>, tick: nat)
    requires supply(0).Some? && forall t: nat :: 0 < t <= tick ==> supply(t).None?
    ensures Motion(supply, initial, tick) == 0.0
  {
    if tick > 0 {
      MotionStartsAtZero(supply, initial, tick - 1);
      Holds(supply, initial, tick);
    }
  }

  lemma OwnedZeroIsSupplied(owned: nat -> bool, supply: nat -> Option<real>)
    requires OwnershipOf(owned, supply) && owned(0)
    ensures supply(0).Some?
  {
    assert StartsRecorded(owned, supply, 0);
    var start: nat :| OwnedFrom(owned, supply, start, 0);
  }

  /** Before the first owned tick after zero, the uncut motion waits for it as well. */
  lemma UncutBeforeNext(
    owned: nat -> bool, supply: nat -> Option<real>, initial: Option<real>, tick: nat, next: nat)
    requires OwnershipOf(owned, supply) && NextOwned(owned, next) && 0 < tick < next && supply(next).Some?
    ensures Motion(supply, initial, tick) == if owned(0) then 0.0 else PreStart(initial, supply(next).value)
  {
    assert forall t: nat :: 0 < t < next ==> supply(t).None?;
    if owned(0) {
      OwnedZeroIsSupplied(owned, supply);
      MotionStartsAtZero(supply, initial, tick);
    } else {
      assert IsFirst(supply, next);
      MotionBeforeFirst(supply, initial, tick, next);
    }
  }

  /** After an owned tick the uncut motion holds as well. */
  lemma UncutHolds(owned: nat -> bool, supply: nat -> Option<real>, initial: Option<real>, tick: nat, t: nat)
    requires OwnershipOf(owned, supply) && t <= tick && tick > 0 && owned(t) && !owned(tick)
    ensures Motion(supply, initial, tick) == Motion(supply, initial, tick - 1)
  {
    assert StartsRecorded(owned, supply, t);
    var start: nat :| OwnedFrom(owned, supply, start, t);
    Holds(supply, initial, tick);
  }

  lemma {:induction false} CutKeepsMotion(
    cut: nat -> Option<real>, owned: nat -> bool, motion: nat -> real,
    supply: nat -> Option<real>, initial: Option<real>, tick: nat)
    requires IsCut(cut, owned, motion) && IsMotion(motion, supply, initial)
    requires OwnershipOf(owned, supply) && HarmlessTickZero(owned, supply, initial)
    ensures Motion(cut, initial, tick) == Motion(supply, initial, tick)
  {
    if tick == 0 {
    } else if owned(tick) {
      assert cut(tick) == Some(motion(tick));
    } else {
      var before: nat := tick - 1;
      CutKeepsMotion(cut, owned, motion, supply, initial, before);
      if t: nat :| 0 < t <= tick && owned(t) {
        CutHolds(cut, owned, motion, initial, tick, t);
        UncutHolds(owned, supply, initial, tick, t);
      } else if t: nat :| t > tick && owned(t) {
        var next := FirstOwned(owned, tick, t);
        CutKeepsStart(cut, owned, motion, supply, initial, tick, next);
      } else {
        assert forall t: nat :: supply(t).Some? ==> t <= tick;
        assert forall t: nat :: cut(t).Some? ==> t <= tick;
        assert cut(tick).None?;
        Holds(supply, initial, tick);
        Holds(cut, initial, tick);
      }
    }
  }

  lemma CutKeepsStart(
    cut: nat -> Option<real>, owned: nat -> bool, motion: nat -> real,
    supply: nat -> Option<real>, initial: Option<real>, tick: nat, next: nat)
    requires IsCut(cut, owned, motion) && IsMotion(motion, supply, initial)
    requires OwnershipOf(owned, supply) && HarmlessTickZero(owned, supply, initial)
    requires NextOwned(owned, next) && 0 < tick < next
    ensures Motion(cut, initial, tick) == Motion(supply, initial, tick)
  {
    NextIsSupplied(owned, supply, next);
    CutBeforeFirst(cut, owned, motion, initial, tick, next);
    UncutBeforeNext(owned, supply, initial, tick, next);
    assert motion(next) == Motion(supply, initial, next) == supply(next).value;
  }

  /** Where losing the value at tick 0 does harm, it shows at tick 1 already. */
  lemma HarmShowsAtOnce(
    cut: nat -> Option<real>, owned: nat -> bool, motion: nat -> real, supply: nat -> Option<real>, initial: Option<real>)
    requires IsCut(cut, owned, motion) && IsMotion(motion, supply, initial)
    requires OwnershipOf(owned, supply) && !HarmlessTickZero(owned, supply, initial)
    ensures Motion(cut, initial, 1) != Motion(supply, initial, 1)
  {
    var next: nat :|
      next > 1 && NextOwned(owned, next) && supply(next).Some? && PreStart(initial, supply(next).value) != 0.0;
    CutBeforeFirst(cut, owned, motion, initial, 1, next);
    UncutBeforeNext(owned, supply, initial, 1, next);
    assert motion(next) == Motion(supply, initial, next) == supply(next).value;
  }

  // ----- The merged layer -----------------------------------------------------------------

  ghost function OwnedOn(layers: seq<Layer>, axis: Axis): nat -> bool {
    (tick: nat) => Owns(layers, axis, tick)
  }

  /** The frame numbered `tick` is the one that is found. */
  lemma {:induction false} NumberedFrame(frames: seq<Frame>, from: nat, axis: Axis, tick: nat)
    requires forall i :: 0 <= i < |frames| ==> frames[i].tick == from + i
    ensures FirstAt(frames, axis, tick) ==
            if from <= tick < from + |frames| && axis in frames[tick - from].values
            then Some(frames[tick - from].values[axis]) else None
  {
    if frames != [] {
      NumberedFrame(frames[1..], from + 1, axis, tick);
    }
  }

  lemma SupplyOfOne(layer: Layer, axis: Axis, tick: nat)
    ensures SupplyAt([layer], axis, tick) == FirstAt(layer.frames, axis, tick)
  {
    assert Front([layer]) == [];
  }

  lemma EnabledOne(layer: Layer)
    requires layer.enabled
    ensures Enabled([layer]) == [layer] && Disjoint([layer])
  {
    assert Enabled([layer]) == [layer] + Enabled([]);
  }

  lemma {:induction false} LastTickBound(frames: seq<Frame>, axis: Axis, tick: nat)
    requires FirstAt(frames, axis, tick).Some?
    ensures tick <= LastTick(frames)
  {
    FirstAtSome(frames, axis, tick);
    var frame :| frame in frames && frame.tick == tick;
    LastTickCovers(frames, frame);
  }

  lemma {:induction false} LastTickCovers(frames: seq<Frame>, frame: Frame)
    requires frame in frames
    ensures frame.tick <= LastTick(frames)
  {
    if frame != Last(frames) {
      assert frames == Front(frames) + [Last(frames)];
      LastTickCovers(Front(frames), frame);
    }
  }

  lemma OwnedWithinDuration(layers: seq<Layer>, axis: Axis, tick: nat)
    requires Owns(Enabled(layers), axis, tick)
    ensures tick <= Duration(Enabled(layers)) && axis in ProjectAxes(layers)
  {
    var on := Enabled(layers);
    var i :| 0 <= i < |on| && LayerOwns(on[i], axis, tick);
    if axis !in AxesOf(on[i].frames) { AbsentOwnsNothing(on[i], axis, tick); }
    assert on[i] in on;
    var start: nat, end: nat :| start <= tick <= end && Spans(on[i], axis, start, end);
    LastTickBound(on[i].frames, axis, end);
    DurationBound(on);
  }

  function MergedFrames(sources: seq<Layer>, manual: map<Axis, real>, table: Table): seq<Frame> {
    OwnedFrames(
      RenderedFrames(RenderTracks(Enabled(sources)), manual, ProjectAxes(sources), SampleCount(sources)), table)
  }

  lemma MergedFrameAt(
    tracks: seq<map<Axis, seq<Segment>>>, manual: map<Axis, real>, axes: set<Axis>, count: nat, table: Table,
    axis: Axis, tick: nat)
    requires axis in axes <==> axis in table
    ensures FirstAt(OwnedFrames(RenderedFrames(tracks, manual, axes, count), table), axis, tick) ==
            if 1 <= tick <= count && OwnedAt(SpansOf(table, axis), tick)
            then Some(RenderedAt(tracks, manual, axis, tick)) else None
  {
    var frames := OwnedFrames(RenderedFrames(tracks, manual, axes, count), table);
    NumberedFrame(frames, 1, axis, tick);
    if 1 <= tick <= count {
      assert frames[tick - 1].values == OwnedValues(RenderedFrame(tracks, manual, axes, tick).values, table, tick);
    }
  }

  /** The merged layer supplies the cut of the motion of its sources. */
  lemma MergedSupply(sources: seq<Layer>, manual: map<Axis, real>, table: Table, axis: Axis, tick: nat)
    requires IsOwnership(table, sources) && ConflictFree(sources)
    ensures FirstAt(MergedFrames(sources, manual, table), axis, tick) ==
            if tick > 0 && Owns(Enabled(sources), axis, tick)
            then Some(Motion(SupplyOf(Enabled(sources), axis), InitialOf(manual, axis), tick)) else None
  {
    var on := Enabled(sources);
    MergedFrameAt(RenderTracks(on), manual, ProjectAxes(sources), SampleCount(sources), table, axis, tick);
    if Owns(on, axis, tick) {
      OwnedWithinDuration(sources, axis, tick);
    }
    TableAnswers(table, sources, axis, tick);
    RenderedIsMotion(on, manual, axis, tick);
  }

  lemma OwnsRecorded(layers: seq<Layer>, axis: Axis)
    ensures OwnershipOf(OwnedOn(layers, axis), SupplyOf(layers, axis))
  {
    var owned, supply := OwnedOn(layers, axis), SupplyOf(layers, axis);
    forall tick: nat | supply(tick).Some? ensures owned(tick) {
      OwnedWhereSupplied(layers, axis, tick);
    }
    forall tick: nat ensures StartsRecorded(owned, supply, tick) {
      if owned(tick) {
        var start := OwnedSince(layers, axis, tick);
        assert OwnedFrom(owned, supply, start, tick);
      }
    }
  }

  // ----- Merging keeps what the motors do -------------------------------------------------

  /** Nothing that matters is recorded for the axis at tick 0 alone. */
  ghost predicate Harmless(layers: seq<Layer>, axis: Axis, manual: map<Axis, real>) {
    HarmlessTickZero(
      OwnedOn(Enabled(layers), axis), SupplyOf(Enabled(layers), axis), InitialOf(manual, axis))
  }

  function PositionOf(layers: seq<Layer>, manual: map<Axis, real>, axis: Axis, tick: nat): real {
    RenderedAt(RenderTracks(Enabled(layers)), manual, axis, tick)
  }

  /** Playing the merged layer moves an axis as playing the sources does, at every tick,
      held gaps, held tails and the time before the first value included. */
  lemma MergeKeepsMotion(merged: Layer, sources: seq<Layer>, manual: map<Axis, real>, axis: Axis)
    requires IsMerge(merged, sources, manual) && ConflictFree(sources)
    ensures Harmless(sources, axis, manual) ==>
              forall tick: nat :: PositionOf([merged], manual, axis, tick) == PositionOf(sources, manual, axis, tick)
    ensures !Harmless(sources, axis, manual) ==>
              PositionOf([merged], manual, axis, 1) != PositionOf(sources, manual, axis, 1)
  {
    var on := Enabled(sources);
    var supply, owned, initial := SupplyOf(on, axis), OwnedOn(on, axis), InitialOf(manual, axis);
    var motion := MotionOf(supply, initial);
    var cut := SupplyOf([merged], axis);
    var table :| IsOwnership(table, sources) && merged.frames == MergedFrames(sources, manual, table);
    EnabledOne(merged);
    OwnsRecorded(on, axis);
    forall tick: nat ensures cut(tick) == if tick > 0 && owned(tick) then Some(motion(tick)) else None {
      SupplyOfOne(merged, axis, tick);
      MergedSupply(sources, manual, table, axis, tick);
    }
    assert IsCut(cut, owned, motion);
    forall tick: nat
      ensures PositionOf([merged], manual, axis, tick) == Motion(cut, initial, tick)
      ensures PositionOf(sources, manual, axis, tick) == Motion(supply, initial, tick)
    {
      RenderedIsMotion([merged], manual, axis, tick);
      RenderedIsMotion(on, manual, axis, tick);
    }
    if Harmless(sources, axis, manual) {
      forall tick: nat ensures Motion(cut, initial, tick) == Motion(supply, initial, tick) {
        CutKeepsMotion(cut, owned, motion, supply, initial, tick);
      }
    } else {
      HarmShowsAtOnce(cut, owned, motion, supply, initial);
    }
  }

  ghost function MotionOf(supply: nat -> Option<real>, initial: Option<real>): (motion: nat -> real)
    ensures IsMotion(motion, supply, initial)
  {
    (tick: nat) => Motion(supply, initial, tick)
  }

  /** The axis has something after tick 0, the first tick that rendering emits. */
  ghost predicate OwnedLater(layers: seq<Layer>, axis: Axis) {
    exists tick: nat :: tick > 0 && Owns(Enabled(layers), axis, tick)
  }

  lemma MergedAxes(sources: seq<Layer>, manual: map<Axis, real>, table: Table, axis: Axis)
    requires IsOwnership(table, sources) && ConflictFree(sources)
    ensures axis in AxesOf(MergedFrames(sources, manual, table)) <==> OwnedLater(sources, axis)
  {
    var frames := MergedFrames(sources, manual, table);
    if tick: nat :| tick > 0 && Owns(Enabled(sources), axis, tick) {
      MergedSupply(sources, manual, table, axis, tick);
      if axis !in AxesOf(frames) { FirstAtNeedsAxis(frames, axis, tick); }
    }
    if axis in AxesOf(frames) {
      var frame :| frame in frames && axis in frame.values;
      FirstAtSome(frames, axis, frame.tick);
      MergedSupply(sources, manual, table, axis, frame.tick);
    }
  }

  lemma {:induction false} NumberedLastTick(frames: seq<Frame>)
    requires forall i :: 0 <= i < |frames| ==> frames[i].tick == i + 1
    ensures LastTick(frames) == |frames|
  {
    if frames != [] {
      NumberedLastTick(Front(frames));
    }
  }

  /** The merged layer lasts as long as its sources. */
  lemma MergedDuration(merged: Layer, sources: seq<Layer>, manual: map<Axis, real>)
    requires IsMerge(merged, sources, manual)
    ensures SampleCount([merged]) == SampleCount(sources)
  {
    EnabledOne(merged);
    assert |merged.frames| == SampleCount(sources);
    NumberedLastTick(merged.frames);
    assert Front([merged]) == [];
    assert Duration([merged]) == Max(Duration([]), LastTick(merged.frames));
  }

  lemma OnlyLayer(merged: Layer, axis: Axis)
    requires merged.enabled
    ensures ProjectConflicts([merged], None) == []
    ensures axis in ProjectAxes([merged]) <==> axis in AxesOf(merged.frames)
  {
    EnabledOne(merged);
    NoConflictsMeansConflictFree([merged]);
    assert merged in Enabled([merged]);
  }

  lemma AxesOfMerge(merged: Layer, sources: seq<Layer>, manual: map<Axis, real>)
    requires IsMerge(merged, sources, manual) && ConflictFree(sources)
    ensures ProjectConflicts([merged], None) == []
    ensures ProjectAxes([merged]) <= ProjectAxes(sources)
    ensures ProjectAxes([merged]) == ProjectAxes(sources) <==>
            forall axis :: axis in ProjectAxes(sources) ==> OwnedLater(sources, axis)
  {
    var table :| IsOwnership(table, sources) && merged.frames == MergedFrames(sources, manual, table);
    OnlyLayer(merged, 0);
    forall axis ensures axis in ProjectAxes([merged]) <==> OwnedLater(sources, axis) {
      OnlyLayer(merged, axis);
      MergedAxes(sources, manual, table, axis);
    }
    forall axis | OwnedLater(sources, axis) ensures axis in ProjectAxes(sources) {
      var tick: nat :| tick > 0 && Owns(Enabled(sources), axis, tick);
      OwnedWithinDuration(sources, axis, tick);
    }
  }

  lemma FirstFrame(layers: seq<Layer>, motionIds: set<Axis>, manual: map<Axis, real>)
    requires ProjectConflicts(layers, None) == []
    ensures Selected(layers, motionIds) == {} ==> Rendered(layers, motionIds, manual) == Ok([])
    ensures Selected(layers, motionIds) != {} ==>
              && Rendered(layers, motionIds, manual).Ok?
              && |Rendered(layers, motionIds, manual).value| == SampleCount(layers)
              && Rendered(layers, motionIds, manual).value[0].values ==
                 RenderedFrame(RenderTracks(Enabled(layers)), manual, Selected(layers, motionIds), 1).values
  {
  }

  /** Rendering the merged layer gives the very frames that rendering its sources gives,
      exactly when no selected axis depends on a lone value at tick 0.  With no axes named,
      every axis must also have something after tick 0, or it disappears. */
  lemma MergeKeepsRendering(merged: Layer, sources: seq<Layer>, motionIds: set<Axis>, manual: map<Axis, real>)
    requires IsMerge(merged, sources, manual) && ProjectConflicts(sources, None) == []
    ensures Rendered([merged], motionIds, manual) == Rendered(sources, motionIds, manual) <==>
            && (forall axis :: axis in Selected(sources, motionIds) ==> Harmless(sources, axis, manual))
            && (motionIds == {} ==> forall axis :: axis in ProjectAxes(sources) ==> OwnedLater(sources, axis))
  {
    NoConflictsMeansConflictFree(sources);
    AxesOfMerge(merged, sources, manual);
    MergedDuration(merged, sources, manual);
    FirstFrame([merged], motionIds, manual);
    FirstFrame(sources, motionIds, manual);
    var axes, merges := Selected(sources, motionIds), Selected([merged], motionIds);
    if Rendered([merged], motionIds, manual) == Rendered(sources, motionIds, manual) && axes != {} {
      SameFirstFrame(merged, sources, motionIds, manual);
      forall axis | axis in axes ensures Harmless(sources, axis, manual) {
        MergeKeepsMotion(merged, sources, manual, axis);
      }
    }
    if axes == merges && forall axis :: axis in axes ==> Harmless(sources, axis, manual) {
      HarmlessMerge(merged, sources, axes, manual);
    }
  }

  lemma SameFirstFrame(merged: Layer, sources: seq<Layer>, motionIds: set<Axis>, manual: map<Axis, real>)
    requires ProjectConflicts(sources, None) == [] == ProjectConflicts([merged], None)
    requires Selected(sources, motionIds) != {}
    requires Rendered([merged], motionIds, manual) == Rendered(sources, motionIds, manual)
    ensures Selected([merged], motionIds) == Selected(sources, motionIds)
    ensures forall axis :: axis in Selected(sources, motionIds) ==>
              PositionOf([merged], manual, axis, 1) == PositionOf(sources, manual, axis, 1)
  {
    FirstFrame([merged], motionIds, manual);
    FirstFrame(sources, motionIds, manual);
    SamePositions(RenderTracks(Enabled([merged])), RenderTracks(Enabled(sources)), manual,
      Selected([merged], motionIds), Selected(sources, motionIds));
  }

  lemma SamePositions(
    a: seq<map<Axis, seq<Segment>>>, b: seq<map<Axis, seq<Segment>>>, manual: map<Axis, real>,
    axesA: set<Axis>, axesB: set<Axis>)
    requires RenderedFrame(a, manual, axesA, 1).values == RenderedFrame(b, manual, axesB, 1).values
    ensures axesA == axesB
    ensures forall axis :: axis in axesA ==> RenderedAt(a, manual, axis, 1) == RenderedAt(b, manual, axis, 1)
  {
    var x, y := RenderedFrame(a, manual, axesA, 1).values, RenderedFrame(b, manual, axesB, 1).values;
    assert x.Keys == axesA && y.Keys == axesB;
    forall axis | axis in axesA ensures RenderedAt(a, manual, axis, 1) == RenderedAt(b, manual, axis, 1) {
      assert x[axis] == y[axis];
    }
  }

  lemma HarmlessMerge(merged: Layer, sources: seq<Layer>, axes: set<Axis>, manual: map<Axis, real>)
    requires IsMerge(merged, sources, manual) && ConflictFree(sources)
    requires forall axis :: axis in axes ==> Harmless(sources, axis, manual)
    ensures RenderedFrames(RenderTracks(Enabled([merged])), manual, axes, SampleCount(sources)) ==
            RenderedFrames(RenderTracks(Enabled(sources)), manual, axes, SampleCount(sources))
  {
    var a, b := RenderTracks(Enabled([merged])), RenderTracks(Enabled(sources));
    forall axis, tick: nat | axis in axes
      ensures RenderedAt(a, manual, axis, tick) == RenderedAt(b, manual, axis, tick)
    {
      MergeKeepsMotion(merged, sources, manual, axis);
      assert PositionOf([merged], manual, axis, tick) == PositionOf(sources, manual, axis, tick);
    }
    SameFrames(a, b, manual, axes, SampleCount(sources));
  }

  /** A layer that has axis 0 at one tick only. */
  function OneValue(id: string, tick: nat): Layer { Layer(id, id, true, [Frame(tick, map[0 := 1.0])], []) }

  lemma OneValueHas(id: string, only: nat, axis: Axis, tick: nat)
    ensures FirstAt(OneValue(id, only).frames, axis, tick) == if axis == 0 && tick == only then Some(1.0) else None
    ensures 0 in AxesOf(OneValue(id, only).frames)
  {
    assert 0 in OneValue(id, only).frames[0].values;
  }

  lemma OneValueOwns(id: string, only: nat, tick: nat)
    ensures LayerOwns(OneValue(id, only), 0, tick) <==> tick == only
  {
    forall t ensures FirstAt(OneValue(id, only).frames, 0, t).Some? <==> t == only { OneValueHas(id, only, 0, t); }
    assert Spans(OneValue(id, only), 0, only, only);
  }

  /** One layer holds axis 0 at tick 0 only, the other takes it up at tick 3. */
  function LoneTickZero(): seq<Layer> { [OneValue("a", 0), OneValue("b", 3)] }

  ghost predicate AsInLoneTickZero(sources: seq<Layer>, tick: nat) {
    && SupplyAt(sources, 0, tick) == (if tick == 0 || tick == 3 then Some(1.0) else None)
    && (Owns(sources, 0, tick) <==> tick == 0 || tick == 3)
  }

  lemma LoneTickZeroHas(tick: nat)
    ensures AsInLoneTickZero(LoneTickZero(), tick)
  {
    var sources := LoneTickZero();
    OneValueHas("a", 0, 0, tick);
    OneValueHas("b", 3, 0, tick);
    OneValueOwns("a", 0, tick);
    OneValueOwns("b", 3, tick);
    assert Front(sources) == [sources[0]] && Front([sources[0]]) == [];
    assert SupplyAt([sources[0]], 0, tick) == FirstAt(sources[0].frames, 0, tick);
    assert LayerOwns(sources[0], 0, tick) <==> tick == 0;
    assert LayerOwns(sources[1], 0, tick) <==> tick == 3;
  }

  lemma LoneTickZeroIsFree()
    ensures ConflictFree(LoneTickZero()) && Enabled(LoneTickZero()) == LoneTickZero()
  {
    AllEnabled(LoneTickZero());
    forall i, j, axis | 0 <= i < j < 2 ensures NeverClash(LoneTickZero()[i], LoneTickZero()[j], axis) {
      forall tick ensures !Clash(LoneTickZero()[i], LoneTickZero()[j], axis, tick) {
        OneValueHas("a", 0, axis, tick);
        OneValueHas("b", 3, axis, tick);
      }
    }
  }

  lemma LoneTickZeroMerges()
    ensures Sources(LoneTickZero(), {"a", "b"}, None) == Ok(LoneTickZero())
  {
    var sources := LoneTickZero();
    OneValueHas("a", 0, 0, 0);
    OneValueHas("b", 3, 0, 0);
    assert sources[1..] == [sources[1]] && sources[1..][1..] == [];
    assert Chosen(sources[1..], {"a", "b"}) == [sources[1]];
    assert Chosen(sources, {"a", "b"}) == sources;
  }

  lemma LoneTickZeroBegins()
    ensures 0 in AxesOf(LoneTickZero()[0].frames)
  {
    OneValueHas("a", 0, 0, 0);
  }

  /** They may be merged; but the sources stand at 0.0 at tick 1, and the merged layer,
      which has lost the value at tick 0, waits at 1.0 for its first one. */
  lemma MergeMayChangeMotion() returns (sources: seq<Layer>)
    ensures Sources(sources, {"a", "b"}, None) == Ok(sources) && ProjectConflicts(sources, None) == []
    ensures forall merged :: IsMerge(merged, sources, map[]) ==>
              && PositionOf(sources, map[], 0, 1) == 0.0 && PositionOf([merged], map[], 0, 1) == 1.0
              && Rendered([merged], {}, map[]) != Rendered(sources, {}, map[])
  {
    sources := LoneTickZero();
    LoneTickZeroMerges();
    LoneTickZeroIsFree();
    LoneTickZeroBegins();
    forall tick: nat ensures AsInLoneTickZero(sources, tick) { LoneTickZeroHas(tick); }
    NoConflictsMeansConflictFree(sources);
    forall merged | IsMerge(merged, sources, map[])
      ensures PositionOf(sources, map[], 0, 1) == 0.0 && PositionOf([merged], map[], 0, 1) == 1.0
      ensures Rendered([merged], {}, map[]) != Rendered(sources, {}, map[])
    {
      assert AsInLoneTickZero(sources, 0) && AsInLoneTickZero(sources, 1);
      SourcesStand(sources);
      MergedWaits(sources, merged);
      LoneTickZeroShows(sources, merged);
    }
  }

  /** Frames that differ. */
  lemma LoneTickZeroShows(sources: seq<Layer>, merged: Layer)
    requires ConflictFree(sources) && Enabled(sources) == sources && sources != []
    requires 0 in AxesOf(sources[0].frames) && IsMerge(merged, sources, map[])
    requires PositionOf([merged], map[], 0, 1) != PositionOf(sources, map[], 0, 1)
    ensures Rendered([merged], {}, map[]) != Rendered(sources, {}, map[])
  {
    NoConflictsMeansConflictFree(sources);
    EnabledOne(merged);
    OnlyLayer(merged, 0);
    assert sources[0] in sources;
    assert 0 in Selected(sources, {});
    if Rendered([merged], {}, map[]) == Rendered(sources, {}, map[]) {
      SameFirstFrame(merged, sources, {}, map[]);
    }
  }

  /** What the merged layer has of axis 0. */
  lemma LoneTickZeroCut(sources: seq<Layer>, merged: Layer, tick: nat)
    requires ConflictFree(sources) && Enabled(sources) == sources && IsMerge(merged, sources, map[])
    requires AsInLoneTickZero(sources, tick) && tick < 3
    ensures SupplyAt([merged], 0, tick).None?
  {
    var table :| IsOwnership(table, sources) && merged.frames == MergedFrames(sources, map[], table);
    SupplyOfOne(merged, 0, tick);
    MergedSupply(sources, map[], table, 0, tick);
  }

  lemma LoneTickZeroLater(sources: seq<Layer>, merged: Layer)
    requires ConflictFree(sources) && Enabled(sources) == sources && IsMerge(merged, sources, map[])
    requires AsInLoneTickZero(sources, 3)
    ensures SupplyAt([merged], 0, 3) == Some(1.0)
  {
    var table :| IsOwnership(table, sources) && merged.frames == MergedFrames(sources, map[], table);
    SupplyOfOne(merged, 0, 3);
    MergedSupply(sources, map[], table, 0, 3);
    assert SupplyOf(sources, 0)(3) == Some(1.0);
  }

  lemma WaitsForFirst(supply: nat -> Option<real>)
    requires (forall tick: nat :: tick < 3 ==> supply(tick).None?) && supply(3) == Some(1.0)
    ensures Motion(supply, None, 1) == 1.0
  {
    MotionBeforeFirst(supply, None, 1, 3);
  }

  lemma MergedWaits(sources: seq<Layer>, merged: Layer)
    requires ConflictFree(sources) && Enabled(sources) == sources && IsMerge(merged, sources, map[])
    requires forall tick: nat :: AsInLoneTickZero(sources, tick)
    ensures PositionOf([merged], map[], 0, 1) == 1.0
  {
    forall tick: nat | tick < 3 ensures SupplyOf([merged], 0)(tick).None? {
      LoneTickZeroCut(sources, merged, tick);
    }
    LoneTickZeroLater(sources, merged);
    WaitsForFirst(SupplyOf([merged], 0));
    EnabledOne(merged);
    RenderedIsMotion([merged], map[], 0, 1);
  }

  lemma StandsAtZero(supply: nat -> Option<real>)
    requires supply(0).Some? && supply(1).None?
    ensures Motion(supply, None, 1) == 0.0
  {
    MotionStartsAtZero(supply, None, 1);
  }

  lemma SourcesStand(sources: seq<Layer>)
    requires ConflictFree(sources) && Enabled(sources) == sources
    requires SupplyOf(sources, 0)(0).Some? && SupplyOf(sources, 0)(1).None?
    ensures PositionOf(sources, map[], 0, 1) == 0.0
  {
    StandsAtZero(SupplyOf(sources, 0));
    RenderedIsMotion(sources, map[], 0, 1);
  }

  // ----- Appending -----------------------------------------------------------------------------

  lemma {:induction false} FirstTickBound(frames: seq<Frame>, frame: Frame)
    requires frame in frames
    ensures FirstTick(frames) <= frame.tick
  {
    if |frames| > 1 && frame != Last(frames) {
      assert frames == Front(frames) + [Last(frames)];
      FirstTickBound(Front(frames), frame);
    }
  }

  lemma {:induction false} FirstTickIsOne(frames: seq<Frame>)
    requires frames != []
    ensures exists frame :: frame in frames && frame.tick == FirstTick(frames)
  {
    FrontAndLast(frames);
    if |frames| > 1 {
      FirstTickIsOne(Front(frames));
    } else {
      assert frames[0] in frames;
    }
  }

  /** Moving a layer moves every value by the same time. */
  lemma {:induction false} ShiftMoves(frames: seq<Frame>, offset: nat, axis: Axis, tick: nat)
    ensures FirstAt(ShiftFrames(frames, offset), axis, tick + offset) == FirstAt(frames, axis, tick)
  {
    if frames != [] {
      assert ShiftFrames(frames, offset)[1..] == ShiftFrames(frames[1..], offset);
      ShiftMoves(frames[1..], offset, axis, tick);
    }
  }

  /** The moved layer starts after everything else has ended. */
  lemma ShiftedStartsAfter(stationary: seq<Layer>, appended: Layer, axis: Axis, tick: nat)
    requires appended.frames != [] && FirstAt(Shifted(stationary, appended).frames, axis, tick).Some?
    ensures tick > Duration(stationary)
  {
    var offset := AppendOffset(stationary, appended);
    var frames := ShiftFrames(appended.frames, offset);
    FirstAtSome(frames, axis, tick);
    var i :| 0 <= i < |frames| && frames[i].tick == tick;
    FirstTickBound(appended.frames, appended.frames[i]);
  }

  /** The appended layer starts one tick after the others end, unless it starts later anyway
      and stays where it is. */
  lemma {:induction false} AppendedFollows(stationary: seq<Layer>, appended: Layer) returns (offset: nat)
    requires appended.frames != []
    ensures var moved := Shifted(stationary, appended).frames;
            && (forall axis, tick: nat :: FirstAt(moved, axis, tick + offset) == FirstAt(appended.frames, axis, tick))
            && (forall frame :: frame in moved ==> frame.tick > Duration(stationary))
            && (offset == 0 || exists frame :: frame in moved && frame.tick == Duration(stationary) + 1)
  {
    offset := AppendOffset(stationary, appended);
    var frames := appended.frames;
    var moved := ShiftFrames(frames, offset);
    forall axis, tick: nat ensures FirstAt(moved, axis, tick + offset) == FirstAt(frames, axis, tick) {
      ShiftMoves(frames, offset, axis, tick);
    }
    forall frame | frame in moved ensures frame.tick > Duration(stationary) {
      var i :| 0 <= i < |moved| && moved[i] == frame;
      FirstTickBound(frames, frames[i]);
    }
    FirstTickIsOne(frames);
    var i :| 0 <= i < |frames| && frames[i].tick == FirstTick(frames);
    assert moved[i] in moved;
  }

  lemma ShiftedNeverClashes(stationary: seq<Layer>, appended: Layer, i: nat, axis: Axis)
    requires appended.frames != [] && i < |stationary|
    ensures NeverClash(stationary[i], Shifted(stationary, appended), axis)
    ensures NeverClash(Shifted(stationary, appended), stationary[i], axis)
  {
    var shifted := Shifted(stationary, appended);
    DurationBound(stationary);
    forall tick | FirstAt(stationary[i].frames, axis, tick).Some?
      ensures FirstAt(shifted.frames, axis, tick).None?
    {
      LastTickBound(stationary[i].frames, axis, tick);
      if FirstAt(shifted.frames, axis, tick).Some? { ShiftedStartsAfter(stationary, appended, axis, tick); }
    }
    forall tick ensures !Clash(stationary[i], shifted, axis, tick) && !Clash(shifted, stationary[i], axis, tick) {}
  }

  /** A layer moved behind the others never adds a conflict, wherever it stands in the
      list: the layers conflict exactly when the others do. */
  lemma AppendedNeverConflicts(layers: seq<Layer>, k: nat)
    requires k < |layers| && layers[k].frames != []
    ensures var stationary := layers[..k] + layers[k + 1..];
            Disjoint(layers[k := Shifted(stationary, layers[k])]) <==> Disjoint(stationary)
  {
    var stationary := layers[..k] + layers[k + 1..];
    var moved := layers[k := Shifted(stationary, layers[k])];
    if Disjoint(stationary) {
      forall i, j, axis | 0 <= i < j < |moved| ensures NeverClash(moved[i], moved[j], axis) {
        var p, q := if i < k then i else i - 1, if j < k then j else j - 1;
        if i == k {
          assert moved[j] == stationary[q];
          ShiftedNeverClashes(stationary, layers[k], q, axis);
        } else if j == k {
          assert moved[i] == stationary[p];
          ShiftedNeverClashes(stationary, layers[k], p, axis);
        } else {
          assert moved[i] == stationary[p] && moved[j] == stationary[q];
        }
      }
    }
    if Disjoint(moved) {
      forall i, j, axis | 0 <= i < j < |stationary| ensures NeverClash(stationary[i], stationary[j], axis) {
        var p, q := if i < k then i else i + 1, if j < k then j else j + 1;
        assert stationary[i] == moved[p] && stationary[j] == moved[q];
      }
    }
  }
}

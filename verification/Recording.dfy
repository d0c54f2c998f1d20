/** Recording a new layer, alone or on top of the playback of the layers there are. */
module Recording {
  import opened MotionTypes
  import opened Timeline
  import opened LayerConflicts
  import opened Rendering
  import opened Ownership

  datatype Mode = Record | Overdub

  /** The values that playback does not own at this tick. */
  function Unowned(values: map<Axis, real>, table: Table, tick: nat): map<Axis, real> {
    map axis | axis in values && !OwnedAt(SpansOf(table, axis), tick) :: values[axis]
  }

  /** `recording_values`: what MIDI controls, restricted to the mapped axes. */
  function Eligible(selected: map<Axis, real>, eligible: set<Axis>): map<Axis, real> {
    map axis | axis in selected && axis in eligible :: selected[axis]
  }

  /** Drops the values that playback owns at this tick. */
  method DropOwnedValues(values: map<Axis, real>, table: Table, tick: nat) returns (kept: map<Axis, real>)
    ensures kept == Unowned(values, table, tick)
  {
    if table == map[] {
      assert Unowned(values, table, tick) == values;
      return values;
    }
    return map axis | axis in values && !OwnedAt(SpansOf(table, axis), tick) :: values[axis];
  }

  function UnownedFrames(frames: seq<Frame>, table: Table): (r: seq<Frame>)
    ensures |r| == |frames|
  {
    seq(|frames|, i requires 0 <= i < |frames| =>
      Frame(frames[i].tick, Unowned(frames[i].values, table, frames[i].tick)))
  }

  /** The last net before a layer is stored: nothing at all if no value is left. */
  method WithoutOwnedValues(frames: seq<Frame>, table: Table) returns (kept: seq<Frame>)
    ensures table == map[] ==> kept == frames
    ensures table != map[] ==>
              kept == if exists i :: 0 <= i < |frames| && UnownedFrames(frames, table)[i].values != map[]
                      then UnownedFrames(frames, table) else []
  {
    if table == map[] {
      return frames;
    }
    kept := [];
    var any := false;
    for i := 0 to |frames|
      invariant kept == UnownedFrames(frames, table)[..i]
      invariant any <==> exists k :: 0 <= k < i && UnownedFrames(frames, table)[k].values != map[]
    {
      var values := map axis | axis in frames[i].values && !OwnedAt(SpansOf(table, axis), frames[i].tick) ::
        frames[i].values[axis];
      assert UnownedFrames(frames, table)[i].values == values;
      kept := kept + [Frame(frames[i].tick, values)];
      any := any || values != map[];
    }
    if !any {
      kept := [];
    }
  }

  class RecordingSession {
    var recording: bool
    var eligible: set<Axis>
    var ownership: Table
    var frames: seq<Frame>
    var recorded: set<Axis>

    /** Frames follow one another from tick 1, and hold nothing that playback owns. */
    ghost predicate Valid()
      reads this
    {
      && recorded == AxesOf(frames)
      && forall i :: 0 <= i < |frames| ==>
           && frames[i].tick == i + 1
           && frames[i].values.Keys <= eligible
           && frames[i].values == Unowned(frames[i].values, ownership, i + 1)
    }

    constructor ()
      ensures Valid() && !recording && frames == []
    {
      recording, eligible, ownership, frames, recorded := false, {}, map[], [], {};
    }

    /** Overdubbing hands over what playback owns; plain recording owns nothing. */
    method Start(mode: Mode, layers: seq<Layer>, motionIds: set<Axis>) returns (r: Result<bool>)
      modifies this
      ensures r.Ok? <==> motionIds != {} && (mode.Overdub? ==> layers != [])
      ensures r.Err? ==> frames == old(frames) && ownership == old(ownership) && recording == old(recording)
      ensures r.Ok? ==> Valid() && recording && frames == [] && eligible == motionIds
      ensures r.Ok? && mode.Overdub? ==> IsOwnership(ownership, layers)
      ensures r.Ok? && mode.Record? ==> ownership == map[]
    {
      if motionIds == {} {
        return Err("no Motion ID to record");
      }
      if mode.Overdub? {
        if layers == [] {
          return Err("overdubbing needs a recorded layer");
        }
        ownership := PlaybackOwnership(layers);
      } else {
        ownership := map[];
      }
      frames, eligible, recorded, recording := [], motionIds, {}, true;
      return Ok(true);
    }

    /** One 20 ms tick: what MIDI holds, restricted to the mapping and to what
        playback leaves free, becomes the next frame. */
    method RecordTick(selected: map<Axis, real>)
      requires Valid()
      modifies this`frames, this`recorded
      ensures Valid()
      ensures !recording ==> frames == old(frames)
      ensures recording ==>
                frames == old(frames) + [Frame(|old(frames)| + 1,
                  Unowned(Eligible(selected, eligible), ownership, |old(frames)| + 1))]
    {
      if !recording {
        return;
      }
      var values := Eligible(selected, eligible);
      var index := |frames| + 1;
      values := DropOwnedValues(values, ownership, index);
      recorded := recorded + values.Keys;
      AxesOfSnoc(frames, Frame(index, values));
      frames := frames + [Frame(index, values)];
      assert values == Unowned(values, ownership, index);
    }

    /** Stores what was recorded as one more enabled layer, unless there is nothing to
        store.  A layer recorded on top of `layers` never conflicts with them. */
    method Finish(layers: seq<Layer>, id: string, name: string) returns (layer: Option<Layer>)
      requires Valid()
      modifies this`frames, this`recorded
      ensures layer.None? <==> old(recorded) == {}
      ensures layer.Some? ==> layer.value == Layer(id, name, true, old(frames), [])
      ensures layer.Some? && IsOwnership(ownership, layers) && ConflictFree(layers) ==>
                ConflictFree(layers + [layer.value])
      ensures Valid() && frames == []
    {
      if frames == [] || recorded == {} {
        assert frames == [] ==> AxesOf(frames) == {};
        frames, recorded := [], {};
        return None;
      }
      var kept := WithoutOwnedValues(frames, ownership);
      NetCatchesNothing(frames, ownership);
      var i := SomeValue(frames);
      // The net caught nothing, so there is something to store.
      assert kept == frames && kept != [];
      layer := Some(Layer(id, name, true, kept, []));
      if IsOwnership(ownership, layers) && ConflictFree(layers) {
        OverdubNeverConflicts(layers, ownership, layer.value);
      }
      frames, recorded := [], {};
    }
  }

  lemma AxesOfSnoc(frames: seq<Frame>, frame: Frame)
    ensures AxesOf(frames + [frame]) == AxesOf(frames) + frame.values.Keys
  {}

  /** Frames that were filtered once pass the last net unchanged. */
  lemma NetCatchesNothing(frames: seq<Frame>, table: Table)
    requires forall i :: 0 <= i < |frames| ==>
               frames[i].values == Unowned(frames[i].values, table, frames[i].tick)
    ensures UnownedFrames(frames, table) == frames
  {}

  lemma SomeValue(frames: seq<Frame>) returns (i: nat)
    requires AxesOf(frames) != {}
    ensures i < |frames| && frames[i].values != map[]
  {
    var axis :| axis in AxesOf(frames);
    var frame :| frame in frames && axis in frame.values;
    i :| i < |frames| && frames[i] == frame;
  }

  // ----- What adding a layer does ----------------------------------------------------------

  lemma {:induction false} EnabledSnoc(layers: seq<Layer>, layer: Layer)
    requires layer.enabled
    ensures Enabled(layers + [layer]) == Enabled(layers) + [layer]
  {
    if layers == [] {
      assert layers + [layer] == [layer];
    } else {
      assert (layers + [layer])[1..] == layers[1..] + [layer];
      EnabledSnoc(layers[1..], layer);
    }
  }

  /** The layer has no value where the others already have one. */
  ghost predicate Fits(layers: seq<Layer>, layer: Layer) {
    forall axis, tick :: FirstAt(layer.frames, axis, tick).Some? ==> SupplyAt(layers, axis, tick).None?
  }

  lemma FittingIsDisjoint(layers: seq<Layer>, layer: Layer)
    requires Disjoint(layers) && Fits(layers, layer)
    ensures Disjoint(layers + [layer])
  {
    var after := layers + [layer];
    forall i, j, axis | 0 <= i < j < |after| ensures NeverClash(after[i], after[j], axis) {
      if j == |layers| {
        forall tick ensures !Clash(layers[i], layer, axis, tick) {
          SomeLayerSupplies(layers, axis, tick);
        }
      }
    }
  }

  lemma DisjointFits(layers: seq<Layer>, layer: Layer)
    requires Disjoint(layers + [layer])
    ensures Fits(layers, layer)
  {
    var after := layers + [layer];
    assert Front(after) == layers && Last(after) == layer;
    forall axis, tick | FirstAt(layer.frames, axis, tick).Some? ensures SupplyAt(layers, axis, tick).None? {
      StartsDiffer(after, axis, tick);
    }
  }

  /** Adding a layer keeps a project free of conflicts exactly when the layer has no
      value where an enabled layer already has one. */
  lemma AddingLayer(layers: seq<Layer>, layer: Layer)
    requires layer.enabled && ConflictFree(layers)
    ensures ConflictFree(layers + [layer]) <==> Fits(Enabled(layers), layer)
  {
    EnabledSnoc(layers, layer);
    if ConflictFree(layers + [layer]) { DisjointFits(Enabled(layers), layer); }
    if Fits(Enabled(layers), layer) { FittingIsDisjoint(Enabled(layers), layer); }
  }

  /** A layer that leaves alone what playback owns. */
  ghost predicate RecordedOver(layer: Layer, table: Table) {
    forall i :: 0 <= i < |layer.frames| ==>
      layer.frames[i].values == Unowned(layer.frames[i].values, table, layer.frames[i].tick)
  }

  /** Over playback, a value is recorded exactly if MIDI controls it, the mapping has its axis,
      and no enabled layer owns the axis at that tick. */
  lemma {:induction false} RecordsWhatIsFree(
    layers: seq<Layer>, table: Table, selected: map<Axis, real>, eligible: set<Axis>, axis: Axis, tick: nat)
    requires IsOwnership(table, layers)
    ensures var values := Unowned(Eligible(selected, eligible), table, tick);
            && (axis in values <==> axis in selected && axis in eligible && !Owns(Enabled(layers), axis, tick))
            && (axis in values ==> values[axis] == selected[axis])
  {
    TableAnswers(table, layers, axis, tick);
  }

  lemma RecordsNothingOwned(layer: Layer, table: Table, axis: Axis, tick: nat)
    requires RecordedOver(layer, table) && OwnedAt(SpansOf(table, axis), tick)
    ensures FirstAt(layer.frames, axis, tick).None?
  {
    FirstAtSome(layer.frames, axis, tick);
    forall frame | frame in layer.frames && frame.tick == tick ensures axis !in frame.values {
      var i :| 0 <= i < |layer.frames| && layer.frames[i] == frame;
      assert axis !in Unowned(frame.values, table, tick);
    }
  }

  lemma OverdubNeverConflicts(layers: seq<Layer>, table: Table, layer: Layer)
    requires layer.enabled && RecordedOver(layer, table) && IsOwnership(table, layers) && ConflictFree(layers)
    ensures ConflictFree(layers + [layer])
  {
    AddingLayer(layers, layer);
    forall axis, tick | FirstAt(layer.frames, axis, tick).Some?
      ensures SupplyAt(Enabled(layers), axis, tick).None?
    {
      if SupplyAt(Enabled(layers), axis, tick).Some? {
        OwnedWhereSupplied(Enabled(layers), axis, tick);
        TableAnswers(table, layers, axis, tick);
        RecordsNothingOwned(layer, table, axis, tick);
      }
    }
  }

  /** Once an axis has a value at `start`, its motion depends only on what is supplied
      from there on. */
  lemma {:induction false} MotionAfterValue(
    a: nat -> Option<real>, b: nat -> Option<real>, initial: Option<real>, start: nat, tick: nat)
    requires start <= tick && a(start).Some?
    requires forall t: nat :: start <= t <= tick ==> a(t) == b(t)
    ensures Motion(a, initial, tick) == Motion(b, initial, tick)
  {
    if tick > start {
      MotionAfterValue(a, b, initial, start, tick - 1);
      if a(tick).None? {
        forall first: nat | IsFirst(a, first) ensures first <= tick {}
        forall first: nat | IsFirst(b, first) ensures first <= tick {}
        MotionHolds(a, initial, tick);
        MotionHolds(b, initial, tick);
      }
    }
  }

  lemma OwnedSupplyUnchanged(layers: seq<Layer>, table: Table, layer: Layer, axis: Axis, tick: nat)
    requires RecordedOver(layer, table) && IsOwnership(table, layers) && Owns(Enabled(layers), axis, tick)
    ensures SupplyAt(Enabled(layers) + [layer], axis, tick) == SupplyAt(Enabled(layers), axis, tick)
  {
    var after := Enabled(layers) + [layer];
    TableAnswers(table, layers, axis, tick);
    RecordsNothingOwned(layer, table, axis, tick);
    assert Front(after) == Enabled(layers) && Last(after) == layer;
  }

  lemma OwnedMotionUnchanged(
    layers: seq<Layer>, table: Table, layer: Layer, initial: Option<real>, axis: Axis, tick: nat)
    requires RecordedOver(layer, table) && IsOwnership(table, layers) && Owns(Enabled(layers), axis, tick)
    ensures Motion(SupplyOf(Enabled(layers) + [layer], axis), initial, tick) ==
            Motion(SupplyOf(Enabled(layers), axis), initial, tick)
  {
    var start := OwnedSince(Enabled(layers), axis, tick);
    var before, after := SupplyOf(Enabled(layers), axis), SupplyOf(Enabled(layers) + [layer], axis);
    forall t: nat | start <= t <= tick ensures before(t) == after(t) {
      OwnedSupplyUnchanged(layers, table, layer, axis, t);
    }
    MotionAfterValue(before, after, initial, start, tick);
  }

  /** Inside every span that playback owns, held gaps included, the new layer changes
      nothing. */
  lemma OverdubKeepsPlayback(
    layers: seq<Layer>, table: Table, layer: Layer, manual: map<Axis, real>, axis: Axis, tick: nat)
    requires layer.enabled && RecordedOver(layer, table) && IsOwnership(table, layers) && ConflictFree(layers)
    requires OwnedAt(SpansOf(table, axis), tick)
    ensures RenderedAt(RenderTracks(Enabled(layers + [layer])), manual, axis, tick) ==
            RenderedAt(RenderTracks(Enabled(layers)), manual, axis, tick)
  {
    EnabledSnoc(layers, layer);
    OverdubNeverConflicts(layers, table, layer);
    RenderedIsMotion(Enabled(layers), manual, axis, tick);
    RenderedIsMotion(Enabled(layers) + [layer], manual, axis, tick);
    TableAnswers(table, layers, axis, tick);
    OwnedMotionUnchanged(layers, table, layer, InitialOf(manual, axis), axis, tick);
  }

  /** Every value that was recorded is what the axis does afterwards. */
  lemma OverdubPlaysBack(
    layers: seq<Layer>, table: Table, layer: Layer, manual: map<Axis, real>, axis: Axis, tick: nat)
    requires layer.enabled && RecordedOver(layer, table) && IsOwnership(table, layers) && ConflictFree(layers)
    requires tick > 0 && FirstAt(layer.frames, axis, tick).Some?
    ensures RenderedAt(RenderTracks(Enabled(layers + [layer])), manual, axis, tick) ==
            FirstAt(layer.frames, axis, tick).value
  {
    var after := Enabled(layers + [layer]);
    EnabledSnoc(layers, layer);
    OverdubNeverConflicts(layers, table, layer);
    RenderedIsMotion(after, manual, axis, tick);
    SupplierIsUnique(after, axis, tick, |after| - 1);
  }

  /** Plain recording hands over no ownership, so what it records may conflict. */
  lemma PlainRecordingMayConflict() returns (layers: seq<Layer>, layer: Layer)
    ensures ConflictFree(layers) && layer.enabled && RecordedOver(layer, map[])
    ensures !ConflictFree(layers + [layer])
  {
    var frames := [Frame(1, map[0 := 0.0])];
    layers := [Layer("a", "a", true, frames, [])];
    layer := Layer("b", "b", true, frames, []);
    EnabledSnoc([], layers[0]);
    assert [] + layers == layers;
    AddingLayer(layers, layer);
    assert FirstAt(frames, 0, 1) == Some(0.0);
    assert Front(layers) == [];
    assert SupplyAt(Enabled(layers), 0, 1) == Some(0.0);
  }
}

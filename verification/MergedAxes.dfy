/** How a merged layer moves on an axis whose curves become one: exactly as the sources do, or
    differently where the joined curve bridges a gap. */
module MergedAxes {
  import opened MotionTypes
  import opened Sorting
  import opened Timeline
  import LayerConflicts
  import LayerRendering = Rendering
  import Ownership
  import LayerMerging = Merging
  import opened CurveEngine
  import opened EditState
  import opened EditFrames
  import opened LayerEdit
  import opened RangeEdit
  import opened EditLayer
  import opened EditRepeat
  import opened LayerValidation
  import opened CurveFrames
  import opened CurveMerging
  import opened MergedCurves
  import opened JoinedCurve
  import opened RedrawnMotion
  import opened CurveOverlaps

  // ----- The frames of a joined axis ------------------------------------------------------------------

  /** The value that a curve draws at a tick. */
  function DrawnAt(render: Render, curve: Curve, tick: nat): real {
    var drawn, start := render(curve.points, curve.order), Bounds(curve).0;
    if drawn.Ok? && start <= tick && tick - start < |drawn.value.1| then drawn.value.1[tick - start].value else 0.0
  }

  function DrawnOn(render: Render, curve: Curve): nat -> real { (tick: nat) => DrawnAt(render, curve, tick) }

  /** The joined curve is in the frames; outside its span nothing has changed. */
  ghost predicate FramesJoined(render: Render, before: Layer, merged: Layer, axis: Axis, curve: Curve) {
    && CurveOk(render, curve) && CurvesOn(merged.curves, axis) == [curve]
    && forall tick: nat ::
         FirstAt(merged.frames, axis, tick) ==
         if InSpan(tick, Bounds(curve).0, Bounds(curve).1) then Some(DrawnAt(render, curve, tick))
         else FirstAt(before.frames, axis, tick)
  }

  lemma JoinedValue(render: Render, w: Work, after: Work, axis: Axis, curve: Curve, tick: nat)
    requires Renders(render) && Clean(after.tracks) && AxisJoined(render, w, after, axis)
    requires curve == Joined(render, w.curves, axis).value
    ensures Value(after.tracks, axis, tick) ==
            if InSpan(tick, Bounds(curve).0, Bounds(curve).1) then Some(DrawnAt(render, curve, tick))
            else Value(w.tracks, axis, tick)
  {
    DrawnFills(render, curve);
    if InSpan(tick, Bounds(curve).0, Bounds(curve).1) {
      var p := Drawn(render, curve)[tick - Bounds(curve).0];
      assert p in Drawn(render, curve) && p.tick == tick;
      OnlyPoint(Track(after.tracks, axis), p);
    } else {
      FoundPoint(Track(after.tracks, axis), tick);
      FoundPoint(Track(w.tracks, axis), tick);
      if Value(w.tracks, axis, tick).Some? {
        OnlyPoint(Track(after.tracks, axis), Point(tick, Value(w.tracks, axis, tick).value));
      }
    }
  }

  lemma ListedIn(curves: seq<Curve>, axis: Axis)
    requires |CurvesOn(curves, axis)| >= 2
    ensures axis in AxesInOrder(curves) && Gatherable(curves)
  {
    if axis !in AxesInOrder(curves) { NotListed(curves, axis); }
  }

  lemma MergedFramesOn(render: Render, before: Layer, merged: Layer, axis: Axis)
    requires Renders(render) && Structure(render, before.curves) && |CurvesOn(before.curves, axis)| >= 2
    requires OneCurvePerAxis(before, render) == Ok(merged)
    ensures Joined(render, before.curves, axis).Ok?
    ensures FramesJoined(render, before, merged, axis, Joined(render, before.curves, axis).value)
  {
    ListedIn(before.curves, axis);
    var w, axes := WorkOf(before), AxesInOrder(before.curves);
    var after := GatheredAll(w, render, axes).value;
    GatheringJoinsEvery(w, render, axes, axis);
    forall tick: nat
      ensures FirstAt(merged.frames, axis, tick) == Value(after.tracks, axis, tick)
      ensures Value(w.tracks, axis, tick) == FirstAt(before.frames, axis, tick)
    {
      FramesLookup(after.tracks, axis, tick);
      TracksLookup(before.frames, axis, tick);
    }
    forall tick: nat { JoinedValue(render, w, after, axis, Joined(render, before.curves, axis).value, tick); }
  }

  // ----- The axis is owned where its curves run ------------------------------------------------------------

  /** The frames have a value wherever the curve runs. */
  lemma FittingHas(render: Render, frames: seq<Frame>, curve: Curve, tick: nat)
    requires Renders(render) && OneValueATick(frames) && Fitting(render, frames, curve)
    requires InSpan(tick, Bounds(curve).0, Bounds(curve).1)
    ensures FirstAt(frames, curve.axis, tick).Some?
  {
    DrawnFills(render, curve);
    var k := tick - Bounds(curve).0;
    assert Agrees(frames, curve.axis, Drawn(render, curve)[k], MatchTolerance);
    assert FirstAt(frames, curve.axis, tick) == LastAt(frames, curve.axis, tick);
  }

  lemma SupplierOwns(sources: seq<Layer>, i: nat, axis: Axis, tick: nat)
    requires i < |sources| && FirstAt(sources[i].frames, axis, tick).Some?
    ensures Ownership.Owns(sources, axis, tick)
  {
    assert Ownership.Spans(sources[i], axis, tick, tick);
    assert Ownership.LayerOwns(sources[i], axis, tick);
  }

  lemma SourceTickOwned(render: Render, sources: seq<Layer>, i: nat, curve: Curve, tick: nat)
    requires Renders(render) && i < |sources| && GoodSource(render, sources[i]) && curve in sources[i].curves
    requires Enabled(sources) == sources && InSpan(tick, Bounds(curve).0, Bounds(curve).1)
    ensures Ownership.Owns(sources, curve.axis, tick)
  {
    FittingHas(render, sources[i].frames, curve, tick);
    SupplierOwns(sources, i, curve.axis, tick);
  }

  lemma FillerTickOwned(
    render: Render, base: Layer, sources: seq<Layer>, manual: map<Axis, real>, curve: Curve, tick: nat)
    requires Renders(render) && LayerMerging.IsMerge(base, sources, manual) && LayerConflicts.ConflictFree(sources)
    requires Enabled(sources) == sources
    requires Fitting(render, base.frames, curve) && InSpan(tick, Bounds(curve).0, Bounds(curve).1)
    ensures Ownership.Owns(sources, curve.axis, tick)
  {
    var table :|
      Ownership.IsOwnership(table, sources) && base.frames == LayerMerging.MergedFrames(sources, manual, table);
    BaseIsDistinct(base, sources, manual);
    FittingHas(render, base.frames, curve, tick);
    LayerMerging.MergedSupply(sources, manual, table, curve.axis, tick);
  }

  lemma CurveTickOwned(
    render: Render, base: Layer, sources: seq<Layer>, manual: map<Axis, real>, names: Names, curve: Curve, tick: nat)
    requires GoodSources(render, sources, names) && LayerMerging.IsMerge(base, sources, manual)
    requires curve in CurvesOfMerge(render, sources, base.frames, names)
    requires InSpan(tick, Bounds(curve).0, Bounds(curve).1)
    ensures Ownership.Owns(sources, curve.axis, tick)
  {
    var all := SourceCurves(sources);
    var collected := Collected(all, names);
    if curve in collected {
      var j :| 0 <= j < |collected| && collected[j] == curve;
      CollectedLike(all, names, j);
      FromSomeSource(sources, all[j]);
      var i :| 0 <= i < |sources| && all[j] in sources[i].curves;
      assert GoodSource(render, sources[i]);
      SourceTickOwned(render, sources, i, all[j], tick);
    } else {
      var filled := CurvesForGaps(render, base.frames, collected, names);
      GapCurvesFit(render, base.frames, collected, names);
      var j :| 0 <= j < |filled| && filled[j] == curve;
      FillerTickOwned(render, base, sources, manual, curve, tick);
    }
  }

  // ----- Exactly when the axis moves as before ----------------------------------------------------------------

  /** The merged layer moves the axis as the sources do, at every tick. */
  ghost predicate MovesAlike(merged: Layer, sources: seq<Layer>, manual: map<Axis, real>, axis: Axis) {
    forall tick: nat ::
      LayerMerging.PositionOf([merged], manual, axis, tick) == LayerMerging.PositionOf(sources, manual, axis, tick)
  }

  /** The curve draws what the sources do, at every tick after 0. */
  ghost predicate DrawsSources(render: Render, curve: Curve, sources: seq<Layer>, manual: map<Axis, real>) {
    forall tick: nat :: tick > 0 && InSpan(tick, Bounds(curve).0, Bounds(curve).1) ==>
      DrawnAt(render, curve, tick) == LayerMerging.PositionOf(sources, manual, curve.axis, tick)
  }

  lemma BaseIsCut(base: Layer, sources: seq<Layer>, manual: map<Axis, real>, axis: Axis, motion: nat -> real)
    requires LayerMerging.IsMerge(base, sources, manual) && LayerConflicts.ConflictFree(sources)
    requires Enabled(sources) == sources
    requires LayerMerging.IsMotion(
               motion, LayerRendering.SupplyOf(sources, axis), LayerRendering.InitialOf(manual, axis))
    ensures LayerMerging.IsCut(LayerRendering.SupplyOf([base], axis), LayerMerging.OwnedOn(sources, axis), motion)
  {
    var table :|
      Ownership.IsOwnership(table, sources) && base.frames == LayerMerging.MergedFrames(sources, manual, table);
    forall tick: nat
      ensures LayerRendering.SupplyOf([base], axis)(tick) ==
              if tick > 0 && LayerMerging.OwnedOn(sources, axis)(tick) then Some(motion(tick)) else None
    {
      LayerMerging.SupplyOfOne(base, axis, tick);
      LayerMerging.MergedSupply(sources, manual, table, axis, tick);
    }
  }

  lemma MergedIsRedrawn(render: Render, base: Layer, before: Layer, merged: Layer, axis: Axis, curve: Curve)
    requires Renders(render) && FramesJoined(render, before, merged, axis, curve) && before.frames == base.frames
    ensures IsRedrawn(LayerRendering.SupplyOf([merged], axis), LayerRendering.SupplyOf([base], axis),
              Bounds(curve).0, Bounds(curve).1, DrawnOn(render, curve))
  {
    DrawnFills(render, curve);
    forall tick: nat
      ensures LayerRendering.SupplyOf([merged], axis)(tick) ==
              if InSpan(tick, Bounds(curve).0, Bounds(curve).1) then Some(DrawnAt(render, curve, tick))
              else LayerRendering.SupplyOf([base], axis)(tick)
    {
      LayerMerging.SupplyOfOne(merged, axis, tick);
      LayerMerging.SupplyOfOne(base, axis, tick);
    }
  }

  /** The joined curve starts with the first piece and ends with the last. */
  lemma JoinedEnds(render: Render, curves: seq<Curve>, axis: Axis)
    requires Renders(render) && Structure(render, curves) && CurvesOn(curves, axis) != [] && Joined(render, curves, axis).Ok?
    ensures var pieces, curve := Pieces(curves, axis), Joined(render, curves, axis).value;
            && pieces != [] && IsOn(curves, axis, pieces[0]) && IsOn(curves, axis, pieces[|pieces| - 1])
            && Bounds(curve).0 == Bounds(pieces[0]).0 < Bounds(pieces[0]).1
            && Bounds(pieces[|pieces| - 1]).0 < Bounds(pieces[|pieces| - 1]).1 == Bounds(curve).1
  {
    var pieces := Pieces(curves, axis);
    PiecesThere(curves, axis);
    JoinedBounds(render, curves, axis, 0);
    JoinedBounds(render, curves, axis, |pieces| - 1);
    PieceIsOn(render, curves, axis, 0);
    PieceIsOn(render, curves, axis, |pieces| - 1);
  }

  lemma PieceIsOn(render: Render, curves: seq<Curve>, axis: Axis, i: nat)
    requires Structure(render, curves) && i < |Pieces(curves, axis)|
    ensures IsOn(curves, axis, Pieces(curves, axis)[i])
    ensures Bounds(Pieces(curves, axis)[i]).0 < Bounds(Pieces(curves, axis)[i]).1
  {
    PiecesFollow(render, curves, axis);
    PieceOn(curves, axis, i);
    PieceInOrder(Pieces(curves, axis)[i]);
  }

  ghost predicate IsOn(curves: seq<Curve>, axis: Axis, curve: Curve) { curve in curves && curve.axis == axis }

  lemma StretchOwned(
    render: Render, base: Layer, sources: seq<Layer>, manual: map<Axis, real>, names: Names, axis: Axis)
    requires GoodSources(render, sources, names) && LayerMerging.IsMerge(base, sources, manual)
    requires var curves := CurvesOfMerge(render, sources, base.frames, names);
             Structure(render, curves) && CurvesOn(curves, axis) != [] && Joined(render, curves, axis).Ok?
    ensures var curve := Joined(render, CurvesOfMerge(render, sources, base.frames, names), axis).value;
            OwnedStretch(LayerMerging.OwnedOn(sources, axis), Bounds(curve).0, Bounds(curve).1)
  {
    var curves := CurvesOfMerge(render, sources, base.frames, names);
    var pieces := Pieces(curves, axis);
    JoinedEnds(render, curves, axis);
    EndsOwned(render, base, sources, manual, names, pieces[0]);
    EndsOwned(render, base, sources, manual, names, pieces[|pieces| - 1]);
  }

  lemma EndsOwned(
    render: Render, base: Layer, sources: seq<Layer>, manual: map<Axis, real>, names: Names, curve: Curve)
    requires GoodSources(render, sources, names) && LayerMerging.IsMerge(base, sources, manual)
    requires curve in CurvesOfMerge(render, sources, base.frames, names) && Bounds(curve).0 < Bounds(curve).1
    ensures OwnedStretch(LayerMerging.OwnedOn(sources, curve.axis), Bounds(curve).0, Bounds(curve).1)
  {
    CurveTickOwned(render, base, sources, manual, names, curve, Bounds(curve).0);
    CurveTickOwned(render, base, sources, manual, names, curve, Bounds(curve).1);
    if Bounds(curve).0 == 0 { CurveTickOwned(render, base, sources, manual, names, curve, 1); }
  }

  lemma PieceOn(curves: seq<Curve>, axis: Axis, i: nat)
    requires i < |Pieces(curves, axis)|
    ensures Pieces(curves, axis)[i] in curves && Pieces(curves, axis)[i].axis == axis
  {
    assert Pieces(curves, axis)[i] in Pieces(curves, axis);
    CurvesOnAxis(curves, axis, Pieces(curves, axis)[i]);
  }

  lemma PlayedIs(layers: seq<Layer>, manual: map<Axis, real>, axis: Axis, tick: nat)
    requires Enabled(layers) == layers && LayerConflicts.Disjoint(layers)
    ensures LayerMerging.PositionOf(layers, manual, axis, tick) ==
            LayerRendering.Motion(LayerRendering.SupplyOf(layers, axis), LayerRendering.InitialOf(manual, axis), tick)
  {
    LayerRendering.RenderedIsMotion(layers, manual, axis, tick);
  }

  /** The motion of the sources on the axis. */
  ghost function SourceMotion(sources: seq<Layer>, manual: map<Axis, real>, axis: Axis): nat -> real {
    LayerMerging.MotionOf(LayerRendering.SupplyOf(sources, axis), LayerRendering.InitialOf(manual, axis))
  }

  lemma RedrawnAxisIs(
    render: Render, base: Layer, before: Layer, merged: Layer, sources: seq<Layer>, manual: map<Axis, real>, axis: Axis,
    curve: Curve)
    requires Renders(render) && LayerMerging.IsMerge(base, sources, manual) && LayerConflicts.ConflictFree(sources)
    requires Enabled(sources) == sources && before.frames == base.frames
    requires FramesJoined(render, before, merged, axis, curve)
    requires OwnedStretch(LayerMerging.OwnedOn(sources, axis), Bounds(curve).0, Bounds(curve).1)
    ensures IsAxis(
              LayerRendering.SupplyOf([merged], axis), LayerRendering.SupplyOf([base], axis),
              LayerMerging.OwnedOn(sources, axis), SourceMotion(sources, manual, axis),
              LayerRendering.SupplyOf(sources, axis), LayerRendering.InitialOf(manual, axis),
              Bounds(curve).0, Bounds(curve).1, DrawnOn(render, curve))
  {
    BaseIsCut(base, sources, manual, axis, SourceMotion(sources, manual, axis));
    LayerMerging.OwnsRecorded(sources, axis);
    MergedIsRedrawn(render, base, before, merged, axis, curve);
  }

  /** What is redrawn decides. */
  lemma RedrawnAxis(
    render: Render, base: Layer, before: Layer, merged: Layer, sources: seq<Layer>, manual: map<Axis, real>, axis: Axis,
    curve: Curve)
    requires Renders(render) && LayerMerging.IsMerge(base, sources, manual) && LayerConflicts.ConflictFree(sources)
    requires Enabled(sources) == sources && before.frames == base.frames && merged.enabled && curve.axis == axis
    requires FramesJoined(render, before, merged, axis, curve)
    requires OwnedStretch(LayerMerging.OwnedOn(sources, axis), Bounds(curve).0, Bounds(curve).1)
    ensures MovesAlike(merged, sources, manual, axis) <==>
            LayerMerging.Harmless(sources, axis, manual) && DrawsSources(render, curve, sources, manual)
  {
    var supply, initial := LayerRendering.SupplyOf(sources, axis), LayerRendering.InitialOf(manual, axis);
    var motion, drawn := SourceMotion(sources, manual, axis), DrawnOn(render, curve);
    var cut, redrawn := LayerRendering.SupplyOf([base], axis), LayerRendering.SupplyOf([merged], axis);
    var owned, start, end := LayerMerging.OwnedOn(sources, axis), Bounds(curve).0, Bounds(curve).1;
    RedrawnAxisIs(render, base, before, merged, sources, manual, axis, curve);
    RedrawnDecides(redrawn, cut, owned, motion, supply, initial, start, end, drawn);
    AlikeIs(merged, sources, manual, axis);
    DrawsIs(render, curve, sources, manual);
  }

  lemma AlikeIs(merged: Layer, sources: seq<Layer>, manual: map<Axis, real>, axis: Axis)
    requires LayerConflicts.ConflictFree(sources) && Enabled(sources) == sources && merged.enabled
    ensures MovesAlike(merged, sources, manual, axis) <==>
            forall tick: nat ::
              LayerRendering.Motion(LayerRendering.SupplyOf([merged], axis), LayerRendering.InitialOf(manual, axis), tick) ==
              SourceMotion(sources, manual, axis)(tick)
  {
    LayerMerging.EnabledOne(merged);
    forall tick: nat
      ensures LayerMerging.PositionOf([merged], manual, axis, tick) ==
              LayerRendering.Motion(LayerRendering.SupplyOf([merged], axis), LayerRendering.InitialOf(manual, axis), tick)
      ensures LayerMerging.PositionOf(sources, manual, axis, tick) == SourceMotion(sources, manual, axis)(tick)
    {
      PlayedIs([merged], manual, axis, tick);
      PlayedIs(sources, manual, axis, tick);
    }
  }

  lemma DrawsIs(render: Render, curve: Curve, sources: seq<Layer>, manual: map<Axis, real>)
    requires LayerConflicts.ConflictFree(sources) && Enabled(sources) == sources
    ensures DrawsSources(render, curve, sources, manual) <==>
            DrawsMotion(DrawnOn(render, curve), SourceMotion(sources, manual, curve.axis), Bounds(curve).0, Bounds(curve).1)
  {
    var drawn, motion := DrawnOn(render, curve), SourceMotion(sources, manual, curve.axis);
    forall tick: nat
      ensures LayerMerging.PositionOf(sources, manual, curve.axis, tick) == motion(tick)
      ensures DrawnAt(render, curve, tick) == drawn(tick)
    {
      PlayedIs(sources, manual, curve.axis, tick);
    }
  }

  lemma BeforeGathering(render: Render, base: Layer, sources: seq<Layer>, names: Names, merged: Layer)
    requires WithCurves(render, base, sources, names) == Ok(merged)
    ensures OneCurvePerAxis(base.(curves := CurvesOfMerge(render, sources, base.frames, names)), render) == Ok(merged)
    ensures merged.enabled == base.enabled
  {
  }

  lemma MergeStructure(render: Render, base: Layer, sources: seq<Layer>, manual: map<Axis, real>, names: Names)
    requires GoodSources(render, sources, names) && LayerMerging.IsMerge(base, sources, manual)
    ensures Renders(render) && base.enabled && Structure(render, CurvesOfMerge(render, sources, base.frames, names))
  {
    CurvesOfMergeOk(render, base, sources, manual, names);
  }

  /** The joined curve is in the merged frames, over a stretch that the axis owns. */
  lemma JoinedInMerge(
    render: Render, base: Layer, sources: seq<Layer>, manual: map<Axis, real>, names: Names, merged: Layer, axis: Axis)
    requires GoodSources(render, sources, names) && LayerMerging.IsMerge(base, sources, manual)
    requires WithCurves(render, base, sources, names) == Ok(merged)
    requires |CurvesOn(CurvesOfMerge(render, sources, base.frames, names), axis)| >= 2
    ensures var before := base.(curves := CurvesOfMerge(render, sources, base.frames, names));
            var joined := Joined(render, before.curves, axis);
            && joined.Ok? && joined.value.axis == axis && FramesJoined(render, before, merged, axis, joined.value)
            && OwnedStretch(LayerMerging.OwnedOn(sources, axis), Bounds(joined.value).0, Bounds(joined.value).1)
            && merged.enabled
  {
    var before := base.(curves := CurvesOfMerge(render, sources, base.frames, names));
    BeforeGathering(render, base, sources, names, merged);
    MergeStructure(render, base, sources, manual, names);
    MergedFramesOn(render, before, merged, axis);
    StretchOwned(render, base, sources, manual, names, axis);
  }

  /** On an axis with several curves the merged layer moves as the sources do if and only if
      the curve that they become draws what the sources do, and no lone value at tick 0 gets
      lost. */
  lemma JoinedAxisDecides(
    render: Render, base: Layer, sources: seq<Layer>, manual: map<Axis, real>, names: Names, merged: Layer, axis: Axis)
    requires GoodSources(render, sources, names) && LayerMerging.IsMerge(base, sources, manual)
    requires WithCurves(render, base, sources, names) == Ok(merged)
    requires |CurvesOn(CurvesOfMerge(render, sources, base.frames, names), axis)| >= 2
    ensures var joined := Joined(render, CurvesOfMerge(render, sources, base.frames, names), axis);
            && joined.Ok? && CurvesOn(merged.curves, axis) == [joined.value]
            && (MovesAlike(merged, sources, manual, axis) <==>
                  LayerMerging.Harmless(sources, axis, manual) && DrawsSources(render, joined.value, sources, manual))
  {
    var before := base.(curves := CurvesOfMerge(render, sources, base.frames, names));
    JoinedInMerge(render, base, sources, manual, names, merged, axis);
    RedrawnAxis(render, base, before, merged, sources, manual, axis, Joined(render, before.curves, axis).value);
  }

  /** The whole layer: it moves as the sources do on every axis if and only if no axis loses a
      lone value at tick 0, and on every axis with several curves the one that they become
      draws what the sources do. */
  lemma MergedLayerDecides(
    render: Render, base: Layer, sources: seq<Layer>, manual: map<Axis, real>, names: Names, merged: Layer)
    requires GoodSources(render, sources, names) && LayerMerging.IsMerge(base, sources, manual)
    requires WithCurves(render, base, sources, names) == Ok(merged)
    ensures (forall axis :: MovesAlike(merged, sources, manual, axis)) <==>
            forall axis ::
              && LayerMerging.Harmless(sources, axis, manual)
              && BridgesWell(render, CurvesOfMerge(render, sources, base.frames, names), sources, manual, axis)
  {
    var curves := CurvesOfMerge(render, sources, base.frames, names);
    forall axis
      ensures MovesAlike(merged, sources, manual, axis) <==>
              LayerMerging.Harmless(sources, axis, manual) && BridgesWell(render, curves, sources, manual, axis)
    {
      AxisDecides(render, base, sources, manual, names, merged, axis);
    }
  }

  /** If the axis has several curves, the one that they become draws what the sources do. */
  ghost predicate BridgesWell(
    render: Render, curves: seq<Curve>, sources: seq<Layer>, manual: map<Axis, real>, axis: Axis)
  {
    |CurvesOn(curves, axis)| >= 2 ==>
      Joined(render, curves, axis).Ok? && DrawsSources(render, Joined(render, curves, axis).value, sources, manual)
  }

  lemma FewDecide(
    render: Render, base: Layer, sources: seq<Layer>, manual: map<Axis, real>, names: Names, merged: Layer, axis: Axis)
    requires GoodSources(render, sources, names) && LayerMerging.IsMerge(base, sources, manual)
    requires WithCurves(render, base, sources, names) == Ok(merged)
    requires |CurvesOn(CurvesOfMerge(render, sources, base.frames, names), axis)| <= 1
    ensures MovesAlike(merged, sources, manual, axis) <==> LayerMerging.Harmless(sources, axis, manual)
  {
    var before := base.(curves := CurvesOfMerge(render, sources, base.frames, names));
    MergingKeepsCurves(render, base, sources, manual, names, merged);
    BeforeGathering(render, base, sources, names, merged);
    assert LayerMerging.IsMerge(before, sources, manual);
    MergedMotion(before, merged, sources, manual, axis);
  }

  lemma AxisDecides(
    render: Render, base: Layer, sources: seq<Layer>, manual: map<Axis, real>, names: Names, merged: Layer, axis: Axis)
    requires GoodSources(render, sources, names) && LayerMerging.IsMerge(base, sources, manual)
    requires WithCurves(render, base, sources, names) == Ok(merged)
    ensures MovesAlike(merged, sources, manual, axis) <==>
            && LayerMerging.Harmless(sources, axis, manual)
            && BridgesWell(render, CurvesOfMerge(render, sources, base.frames, names), sources, manual, axis)
  {
    if |CurvesOn(CurvesOfMerge(render, sources, base.frames, names), axis)| >= 2 {
      JoinedAxisDecides(render, base, sources, manual, names, merged, axis);
    } else {
      FewDecide(render, base, sources, manual, names, merged, axis);
    }
  }
}

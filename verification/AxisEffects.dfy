/** Adding, copying and deleting axes: what they leave in the edited layer. */
module AxisEffects {
  import opened MotionTypes
  import opened Sorting
  import opened Timeline
  import opened EditState
  import opened EditFrames
  import opened LayerEdit
  import opened RangeEdit
  import opened EditLayer
  import opened EditEffects
  import opened EditKnots
  import LayerMerging = Merging
  import LayerRendering = Rendering
  import RenderedProject
  import LayerConflicts

  /** An axis of an edited layer that had at most one curve after the edit itself. */
  lemma {:induction false} EditedAxis(
    layer: Layer, edit: Edit, render: Render, names: Names, w: Work, axis: Axis, tick: nat)
    requires Succeeds(layer, edit, render, names)
    requires Applied(WorkOf(layer), layer.frames, edit, render, names) == Ok(w) && |CurvesOn(w.curves, axis)| <= 1
    ensures var after := Edited(layer, edit, render, names).value;
            && CurvesOn(after.curves, axis) == CurvesOn(w.curves, axis)
            && FirstAt(after.frames, axis, tick) == Value(w.tracks, axis, tick)
  {
    TakingApart(render, layer.frames, layer.curves);
    AppliedKeeps(WorkOf(layer), layer.frames, edit, render, names);
    FinishedOk(render, layer, w, Limited(edit));
    FramesLookup(w.tracks, axis, tick);
    GatheringElsewhere(EditedOnce(layer, edit, render, names).value, render, axis);
  }

  // ----- Adding ----------------------------------------------------------------------------------------

  /** The layer lasts over the tick; a layer of one tick or less lasts two. */
  ghost predicate Lasts(frames: seq<Frame>, tick: nat) {
    || (exists f, g :: f in frames && g in frames && f.tick <= tick <= g.tick)
    || (frames == [] && tick <= 1)
    || (frames != [] && forall f :: f in frames ==> tick == f.tick + 1)
  }

  lemma {:induction false} FirstIsNotLater(frames: seq<Frame>, frame: Frame)
    requires frame in frames
    ensures LayerMerging.FirstTick(frames) <= frame.tick <= LayerRendering.LastTick(frames)
  {
    LayerMerging.FirstTickBound(frames, frame);
    LayerMerging.LastTickCovers(frames, frame);
  }

  lemma {:induction false} LastsFromTo(frames: seq<Frame>, tick: nat)
    requires frames != []
    ensures var start := LayerMerging.FirstTick(frames);
            var end := LayerConflicts.Max(LayerRendering.LastTick(frames), start + 1);
            Lasts(frames, tick) <==> start <= tick <= end
  {
    LayerMerging.FirstTickIsOne(frames);
    var f :| f in frames && f.tick == LayerMerging.FirstTick(frames);
    FirstIsNotLater(frames, f);
    forall g | g in frames ensures f.tick <= g.tick <= LayerRendering.LastTick(frames) { FirstIsNotLater(frames, g); }
    RenderedProject.LastTickIsOne(frames);
    if LayerRendering.LastTick(frames) == 0 {
      assert f.tick == 0;
    }
    var g :| g in frames && g.tick == LayerRendering.LastTick(frames);
  }

  lemma {:induction false} ConstantHas(start: nat, end: nat, value: real, tick: nat)
    requires start <= end
    ensures FirstPointAt(Constant(start, end, value), tick) == if start <= tick <= end then Some(value) else None
    decreases end - start
  {
    var all := Constant(start, end, value);
    if start < end {
      assert all[1..] == Constant(start + 1, end, value);
      ConstantHas(start + 1, end, value, tick);
    } else {
      assert all[1..] == [];
    }
  }

  /** What adding the axis does to the samples. */
  lemma {:induction false} AddedValue(layer: Layer, ids: seq<Axis>, initial: real, axis: Axis, tick: nat)
    requires axis in ids
    requires AxisAdded(WorkOf(layer), ids, initial, FirstFrameTick(layer.frames), LastFrameTick(layer.frames)).Ok?
    ensures var w := AxisAdded(
              WorkOf(layer), ids, initial, FirstFrameTick(layer.frames), LastFrameTick(layer.frames)).value;
            Value(w.tracks, axis, tick) == if Lasts(layer.frames, tick) then Some(initial) else None
  {
    assert axis in Unique(ids);
    if layer.frames == [] {
      ConstantHas(0, 1, initial, tick);
    } else {
      LastsFromTo(layer.frames, tick);
      var start := LayerMerging.FirstTick(layer.frames);
      ConstantHas(start, LayerConflicts.Max(LayerRendering.LastTick(layer.frames), start + 1), initial, tick);
    }
  }

  /** An axis without samples has no curves. */
  lemma {:induction false} NoCurves(layer: Layer, render: Render, axis: Axis)
    requires Renders(render) && LayerOk(render, layer) && axis !in WorkOf(layer).tracks
    ensures forall i :: 0 <= i < |layer.curves| ==> layer.curves[i].axis != axis
    ensures CurvesOn(layer.curves, axis) == []
  {
    TakingApart(render, layer.frames, layer.curves);
    forall i | 0 <= i < |layer.curves| ensures layer.curves[i].axis != axis {
      assert Held(render, WorkOf(layer).tracks, layer.curves[i]);
      HeldNeedsTrack(render, WorkOf(layer).tracks, layer.curves[i]);
    }
    NoneLeft(layer.curves, axis);
  }

  /** An added axis has the initial value for as long as the layer lasts, and nothing else. */
  lemma {:induction false} AddingAdds(
    layer: Layer, render: Render, names: Names, ids: seq<Axis>, initial: real, axis: Axis, tick: nat)
    requires Succeeds(layer, AddAxis(ids, initial), render, names) && axis in ids
    ensures var after := Edited(layer, AddAxis(ids, initial), render, names).value;
            && CurvesOn(after.curves, axis) == []
            && FirstAt(after.frames, axis, tick) == if Lasts(layer.frames, tick) then Some(initial) else None
  {
    assert axis in Unique(ids);
    NoCurves(layer, render, axis);
    var w := AxisAdded(WorkOf(layer), ids, initial, FirstFrameTick(layer.frames), LastFrameTick(layer.frames)).value;
    EditedAxis(layer, AddAxis(ids, initial), render, names, w, axis, tick);
    AddedValue(layer, ids, initial, axis, tick);
  }

  // ----- Copying ---------------------------------------------------------------------------------------

  lemma {:induction false} CopiesKnots(curves: seq<Curve>, target: Axis, names: Names, k: Point)
    ensures HasKnot(Copies(curves, target, names), target, k) <==>
            exists curve :: curve in curves && k in KnotSet(curve.points)
  {
    var copies := Copies(curves, target, names);
    if curve :| curve in curves && k in KnotSet(curve.points) {
      var i :| 0 <= i < |curves| && curves[i] == curve;
      assert copies[i] in copies;
    }
    if curve :| curve in copies && curve.axis == target && k in KnotSet(curve.points) {
      var i :| 0 <= i < |copies| && copies[i] == curve;
      assert curves[i] in curves;
    }
  }

  /** A copied axis has the points of its source, */
  lemma {:induction false} CopyingAxisPlaces(
    layer: Layer, render: Render, names: Names, source: Axis, ids: seq<Axis>, axis: Axis, k: Point)
    requires Succeeds(layer, CopyAxis(source, ids), render, names) && axis in ids
    ensures var after := Edited(layer, CopyAxis(source, ids), render, names).value;
            HasKnot(after.curves, axis, k) <==> HasKnot(layer.curves, source, k)
  {
    assert axis in Unique(ids);
    NoCurves(layer, render, axis);
    var on := CurvesOn(layer.curves, source);
    EditedKnots(layer, CopyAxis(source, ids), render, names, axis, k);
    CopiesKnots(on, axis, names, k);
    CopiedHaveKnots(layer.curves, Copies(on, axis, names), source, axis, k);
  }

  /** What copying the axis does to samples and curves. */
  lemma {:induction false} CopiedOn(
    layer: Layer, render: Render, source: Axis, ids: seq<Axis>, names: Names, axis: Axis, tick: nat)
    requires Renders(render) && LayerOk(render, layer) && axis in ids
    requires AxisCopied(WorkOf(layer), source, ids, names).Ok?
    ensures var after := AxisCopied(WorkOf(layer), source, ids, names).value;
            && |CurvesOn(after.curves, axis)| == |CurvesOn(layer.curves, source)|
            && Value(after.tracks, axis, tick) == FirstAt(layer.frames, source, tick)
  {
    var copies := Copies(CurvesOn(layer.curves, source), axis, names);
    assert axis in Unique(ids);
    NoCurves(layer, render, axis);
    CurvesOnJoin(layer.curves, copies, axis);
    AllOn(copies, axis);
    SeriesLookup(layer.frames, source, tick);
  }

  /** and where the source has at most one curve, its values too. */
  lemma {:induction false} CopyingAxisCopies(
    layer: Layer, render: Render, names: Names, source: Axis, ids: seq<Axis>, axis: Axis, tick: nat)
    requires Succeeds(layer, CopyAxis(source, ids), render, names) && axis in ids
    requires |CurvesOn(layer.curves, source)| <= 1
    ensures var after := Edited(layer, CopyAxis(source, ids), render, names).value;
            FirstAt(after.frames, axis, tick) == FirstAt(layer.frames, source, tick)
  {
    CopiedOn(layer, render, source, ids, names, axis, tick);
    EditedAxis(
      layer, CopyAxis(source, ids), render, names, AxisCopied(WorkOf(layer), source, ids, names).value, axis, tick);
  }

  lemma {:induction false} CopiedHaveKnots(curves: seq<Curve>, copies: seq<Curve>, source: Axis, axis: Axis, k: Point)
    requires forall i :: 0 <= i < |curves| ==> curves[i].axis != axis
    requires HasKnot(copies, axis, k) <==>
             exists curve :: curve in CurvesOn(curves, source) && k in KnotSet(curve.points)
    ensures HasKnot(curves + copies, axis, k) <==> HasKnot(curves, source, k)
  {
    forall curve ensures curve in CurvesOn(curves, source) <==> curve in curves && curve.axis == source {
      CurvesOnAxis(curves, source, curve);
    }
    assert HasKnot(curves + copies, axis, k) <==> HasKnot(copies, axis, k);
  }

  lemma {:induction false} AllOn(curves: seq<Curve>, axis: Axis)
    requires forall i :: 0 <= i < |curves| ==> curves[i].axis == axis
    ensures CurvesOn(curves, axis) == curves
  {
    if curves != [] {
      FrontAndLast(curves);
      AllOn(Front(curves), axis);
    }
  }

  // ----- Deleting --------------------------------------------------------------------------------------

  /** A deleted axis has neither a value nor a curve any more. */
  lemma {:induction false} DeletingRemoves(
    layer: Layer, render: Render, names: Names, ids: seq<Axis>, axis: Axis, tick: nat)
    requires Succeeds(layer, DeleteAxes(ids), render, names) && axis in ids
    ensures var after := Edited(layer, DeleteAxes(ids), render, names).value;
            CurvesOn(after.curves, axis) == [] && FirstAt(after.frames, axis, tick) == None
  {
    var others := OtherCurves(layer.curves, ids);
    forall i | 0 <= i < |others| ensures others[i].axis != axis {
      assert others[i] in others;
      OtherCurvesAre(layer.curves, ids, others[i]);
    }
    NoneLeft(others, axis);
    EditedAxis(layer, DeleteAxes(ids), render, names, AxesDeleted(WorkOf(layer), ids).value, axis, tick);
  }
}

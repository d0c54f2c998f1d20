/** Turning the recorded samples of an axis into one fitted curve. */
module AxisFit {
  import opened MotionTypes
  import opened Sorting
  import opened Timeline
  import opened CurveEngine
  import opened ChordSelection
  import opened FitErrors
  import opened CurveFit
  import opened EditState
  import opened EditFrames
  import opened LayerEdit
  import opened RangeEdit
  import opened EditLayer
  import opened EditWorkbench
  import EditEffects

  /** The axis keeps every time at which it had a value, with a value within the tolerance
      of it. */
  ghost predicate Close(before: Layer, after: Layer, axis: Axis, tolerance: real) {
    forall tick :: FirstAt(before.frames, axis, tick).Some? ==> CloseAt(before, after, axis, tolerance, tick)
  }

  ghost predicate CloseAt(before: Layer, after: Layer, axis: Axis, tolerance: real, tick: nat) {
    && FirstAt(before.frames, axis, tick).Some? && FirstAt(after.frames, axis, tick).Some?
    && Abs(FirstAt(before.frames, axis, tick).value - FirstAt(after.frames, axis, tick).value) <= tolerance
  }

  lemma FillsPoints(points: seq<CurvePoint>, order: int)
    requires Rendering(points, order).Ok? && Spaced(points) && |points| >= 2
    ensures Fills(Rendering(points, order).value.1, points[0].tick, Last(points).tick)
  {
    StoredEnds(points, order);
    PreparingIsDoneOnce(points, order);
    SamplesFill(Prepared(points, order).value, ShapeFor(order));
  }

  lemma SampleOfFit(
    ordered: seq<Point>, order: int, shape: Shape, tolerance: real, points: seq<CurvePoint>, k: nat)
    requires Draws(shape, order) && Recording(ordered) && Covers(ordered, points) && k < |ordered|
    requires Miss(ordered, points, shape, k) <= tolerance
    ensures points[0].tick <= ordered[k].tick <= Last(points).tick && Rendering(points, order).Ok?
    ensures var samples := Rendering(points, order).value.1;
            && ordered[k].tick - points[0].tick < |samples|
            && Abs(ordered[k].value - samples[ordered[k].tick - points[0].tick].value) <= tolerance
  {
    SampleInside(ordered, points, k);
    assert DrawsAt(shape, order, points, ordered[k].tick - points[0].tick);
  }

  /** The samples have the time of a recorded one, with a value close to it. */
  ghost predicate SampleClose(ordered: seq<Point>, samples: seq<Point>, tolerance: real, k: nat) {
    && k < |ordered| && FirstPointAt(samples, ordered[k].tick).Some?
    && Abs(ordered[k].value - FirstPointAt(samples, ordered[k].tick).value) <= tolerance
  }

  lemma CloseSample(
    ordered: seq<Point>, order: int, shape: Shape, tolerance: real, points: seq<CurvePoint>, k: nat)
    requires Draws(shape, order) && Recording(ordered) && Covers(ordered, points) && k < |ordered|
    requires Miss(ordered, points, shape, k) <= tolerance
    ensures Rendering(points, order).Ok? && SampleClose(ordered, Rendering(points, order).value.1, tolerance, k)
  {
    SampleOfFit(ordered, order, shape, tolerance, points, k);
    FillsPoints(points, order);
    FilledLookup(Rendering(points, order).value.1, points[0].tick, Last(points).tick, ordered[k].tick);
  }

  /** What the samples of a fitted axis are worth. */
  lemma FittedSample(
    ordered: seq<Point>, order: int, tolerance: real, limit: nat, points: seq<CurvePoint>, report: Report, k: nat)
    requires IsOrder(order) && GoodFit(ordered, order, tolerance, limit, points, report) && !report.limitReached
    requires Recording(ordered) && k < |ordered|
    ensures Rendering(points, order).Ok? && SampleClose(ordered, Rendering(points, order).value.1, tolerance, k)
  {
    OrderDraws(order);
    assert Miss(ordered, points, RawShape(order), k) <= report.maximumError <= tolerance;
    CloseSample(ordered, order, RawShape(order), tolerance, points, k);
  }

  lemma FilledLookup(samples: seq<Point>, start: nat, end: nat, tick: nat)
    requires Fills(samples, start, end) && start <= tick <= end
    ensures FirstPointAt(samples, tick) == Some(samples[tick - start].value)
  {
    FirstPointAtIndex(samples, tick, tick - start);
  }

  /** The edit of a fitted axis, seen at one of its samples. */
  lemma FittedOnce(layer: Layer, w: Work, axis: Axis, samples: seq<Point>, limited: bool, tick: nat)
    requires Finished(layer, w, limited).Ok? && Track(w.tracks, axis) == samples
    ensures FirstAt(Finished(layer, w, limited).value.frames, axis, tick) == FirstPointAt(samples, tick)
  {
    FramesLookup(w.tracks, axis, tick);
  }

  lemma OneFittedCurve(curves: seq<Curve>, axis: Axis, curve: Curve)
    requires curve.axis == axis
    ensures |CurvesOn(OtherCurves(curves, [axis]) + [curve], axis)| == 1
  {
    var others := OtherCurves(curves, [axis]);
    forall i | 0 <= i < |others| ensures others[i].axis != axis {
      assert others[i] in others;
      OtherCurvesAre(curves, [axis], others[i]);
    }
    NoneLeft(others, axis);
    CurvesOnJoin(others, [curve], axis);
    CurvesOnSingle(curve, axis);
  }

  /** After the fit the axis has the samples that were drawn through the fitted points, and
      one curve. */
  lemma FittedWork(w: Work, axis: Axis, id: string, order: int, points: seq<CurvePoint>)
    requires CurveFitted(w, Renderer(), axis, id, order, points).Ok?
    ensures Rendering(points, order).Ok?
    ensures var after := CurveFitted(w, Renderer(), axis, id, order, points).value;
            && Track(after.tracks, axis) == Rendering(points, order).value.1
            && |CurvesOn(after.curves, axis)| == 1
  {
    OneFittedCurve(w.curves, axis, Curve(id, axis, order, Rendering(points, order).value.0));
  }

  lemma FittedBefore(
    layer: Layer, ids: seq<Axis>, curveId: Option<string>, order: int, points: seq<CurvePoint>, names: Names, tick: nat)
    requires |Unique(ids)| == 1
    requires EditedOnce(layer, FitCurve(ids, curveId, order, Ok(points)), Renderer(), names).Ok?
    ensures Rendering(points, order).Ok?
    ensures var once := EditedOnce(layer, FitCurve(ids, curveId, order, Ok(points)), Renderer(), names).value;
            && FirstAt(once.frames, Unique(ids)[0], tick) == FirstPointAt(Rendering(points, order).value.1, tick)
            && |CurvesOn(once.curves, Unique(ids)[0])| == 1
  {
    var edit := FitCurve(ids, curveId, order, Ok(points));
    var w := Applied(WorkOf(layer), layer.frames, edit, Renderer(), names).value;
    FittedWork(WorkOf(layer), Unique(ids)[0], NameOf(curveId, names), order, points);
    FittedOnce(layer, w, Unique(ids)[0], Rendering(points, order).value.1, Limited(edit), tick);
  }

  lemma FittedStaysOk(
    layer: Layer, edit: Edit, names: Names)
    requires LayerOk(Renderer(), layer) && Fresh(names, layer.curves) && EditedOnce(layer, edit, Renderer(), names).Ok?
    ensures Renders(Renderer()) && LayerOk(Renderer(), EditedOnce(layer, edit, Renderer(), names).value)
  {
    var w := Applied(WorkOf(layer), layer.frames, edit, Renderer(), names).value;
    CurveEngineRenders();
    TakingApart(Renderer(), layer.frames, layer.curves);
    AppliedKeeps(WorkOf(layer), layer.frames, edit, Renderer(), names);
    FinishedOk(Renderer(), layer, w, Limited(edit));
  }

  /** Gathering does not change that. */
  lemma FittedAxis(
    layer: Layer, ids: seq<Axis>, curveId: Option<string>, order: int, points: seq<CurvePoint>, names: Names, tick: nat)
    requires LayerOk(Renderer(), layer) && Fresh(names, layer.curves) && |Unique(ids)| == 1
    requires Edited(layer, FitCurve(ids, curveId, order, Ok(points)), Renderer(), names).Ok?
    ensures Rendering(points, order).Ok?
    ensures FirstAt(Edited(layer, FitCurve(ids, curveId, order, Ok(points)), Renderer(), names).value.frames,
                    Unique(ids)[0], tick) ==
            FirstPointAt(Rendering(points, order).value.1, tick)
  {
    var edit := FitCurve(ids, curveId, order, Ok(points));
    FittedBefore(layer, ids, curveId, order, points, names, tick);
    FittedStaysOk(layer, edit, names);
    EditEffects.GatheringElsewhere(EditedOnce(layer, edit, Renderer(), names).value, Renderer(), Unique(ids)[0]);
  }

  lemma SampleAtTick(frames: seq<Frame>, axis: Axis, tick: nat) returns (k: nat)
    requires FirstAt(frames, axis, tick).Some?
    ensures k < |Series(frames, axis)| && Series(frames, axis)[k] == Point(tick, FirstAt(frames, axis, tick).value)
  {
    SeriesLookup(frames, axis, tick);
    FoundPoint(Series(frames, axis), tick);
    k :| k < |Series(frames, axis)| && Series(frames, axis)[k] == Point(tick, FirstAt(frames, axis, tick).value);
  }

  lemma FittedClose(
    layer: Layer, ids: seq<Axis>, curveId: Option<string>, order: int, points: seq<CurvePoint>, names: Names,
    tolerance: real, limit: nat, report: Report)
    requires LayerOk(Renderer(), layer) && Fresh(names, layer.curves) && |Unique(ids)| == 1 && IsOrder(order)
    requires Edited(layer, FitCurve(ids, curveId, order, Ok(points)), Renderer(), names).Ok?
    requires Recording(Series(layer.frames, Unique(ids)[0])) && !report.limitReached
    requires GoodFit(Series(layer.frames, Unique(ids)[0]), order, tolerance, limit, points, report)
    ensures Close(
              layer, Edited(layer, FitCurve(ids, curveId, order, Ok(points)), Renderer(), names).value,
              Unique(ids)[0], tolerance)
  {
    var after := Edited(layer, FitCurve(ids, curveId, order, Ok(points)), Renderer(), names).value;
    forall tick | FirstAt(layer.frames, Unique(ids)[0], tick).Some?
      ensures CloseAt(layer, after, Unique(ids)[0], tolerance, tick)
    {
      var k := SampleAtTick(layer.frames, Unique(ids)[0], tick);
      FittedSample(Series(layer.frames, Unique(ids)[0]), order, tolerance, limit, points, report, k);
      FittedAxis(layer, ids, curveId, order, points, names, tick);
    }
  }

  /** `create_axis_point_curve`: fits the samples of one axis and puts the curve in their
      place.  If it succeeds, every sample is kept within the tolerance. */
  method CreateAxisPointCurve(
    layer: Layer, ids: seq<Axis>, curveId: Option<string>, tolerance: real, maximum: int, order: int,
    propose: Proposal, names: Names)
    returns (r: Result<Layer>)
    requires Proposes(propose)
    requires forall axis :: axis in AxesOf(layer.frames) ==> NoDoubles(Series(layer.frames, axis))
    ensures r.Ok? ==> |Unique(ids)| == 1
    ensures r.Ok? && LayerOk(Renderer(), layer) && Fresh(names, layer.curves) ==>
              && LayerOk(Renderer(), r.value) && OnePerAxis(r.value.curves)
              && Close(layer, r.value, Unique(ids)[0], tolerance)
  {
    if |Unique(ids)| != 1 {
      return Err("choose one axis");
    }
    var axis := Unique(ids)[0];
    if axis !in AxesOf(layer.frames) {
      return Err("the axis is not in the layer");
    }
    var samples := Series(layer.frames, axis);
    var fit := ApproximateMotionPoints(samples, tolerance, maximum, order, propose);
    if fit.Err? {
      return Err(fit.reason);
    }
    if fit.value.1.limitReached {
      return Err("the tolerance cannot be met with so few points");
    }
    r := EditOneLayer(layer, FitCurve(ids, curveId, order, Ok(fit.value.0)), names);
    if r.Ok? && LayerOk(Renderer(), layer) && Fresh(names, layer.curves) {
      SeriesIsOrdered(layer.frames, axis);
      SortOfOrdered(samples, PointLeq());
      SortRecording(samples);
      FittedClose(
        layer, ids, curveId, order, fit.value.0, names, tolerance, PointLimit(maximum), fit.value.1);
    }
  }
}

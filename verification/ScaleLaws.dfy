/** What moving and scaling do, told by distances: from the pivot, and between points. */
module ScaleLaws {
  import opened MotionTypes
  import opened Sorting
  import opened Timeline
  import opened CurveEngine
  import opened EditState
  import opened EditFrames
  import opened LayerEdit
  import opened RangeEdit
  import opened CurveTransform
  import opened EditLayer
  import opened EditEffects
  import opened EditKnots
  import opened EditRepeat
  import opened CurveScaling

  // ----- One point ------------------------------------------------------------------------------------

  /** The whole number nearest to `x`; of two, the even one. */
  ghost predicate Nearest(n: int, x: real) {
    && -0.5 <= n as real - x <= 0.5
    && (n as real - x == 0.5 || n as real - x == -0.5 ==> n % 2 == 0)
  }

  lemma NearestIsOne(m: int, n: int, x: real)
    requires Nearest(m, x) && Nearest(n, x)
    ensures m == n
  {
    assert -1.0 <= m as real - n as real <= 1.0;
  }

  lemma RoundingIsNearest(x: real)
    requires x >= 0.0
    ensures Nearest(NearestTick(x), x)
  {
    var low := x.Floor;
    assert low as real <= x < low as real + 1.0;
  }

  /** Where the change puts a point of the axis: moved by the given time or value, or to the
      given multiple of its distance from the pivot. */
  ghost predicate Lands(was: Point, now: Point, change: Change, timePivot: nat, valuePivot: real) {
    if !InSpan(was.tick, change.start, change.end) then now == was
    else match change.kind
      case TimeShift => now.tick == was.tick + change.delta && now.value == was.value
      case TimeScale =>
        && now.value == was.value
        && Nearest(now.tick, timePivot as real + change.factor * (was.tick as real - timePivot as real))
      case ValueOffset => now.tick == was.tick && now.value - was.value == change.offset
      case ValueScale => now.tick == was.tick && now.value - valuePivot == change.factor * (was.value - valuePivot)
  }

  lemma RoundsTo(x: real, target: real)
    requires x == target >= 0.0
    ensures Nearest(NearestTick(x), target)
  {
    RoundingIsNearest(x);
  }

  lemma DistanceScaled(tick: nat, pivot: nat, factor: real) returns (target: real)
    requires pivot <= tick && factor > 0.0
    ensures target == pivot as real + factor * (tick as real - pivot as real) >= 0.0
    ensures target == pivot as real + (tick as int - pivot as int) as real * factor
  {
    var distance := (tick as int - pivot as int) as real;
    NotBefore(factor, distance);
    target := pivot as real + distance * factor;
    assert distance == tick as real - pivot as real;
  }

  lemma ScaledTickIs(tick: nat, pivot: nat, factor: real)
    requires pivot <= tick && factor > 0.0
    ensures Nearest(ScaledTick(tick, pivot, factor), pivot as real + factor * (tick as real - pivot as real))
  {
    var target := DistanceScaled(tick, pivot, factor);
    RoundsTo(pivot as real + (tick as int - pivot as int) as real * factor, target);
  }

  lemma NotBefore(factor: real, distance: real)
    requires factor > 0.0 && distance >= 0.0
    ensures distance * factor >= 0.0
  {
  }

  lemma ScaledValueIs(value: real, pivot: real, factor: real)
    ensures ScaledValue(value, pivot, factor) - pivot == factor * (value - pivot)
  {
  }

  lemma TimeLands(was: Point, change: Change, timePivot: nat, valuePivot: real)
    requires change.kind.TimeScale? && change.factor > 0.0 && timePivot <= change.start
    requires InSpan(was.tick, change.start, change.end)
    ensures Lands(was, KnotAfter(was, change, timePivot, valuePivot), change, timePivot, valuePivot)
  {
    ScaledTickIs(was.tick, timePivot, change.factor);
  }

  lemma ValueLands(was: Point, change: Change, timePivot: nat, valuePivot: real)
    requires change.kind.ValueScale?
    ensures Lands(was, KnotAfter(was, change, timePivot, valuePivot), change, timePivot, valuePivot)
  {
    ScaledValueIs(was.value, valuePivot, change.factor);
  }

  lemma ShiftLands(was: Point, change: Change, timePivot: nat, valuePivot: real)
    requires change.kind.TimeShift? || change.kind.ValueOffset? || !InSpan(was.tick, change.start, change.end)
    requires change.kind.TimeShift? && InSpan(was.tick, change.start, change.end) ==> was.tick + change.delta >= 0
    ensures Lands(was, KnotAfter(was, change, timePivot, valuePivot), change, timePivot, valuePivot)
  {
  }

  lemma LandsThere(was: Point, change: Change, timePivot: nat, valuePivot: real)
    requires change.kind.TimeShift? && InSpan(was.tick, change.start, change.end) ==> was.tick + change.delta >= 0
    requires change.kind.TimeScale? ==> change.factor > 0.0 && timePivot <= change.start
    ensures Lands(was, KnotAfter(was, change, timePivot, valuePivot), change, timePivot, valuePivot)
  {
    if !InSpan(was.tick, change.start, change.end) || change.kind.TimeShift? || change.kind.ValueOffset? {
      ShiftLands(was, change, timePivot, valuePivot);
    } else if change.kind.TimeScale? {
      TimeLands(was, change, timePivot, valuePivot);
    } else {
      ValueLands(was, change, timePivot, valuePivot);
    }
  }

  lemma LandsOnce(was: Point, now: Point, other: Point, change: Change, timePivot: nat, valuePivot: real)
    requires Lands(was, now, change, timePivot, valuePivot) && Lands(was, other, change, timePivot, valuePivot)
    ensures now == other
  {
    if change.kind.TimeScale? && InSpan(was.tick, change.start, change.end) {
      NearestIsOne(now.tick, other.tick, timePivot as real + change.factor * (was.tick as real - timePivot as real));
    }
  }

  /** Scaled, any two points of the stretch differ by the factor times what they differed by;
      one at the pivot stays there. */
  lemma DistancesScale(a: Point, b: Point, p: Point, q: Point, change: Change, timePivot: nat, valuePivot: real)
    requires change.kind.ValueScale? && InSpan(a.tick, change.start, change.end) && InSpan(b.tick, change.start, change.end)
    requires Lands(a, p, change, timePivot, valuePivot) && Lands(b, q, change, timePivot, valuePivot)
    ensures p.value - q.value == change.factor * (a.value - b.value)
    ensures a.value == valuePivot ==> p == a
  {
  }

  /** A handle before, and what the change makes of it: scaled in time, or in value. */
  ghost predicate HandleLands(was: Handle, now: Handle, change: Change) {
    && PartLands(was.dt, now.dt, if change.kind.TimeScale? then change.factor else 1.0)
    && PartLands(was.dv, now.dv, if change.kind.ValueScale? then change.factor else 1.0)
  }

  ghost predicate PartLands(was: Option<real>, now: Option<real>, factor: real) {
    (now.Some? <==> was.Some?) && (was.Some? ==> now.value == factor * was.value)
  }

  /** The handles of a changed point scale with it. */
  lemma HandlesLand(point: CurvePoint, change: Change, timePivot: nat, valuePivot: real)
    requires InSpan(point.tick, change.start, change.end)
    requires ChangedPoint(point, change, timePivot, valuePivot).Some?
    ensures var now := ChangedPoint(point, change, timePivot, valuePivot).value;
            HandleLands(point.inHandle, now.inHandle, change) && HandleLands(point.outHandle, now.outHandle, change)
  {
  }

  // ----- The pivots ---------------------------------------------------------------------------------------

  /** The value of the first sample of the axis in the stretch; nothing for a single point. */
  ghost predicate IsValuePivot(frames: seq<Frame>, axis: Axis, change: Change, pivot: real) {
    if change.start == change.end then pivot == 0.0
    else exists first: nat :: FirstSample(frames, axis, change.start, change.end, first, pivot)
  }

  ghost predicate FirstSample(frames: seq<Frame>, axis: Axis, start: nat, end: nat, first: nat, value: real) {
    && start <= first <= end && FirstAt(frames, axis, first) == Some(value)
    && forall tick: nat :: start <= tick < first ==> FirstAt(frames, axis, tick).None?
  }

  lemma {:induction false} FirstInsideIs(points: seq<Point>, start: nat, end: nat) returns (first: nat)
    requires Ordered(points, PointLeq()) && exists i :: 0 <= i < |points| && InSpan(points[i].tick, start, end)
    ensures start <= first <= end && FirstPointAt(points, first) == Some(FirstInside(points, start, end))
    ensures forall tick: nat :: start <= tick < first ==> FirstPointAt(points, tick).None?
  {
    if InSpan(points[0].tick, start, end) {
      first := points[0].tick;
      forall tick: nat | start <= tick < first ensures FirstPointAt(points, tick).None? {
        forall i | 0 <= i < |points| ensures points[i].tick != tick {
          if i > 0 { assert PointLeq()(points[0], points[i]); }
        }
        FirstPointAtMissing(points, tick);
      }
    } else {
      var i :| 0 <= i < |points| && InSpan(points[i].tick, start, end);
      assert points[1..][i - 1] == points[i];
      first := FirstInsideIs(points[1..], start, end);
    }
  }

  lemma ValuePivotIs(frames: seq<Frame>, axis: Axis, change: Change, tick: nat)
    requires change.kind.ValueScale?
    requires InSpan(tick, change.start, change.end) && FirstAt(frames, axis, tick).Some?
    ensures IsValuePivot(frames, axis, change, ValuePivot(AxisTracks(frames), axis, change))
  {
    if change.start != change.end {
      var points := Series(frames, axis);
      SeriesIsOrdered(frames, axis);
      SeriesLookup(frames, axis, tick);
      SomePointAt(points, tick);
      assert axis in AxesOf(frames) by { if axis !in AxesOf(frames) { FirstAtNeedsAxis(frames, axis, tick); } }
      var first := FirstInsideIs(points, change.start, change.end);
      forall t: nat ensures FirstPointAt(points, t) == FirstAt(frames, axis, t) { SeriesLookup(frames, axis, t); }
      assert FirstSample(frames, axis, change.start, change.end, first, FirstInside(points, change.start, change.end));
    }
  }

  lemma {:induction false} SomePointAt(points: seq<Point>, tick: nat)
    requires FirstPointAt(points, tick).Some?
    ensures exists i :: 0 <= i < |points| && points[i].tick == tick
  {
    if points[0].tick != tick {
      SomePointAt(points[1..], tick);
      var i :| 0 <= i < |points| - 1 && points[1..][i].tick == tick;
      assert points[i + 1].tick == tick;
    }
  }

  /** The start of the stretch; nothing for a single point. */
  ghost predicate IsTimePivot(change: Change, pivot: nat) {
    pivot == if change.start == change.end then 0 else change.start
  }

  // ----- After a whole edit ---------------------------------------------------------------------------------

  /** A time shift that succeeds moves no point before 0. */
  lemma ShiftStaysAfterZero(w: Work, render: Render, axes: seq<Axis>, change: Change, axis: Axis, was: Point)
    requires Renders(render) && WorkOk(render, w) && Changes(w, render, axes, change).Ok? && axis in axes
    requires HasKnot(w.curves, axis, was) && change.kind.TimeShift? && InSpan(was.tick, change.start, change.end)
    ensures was.tick + change.delta >= 0
  {
    var curve :| curve in w.curves && curve.axis == axis && was in KnotSet(curve.points);
    var p :| p in curve.points && Knot(p) == was;
    PointsInsideAre(curve.points, change.start, change.end, true, p);
    AffectedReplaced(w, render, axes, change, curve);
    assert RendersWell(render, curve.points, curve.order);
    var stored := render(curve.points, curve.order).value.0;
    var q :| q in stored && Knot(q) == was;
    var i :| 0 <= i < |stored| && stored[i] == q;
    EachChanged(stored, change, TimePivot(change), ValuePivot(w.tracks, axis, change), i);
  }

  lemma {:induction false} EachChanged(points: seq<CurvePoint>, change: Change, timePivot: nat, valuePivot: real, i: nat)
    requires ChangedPoints(points, change, timePivot, valuePivot).Some? && i < |points|
    ensures |ChangedPoints(points, change, timePivot, valuePivot).value| == |points|
    ensures ChangedPoint(points[i], change, timePivot, valuePivot) ==
            Some(ChangedPoints(points, change, timePivot, valuePivot).value[i])
  {
    if i < |points| - 1 {
      EachChanged(Front(points), change, timePivot, valuePivot, i);
    } else if |points| > 1 {
      EachChanged(Front(points), change, timePivot, valuePivot, 0);
    }
  }

  ghost predicate SomeLands(
    curves: seq<Curve>, axis: Axis, now: Point, change: Change, timePivot: nat, valuePivot: real)
  {
    exists was :: HasKnot(curves, axis, was) && Lands(was, now, change, timePivot, valuePivot)
  }

  lemma PointLands(w: Work, render: Render, ids: seq<Axis>, change: Change, axis: Axis, was: Point)
    requires Renders(render) && WorkOk(render, w) && Transformed(w, render, ids, change).Ok? && axis in ids
    requires HasKnot(w.curves, axis, was)
    ensures Lands(was, ChangedTo(w, axis, change, was), change, TimePivot(change), ValuePivot(w.tracks, axis, change))
  {
    if change.kind.TimeShift? && InSpan(was.tick, change.start, change.end) {
      ShiftStaysAfterZero(w, render, Unique(ids), change, axis, was);
    }
    LandsThere(was, change, TimePivot(change), ValuePivot(w.tracks, axis, change));
  }

  /** After a whole edit that moves or scales, the points of a chosen axis are exactly those
      that the old ones land on. */
  lemma TransformingLands(
    layer: Layer, render: Render, names: Names, ids: seq<Axis>, change: Change, axis: Axis, now: Point)
    requires Succeeds(layer, Transform(ids, change), render, names) && axis in ids
    ensures var after := Edited(layer, Transform(ids, change), render, names).value;
            HasKnot(after.curves, axis, now) <==>
            SomeLands(layer.curves, axis, now, change, TimePivot(change), ValuePivot(AxisTracks(layer.frames), axis, change))
    ensures IsTimePivot(change, TimePivot(change))
    ensures change.kind.ValueScale? ==>
              IsValuePivot(layer.frames, axis, change, ValuePivot(AxisTracks(layer.frames), axis, change))
  {
    var w := WorkOf(layer);
    var timePivot, valuePivot := TimePivot(change), ValuePivot(w.tracks, axis, change);
    TakingApart(render, layer.frames, layer.curves);
    TransformingPlaces(layer, render, names, ids, change, axis, now);
    if was :| HasKnot(layer.curves, axis, was) && ChangedTo(w, axis, change, was) == now {
      PointLands(w, render, ids, change, axis, was);
    }
    if was :| HasKnot(layer.curves, axis, was) && Lands(was, now, change, timePivot, valuePivot) {
      PointLands(w, render, ids, change, axis, was);
      LandsOnce(was, now, ChangedTo(w, axis, change, was), change, timePivot, valuePivot);
    }
    if change.kind.ValueScale? { PivotFound(layer, render, ids, change, axis); }
  }

  lemma PointInside(w: Work, render: Render, ids: seq<Axis>, change: Change, axis: Axis) returns (k: Point)
    requires Transformed(w, render, ids, change).Ok? && axis in ids
    ensures HasKnot(w.curves, axis, k) && InSpan(k.tick, change.start, change.end)
  {
    var affected := Affected(w.curves, Unique(ids), change.start, change.end);
    assert axis in Unique(ids);
    var i :| 0 <= i < |affected| && affected[i].axis == axis;
    var curve := affected[i];
    assert curve in affected;
    AffectedAre(w.curves, Unique(ids), change.start, change.end, curve);
    var p := PointsInside(curve.points, change.start, change.end, true)[0];
    PointsInsideAre(curve.points, change.start, change.end, true, p);
    k := Knot(p);
  }

  /** The axis has a sample in the stretch: it has a point there. */
  lemma PivotFound(layer: Layer, render: Render, ids: seq<Axis>, change: Change, axis: Axis)
    requires Renders(render) && LayerOk(render, layer) && axis in ids && change.kind.ValueScale?
    requires Transformed(WorkOf(layer), render, ids, change).Ok?
    ensures IsValuePivot(layer.frames, axis, change, ValuePivot(AxisTracks(layer.frames), axis, change))
  {
    var k := PointInside(WorkOf(layer), render, ids, change, axis);
    KnotIsInFrames(render, layer, axis, k);
    ValuePivotIs(layer.frames, axis, change, k.tick);
  }

  // ----- A curve that changes as a whole ---------------------------------------------------------------------

  /** What a change of values does to them. */
  function ScaleOf(change: Change, pivot: real): Scale {
    if change.kind.ValueScale? then Scale(change.factor, pivot - change.factor * pivot) else Scale(1.0, change.offset)
  }

  predicate ChangesValues(change: Change) { change.kind.ValueScale? || change.kind.ValueOffset? }

  lemma HandleFollows(handle: Handle, change: Change, pivot: real)
    requires ChangesValues(change)
    ensures ScaledHandle(handle, change) == ScaledRise(handle, ScaleOf(change, pivot))
  {
    if handle.dv.Some? && change.kind.ValueOffset? { assert Times(1.0, handle.dv.value) == handle.dv.value; }
  }

  lemma ValueFollows(value: real, change: Change, pivot: real)
    ensures change.kind.ValueScale? ==> Rescaled(value, ScaleOf(change, pivot)) == ScaledValue(value, pivot, change.factor)
    ensures change.kind.ValueOffset? ==> Rescaled(value, ScaleOf(change, pivot)) == value + change.offset
  {
  }

  lemma PointFollows(point: CurvePoint, change: Change, timePivot: nat, pivot: real)
    requires ChangesValues(change) && InSpan(point.tick, change.start, change.end)
    ensures ChangedPoint(point, change, timePivot, pivot) == Some(ScaledOne(point, ScaleOf(change, pivot)))
  {
    HandleFollows(point.inHandle, change, pivot);
    HandleFollows(point.outHandle, change, pivot);
    ValueFollows(point.value, change, pivot);
  }

  lemma {:induction false} PointsFollow(points: seq<CurvePoint>, change: Change, timePivot: nat, pivot: real)
    requires ChangesValues(change) && forall i :: 0 <= i < |points| ==> InSpan(points[i].tick, change.start, change.end)
    ensures ChangedPoints(points, change, timePivot, pivot) == Some(ScaledPoints(points, ScaleOf(change, pivot)))
  {
    if points != [] {
      var scale := ScaleOf(change, pivot);
      PointsFollow(Front(points), change, timePivot, pivot);
      PointFollows(Last(points), change, timePivot, pivot);
      assert ScaledPoints(points, scale) == ScaledPoints(Front(points), scale) + [ScaledOne(Last(points), scale)];
    }
  }

  /** All of its points are in the stretch. */
  ghost predicate Inside(curve: Curve, change: Change) {
    change.start <= Bounds(curve).0 && Bounds(curve).1 <= change.end
  }

  lemma StoredInside(render: Render, curve: Curve, change: Change)
    requires Renders(render) && CurveOk(render, curve) && Inside(curve, change)
    ensures var stored := render(curve.points, curve.order).value.0;
            Spaced(stored) && forall i :: 0 <= i < |stored| ==> InSpan(stored[i].tick, change.start, change.end)
  {
    var stored := render(curve.points, curve.order).value.0;
    assert RendersWell(render, curve.points, curve.order);
    BoundsOfSpaced(curve.points);
    forall i | 0 <= i < |stored| ensures InSpan(stored[i].tick, change.start, change.end) {
      if i > 0 { SpacedIsOrdered(stored, 0, i); }
      if i < |stored| - 1 { SpacedIsOrdered(stored, i, |stored| - 1); }
    }
  }

  /** A curve that is scaled as a whole draws what it drew, scaled; its handles scale too. */
  lemma CurveFollows(curve: Curve, change: Change, timePivot: nat, pivot: real)
    requires CurveOk(Renderer(), curve) && ChangesValues(change) && Inside(curve, change)
    ensures var (stored, samples) := Renderer()(curve.points, curve.order).value;
            var scale := ScaleOf(change, pivot);
            ChangedCurve(Renderer(), curve, change, timePivot, pivot) ==
            Ok((curve.(points := ScaledPoints(stored, scale)), ScaledSamples(samples, scale)))
  {
    var (stored, samples) := Renderer()(curve.points, curve.order).value;
    CurveEngineRenders();
    assert RendersWell(Renderer(), curve.points, curve.order);
    StoredInside(Renderer(), curve, change);
    PointsFollow(stored, change, timePivot, pivot);
    RenderingScales(stored, curve.order, ScaleOf(change, pivot));
  }

  lemma {:induction false} UpdatedOn(curves: seq<Curve>, changed: seq<(Curve, seq<Point>)>, axis: Axis)
    requires forall i :: 0 <= i < |curves| ==> Replacement(curves[i], changed).axis == curves[i].axis
    ensures CurvesOn(Updated(curves, changed), axis) == Updated(CurvesOn(curves, axis), changed)
  {
    if curves != [] {
      assert Front(Updated(curves, changed)) == Updated(Front(curves), changed);
      UpdatedOn(Front(curves), changed, axis);
    }
  }

  lemma ReplacementAxis(w: Work, render: Render, axes: seq<Axis>, change: Change, curve: Curve)
    requires Renders(render) && WorkOk(render, w) && Changes(w, render, axes, change).Ok? && curve in w.curves
    ensures Replacement(curve, Changes(w, render, axes, change).value).axis == curve.axis
  {
    if curve.axis in axes && HasPointIn(curve, change.start, change.end) {
      AffectedReplaced(w, render, axes, change, curve);
    } else {
      OthersStay(w, render, axes, change, curve);
    }
  }

  /** The curve of the axis after the change. */
  lemma ReplacedAlone(w: Work, render: Render, axes: seq<Axis>, change: Change, axis: Axis, curve: Curve)
    requires Renders(render) && WorkOk(render, w) && Changes(w, render, axes, change).Ok? && axis in axes
    requires CurvesOn(w.curves, axis) == [curve] && HasPointIn(curve, change.start, change.end)
    ensures var r := ChangedCurve(render, curve, change, TimePivot(change), ValuePivot(w.tracks, axis, change));
            r.Ok? && CurvesOn(Updated(w.curves, Changes(w, render, axes, change).value), axis) == [r.value.0]
  {
    var changed := Changes(w, render, axes, change).value;
    assert curve in CurvesOn(w.curves, axis);
    CurvesOnAxis(w.curves, axis, curve);
    AffectedReplaced(w, render, axes, change, curve);
    forall i | 0 <= i < |w.curves| ensures Replacement(w.curves[i], changed).axis == w.curves[i].axis {
      ReplacementAxis(w, render, axes, change, w.curves[i]);
    }
    UpdatedOn(w.curves, changed, axis);
  }

  /** A layer in step has what its curve draws. */
  lemma DrawnInFrames(render: Render, layer: Layer, axis: Axis, curve: Curve, i: nat)
    requires Renders(render) && LayerOk(render, layer) && CurvesOn(layer.curves, axis) == [curve]
    ensures curve in layer.curves && curve.axis == axis && CurveOk(render, curve)
    ensures i < |Drawn(render, curve)| ==>
              FirstAt(layer.frames, axis, Drawn(render, curve)[i].tick) == Some(Drawn(render, curve)[i].value)
  {
    assert curve in CurvesOn(layer.curves, axis);
    CurvesOnAxis(layer.curves, axis, curve);
    var j :| 0 <= j < |layer.curves| && layer.curves[j] == curve;
    assert InStep(render, layer.frames, layer.curves[j]);
  }

  /** Before gathering: the axis has the changed curve. */
  lemma ChangedOnce(layer: Layer, render: Render, names: Names, ids: seq<Axis>, change: Change, axis: Axis, curve: Curve)
    requires Succeeds(layer, Transform(ids, change), render, names) && axis in ids
    requires CurvesOn(layer.curves, axis) == [curve] && HasPointIn(curve, change.start, change.end)
    ensures var r := ChangedCurve(render, curve, change, TimePivot(change), ValuePivot(AxisTracks(layer.frames), axis, change));
            var once := EditedOnce(layer, Transform(ids, change), render, names);
            && r.Ok? && once.Ok? && LayerOk(render, once.value) && CurvesOn(once.value.curves, axis) == [r.value.0]
  {
    var w := WorkOf(layer);
    TakingApart(render, layer.frames, layer.curves);
    ReplacedAlone(w, render, Unique(ids), change, axis, curve);
    AppliedKeeps(w, layer.frames, Transform(ids, change), render, names);
    FinishedOk(render, layer, Transformed(w, render, ids, change).value, Limited(Transform(ids, change)));
  }

  lemma AfterGathering(layer: Layer, edit: Edit, render: Render, names: Names, axis: Axis, curve: Curve, i: nat)
    requires Succeeds(layer, edit, render, names)
    requires var once := EditedOnce(layer, edit, render, names);
             once.Ok? && LayerOk(render, once.value) && CurvesOn(once.value.curves, axis) == [curve]
    ensures CurveOk(render, curve)
    ensures i < |Drawn(render, curve)| ==>
              FirstAt(Edited(layer, edit, render, names).value.frames, axis, Drawn(render, curve)[i].tick) ==
              Some(Drawn(render, curve)[i].value)
  {
    var once := EditedOnce(layer, edit, render, names).value;
    DrawnInFrames(render, once, axis, curve, i);
    GatheringElsewhere(once, render, axis);
  }

  /** The curve is alone on its axis and in the stretch as a whole. */
  ghost predicate Whole(layer: Layer, axis: Axis, curve: Curve, change: Change) {
    CurvesOn(layer.curves, axis) == [curve] && Inside(curve, change)
  }

  lemma WholeHasPoint(render: Render, layer: Layer, axis: Axis, curve: Curve, change: Change)
    requires Renders(render) && LayerOk(render, layer) && Whole(layer, axis, curve, change)
    ensures CurveOk(render, curve) && HasPointIn(curve, change.start, change.end)
  {
    DrawnInFrames(render, layer, axis, curve, 0);
    BoundsOfSpaced(curve.points);
    SpacedIsOrdered(curve.points, 0, |curve.points| - 1);
    PointsInsideAre(curve.points, change.start, change.end, true, curve.points[0]);
  }

  /** A value before, and what the change makes of it. */
  ghost predicate ValueLandsAt(was: Option<real>, now: Option<real>, change: Change, pivot: real) {
    was.Some? && now.Some? &&
    if change.kind.ValueScale? then now.value - pivot == change.factor * (was.value - pivot)
    else now.value - was.value == change.offset
  }

  lemma SampleLands(was: Point, change: Change, pivot: real)
    requires ChangesValues(change)
    ensures ValueLandsAt(
              Some(was.value), Some(ScaledPoint(was, ScaleOf(change, pivot)).value), change, pivot)
  {
  }

  lemma SampleFollows(curve: Curve, change: Change, timePivot: nat, pivot: real, i: nat)
    requires CurveOk(Renderer(), curve) && ChangesValues(change) && Inside(curve, change)
    requires i < |Drawn(Renderer(), curve)|
    ensures var r := ChangedCurve(Renderer(), curve, change, timePivot, pivot);
            && r.Ok? && CurveOk(Renderer(), r.value.0) && i < |Drawn(Renderer(), r.value.0)|
            && Drawn(Renderer(), r.value.0)[i] == ScaledPoint(Drawn(Renderer(), curve)[i], ScaleOf(change, pivot))
  {
    CurveEngineRenders();
    CurveFollows(curve, change, timePivot, pivot);
    ChangedResult(Renderer(), curve, change, timePivot, pivot);
  }

  lemma DrawnAtTick(render: Render, curve: Curve, tick: nat) returns (i: nat)
    requires Renders(render) && CurveOk(render, curve) && InSpan(tick, Bounds(curve).0, Bounds(curve).1)
    ensures i < |Drawn(render, curve)| && Drawn(render, curve)[i].tick == tick
  {
    DrawnFills(render, curve);
    i := tick - Bounds(curve).0;
  }

  /** After a whole edit that scales or moves the values of a curve as a whole, the axis has
      at every tick of the curve its old value, scaled or moved. */
  lemma ScalingDraws(
    layer: Layer, names: Names, ids: seq<Axis>, change: Change, axis: Axis, curve: Curve, tick: nat)
    requires Succeeds(layer, Transform(ids, change), Renderer(), names) && axis in ids && ChangesValues(change)
    requires Whole(layer, axis, curve, change) && InSpan(tick, Bounds(curve).0, Bounds(curve).1)
    ensures ValueLandsAt(
              FirstAt(layer.frames, axis, tick),
              FirstAt(Edited(layer, Transform(ids, change), Renderer(), names).value.frames, axis, tick),
              change, ValuePivot(AxisTracks(layer.frames), axis, change))
  {
    var edit, timePivot := Transform(ids, change), TimePivot(change);
    var pivot := ValuePivot(AxisTracks(layer.frames), axis, change);
    WholeHasPoint(Renderer(), layer, axis, curve, change);
    ChangedOnce(layer, Renderer(), names, ids, change, axis, curve);
    var i := DrawnAtTick(Renderer(), curve, tick);
    DrawnInFrames(Renderer(), layer, axis, curve, i);
    SampleFollows(curve, change, timePivot, pivot, i);
    AfterGathering(layer, edit, Renderer(), names, axis,
      ChangedCurve(Renderer(), curve, change, timePivot, pivot).value.0, i);
    SampleLands(Drawn(Renderer(), curve)[i], change, pivot);
  }
}

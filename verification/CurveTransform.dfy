/** Moving and scaling the points of a stretch of time, in time or in value. */
module CurveTransform {
  import opened MotionTypes
  import opened Sorting
  import opened Timeline
  import opened CurveEngine
  import opened EditState
  import opened LayerEdit

  datatype Kind = TimeShift | TimeScale | ValueOffset | ValueScale

  /** What is asked for; a number that the kind does not use is ignored. */
  datatype Change = Change(kind: Kind, start: nat, end: nat, delta: int, factor: real, offset: real)

  // ----- One point ------------------------------------------------------------------------------------

  /** The nearest tick, halves to the even one; never before zero. */
  function NearestTick(x: real): nat {
    if x <= 0.0 then 0
    else
      var low := x.Floor;
      var rest := x - low as real;
      if rest < 0.5 || (rest == 0.5 && low % 2 == 0) then low else low + 1
  }

  function ScaledHandle(handle: Handle, change: Change): Handle {
    match change.kind
    case TimeScale => handle.(dt := ScaledPart(handle.dt, change.factor))
    case ValueScale => handle.(dv := ScaledPart(handle.dv, change.factor))
    case _ => handle
  }

  function ScaledTick(tick: nat, pivot: nat, factor: real): nat {
    NearestTick(pivot as real + (tick as int - pivot as int) as real * factor)
  }

  function ScaledValue(value: real, pivot: real, factor: real): real { pivot + (value - pivot) * factor }

  /** A point in the span is moved; None where the program refuses. */
  function ChangedPoint(point: CurvePoint, change: Change, timePivot: nat, valuePivot: real): Option<CurvePoint> {
    var handles := point.(inHandle := ScaledHandle(point.inHandle, change),
                          outHandle := ScaledHandle(point.outHandle, change));
    if !InSpan(point.tick, change.start, change.end) then Some(point)
    else match change.kind
      case TimeShift =>
        if point.tick + change.delta < 0 then None else Some(handles.(tick := point.tick + change.delta))
      case TimeScale => Some(handles.(tick := ScaledTick(point.tick, timePivot, change.factor)))
      case ValueOffset => Some(handles.(value := point.value + change.offset))
      case ValueScale => Some(handles.(value := ScaledValue(point.value, valuePivot, change.factor)))
  }

  function ChangedPoints(points: seq<CurvePoint>, change: Change, timePivot: nat, valuePivot: real)
    : Option<seq<CurvePoint>>
  {
    if points == [] then Some([])
    else
      var before := ChangedPoints(Front(points), change, timePivot, valuePivot);
      var last := ChangedPoint(Last(points), change, timePivot, valuePivot);
      if before.None? || last.None? then None else Some(before.value + [last.value])
  }

  /** The curve with its points changed, and what it draws then. */
  function ChangedCurve(render: Render, curve: Curve, change: Change, timePivot: nat, valuePivot: real)
    : Result<(Curve, seq<Point>)>
  {
    var prepared := render(curve.points, curve.order);
    if prepared.Err? then Err(prepared.reason)
    else
      var points := ChangedPoints(prepared.value.0, change, timePivot, valuePivot);
      if points.None? then Err("the result would start before 0")
      else
        var drawn := render(points.value, curve.order);
        if drawn.Err? then Err(drawn.reason)
        else Ok((curve.(points := drawn.value.0), drawn.value.1))
  }

  /** The loop of `transform_point_curve`. */
  method TransformPoints(points: seq<CurvePoint>, change: Change, timePivot: nat, valuePivot: real)
    returns (r: Option<seq<CurvePoint>>)
    ensures r == ChangedPoints(points, change, timePivot, valuePivot)
  {
    var moved := [];
    for i := 0 to |points|
      invariant ChangedPoints(points[..i], change, timePivot, valuePivot) == Some(moved)
    {
      assert Front(points[..i + 1]) == points[..i];
      var point := ChangedPoint(points[i], change, timePivot, valuePivot);
      if point.None? {
        RefusedStays(points, i + 1, change, timePivot, valuePivot);
        return None;
      }
      moved := moved + [point.value];
    }
    assert points[..|points|] == points;
    return Some(moved);
  }

  lemma {:induction false} RefusedStays(points: seq<CurvePoint>, k: nat, change: Change, timePivot: nat, valuePivot: real)
    requires k <= |points| && ChangedPoints(points[..k], change, timePivot, valuePivot).None?
    ensures ChangedPoints(points, change, timePivot, valuePivot).None?
    decreases |points|
  {
    if k < |points| {
      assert Front(points)[..k] == points[..k];
      RefusedStays(Front(points), k, change, timePivot, valuePivot);
    } else {
      assert points[..k] == points;
    }
  }

  // ----- Which curves change ----------------------------------------------------------------------------

  predicate HasPointIn(curve: Curve, start: nat, end: nat) {
    PointsInside(curve.points, start, end, true) != []
  }

  function Affected(curves: seq<Curve>, axes: seq<Axis>, start: nat, end: nat): seq<Curve> {
    if curves == [] then []
    else Affected(Front(curves), axes, start, end)
         + (if Last(curves).axis in axes && HasPointIn(Last(curves), start, end) then [Last(curves)] else [])
  }

  lemma {:induction false} AffectedAre(curves: seq<Curve>, axes: seq<Axis>, start: nat, end: nat, curve: Curve)
    ensures curve in Affected(curves, axes, start, end) <==>
            curve in curves && curve.axis in axes && HasPointIn(curve, start, end)
  {
    if curves != [] {
      AffectedAre(Front(curves), axes, start, end, curve);
      FrontAndLast(curves);
    }
  }

  predicate HasSampleIn(tracks: Tracks, axis: Axis, start: nat, end: nat) {
    exists i :: 0 <= i < |Track(tracks, axis)| && InSpan(Track(tracks, axis)[i].tick, start, end)
  }

  function PointTicks(curves: seq<Curve>): set<nat> {
    set curve, point | curve in curves && point in curve.points :: point.tick
  }

  predicate AllCovered(curves: seq<Curve>, axes: seq<Axis>) {
    forall axis :: axis in axes ==> exists i :: 0 <= i < |curves| && curves[i].axis == axis
  }

  /** The checks of the request. */
  function Refusal(w: Work, axes: seq<Axis>, change: Change): Option<string> {
    var affected := Affected(w.curves, axes, change.start, change.end);
    if axes == [] then Some("choose an axis")
    else if exists axis :: axis in axes && axis !in w.tracks then Some("some axis is not in the layer")
    else if change.end < change.start then Some("the end is before the start")
    else if forall axis :: axis in axes ==> !HasSampleIn(w.tracks, axis, change.start, change.end) then
      Some("no motion there")
    else if !AllCovered(affected, axes) then Some("no points there")
    else if change.start !in PointTicks(affected) || change.end !in PointTicks(affected) then
      Some("the span must run from point to point")
    else if change.kind.ValueScale? && change.factor == 0.0 then Some("the factor must not be zero")
    else if change.kind.TimeScale? && (change.factor <= 0.0 || change.factor > MaxTimeScale) then
      Some("the factor must be positive and not too large")
    else None
  }

  function TimePivot(change: Change): nat { if change.start == change.end then 0 else change.start }

  function FirstInside(points: seq<Point>, start: nat, end: nat): real {
    if points == [] then 0.0
    else if InSpan(points[0].tick, start, end) then points[0].value
    else FirstInside(points[1..], start, end)
  }

  function ValuePivot(tracks: Tracks, axis: Axis, change: Change): real {
    if !change.kind.ValueScale? || change.start == change.end then 0.0
    else FirstInside(Track(tracks, axis), change.start, change.end)
  }

  // ----- The whole change --------------------------------------------------------------------------------

  function ClearedAll(tracks: Tracks, curves: seq<Curve>): Tracks {
    if curves == [] then tracks
    else Cleared(ClearedAll(tracks, Front(curves)), Last(curves).axis, Bounds(Last(curves)))
  }

  /** Every affected curve changed, with its samples, in order. */
  function ChangedAll(render: Render, tracks: Tracks, curves: seq<Curve>, change: Change)
    : Result<seq<(Curve, seq<Point>)>>
  {
    if curves == [] then Ok([])
    else
      var before := ChangedAll(render, tracks, Front(curves), change);
      var last := ChangedCurve(
        render, Last(curves), change, TimePivot(change), ValuePivot(tracks, Last(curves).axis, change));
      if before.Err? then before
      else if last.Err? then Err(last.reason)
      else Ok(before.value + [last.value])
  }

  /** The changed curves in the places of the old ones. */
  function Updated(curves: seq<Curve>, changed: seq<(Curve, seq<Point>)>): (r: seq<Curve>)
    ensures |r| == |curves|
    ensures forall i :: 0 <= i < |curves| ==> r[i] == Replacement(curves[i], changed)
  {
    seq(|curves|, i requires 0 <= i < |curves| => Replacement(curves[i], changed))
  }

  function Replacement(curve: Curve, changed: seq<(Curve, seq<Point>)>): Curve {
    if changed == [] then curve
    else if Last(changed).0.id == curve.id then Last(changed).0
    else Replacement(curve, Front(changed))
  }

  function Extended(tracks: Tracks, changed: seq<(Curve, seq<Point>)>): Tracks {
    if changed == [] then tracks
    else
      var before := Extended(tracks, Front(changed));
      var axis := Last(changed).0.axis;
      before[axis := Track(before, axis) + Last(changed).1]
  }

  function Transformed(w: Work, render: Render, ids: seq<Axis>, change: Change): Result<Work> {
    var axes := Unique(ids);
    var refusal := Refusal(w, axes, change);
    if refusal.Some? then Err(refusal.value)
    else
      var affected := Affected(w.curves, axes, change.start, change.end);
      var changed := ChangedAll(render, w.tracks, affected, change);
      if changed.Err? then Err(changed.reason)
      else if !NoOverlaps(Updated(w.curves, changed.value)) then Err("curves overlap")
      else Ok(Work(Extended(ClearedAll(w.tracks, affected), changed.value), Updated(w.curves, changed.value)))
  }

  // ----- It keeps samples and curves in step ----------------------------------------------------------------

  lemma {:induction false} ClearingAllSpares(render: Render, tracks: Tracks, curves: seq<Curve>, other: Curve)
    requires Renders(render) && Held(render, tracks, other)
    requires forall i :: 0 <= i < |curves| ==> Apart(curves[i], other)
    ensures Held(render, ClearedAll(tracks, curves), other)
  {
    if curves != [] {
      ClearingAllSpares(render, tracks, Front(curves), other);
      assert Apart(Last(curves), other);
      ClearingSpares(
        render, ClearedAll(tracks, Front(curves)), Last(curves).axis, Bounds(Last(curves)), other);
    }
  }

  /** Extending only adds samples. */
  lemma {:induction false} ExtendingHolds(render: Render, tracks: Tracks, changed: seq<(Curve, seq<Point>)>, curve: Curve)
    requires CurveOk(render, curve)
    requires Held(render, tracks, curve) || exists i :: 0 <= i < |changed| && IsResult(render, changed[i], curve)
    ensures Held(render, Extended(tracks, changed), curve)
  {
    if changed != [] {
      if Held(render, tracks, curve) || exists i :: 0 <= i < |changed| - 1 && IsResult(render, changed[i], curve) {
        if i :| 0 <= i < |changed| - 1 && IsResult(render, changed[i], curve) {
          assert IsResult(render, Front(changed)[i], curve);
        }
        ExtendingHolds(render, tracks, Front(changed), curve);
      } else {
        assert IsResult(render, Last(changed), curve);
      }
    }
  }

  /** The curve and what it draws. */
  ghost predicate IsResult(render: Render, changed: (Curve, seq<Point>), curve: Curve) {
    CurveOk(render, curve) && changed == (curve, Drawn(render, curve))
  }

  /** The changed curves, one for each affected one. */
  ghost predicate Results(render: Render, curves: seq<Curve>, changed: seq<(Curve, seq<Point>)>) {
    && |changed| == |curves|
    && forall i :: 0 <= i < |curves| ==>
         && changed[i].0.id == curves[i].id && changed[i].0.axis == curves[i].axis
         && IsResult(render, changed[i], changed[i].0)
  }

  lemma {:induction false} ChangedAllResults(render: Render, tracks: Tracks, curves: seq<Curve>, change: Change)
    requires Renders(render) && ChangedAll(render, tracks, curves, change).Ok?
    ensures Results(render, curves, ChangedAll(render, tracks, curves, change).value)
  {
    if curves != [] {
      ChangedAllResults(render, tracks, Front(curves), change);
      ChangedResult(
        render, Last(curves), change, TimePivot(change), ValuePivot(tracks, Last(curves).axis, change));
    }
  }

  lemma ChangedResult(render: Render, curve: Curve, change: Change, timePivot: nat, valuePivot: real)
    requires Renders(render) && ChangedCurve(render, curve, change, timePivot, valuePivot).Ok?
    ensures var changed := ChangedCurve(render, curve, change, timePivot, valuePivot).value;
            changed.0.id == curve.id && changed.0.axis == curve.axis && IsResult(render, changed, changed.0)
  {
    var prepared := render(curve.points, curve.order);
    var points := ChangedPoints(prepared.value.0, change, timePivot, valuePivot).value;
    NewCurve(render, points, curve.order, curve.id, curve.axis);
  }

  lemma {:induction false} ReplacementIs(curve: Curve, changed: seq<(Curve, seq<Point>)>)
    ensures Replacement(curve, changed).id == curve.id
    ensures (forall i :: 0 <= i < |changed| ==> changed[i].0.id != curve.id) ==> Replacement(curve, changed) == curve
    ensures (exists i :: 0 <= i < |changed| && changed[i].0.id == curve.id) ==>
              exists i :: 0 <= i < |changed| && changed[i].0 == Replacement(curve, changed)
  {
    if changed != [] {
      ReplacementIs(curve, Front(changed));
      if Last(changed).0.id == curve.id {
        assert changed[|changed| - 1].0 == Replacement(curve, changed);
      } else if i :| 0 <= i < |changed| && changed[i].0.id == curve.id {
        assert Front(changed)[i].0.id == curve.id;
        var j :| 0 <= j < |changed| - 1 && Front(changed)[j].0 == Replacement(curve, Front(changed));
        assert changed[j].0 == Replacement(curve, changed);
      }
    }
  }

  /** One curve afterwards: changed, with its new samples; or as it was, and untouched. */
  lemma ReplacedHeld(w: Work, render: Render, affected: seq<Curve>, changed: seq<(Curve, seq<Point>)>, curve: Curve)
    requires Renders(render) && WorkOk(render, w) && curve in w.curves && Among(affected, w.curves)
    requires Results(render, affected, changed)
    ensures Held(render, Extended(ClearedAll(w.tracks, affected), changed), Replacement(curve, changed))
  {
    var tracks := ClearedAll(w.tracks, affected);
    ReplacementIs(curve, changed);
    if exists i :: 0 <= i < |changed| && changed[i].0.id == curve.id {
      var i :| 0 <= i < |changed| && changed[i].0 == Replacement(curve, changed);
      ExtendingHolds(render, tracks, changed, changed[i].0);
    } else {
      forall i | 0 <= i < |affected| ensures Apart(affected[i], curve) {
        assert changed[i].0.id == affected[i].id;
        InStructure(render, w.curves, affected[i], curve);
      }
      var j :| 0 <= j < |w.curves| && w.curves[j] == curve;
      assert Held(render, w.tracks, w.curves[j]);
      ClearingAllSpares(render, w.tracks, affected, curve);
      ExtendingHolds(render, tracks, changed, curve);
    }
  }

  lemma TransformingKeeps(w: Work, render: Render, ids: seq<Axis>, change: Change)
    requires Renders(render) && WorkOk(render, w) && Transformed(w, render, ids, change).Ok?
    ensures WorkOk(render, Transformed(w, render, ids, change).value)
  {
    var affected := Affected(w.curves, Unique(ids), change.start, change.end);
    var changed := ChangedAll(render, w.tracks, affected, change).value;
    var updated := Updated(w.curves, changed);
    ChangedAllResults(render, w.tracks, affected, change);
    forall i | 0 <= i < |affected| ensures affected[i] in w.curves {
      assert affected[i] in affected;
      AffectedAre(w.curves, Unique(ids), change.start, change.end, affected[i]);
    }
    forall i | 0 <= i < |updated|
      ensures updated[i].id == w.curves[i].id
      ensures Held(render, Extended(ClearedAll(w.tracks, affected), changed), updated[i])
    {
      ReplacementIs(w.curves[i], changed);
      ReplacedHeld(w, render, affected, changed, w.curves[i]);
    }
  }
}

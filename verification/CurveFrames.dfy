/** Leaving out frames that can be drawn again from the curves, and drawing them again. */
module CurveFrames {
  import opened MotionTypes
  import opened Sorting
  import opened Timeline
  import opened CurveEngine
  import opened ChordSelection
  import opened EditState
  import opened EditFrames
  import opened LayerEdit
  import opened EditWorkbench
  import opened LayerValidation

  // ----- Can the frames be drawn again? ------------------------------------------------------------------

  /** Some curve of the axis spans the tick. */
  predicate Covered(curves: seq<Curve>, axis: Axis, tick: nat) {
    exists i :: 0 <= i < |curves| && Covers(curves[i], axis, tick)
  }

  predicate Covers(curve: Curve, axis: Axis, tick: nat) {
    |curve.points| >= 2 && curve.axis == axis && Bounds(curve).0 <= tick <= Bounds(curve).1
  }

  predicate FrameCovered(frame: Frame, curves: seq<Curve>) {
    forall axis :: axis in frame.values ==> Covered(curves, axis, frame.tick)
  }

  ghost predicate Derived(frames: seq<Frame>, curves: seq<Curve>) {
    && (exists i :: 0 <= i < |curves| && |curves[i].points| >= 2)
    && forall i :: 0 <= i < |frames| ==> FrameCovered(frames[i], curves)
  }

  /** `frames_are_curve_derived`: looks at the spans only. */
  method FramesAreCurveDerived(frames: seq<Frame>, curves: seq<Curve>) returns (derived: bool)
    ensures derived <==> Derived(frames, curves)
  {
    if !exists i :: 0 <= i < |curves| && |curves[i].points| >= 2 {
      return false;
    }
    for i := 0 to |frames|
      invariant forall k :: 0 <= k < i ==> FrameCovered(frames[k], curves)
    {
      var covered := FrameIsCovered(frames[i], curves);
      if !covered {
        return false;
      }
    }
    return true;
  }

  method FrameIsCovered(frame: Frame, curves: seq<Curve>) returns (covered: bool)
    ensures covered <==> FrameCovered(frame, curves)
  {
    var axes := SortedSet(frame.values.Keys);
    for k := 0 to |axes|
      invariant forall j :: 0 <= j < k ==> Covered(curves, axes[j], frame.tick)
    {
      if !Covered(curves, axes[k], frame.tick) {
        assert axes[k] in axes;
        return false;
      }
    }
    forall axis | axis in frame.values ensures Covered(curves, axis, frame.tick) {
      assert axis in axes;
    }
    return true;
  }

  // ----- Drawing them again ----------------------------------------------------------------------------------

  function DrawnTracks(render: Render, curves: seq<Curve>): Result<Tracks> {
    if curves == [] then Ok(map[])
    else
      var before := DrawnTracks(render, Front(curves));
      var last := Last(curves);
      var drawn := render(last.points, last.order);
      if before.Err? then before
      else if |last.points| < 2 then before
      else if drawn.Err? then Err(drawn.reason)
      else Ok(before.value[last.axis := Track(before.value, last.axis) + drawn.value.1])
  }

  function SortedTracks(tracks: Tracks): Tracks { map axis | axis in tracks :: Sort(tracks[axis], PointLeq()) }

  function FramesFrom(render: Render, curves: seq<Curve>): Result<seq<Frame>> {
    var tracks := DrawnTracks(render, curves);
    if tracks.Err? then Err(tracks.reason)
    else if tracks.value == map[] then Err("no point curve")
    else FramesOf(SortedTracks(tracks.value))
  }

  /** `frames_from_point_curves`. */
  method FramesFromPointCurves(curves: seq<Curve>, ghost render: Render) returns (r: Result<seq<Frame>>)
    requires Engine(render)
    ensures r.Ok? <==> FramesFrom(render, curves).Ok?
    ensures r.Ok? ==> r == FramesFrom(render, curves)
  {
    var tracks: Tracks := map[];
    for i := 0 to |curves|
      invariant DrawnTracks(render, curves[..i]) == Ok(tracks)
    {
      assert Front(curves[..i + 1]) == curves[..i];
      var curve := curves[i];
      if |curve.points| >= 2 {
        var drawn := Draw(curve.points, curve.order, render);
        if drawn.Err? {
          DrawingFails(render, curves, i + 1);
          return Err(drawn.reason);
        }
        tracks := tracks[curve.axis := Track(tracks, curve.axis) + drawn.value.1];
      }
    }
    assert curves[..|curves|] == curves;
    if tracks == map[] {
      return Err("no point curve");
    }
    r := BuildFrames(SortedTracks(tracks));
  }

  lemma {:induction false} DrawingFails(render: Render, curves: seq<Curve>, k: nat)
    requires k <= |curves| && DrawnTracks(render, curves[..k]).Err?
    ensures DrawnTracks(render, curves).Err?
    decreases |curves|
  {
    if k < |curves| {
      assert Front(curves)[..k] == curves[..k];
      DrawingFails(render, Front(curves), k);
    } else {
      assert curves[..k] == curves;
    }
  }

  // ----- The same frames again ---------------------------------------------------------------------------------

  /** The sample is one that some curve of the axis draws. */
  ghost predicate FromCurve(render: Render, curves: seq<Curve>, axis: Axis, p: Point) {
    exists i :: 0 <= i < |curves| && DrawnBy(render, curves[i], axis, p)
  }

  ghost predicate DrawnBy(render: Render, curve: Curve, axis: Axis, p: Point) {
    CurveOk(render, curve) && curve.axis == axis && p in Drawn(render, curve)
  }

  /** The tracks hold what the curves draw, each tick once. */
  lemma {:induction false} DrawnTracksHold(render: Render, curves: seq<Curve>, axis: Axis)
    requires Renders(render) && Structure(render, curves)
    ensures DrawnTracks(render, curves).Ok?
    ensures curves != [] ==> DrawnTracks(render, curves).value != map[]
    ensures NoDoubles(Track(DrawnTracks(render, curves).value, axis))
    ensures forall p :: p in Track(DrawnTracks(render, curves).value, axis) <==> FromCurve(render, curves, axis, p)
  {
    if curves != [] {
      var front, last := Front(curves), Last(curves);
      DrawnTracksHold(render, front, axis);
      var before := DrawnTracks(render, front).value;
      assert CurveOk(render, curves[|curves| - 1]);
      assert last.axis in DrawnTracks(render, curves).value;
      forall p ensures FromCurve(render, curves, axis, p) <==>
                       FromCurve(render, front, axis, p) || DrawnBy(render, last, axis, p) {
        OneMoreCurve(render, curves, axis, p);
      }
      if last.axis == axis {
        NoDoublesAdded(render, curves, Track(before, axis));
      }
    }
  }

  lemma OneMoreCurve(render: Render, curves: seq<Curve>, axis: Axis, p: Point)
    requires curves != []
    ensures FromCurve(render, curves, axis, p) <==>
            FromCurve(render, Front(curves), axis, p) || DrawnBy(render, Last(curves), axis, p)
  {}

  lemma DrawnBounds(render: Render, curve: Curve, p: Point)
    requires Renders(render) && CurveOk(render, curve) && p in Drawn(render, curve)
    ensures Bounds(curve).0 <= p.tick <= Bounds(curve).1
  {
    DrawnFills(render, curve);
  }

  lemma NoDoublesAdded(render: Render, curves: seq<Curve>, track: seq<Point>)
    requires Renders(render) && Structure(render, curves) && curves != [] && NoDoubles(track)
    requires forall p :: p in track ==> FromCurve(render, Front(curves), Last(curves).axis, p)
    ensures NoDoubles(track + Drawn(render, Last(curves)))
  {
    var last := Last(curves);
    var drawn := Drawn(render, last);
    DrawnFills(render, last);
    forall i, j | 0 <= i < |track| && 0 <= j < |drawn| ensures track[i].tick != drawn[j].tick {
      assert track[i] in track;
      var k :| 0 <= k < |curves| - 1 && DrawnBy(render, Front(curves)[k], last.axis, track[i]);
      DrawnBounds(render, curves[k], track[i]);
      DrawnBounds(render, last, drawn[j]);
      assert Apart(curves[k], curves[|curves| - 1]);
    }
  }

  lemma {:induction false} LastAtSome(frames: seq<Frame>, axis: Axis, tick: nat)
    ensures LastAt(frames, axis, tick).Some? <==>
            exists i :: 0 <= i < |frames| && frames[i].tick == tick && axis in frames[i].values
  {
    if frames != [] {
      LastAtSome(Front(frames), axis, tick);
    }
  }

  /** What is drawn again has a value exactly where the curves do. */
  lemma AgainLookup(render: Render, curves: seq<Curve>, axis: Axis, tick: nat)
    requires Renders(render) && Structure(render, curves) && curves != []
    ensures FramesFrom(render, curves).Ok?
    ensures FirstAt(FramesFrom(render, curves).value, axis, tick).Some? <==> Covered(curves, axis, tick)
    ensures FirstAt(FramesFrom(render, curves).value, axis, tick).Some? ==>
              FromCurve(render, curves, axis, Point(tick, FirstAt(FramesFrom(render, curves).value, axis, tick).value))
  {
    DrawnTracksHold(render, curves, axis);
    var tracks := DrawnTracks(render, curves).value;
    var sorted := SortedTracks(tracks);
    forall a | a in sorted ensures NoDoubles(sorted[a]) {
      DrawnTracksHold(render, curves, a);
      SortNoDoubles(tracks[a]);
    }
    FramesLookup(sorted, axis, tick);
    SortLookup(Track(tracks, axis), tick);
    assert Value(sorted, axis, tick) == FirstPointAt(Track(tracks, axis), tick);
    FoundPoint(Track(tracks, axis), tick);
    if Covered(curves, axis, tick) {
      var p := CoveredSample(render, curves, axis, tick);
      assert p in Track(tracks, axis);
    }
    if FirstPointAt(Track(tracks, axis), tick).Some? {
      var p := Point(tick, FirstPointAt(Track(tracks, axis), tick).value);
      var i :| 0 <= i < |curves| && DrawnBy(render, curves[i], axis, p);
      DrawnBounds(render, curves[i], p);
      assert Covers(curves[i], axis, tick);
    }
  }

  lemma CoveredSample(render: Render, curves: seq<Curve>, axis: Axis, tick: nat) returns (p: Point)
    requires Renders(render) && Structure(render, curves) && Covered(curves, axis, tick)
    ensures p.tick == tick && FromCurve(render, curves, axis, p)
  {
    var i :| 0 <= i < |curves| && Covers(curves[i], axis, tick);
    DrawnFills(render, curves[i]);
    p := Drawn(render, curves[i])[tick - Bounds(curves[i]).0];
    assert DrawnBy(render, curves[i], axis, p);
  }

  /** What passes the checks. */
  ghost predicate Checked(render: Render, frames: seq<Frame>, curves: seq<Curve>, tolerance: real) {
    && Structure(render, curves) && tolerance >= 0.0
    && Mismatches(render, frames, curves, tolerance) == Ok([]) && Derived(frames, curves)
  }

  lemma ValueIsCovered(frames: seq<Frame>, curves: seq<Curve>, axis: Axis, tick: nat)
    requires Derived(frames, curves) && LastAt(frames, axis, tick).Some?
    ensures Covered(curves, axis, tick)
  {
    LastAtSome(frames, axis, tick);
  }

  lemma DrawnAgrees(
    render: Render, frames: seq<Frame>, curves: seq<Curve>, tolerance: real, axis: Axis, p: Point)
    requires Renders(render) && Checked(render, frames, curves, tolerance) && FromCurve(render, curves, axis, p)
    ensures Agrees(frames, axis, p, tolerance)
  {
    NoMismatchMeansMatch(render, frames, curves, tolerance);
    var i :| 0 <= i < |curves| && DrawnBy(render, curves[i], axis, p);
    assert Matches(render, frames, curves[i], tolerance);
    var k :| 0 <= k < |Drawn(render, curves[i])| && Drawn(render, curves[i])[k] == p;
  }

  /** Frames that pass both checks are drawn again as they were: a value at exactly the same
      axes and ticks, and within the tolerance of the old one. */
  lemma FramesComeBack(
    render: Render, frames: seq<Frame>, curves: seq<Curve>, tolerance: real, axis: Axis, tick: nat)
    requires Renders(render) && Checked(render, frames, curves, tolerance)
    ensures FramesFrom(render, curves).Ok?
    ensures SameWithin(frames, FramesFrom(render, curves).value, axis, tick, tolerance)
  {
    AgainLookup(render, curves, axis, tick);
    var again := FramesFrom(render, curves).value;
    if LastAt(frames, axis, tick).Some? { ValueIsCovered(frames, curves, axis, tick); }
    if FirstAt(again, axis, tick).Some? {
      DrawnAgrees(render, frames, curves, tolerance, axis, Point(tick, FirstAt(again, axis, tick).value));
    }
  }

  /** Both have a value there, or neither; and the values are close. */
  ghost predicate SameWithin(frames: seq<Frame>, again: seq<Frame>, axis: Axis, tick: nat, tolerance: real) {
    && (FirstAt(again, axis, tick).Some? <==> LastAt(frames, axis, tick).Some?)
    && (FirstAt(again, axis, tick).Some? ==>
          Abs(LastAt(frames, axis, tick).value - FirstAt(again, axis, tick).value) <= tolerance)
  }

  /** No two frames give an axis a value at one tick. */
  ghost predicate OneValueATick(frames: seq<Frame>) {
    forall axis, tick :: FirstAt(frames, axis, tick) == LastAt(frames, axis, tick)
  }

  ghost predicate SameValues(a: seq<Frame>, b: seq<Frame>) {
    forall axis, tick :: FirstAt(a, axis, tick) == FirstAt(b, axis, tick)
  }

  lemma ExactlySame(frames: seq<Frame>, again: seq<Frame>)
    requires OneValueATick(frames)
    requires forall axis, tick :: SameWithin(frames, again, axis, tick, 0.0)
    ensures SameValues(again, frames)
  {
    forall axis, tick ensures FirstAt(again, axis, tick) == FirstAt(frames, axis, tick) {
      assert SameWithin(frames, again, axis, tick, 0.0);
      assert FirstAt(frames, axis, tick) == LastAt(frames, axis, tick);
    }
  }

  /** With exactly matching frames, nothing at all is lost. */
  lemma FramesComeBackExactly(render: Render, frames: seq<Frame>, curves: seq<Curve>)
    requires Renders(render) && Checked(render, frames, curves, 0.0) && OneValueATick(frames)
    ensures FramesFrom(render, curves).Ok? && SameValues(FramesFrom(render, curves).value, frames)
  {
    FramesComeBack(render, frames, curves, 0.0, 0, 0);
    var again := FramesFrom(render, curves).value;
    forall axis, tick: nat ensures SameWithin(frames, again, axis, tick, 0.0) {
      FramesComeBack(render, frames, curves, 0.0, axis, tick);
    }
    ExactlySame(frames, again);
  }
}

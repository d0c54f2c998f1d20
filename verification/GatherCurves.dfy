/** Gathering the curves of an axis, whatever the frames are: what becomes of the curves does
    not depend on the samples, and the gathered curve is in step. */
module GatherCurves {
  import opened MotionTypes
  import opened Sorting
  import opened Timeline
  import opened CurveEngine
  import opened EditState
  import opened EditFrames
  import opened LayerEdit
  import opened RangeEdit
  import opened EditEffects
  import opened EditKnots
  import opened CurveFrames

  // ----- The same curves over other samples --------------------------------------------------------

  /** The samples that the curves draw themselves. */
  function Twin(render: Render, w: Work): Work {
    var drawn := DrawnTracks(render, w.curves);
    Work(if drawn.Ok? then drawn.value else map[], w.curves)
  }

  lemma TwinOk(render: Render, w: Work)
    requires Renders(render) && Structure(render, w.curves)
    ensures WorkOk(render, Twin(render, w))
  {
    DrawnTracksHold(render, w.curves, 0);
    forall i | 0 <= i < |w.curves| ensures Held(render, Twin(render, w).tracks, w.curves[i]) {
      DrawnTracksHold(render, w.curves, w.curves[i].axis);
      forall k | 0 <= k < |Drawn(render, w.curves[i])|
        ensures Drawn(render, w.curves[i])[k] in Track(Twin(render, w).tracks, w.curves[i].axis)
      {
        assert DrawnBy(render, w.curves[i], w.curves[i].axis, Drawn(render, w.curves[i])[k]);
      }
    }
  }

  lemma {:induction false} SameRemoved(a: Work, b: Work, curves: seq<Curve>, id: string)
    requires a.curves == b.curves
    ensures RemovedOthers(a, curves, id).curves == RemovedOthers(b, curves, id).curves
  {
    if curves != [] {
      SameRemoved(a, b, Front(curves), id);
    }
  }

  lemma SameGathered(a: Work, b: Work, render: Render, axis: Axis)
    requires a.curves == b.curves && Gathered(a, render, axis).Ok?
    ensures Gathered(b, render, axis).Ok? && Gathered(b, render, axis).value.curves == Gathered(a, render, axis).value.curves
  {
    var pieces := Sort(CurvesOn(a.curves, axis), StartLeq());
    if |pieces| >= 2 {
      SameRemoved(a, b, CurvesOn(a.curves, axis), pieces[0].id);
    }
  }

  /** Gathering keeps the curves apart, and their points. */
  lemma GatheringCurves(w: Work, render: Render, axis: Axis, b: Axis, k: Point)
    requires Renders(render) && Structure(render, w.curves) && Gathered(w, render, axis).Ok?
    ensures var after := Gathered(w, render, axis).value.curves;
            && Structure(render, after)
            && (if b == axis then |CurvesOn(after, b)| <= 1 else CurvesOn(after, b) == CurvesOn(w.curves, b))
            && (HasKnot(after, b, k) <==> HasKnot(w.curves, b, k))
  {
    TwinOk(render, w);
    SameGathered(w, Twin(render, w), render, axis);
    GatheringKeeps(Twin(render, w), render, axis, b);
    GatheredHasKnot(Twin(render, w), render, axis, b, k);
  }

  // ----- The samples ------------------------------------------------------------------------------------

  lemma {:induction false} RemovedOthersTrack(w: Work, curves: seq<Curve>, id: string, b: Axis)
    requires forall i :: 0 <= i < |curves| ==> curves[i].axis != b
    ensures Track(RemovedOthers(w, curves, id).tracks, b) == Track(w.tracks, b)
  {
    if curves != [] {
      RemovedOthersTrack(w, Front(curves), id, b);
    }
  }

  /** The curve that takes the place of the pieces is named as one of the axis. */
  lemma NamedOnItsAxis(w: Work, render: Render, axis: Axis, id: string)
    requires Structure(render, w.curves) && Named(w.curves, id, axis)
    ensures var found := FindId(RemovedOthers(w, CurvesOn(w.curves, axis), id).curves, id);
            found.Some? ==> found.value.axis == axis
  {
    var left := RemovedOthers(w, CurvesOn(w.curves, axis), id).curves;
    FoundCurve(left, id);
    if FindId(left, id).Some? {
      RemovedOthersAre(w, CurvesOn(w.curves, axis), id, FindId(left, id).value);
      NamedOnAxis(render, w.curves, id, axis);
    }
  }

  lemma FirstPieceNamed(w: Work, axis: Axis)
    requires CurvesOn(w.curves, axis) != []
    ensures Named(w.curves, Sort(CurvesOn(w.curves, axis), StartLeq())[0].id, axis)
  {
    var first := Sort(CurvesOn(w.curves, axis), StartLeq())[0];
    assert first in Sort(CurvesOn(w.curves, axis), StartLeq()) && first in CurvesOn(w.curves, axis);
    CurvesOnAxis(w.curves, axis, first);
  }

  lemma OthersTrack(w: Work, axis: Axis, id: string, b: Axis)
    requires b != axis
    ensures Track(RemovedOthers(w, CurvesOn(w.curves, axis), id).tracks, b) == Track(w.tracks, b)
  {
    var on := CurvesOn(w.curves, axis);
    forall i | 0 <= i < |on| ensures on[i].axis != b {
      assert on[i] in on;
      CurvesOnAxis(w.curves, axis, on[i]);
    }
    RemovedOthersTrack(w, on, id, b);
  }

  /** The samples of other axes stay. */
  lemma GatheringTrack(w: Work, render: Render, axis: Axis, b: Axis)
    requires Structure(render, w.curves) && Gathered(w, render, axis).Ok? && b != axis
    ensures Track(Gathered(w, render, axis).value.tracks, b) == Track(w.tracks, b)
  {
    var pieces := Sort(CurvesOn(w.curves, axis), StartLeq());
    if |pieces| >= 2 {
      FirstPieceNamed(w, axis);
      OthersTrack(w, axis, pieces[0].id, b);
      NamedOnItsAxis(w, render, axis, pieces[0].id);
    }
  }

  /** The curves of the axis have become one, in step with the samples. */
  ghost predicate InOne(render: Render, w: Work, axis: Axis) {
    |CurvesOn(w.curves, axis)| == 1 && Held(render, w.tracks, CurvesOn(w.curves, axis)[0])
  }

  lemma OnlyCurve(w: Work, axis: Axis, id: string, curve: Curve)
    requires curve.id == id && curve.axis == axis
    ensures CurvesOn(WithoutId(RemovedOthers(w, CurvesOn(w.curves, axis), id).curves, id) + [curve], axis) == [curve]
  {
    var after := WithoutId(RemovedOthers(w, CurvesOn(w.curves, axis), id).curves, id) + [curve];
    assert curve in after;
    CurvesOnAxis(after, axis, curve);
    OnlyNewCurve(w, (points: seq<CurvePoint>, order: int) => Err(""), axis, id, curve);
  }

  lemma GatheringJoins(w: Work, render: Render, axis: Axis)
    requires Renders(render) && Gathered(w, render, axis).Ok? && |CurvesOn(w.curves, axis)| >= 2
    ensures InOne(render, Gathered(w, render, axis).value, axis)
  {
    var pieces := Sort(CurvesOn(w.curves, axis), StartLeq());
    var id, order, points := pieces[0].id, Largest(pieces).order, Sort(AllPoints(pieces), TickLeq());
    var left := RemovedOthers(w, CurvesOn(w.curves, axis), id);
    var curve := Curve(id, axis, order, render(points, order).value.0);
    NewCurve(render, points, order, id, axis);
    OnlyCurve(w, axis, id, curve);
    RedrawingHolds(render, WithoutOld(left, id), curve);
  }

  // ----- All axes ----------------------------------------------------------------------------------------

  /** What becomes of an axis: gathered and in step if it had several curves, else as it was. */
  ghost predicate AxisDone(render: Render, w: Work, after: Work, axis: Axis) {
    if |CurvesOn(w.curves, axis)| >= 2 then InOne(render, after, axis) else SameOn(w, after, axis)
  }

  lemma StillInOne(render: Render, w: Work, after: Work, axis: Axis)
    requires InOne(render, w, axis) && SameOn(w, after, axis)
    ensures InOne(render, after, axis)
  {
    assert CurvesOn(w.curves, axis)[0] in CurvesOn(w.curves, axis);
    CurvesOnAxis(w.curves, axis, CurvesOn(w.curves, axis)[0]);
  }

  lemma GatheringOne(w: Work, render: Render, axis: Axis, b: Axis)
    requires Renders(render) && Structure(render, w.curves) && Gathered(w, render, axis).Ok?
    ensures if b == axis then AxisDone(render, w, Gathered(w, render, axis).value, b)
            else SameOn(w, Gathered(w, render, axis).value, b)
  {
    if b != axis {
      GatheringCurves(w, render, axis, b, Point(0, 0.0));
      GatheringTrack(w, render, axis, b);
    } else if |CurvesOn(w.curves, axis)| >= 2 {
      GatheringJoins(w, render, axis);
    }
  }

  lemma {:induction false} GatheringEvery(w: Work, render: Render, axes: seq<Axis>, b: Axis, k: Point)
    requires Renders(render) && Structure(render, w.curves) && GatheredAll(w, render, axes).Ok? && Distinct(axes)
    ensures var after := GatheredAll(w, render, axes).value;
            && Structure(render, after.curves) && (HasKnot(after.curves, b, k) <==> HasKnot(w.curves, b, k))
            && (if b in axes then AxisDone(render, w, after, b) else SameOn(w, after, b))
  {
    if axes != [] {
      var before := GatheredAll(w, render, Front(axes)).value;
      var after := GatheredAll(w, render, axes).value;
      FrontAndLast(axes);
      GatheringEvery(w, render, Front(axes), b, k);
      GatheringCurves(before, render, Last(axes), b, k);
      GatheringOne(before, render, Last(axes), b);
      if b in Front(axes) && |CurvesOn(w.curves, b)| >= 2 {
        StillInOne(render, before, after, b);
      }
    }
  }
}

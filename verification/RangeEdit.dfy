/** Copying and deleting the points of a stretch of time, and gathering the curves of an
    axis into one. */
module RangeEdit {
  import opened MotionTypes
  import opened Sorting
  import opened Timeline
  import opened CurveEngine
  import opened EditState
  import opened LayerEdit

  // ----- One curve instead of all those of an axis ----------------------------------------------------

  /** Removes every curve of the list but one. */
  function RemovedOthers(w: Work, curves: seq<Curve>, id: string): Work {
    if curves == [] then w
    else if Last(curves).id == id then RemovedOthers(w, Front(curves), id)
    else Removed(RemovedOthers(w, Front(curves), id), Last(curves))
  }

  function AxisRewritten(
    w: Work, render: Render, axis: Axis, id: string, order: int, points: seq<CurvePoint>): Result<Work>
  {
    Rewritten(RemovedOthers(w, CurvesOn(w.curves, axis), id), render, id, axis, order, points)
  }

  ghost predicate NoneNamed(curves: seq<Curve>, id: string) {
    forall curve :: curve in curves ==> curve.id != id
  }

  lemma NoneNamedSnoc(curves: seq<Curve>, id: string)
    requires curves != []
    ensures NoneNamed(curves, id) <==> NoneNamed(Front(curves), id) && Last(curves).id != id
  {}

  lemma {:induction false} RemovedOthersAre(w: Work, curves: seq<Curve>, id: string, curve: Curve)
    ensures curve in RemovedOthers(w, curves, id).curves <==>
            curve in w.curves && (curve.id == id || NoneNamed(curves, curve.id))
  {
    if curves != [] {
      RemovedOthersAre(w, Front(curves), id, curve);
      NoneNamedSnoc(curves, curve.id);
      WithoutIdKeeps(RemovedOthers(w, Front(curves), id).curves, Last(curves).id, curve);
    }
  }

  /** Only the one that stays is left on the axis. */
  lemma LeftOnAxis(w: Work, axis: Axis, id: string, curve: Curve)
    requires curve in RemovedOthers(w, CurvesOn(w.curves, axis), id).curves && curve.id != id
    ensures curve in w.curves && curve.axis != axis
  {
    RemovedOthersAre(w, CurvesOn(w.curves, axis), id, curve);
    CurvesOnAxis(w.curves, axis, curve);
  }

  /** Curves of the work, each named once. */
  ghost predicate Listed(curves: seq<Curve>, w: Work) {
    && (forall i :: 0 <= i < |curves| ==> curves[i] in w.curves)
    && (forall i, j :: 0 <= i < j < |curves| ==> curves[i].id != curves[j].id)
  }

  lemma LastStillThere(w: Work, curves: seq<Curve>, id: string)
    requires Listed(curves, w) && curves != []
    ensures Last(curves) in RemovedOthers(w, Front(curves), id).curves
  {
    RemovedOthersAre(w, Front(curves), id, Last(curves));
  }

  lemma {:induction false} RemovingOthersKeeps(render: Render, w: Work, curves: seq<Curve>, id: string)
    requires Renders(render) && WorkOk(render, w) && Listed(curves, w)
    ensures WorkOk(render, RemovedOthers(w, curves, id))
  {
    if curves != [] {
      RemovingOthersKeeps(render, w, Front(curves), id);
      if Last(curves).id != id {
        LastStillThere(w, curves, id);
        RemovingKeeps(render, RemovedOthers(w, Front(curves), id), Last(curves));
      }
    }
  }

  lemma CurvesOnListed(render: Render, w: Work, axis: Axis)
    requires Structure(render, w.curves)
    ensures Listed(CurvesOn(w.curves, axis), w)
  {
    var on := CurvesOn(w.curves, axis);
    CurvesOnStructure(render, w.curves, axis);
    forall i | 0 <= i < |on| ensures on[i] in w.curves {
      assert on[i] in on;
      CurvesOnAxis(w.curves, axis, on[i]);
    }
  }

  /** Whatever the points are, nothing of the axis is in their way. */
  lemma AxisRewritingKeeps(
    w: Work, render: Render, axis: Axis, id: string, order: int, points: seq<CurvePoint>)
    requires Renders(render) && WorkOk(render, w) && AxisRewritten(w, render, axis, id, order, points).Ok?
    ensures WorkOk(render, AxisRewritten(w, render, axis, id, order, points).value)
  {
    var on := CurvesOn(w.curves, axis);
    var left := RemovedOthers(w, on, id);
    CurvesOnListed(render, w, axis);
    RemovingOthersKeeps(render, w, on, id);
    forall i | 0 <= i < |left.curves| && left.curves[i].id != id ensures left.curves[i].axis != axis {
      LeftOnAxis(w, axis, id, left.curves[i]);
    }
    RewritingKeeps(render, left, id, axis, order, points);
  }

  // ----- How many curves an axis has ----------------------------------------------------------------------

  lemma {:induction false} CurvesOnJoin(a: seq<Curve>, b: seq<Curve>, axis: Axis)
    ensures CurvesOn(a + b, axis) == CurvesOn(a, axis) + CurvesOn(b, axis)
  {
    if b == [] {
      assert a + b == a;
    } else {
      assert Front(a + b) == a + Front(b) && Last(a + b) == Last(b);
      CurvesOnJoin(a, Front(b), axis);
    }
  }

  lemma {:induction false} WithoutIdOn(curves: seq<Curve>, id: string, axis: Axis)
    requires forall i :: 0 <= i < |curves| && curves[i].id == id ==> curves[i].axis != axis
    ensures CurvesOn(WithoutId(curves, id), axis) == CurvesOn(curves, axis)
  {
    if curves != [] {
      var shorter := WithoutId(Front(curves), id);
      WithoutIdOn(Front(curves), id, axis);
      if Last(curves).id == id {
        assert shorter + [] == shorter;
      } else {
        CurvesOnJoin(shorter, [Last(curves)], axis);
        CurvesOnSingle(Last(curves), axis);
      }
    }
  }

  lemma CurvesOnSingle(curve: Curve, axis: Axis)
    ensures CurvesOn([curve], axis) == if curve.axis == axis then [curve] else []
  {}

  /** Curves of other axes stay as they are. */
  lemma {:induction false} RemovedOthersOn(render: Render, w: Work, curves: seq<Curve>, id: string, axis: Axis)
    requires Renders(render) && WorkOk(render, w) && Listed(curves, w)
    requires forall i :: 0 <= i < |curves| ==> curves[i].axis != axis
    ensures CurvesOn(RemovedOthers(w, curves, id).curves, axis) == CurvesOn(w.curves, axis)
  {
    if curves != [] {
      var before := RemovedOthers(w, Front(curves), id);
      RemovedOthersOn(render, w, Front(curves), id, axis);
      if Last(curves).id != id {
        LastStillThere(w, curves, id);
        RemovingOthersKeeps(render, w, Front(curves), id);
        OnlyOneSoNamed(render, before.curves, Last(curves));
        WithoutIdOn(before.curves, Last(curves).id, axis);
      }
    }
  }

  lemma OnlyOneSoNamed(render: Render, curves: seq<Curve>, curve: Curve)
    requires Structure(render, curves) && curve in curves
    ensures forall i :: 0 <= i < |curves| && curves[i].id == curve.id ==> curves[i] == curve
  {}

  lemma {:induction false} NoneLeft(curves: seq<Curve>, axis: Axis)
    requires forall i :: 0 <= i < |curves| ==> curves[i].axis != axis
    ensures CurvesOn(curves, axis) == []
  {
    if curves != [] {
      NoneLeft(Front(curves), axis);
    }
  }

  ghost predicate Named(curves: seq<Curve>, id: string, axis: Axis) {
    exists curve :: curve in curves && curve.id == id && curve.axis == axis
  }

  lemma NamedOnAxis(render: Render, curves: seq<Curve>, id: string, axis: Axis)
    requires Structure(render, curves) && Named(curves, id, axis)
    ensures forall curve :: curve in curves && curve.id == id ==> curve.axis == axis
  {}

  /** Only the new curve is on the axis afterwards, */
  lemma OnlyNewCurve(w: Work, render: Render, axis: Axis, id: string, curve: Curve)
    requires curve.id == id && curve.axis == axis
    ensures |CurvesOn(WithoutId(RemovedOthers(w, CurvesOn(w.curves, axis), id).curves, id) + [curve], axis)| == 1
  {
    var left := RemovedOthers(w, CurvesOn(w.curves, axis), id).curves;
    var rest := WithoutId(left, id);
    forall i | 0 <= i < |rest| ensures rest[i].axis != axis {
      assert rest[i] in rest;
      WithoutIdKeeps(left, id, rest[i]);
      LeftOnAxis(w, axis, id, rest[i]);
    }
    NoneLeft(rest, axis);
    CurvesOnJoin(rest, [curve], axis);
    CurvesOnSingle(curve, axis);
  }

  /** and every other axis has what it had. */
  lemma OtherAxesStay(w: Work, render: Render, axis: Axis, id: string, curve: Curve, b: Axis)
    requires Renders(render) && WorkOk(render, w) && Named(w.curves, id, axis)
    requires curve.id == id && curve.axis == axis && b != axis
    ensures CurvesOn(WithoutId(RemovedOthers(w, CurvesOn(w.curves, axis), id).curves, id) + [curve], b) ==
            CurvesOn(w.curves, b)
  {
    var on := CurvesOn(w.curves, axis);
    var left := RemovedOthers(w, on, id).curves;
    CurvesOnListed(render, w, axis);
    forall i | 0 <= i < |on| ensures on[i].axis != b {
      assert on[i] in on;
      CurvesOnAxis(w.curves, axis, on[i]);
    }
    RemovedOthersOn(render, w, on, id, b);
    NamedOnAxis(render, w.curves, id, axis);
    forall i | 0 <= i < |left| && left[i].id == id ensures left[i].axis != b {
      RemovedOthersAre(w, on, id, left[i]);
    }
    WithoutIdOn(left, id, b);
    CurvesOnJoin(WithoutId(left, id), [curve], b);
    CurvesOnSingle(curve, b);
    assert CurvesOn(WithoutId(left, id), b) + [] == CurvesOn(WithoutId(left, id), b);
  }

  /** How rewriting an axis changes the number of curves on every axis. */
  lemma AxisRewrittenCurves(
    w: Work, render: Render, axis: Axis, id: string, order: int, points: seq<CurvePoint>, b: Axis)
    requires Renders(render) && WorkOk(render, w) && AxisRewritten(w, render, axis, id, order, points).Ok?
    requires Named(w.curves, id, axis)
    ensures var after := AxisRewritten(w, render, axis, id, order, points).value.curves;
            if b == axis then |CurvesOn(after, b)| == 1 else CurvesOn(after, b) == CurvesOn(w.curves, b)
  {
    var curve := Curve(id, axis, order, render(points, order).value.0);
    if b == axis {
      OnlyNewCurve(w, render, axis, id, curve);
    } else {
      OtherAxesStay(w, render, axis, id, curve, b);
    }
  }

  // ----- Copying a stretch of time ------------------------------------------------------------------------

  type Owned = (Curve, CurvePoint)

  /** The points of some curves inside, or outside, a span, each with its curve. */
  function OwnedPoints(curves: seq<Curve>, start: nat, end: nat, inside: bool): seq<Owned> {
    if curves == [] then []
    else OwnedPoints(Front(curves), start, end, inside)
         + WithCurve(Last(curves), PointsInside(Last(curves).points, start, end, inside))
  }

  function WithCurve(curve: Curve, points: seq<CurvePoint>): seq<Owned> {
    seq(|points|, i requires 0 <= i < |points| => (curve, points[i]))
  }

  function JustPoints(owned: seq<Owned>): seq<CurvePoint> {
    seq(|owned|, i requires 0 <= i < |owned| => owned[i].1)
  }

  function OwnedLeq(): (Owned, Owned) -> bool { (a: Owned, b: Owned) => a.1.tick <= b.1.tick }

  function Moved(points: seq<CurvePoint>, first: nat, target: nat): seq<CurvePoint> {
    seq(|points|, i requires 0 <= i < |points| =>
      points[i].(tick := if points[i].tick >= first then points[i].tick - first + target else target))
  }

  lemma {:induction false} OwnedBy(curves: seq<Curve>, start: nat, end: nat, inside: bool, owned: Owned)
    requires owned in OwnedPoints(curves, start, end, inside)
    ensures owned.0 in curves && owned.1 in owned.0.points && InSpan(owned.1.tick, start, end) == inside
  {
    FrontAndLast(curves);
    if owned in OwnedPoints(Front(curves), start, end, inside) {
      OwnedBy(Front(curves), start, end, inside, owned);
    } else {
      PointsInsideAre(Last(curves).points, start, end, inside, owned.1);
    }
  }

  /** Copies the points of one axis in a span to another time.  The curves of the axis
      become one: that of the first point copied. */
  function CopiedOn(w: Work, render: Render, axis: Axis, start: nat, end: nat, target: nat): Result<(Work, bool)> {
    var on := CurvesOn(w.curves, axis);
    var taken := Sort(OwnedPoints(on, start, end, true), OwnedLeq());
    if |taken| < 2 then Ok((w, false))
    else
      var moved := Moved(JustPoints(taken), taken[0].1.tick, target);
      var kept := JustPoints(OwnedPoints(on, moved[0].tick, Last(moved).tick, false));
      var r := AxisRewritten(w, render, axis, taken[0].0.id, taken[0].0.order, Sort(kept + moved, TickLeq()));
      if r.Err? then Err(r.reason) else Ok((r.value, true))
  }

  function RangeCopied(w: Work, render: Render, axes: seq<Axis>, start: nat, end: nat, target: nat)
    : Result<(Work, bool)>
  {
    if axes == [] then Ok((w, false))
    else
      var before := RangeCopied(w, render, Front(axes), start, end, target);
      if before.Err? then before
      else
        var after := CopiedOn(before.value.0, render, Last(axes), start, end, target);
        if after.Err? then after else Ok((after.value.0, before.value.1 || after.value.1))
  }

  lemma {:induction false} CopyingRangeKeeps(
    w: Work, render: Render, axes: seq<Axis>, start: nat, end: nat, target: nat)
    requires Renders(render) && WorkOk(render, w) && RangeCopied(w, render, axes, start, end, target).Ok?
    ensures WorkOk(render, RangeCopied(w, render, axes, start, end, target).value.0)
  {
    if axes != [] {
      CopyingRangeKeeps(w, render, Front(axes), start, end, target);
      CopyingOnKeeps(RangeCopied(w, render, Front(axes), start, end, target).value.0, render, Last(axes), start, end, target);
    }
  }

  lemma CopyingOnKeeps(w: Work, render: Render, axis: Axis, start: nat, end: nat, target: nat)
    requires Renders(render) && WorkOk(render, w) && CopiedOn(w, render, axis, start, end, target).Ok?
    ensures WorkOk(render, CopiedOn(w, render, axis, start, end, target).value.0)
  {
    var on := CurvesOn(w.curves, axis);
    var taken := Sort(OwnedPoints(on, start, end, true), OwnedLeq());
    if |taken| >= 2 {
      var moved := Moved(JustPoints(taken), taken[0].1.tick, target);
      var kept := JustPoints(OwnedPoints(on, moved[0].tick, Last(moved).tick, false));
      AxisRewritingKeeps(w, render, axis, taken[0].0.id, taken[0].0.order, Sort(kept + moved, TickLeq()));
    }
  }

  /** Where something was copied, the axis has one curve afterwards. */
  lemma CopyingGathers(w: Work, render: Render, axis: Axis, start: nat, end: nat, target: nat)
    requires Renders(render) && WorkOk(render, w) && CopiedOn(w, render, axis, start, end, target).Ok?
    requires CopiedOn(w, render, axis, start, end, target).value.1
    ensures |CurvesOn(CopiedOn(w, render, axis, start, end, target).value.0.curves, axis)| == 1
  {
    var on := CurvesOn(w.curves, axis);
    var owned := OwnedPoints(on, start, end, true);
    var taken := Sort(owned, OwnedLeq());
    assert taken[0] in taken && taken[0] in owned;
    OwnedBy(on, start, end, true, taken[0]);
    CurvesOnAxis(w.curves, axis, taken[0].0);
    var moved := Moved(JustPoints(taken), taken[0].1.tick, target);
    var kept := JustPoints(OwnedPoints(on, moved[0].tick, Last(moved).tick, false));
    AxisRewrittenCurves(
      w, render, axis, taken[0].0.id, taken[0].0.order, Sort(kept + moved, TickLeq()), axis);
  }

  // ----- Deleting a stretch of time ------------------------------------------------------------------------

  /** Deletes the points of one curve in a span; the whole curve, if fewer than two stay. */
  function DeletedFrom(w: Work, render: Render, curve: Curve, axes: seq<Axis>, start: nat, end: nat)
    : Result<(Work, bool)>
  {
    var rest := PointsInside(curve.points, start, end, false);
    if curve.axis !in axes || PointsInside(curve.points, start, end, true) == [] then Ok((w, false))
    else if |rest| < 2 then Ok((Removed(w, curve), true))
    else
      var r := Rewritten(w, render, curve.id, curve.axis, curve.order, rest);
      if r.Err? then Err(r.reason) else Ok((r.value, true))
  }

  function RangeDeleted(w: Work, render: Render, curves: seq<Curve>, axes: seq<Axis>, start: nat, end: nat)
    : Result<(Work, bool)>
  {
    if curves == [] then Ok((w, false))
    else
      var before := RangeDeleted(w, render, Front(curves), axes, start, end);
      if before.Err? then before
      else
        var after := DeletedFrom(before.value.0, render, Last(curves), axes, start, end);
        if after.Err? then after else Ok((after.value.0, before.value.1 || after.value.1))
  }

  /** A curve without some of its points stays within its old bounds. */
  lemma NarrowerFree(w: Work, render: Render, curve: Curve, start: nat, end: nat)
    requires Renders(render) && WorkOk(render, w) && curve in w.curves
    requires |PointsInside(curve.points, start, end, false)| >= 2
    ensures Free(w, render, curve.id, curve.axis, curve.order, PointsInside(curve.points, start, end, false))
  {
    var rest := PointsInside(curve.points, start, end, false);
    InStructure(render, w.curves, curve, curve);
    PointsInsideSpaced(curve.points, start, end, false);
    NarrowerBounds(curve.points, start, end);
    assert RendersWell(render, rest, curve.order);
    forall i | 0 <= i < |w.curves| && w.curves[i].id != curve.id ensures Apart(curve, w.curves[i]) {
      InStructure(render, w.curves, curve, w.curves[i]);
    }
    BoundsOfSpaced(curve.points);
  }

  lemma NarrowerBounds(points: seq<CurvePoint>, start: nat, end: nat)
    requires Spaced(points) && |PointsInside(points, start, end, false)| >= 2
    ensures var rest := PointsInside(points, start, end, false);
            points != [] && points[0].tick <= rest[0].tick && Last(rest).tick <= Last(points).tick
  {
    var rest := PointsInside(points, start, end, false);
    PointsInsideAre(points, start, end, false, rest[0]);
    PointsInsideAre(points, start, end, false, Last(rest));
    var i :| 0 <= i < |points| && points[i] == rest[0];
    var j :| 0 <= j < |points| && points[j] == Last(rest);
    if i > 0 { SpacedIsOrdered(points, 0, i); }
    if j < |points| - 1 { SpacedIsOrdered(points, j, |points| - 1); }
  }

  lemma DeletingFromKeeps(w: Work, render: Render, curve: Curve, axes: seq<Axis>, start: nat, end: nat)
    requires Renders(render) && WorkOk(render, w) && curve in w.curves
    requires DeletedFrom(w, render, curve, axes, start, end).Ok?
    ensures WorkOk(render, DeletedFrom(w, render, curve, axes, start, end).value.0)
    ensures forall other :: other in w.curves && other.id != curve.id ==>
              other in DeletedFrom(w, render, curve, axes, start, end).value.0.curves
  {
    var rest := PointsInside(curve.points, start, end, false);
    if curve.axis in axes && PointsInside(curve.points, start, end, true) != [] {
      forall other | other in w.curves && other.id != curve.id ensures other in WithoutId(w.curves, curve.id) {
        WithoutIdKeeps(w.curves, curve.id, other);
      }
      if |rest| < 2 {
        RemovingKeeps(render, w, curve);
      } else {
        NarrowerFree(w, render, curve, start, end);
        RewritingKeeps(render, w, curve.id, curve.axis, curve.order, rest);
      }
    }
  }

  /** The curves that are still to come are untouched when their turn comes. */
  lemma {:induction false} DeletingRangeKeeps(
    w: Work, render: Render, done: seq<Curve>, all: seq<Curve>, axes: seq<Axis>, start: nat, end: nat)
    requires Renders(render) && WorkOk(render, w) && Listed(all, w)
    requires |done| <= |all| && done == all[..|done|]
    requires RangeDeleted(w, render, done, axes, start, end).Ok?
    ensures WorkOk(render, RangeDeleted(w, render, done, axes, start, end).value.0)
    ensures forall i :: |done| <= i < |all| ==> all[i] in RangeDeleted(w, render, done, axes, start, end).value.0.curves
    decreases |done|
  {
    if done != [] {
      DeletingRangeKeeps(w, render, Front(done), all, axes, start, end);
      DeletingFromKeeps(
        RangeDeleted(w, render, Front(done), axes, start, end).value.0, render, Last(done), axes, start, end);
      assert Last(done) == all[|done| - 1];
    }
  }

  // ----- One curve for every axis ----------------------------------------------------------------------------

  function StartLeq(): (Curve, Curve) -> bool { (a: Curve, b: Curve) => Bounds(a).0 <= Bounds(b).0 }

  /** The first of the curves with the most points. */
  function Largest(curves: seq<Curve>): Curve
    requires curves != []
  {
    if |curves| == 1 then curves[0]
    else if |Last(curves).points| > |Largest(Front(curves)).points| then Last(curves) else Largest(Front(curves))
  }

  function AllPoints(curves: seq<Curve>): seq<CurvePoint> {
    if curves == [] then [] else AllPoints(Front(curves)) + Last(curves).points
  }

  /** The curves of an axis become one, named as the first of them and of the order of the
      largest. */
  function Gathered(w: Work, render: Render, axis: Axis): Result<Work> {
    var pieces := Sort(CurvesOn(w.curves, axis), StartLeq());
    if |pieces| < 2 then Ok(w)
    else AxisRewritten(w, render, axis, pieces[0].id, Largest(pieces).order, Sort(AllPoints(pieces), TickLeq()))
  }

  function GatheredAll(w: Work, render: Render, axes: seq<Axis>): Result<Work> {
    if axes == [] then Ok(w)
    else
      var before := GatheredAll(w, render, Front(axes));
      if before.Err? then before else Gathered(before.value, render, Last(axes))
  }

  function AxesInOrder(curves: seq<Curve>): seq<Axis> {
    Unique(seq(|curves|, i requires 0 <= i < |curves| => curves[i].axis))
  }

  lemma GatheringKeeps(w: Work, render: Render, axis: Axis, b: Axis)
    requires Renders(render) && WorkOk(render, w) && Gathered(w, render, axis).Ok?
    ensures WorkOk(render, Gathered(w, render, axis).value)
    ensures var after := Gathered(w, render, axis).value.curves;
            if b == axis then |CurvesOn(after, b)| <= 1 else CurvesOn(after, b) == CurvesOn(w.curves, b)
  {
    var on := CurvesOn(w.curves, axis);
    var pieces := Sort(on, StartLeq());
    if |pieces| >= 2 {
      var points := Sort(AllPoints(pieces), TickLeq());
      assert pieces[0] in pieces && pieces[0] in on;
      CurvesOnAxis(w.curves, axis, pieces[0]);
      AxisRewritingKeeps(w, render, axis, pieces[0].id, Largest(pieces).order, points);
      AxisRewrittenCurves(w, render, axis, pieces[0].id, Largest(pieces).order, points, b);
    }
  }

  lemma {:induction false} GatheringAllKeeps(w: Work, render: Render, axes: seq<Axis>, b: Axis)
    requires Renders(render) && WorkOk(render, w) && GatheredAll(w, render, axes).Ok?
    ensures WorkOk(render, GatheredAll(w, render, axes).value)
    ensures var after := GatheredAll(w, render, axes).value.curves;
            (b in axes ==> |CurvesOn(after, b)| <= 1) && (b !in axes ==> CurvesOn(after, b) == CurvesOn(w.curves, b))
  {
    if axes != [] {
      FrontAndLast(axes);
      GatheringAllKeeps(w, render, Front(axes), b);
      GatheringKeeps(GatheredAll(w, render, Front(axes)).value, render, Last(axes), b);
    }
  }

  ghost predicate OnePerAxis(curves: seq<Curve>) {
    forall axis :: |CurvesOn(curves, axis)| <= 1
  }

  /** Gathered, every axis has at most one curve. */
  lemma GatheredOnePerAxis(w: Work, render: Render)
    requires Renders(render) && WorkOk(render, w) && GatheredAll(w, render, AxesInOrder(w.curves)).Ok?
    ensures WorkOk(render, GatheredAll(w, render, AxesInOrder(w.curves)).value)
    ensures OnePerAxis(GatheredAll(w, render, AxesInOrder(w.curves)).value.curves)
  {
    GatheringAllKeeps(w, render, AxesInOrder(w.curves), 0);
    forall axis ensures |CurvesOn(GatheredAll(w, render, AxesInOrder(w.curves)).value.curves, axis)| <= 1 {
      GatheringAllKeeps(w, render, AxesInOrder(w.curves), axis);
      if axis !in AxesInOrder(w.curves) {
        NotListed(w.curves, axis);
      }
    }
  }

  lemma NotListed(curves: seq<Curve>, axis: Axis)
    requires axis !in AxesInOrder(curves)
    ensures CurvesOn(curves, axis) == []
  {
    var axes := seq(|curves|, i requires 0 <= i < |curves| => curves[i].axis);
    forall i | 0 <= i < |curves| ensures curves[i].axis != axis {
      assert axes[i] in axes;
    }
    NoneLeft(curves, axis);
  }
}

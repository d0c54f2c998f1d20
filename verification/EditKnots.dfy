/** Edits of points, from the request to the frames: what is set, copied or moved is where it
    should be in the edited layer, and what is deleted is gone. */
module EditKnots {
  import opened MotionTypes
  import opened Sorting
  import opened Timeline
  import opened CurveEngine
  import opened EditState
  import opened EditFrames
  import opened LayerEdit
  import opened RangeEdit
  import opened CurveTransform
  import opened EditLayer
  import opened EditEffects
  import LayerConflicts

  /** Some curve of the axis has the point. */
  ghost predicate HasKnot(curves: seq<Curve>, axis: Axis, k: Point) {
    exists curve :: curve in curves && curve.axis == axis && k in KnotSet(curve.points)
  }

  // ----- Gathering keeps the points ----------------------------------------------------------------

  lemma {:induction false} AllPointsAre(curves: seq<Curve>, k: Point)
    ensures k in KnotSet(AllPoints(curves)) <==> exists curve :: curve in curves && k in KnotSet(curve.points)
  {
    if curves != [] {
      AllPointsAre(Front(curves), k);
      FrontAndLast(curves);
      var rest, last := AllPoints(Front(curves)), Last(curves).points;
      forall p | p in AllPoints(curves) ensures p in rest || p in last {}
      assert KnotSet(AllPoints(curves)) == KnotSet(rest) + KnotSet(last);
    }
  }

  /** Curves of an axis that are the same have the same points. */
  lemma SameKnots(a: seq<Curve>, b: seq<Curve>, axis: Axis, k: Point)
    requires CurvesOn(a, axis) == CurvesOn(b, axis)
    ensures HasKnot(a, axis, k) <==> HasKnot(b, axis, k)
  {
    forall curve ensures curve in a && curve.axis == axis <==> curve in b && curve.axis == axis {
      CurvesOnAxis(a, axis, curve);
      CurvesOnAxis(b, axis, curve);
    }
  }

  /** A rewritten axis has the points that it was rewritten with. */
  lemma RewrittenAxisHas(
    w: Work, render: Render, axis: Axis, id: string, order: int, points: seq<CurvePoint>, k: Point)
    requires Renders(render) && AxisRewritten(w, render, axis, id, order, points).Ok?
    ensures HasKnot(AxisRewritten(w, render, axis, id, order, points).value.curves, axis, k) <==> k in KnotSet(points)
  {
    var left := RemovedOthers(w, CurvesOn(w.curves, axis), id);
    var curve := Curve(id, axis, order, render(points, order).value.0);
    var after := WithoutId(left.curves, id) + [curve];
    assert RendersWell(render, points, order);
    forall other | other in after && other.axis == axis ensures other == curve {
      if other != curve {
        WithoutIdKeeps(left.curves, id, other);
        LeftOnAxis(w, axis, id, other);
      }
    }
    assert curve in after;
  }

  lemma GatheredHasKnot(w: Work, render: Render, axis: Axis, b: Axis, k: Point)
    requires Renders(render) && WorkOk(render, w) && Gathered(w, render, axis).Ok?
    ensures HasKnot(Gathered(w, render, axis).value.curves, b, k) <==> HasKnot(w.curves, b, k)
  {
    var pieces := Sort(CurvesOn(w.curves, axis), StartLeq());
    if |pieces| >= 2 {
      if b == axis {
        var points := Sort(AllPoints(pieces), TickLeq());
        RewrittenAxisHas(w, render, axis, pieces[0].id, Largest(pieces).order, points, k);
        SortedKnots(AllPoints(pieces));
        AllPointsAre(pieces, k);
        forall curve ensures curve in pieces <==> curve in w.curves && curve.axis == axis {
          CurvesOnAxis(w.curves, axis, curve);
        }
      } else {
        GatheringKeeps(w, render, axis, b);
        SameKnots(w.curves, Gathered(w, render, axis).value.curves, b, k);
      }
    }
  }

  lemma SortedKnots(points: seq<CurvePoint>)
    ensures KnotSet(Sort(points, TickLeq())) == KnotSet(points)
  {
    assert forall p :: p in Sort(points, TickLeq()) <==> p in points;
  }

  lemma {:induction false} GatheredAllHasKnot(w: Work, render: Render, axes: seq<Axis>, b: Axis, k: Point)
    requires Renders(render) && WorkOk(render, w) && GatheredAll(w, render, axes).Ok?
    ensures HasKnot(GatheredAll(w, render, axes).value.curves, b, k) <==> HasKnot(w.curves, b, k)
  {
    if axes != [] {
      GatheredAllHasKnot(w, render, Front(axes), b, k);
      GatheringAllKeeps(w, render, Front(axes), b);
      GatheredHasKnot(GatheredAll(w, render, Front(axes)).value, render, Last(axes), b, k);
    }
  }

  // ----- From the curves to the frames ----------------------------------------------------------------

  /** Frames in step have the value of every point at its time. */
  lemma KnotIsInFrames(render: Render, layer: Layer, axis: Axis, k: Point)
    requires Renders(render) && LayerOk(render, layer) && HasKnot(layer.curves, axis, k)
    ensures FirstAt(layer.frames, axis, k.tick) == Some(k.value)
  {
    var curve :| curve in layer.curves && curve.axis == axis && k in KnotSet(curve.points);
    var i :| 0 <= i < |layer.curves| && layer.curves[i] == curve;
    assert InStep(render, layer.frames, layer.curves[i]);
    assert RendersWell(render, curve.points, curve.order);
    assert k in Drawn(render, curve);
  }

  /** An edit that succeeds. */
  ghost predicate Succeeds(layer: Layer, edit: Edit, render: Render, names: Names) {
    && Renders(render) && LayerOk(render, layer) && Fresh(names, layer.curves)
    && Edited(layer, edit, render, names).Ok?
  }

  /** The points of the edited layer are those that the edit made, and the frames have them. */
  lemma EditedKnots(layer: Layer, edit: Edit, render: Render, names: Names, axis: Axis, k: Point)
    requires Succeeds(layer, edit, render, names)
    ensures var w := Applied(WorkOf(layer), layer.frames, edit, render, names);
            var after := Edited(layer, edit, render, names).value;
            && w.Ok? && (HasKnot(after.curves, axis, k) <==> HasKnot(w.value.curves, axis, k))
            && (HasKnot(after.curves, axis, k) ==> FirstAt(after.frames, axis, k.tick) == Some(k.value))
  {
    var w := Applied(WorkOf(layer), layer.frames, edit, render, names).value;
    var once, after := EditedOnce(layer, edit, render, names).value, Edited(layer, edit, render, names).value;
    TakingApart(render, layer.frames, layer.curves);
    AppliedKeeps(WorkOf(layer), layer.frames, edit, render, names);
    FinishedOk(render, layer, w, Limited(edit));
    OnceHasKnots(once, render, axis, k);
    EditingKeepsStep(layer, edit, render, names);
    if HasKnot(after.curves, axis, k) { KnotIsInFrames(render, after, axis, k); }
  }

  lemma OnceHasKnots(once: Layer, render: Render, axis: Axis, k: Point)
    requires Renders(render) && LayerOk(render, once) && OneCurvePerAxis(once, render).Ok?
    ensures HasKnot(OneCurvePerAxis(once, render).value.curves, axis, k) <==> HasKnot(once.curves, axis, k)
  {
    if Gatherable(once.curves) {
      TakingApart(render, once.frames, once.curves);
      GatheredAllHasKnot(WorkOf(once), render, AxesInOrder(once.curves), axis, k);
    }
  }

  // ----- Setting a curve ---------------------------------------------------------------------------------

  lemma SetKnots(w: Work, render: Render, ids: seq<Axis>, id: string, order: int, points: seq<CurvePoint>, k: Point)
    requires Renders(render) && CurveSet(w, render, ids, id, order, points).Ok?
    ensures HasKnot(CurveSet(w, render, ids, id, order, points).value.curves, Unique(ids)[0], k) <==>
            k in KnotSet(points) || HasKnot(WithoutId(w.curves, id), Unique(ids)[0], k)
  {
    var curve := Curve(id, Unique(ids)[0], order, render(points, order).value.0);
    var after := WithoutId(w.curves, id) + [curve];
    assert RendersWell(render, points, order);
    assert curve in after;
    forall other | other in WithoutId(w.curves, id) ensures other in after {}
  }

  /** After a curve is set, the axis has the points that were given and those of its other
      curves, no more; and every given point is in the frames. */
  lemma SettingSets(
    layer: Layer, render: Render, names: Names, ids: seq<Axis>, id: Option<string>, order: int,
    points: seq<CurvePoint>, k: Point)
    requires Succeeds(layer, SetCurve(ids, id, order, points), render, names)
    ensures var after := Edited(layer, SetCurve(ids, id, order, points), render, names).value;
            && |Unique(ids)| == 1
            && (HasKnot(after.curves, Unique(ids)[0], k) <==>
                  k in KnotSet(points) || HasKnot(WithoutId(layer.curves, NameOf(id, names)), Unique(ids)[0], k))
            && (k in KnotSet(points) ==> FirstAt(after.frames, Unique(ids)[0], k.tick) == Some(k.value))
  {
    EditedKnots(layer, SetCurve(ids, id, order, points), render, names, Unique(ids)[0], k);
    SetKnots(WorkOf(layer), render, ids, NameOf(id, names), order, points, k);
  }

  // ----- Deleting a stretch of time ------------------------------------------------------------------------

  /** The point is outside the stretch, on a curve that has two such points or more. */
  ghost predicate Remains(curve: Curve, start: nat, end: nat, k: Point) {
    && k in KnotSet(curve.points) && !InSpan(k.tick, start, end)
    && |PointsInside(curve.points, start, end, false)| >= 2
  }

  lemma {:induction false} AllOutside(points: seq<CurvePoint>, start: nat, end: nat)
    requires PointsInside(points, start, end, true) == []
    ensures PointsInside(points, start, end, false) == points
  {
    if points != [] {
      PointsInsideAre(points, start, end, true, Last(points));
      AllOutside(Front(points), start, end);
      FrontAndLast(points);
    }
  }

  lemma OutsideKnots(points: seq<CurvePoint>, start: nat, end: nat, k: Point)
    ensures k in KnotSet(PointsInside(points, start, end, false)) <==> k in KnotSet(points) && !InSpan(k.tick, start, end)
  {
    forall p ensures p in PointsInside(points, start, end, false) <==> p in points && !InSpan(p.tick, start, end) {
      PointsInsideAre(points, start, end, false, p);
    }
  }

  /** A point is on one curve of an axis only. */
  lemma OneCurveHas(render: Render, curves: seq<Curve>, a: Curve, b: Curve, k: Point)
    requires Renders(render) && Structure(render, curves) && a in curves && b in curves && a.axis == b.axis
    requires k in KnotSet(a.points) && k in KnotSet(b.points)
    ensures a == b
  {
    InStructure(render, curves, a, b);
    KnotInBounds(a, k);
    KnotInBounds(b, k);
  }

  lemma KnotInBounds(curve: Curve, k: Point)
    requires Spaced(curve.points) && k in KnotSet(curve.points)
    ensures Bounds(curve).0 <= k.tick <= Bounds(curve).1
  {
    var i :| 0 <= i < |curve.points| && Knot(curve.points[i]) == k;
    BoundsOfSpaced(curve.points);
    if i > 0 { SpacedIsOrdered(curve.points, 0, i); }
    if i < |curve.points| - 1 { SpacedIsOrdered(curve.points, i, |curve.points| - 1); }
  }

  /** A point that goes when a curve loses the stretch. */
  ghost predicate Lost(curve: Curve, axis: Axis, start: nat, end: nat, k: Point) {
    curve.axis == axis && k in KnotSet(curve.points) && !Remains(curve, start, end, k)
  }

  lemma UntouchedLosesNothing(curve: Curve, axis: Axis, start: nat, end: nat, k: Point)
    requires |curve.points| >= 2 && PointsInside(curve.points, start, end, true) == []
    ensures !Lost(curve, axis, start, end, k)
  {
    AllOutside(curve.points, start, end);
    OutsideKnots(curve.points, start, end, k);
  }

  /** Other curves keep their points. */
  lemma WithoutCurveHas(render: Render, w: Work, curve: Curve, axis: Axis, k: Point)
    requires Renders(render) && Structure(render, w.curves) && curve in w.curves
    ensures HasKnot(WithoutId(w.curves, curve.id), axis, k) <==>
            HasKnot(w.curves, axis, k) && !(curve.axis == axis && k in KnotSet(curve.points))
  {
    OnlyOneSoNamed(render, w.curves, curve);
    forall other ensures other in WithoutId(w.curves, curve.id) <==> other in w.curves && other != curve {
      WithoutIdKeeps(w.curves, curve.id, other);
    }
    if curve.axis == axis && k in KnotSet(curve.points) {
      forall other | other in w.curves && other.axis == axis && k in KnotSet(other.points) ensures other == curve {
        OneCurveHas(render, w.curves, other, curve, k);
      }
    }
  }

  lemma SnocHasKnot(curves: seq<Curve>, curve: Curve, axis: Axis, k: Point)
    ensures HasKnot(curves + [curve], axis, k) <==>
            HasKnot(curves, axis, k) || (curve.axis == axis && k in KnotSet(curve.points))
  {
    assert curve in curves + [curve];
    forall other | other in curves ensures other in curves + [curve] {}
  }

  lemma DeletedFromKnots(
    w: Work, render: Render, curve: Curve, axes: seq<Axis>, start: nat, end: nat, axis: Axis, k: Point)
    requires Renders(render) && WorkOk(render, w) && curve in w.curves && axis in axes
    requires DeletedFrom(w, render, curve, axes, start, end).Ok?
    ensures HasKnot(DeletedFrom(w, render, curve, axes, start, end).value.0.curves, axis, k) <==>
            HasKnot(w.curves, axis, k) && !Lost(curve, axis, start, end, k)
  {
    var rest := PointsInside(curve.points, start, end, false);
    InStructure(render, w.curves, curve, curve);
    if curve.axis in axes && PointsInside(curve.points, start, end, true) != [] {
      WithoutCurveHas(render, w, curve, axis, k);
      OutsideKnots(curve.points, start, end, k);
      if |rest| >= 2 {
        assert RendersWell(render, rest, curve.order);
        SnocHasKnot(WithoutId(w.curves, curve.id),
          Curve(curve.id, curve.axis, curve.order, render(rest, curve.order).value.0), axis, k);
        if curve.axis == axis && k in KnotSet(curve.points) { assert HasKnot(w.curves, axis, k); }
      }
    } else if curve.axis == axis {
      UntouchedLosesNothing(curve, axis, start, end, k);
    }
  }

  ghost predicate SomeLost(curves: seq<Curve>, axis: Axis, start: nat, end: nat, k: Point) {
    exists i :: 0 <= i < |curves| && Lost(curves[i], axis, start, end, k)
  }

  lemma {:induction false} RangeDeletedKnots(
    w: Work, render: Render, done: seq<Curve>, axes: seq<Axis>, start: nat, end: nat, axis: Axis, k: Point)
    requires Renders(render) && WorkOk(render, w) && axis in axes
    requires |done| <= |w.curves| && done == w.curves[..|done|]
    requires RangeDeleted(w, render, done, axes, start, end).Ok?
    ensures HasKnot(RangeDeleted(w, render, done, axes, start, end).value.0.curves, axis, k) <==>
            HasKnot(w.curves, axis, k) && !SomeLost(done, axis, start, end, k)
    decreases |done|
  {
    if done != [] {
      var before := RangeDeleted(w, render, Front(done), axes, start, end).value.0;
      RangeDeletedKnots(w, render, Front(done), axes, start, end, axis, k);
      DeletingRangeKeeps(w, render, Front(done), w.curves, axes, start, end);
      assert Last(done) == w.curves[|done| - 1];
      DeletedFromKnots(before, render, Last(done), axes, start, end, axis, k);
      OneMoreLost(done, axis, start, end, k);
    }
  }

  lemma OneMoreLost(curves: seq<Curve>, axis: Axis, start: nat, end: nat, k: Point)
    requires curves != []
    ensures SomeLost(curves, axis, start, end, k) <==>
            SomeLost(Front(curves), axis, start, end, k) || Lost(Last(curves), axis, start, end, k)
  {
    assert forall i :: 0 <= i < |curves| - 1 ==> Front(curves)[i] == curves[i];
  }

  /** Some curve of the axis keeps the point. */
  ghost predicate SomeRemains(curves: seq<Curve>, axis: Axis, start: nat, end: nat, k: Point) {
    exists curve :: curve in curves && curve.axis == axis && Remains(curve, start, end, k)
  }

  lemma NotLostRemains(render: Render, curves: seq<Curve>, axis: Axis, start: nat, end: nat, k: Point)
    requires Renders(render) && Structure(render, curves)
    ensures SomeRemains(curves, axis, start, end, k) <==>
            HasKnot(curves, axis, k) && !SomeLost(curves, axis, start, end, k)
  {
    if SomeRemains(curves, axis, start, end, k) {
      var curve :| curve in curves && curve.axis == axis && Remains(curve, start, end, k);
      assert HasKnot(curves, axis, k);
      forall i | 0 <= i < |curves| ensures !Lost(curves[i], axis, start, end, k) {
        if curves[i].axis == axis && k in KnotSet(curves[i].points) {
          OneCurveHas(render, curves, curve, curves[i], k);
        }
      }
    } else if HasKnot(curves, axis, k) {
      var curve :| curve in curves && curve.axis == axis && k in KnotSet(curve.points);
      var i :| 0 <= i < |curves| && curves[i] == curve;
      assert Lost(curves[i], axis, start, end, k);
    }
  }

  /** After a stretch of time is deleted, a chosen axis has a point exactly if it had it
      outside the stretch, on a curve with two such points or more; and every point is in the
      frames. */
  lemma DeletingEmpties(
    layer: Layer, render: Render, names: Names, ids: seq<Axis>, start: nat, end: nat, axis: Axis, k: Point)
    requires Succeeds(layer, DeleteRange(ids, start, end), render, names) && axis in ids
    ensures var after := Edited(layer, DeleteRange(ids, start, end), render, names).value;
            && (HasKnot(after.curves, axis, k) <==>
                  SomeRemains(layer.curves, axis, LayerConflicts.Min(start, end), LayerConflicts.Max(start, end), k))
            && (HasKnot(after.curves, axis, k) ==> FirstAt(after.frames, axis, k.tick) == Some(k.value))
  {
    var low, high := LayerConflicts.Min(start, end), LayerConflicts.Max(start, end);
    EditedKnots(layer, DeleteRange(ids, start, end), render, names, axis, k);
    TakingApart(render, layer.frames, layer.curves);
    assert layer.curves[..|layer.curves|] == layer.curves;
    RangeDeletedKnots(WorkOf(layer), render, layer.curves, Unique(ids), low, high, axis, k);
    NotLostRemains(render, layer.curves, axis, low, high, k);
  }

  // ----- Copying a stretch of time ---------------------------------------------------------------------------

  /** The points that are copied on an axis, in time order, each with its curve. */
  function Taken(curves: seq<Curve>, axis: Axis, start: nat, end: nat): seq<Owned> {
    Sort(OwnedPoints(CurvesOn(curves, axis), start, end, true), OwnedLeq())
  }

  /** Where a copied point goes: the first one to the target. */
  function CopyOf(p: CurvePoint, taken: seq<Owned>, target: nat): Point
    requires taken != [] && taken[0].1.tick <= p.tick
  {
    Point(p.tick - taken[0].1.tick + target, p.value)
  }

  /** No copied point comes before the first one. */
  lemma TakenAre(curves: seq<Curve>, axis: Axis, start: nat, end: nat, owned: Owned)
    ensures owned in Taken(curves, axis, start, end) <==>
            && owned.0 in curves && owned.0.axis == axis && owned.1 in owned.0.points && InSpan(owned.1.tick, start, end)
    ensures owned in Taken(curves, axis, start, end) ==> Taken(curves, axis, start, end)[0].1.tick <= owned.1.tick
  {
    var on := CurvesOn(curves, axis);
    CurvesOnAxis(curves, axis, owned.0);
    if owned in OwnedPoints(on, start, end, true) {
      OwnedBy(on, start, end, true, owned);
      FirstTaken(OwnedPoints(on, start, end, true), owned);
    }
    if owned.0 in on && owned.1 in owned.0.points && InSpan(owned.1.tick, start, end) {
      OwnedHas(on, start, end, owned.0, owned.1);
    }
  }

  /** Some copied point goes there. */
  ghost predicate CopiedTo(curves: seq<Curve>, axis: Axis, start: nat, end: nat, target: nat, k: Point) {
    var taken := Taken(curves, axis, start, end);
    exists i :: 0 <= i < |taken| && taken[0].1.tick <= taken[i].1.tick && CopyOf(taken[i].1, taken, target) == k
  }

  /** When the copy is over: the points of the axis that were not in its way, and the copied
      ones.  With fewer than two to copy, nothing happens. */
  ghost predicate AfterCopy(curves: seq<Curve>, axis: Axis, start: nat, end: nat, target: nat, k: Point) {
    var taken := Taken(curves, axis, start, end);
    if |taken| < 2 then HasKnot(curves, axis, k)
    else
      || CopiedTo(curves, axis, start, end, target, k)
      || (HasKnot(curves, axis, k) && !InCopy(taken, target, k.tick))
  }

  /** The stretch that the copy takes. */
  predicate InCopy(taken: seq<Owned>, target: nat, tick: nat)
    requires taken != []
  {
    InSpan(tick, target, Landing(Last(taken).1.tick, taken[0].1.tick, target))
  }

  function Landing(tick: nat, first: nat, target: nat): nat { if tick >= first then tick - first + target else target }

  lemma {:induction false} OutsideOwned(curves: seq<Curve>, start: nat, end: nat, k: Point)
    ensures k in KnotSet(JustPoints(OwnedPoints(curves, start, end, false))) <==>
            !InSpan(k.tick, start, end) && exists curve :: curve in curves && k in KnotSet(curve.points)
  {
    if curves != [] {
      var last := PointsInside(Last(curves).points, start, end, false);
      OutsideOwned(Front(curves), start, end, k);
      FrontAndLast(curves);
      OutsideKnots(Last(curves).points, start, end, k);
      assert JustPoints(WithCurve(Last(curves), last)) == last;
      assert JustPoints(OwnedPoints(curves, start, end, false)) ==
             JustPoints(OwnedPoints(Front(curves), start, end, false)) + last;
      JoinedKnots(JustPoints(OwnedPoints(Front(curves), start, end, false)), last);
    }
  }

  lemma JoinedKnots(a: seq<CurvePoint>, b: seq<CurvePoint>)
    ensures KnotSet(a + b) == KnotSet(a) + KnotSet(b)
  {
    forall p ensures p in a + b <==> p in a || p in b {}
  }

  /** The copied points, at their new times. */
  lemma MovedKnots(taken: seq<Owned>, target: nat, k: Point)
    requires taken != [] && forall i :: 0 <= i < |taken| ==> taken[0].1.tick <= taken[i].1.tick
    ensures k in KnotSet(Moved(JustPoints(taken), taken[0].1.tick, target)) <==>
            exists i :: 0 <= i < |taken| && CopyOf(taken[i].1, taken, target) == k
  {
    var moved := Moved(JustPoints(taken), taken[0].1.tick, target);
    forall i | 0 <= i < |taken| ensures Knot(moved[i]) == CopyOf(taken[i].1, taken, target) {
      MovedKnot(taken, i, taken[0].1.tick, target);
    }
    if i :| 0 <= i < |taken| && CopyOf(taken[i].1, taken, target) == k { assert moved[i] in moved; }
  }

  lemma TakenRise(curves: seq<Curve>, axis: Axis, start: nat, end: nat)
    ensures var taken := Taken(curves, axis, start, end);
            forall i :: 0 <= i < |taken| ==> taken[0].1.tick <= taken[i].1.tick
  {
    var taken := Taken(curves, axis, start, end);
    forall i | 0 <= i < |taken| ensures taken[0].1.tick <= taken[i].1.tick {
      assert taken[i] in taken;
      TakenAre(curves, axis, start, end, taken[i]);
    }
  }

  lemma MovedEnds(taken: seq<Owned>, target: nat)
    requires taken != []
    ensures var moved := Moved(JustPoints(taken), taken[0].1.tick, target);
            && moved != [] && moved[0].tick == target
            && Last(moved).tick == Landing(Last(taken).1.tick, taken[0].1.tick, target)
  {
  }

  lemma HasKnotOn(curves: seq<Curve>, axis: Axis, k: Point)
    ensures HasKnot(curves, axis, k) <==> exists curve :: curve in CurvesOn(curves, axis) && k in KnotSet(curve.points)
  {
    forall curve ensures curve in CurvesOn(curves, axis) <==> curve in curves && curve.axis == axis {
      CurvesOnAxis(curves, axis, curve);
    }
  }

  lemma PointsAfterCopyAre(curves: seq<Curve>, axis: Axis, start: nat, end: nat, target: nat, k: Point)
    requires |Taken(curves, axis, start, end)| >= 2
    ensures var taken := Taken(curves, axis, start, end);
            var moved := Moved(JustPoints(taken), taken[0].1.tick, target);
            && moved != []
            && (k in KnotSet(JustPoints(OwnedPoints(CurvesOn(curves, axis), moved[0].tick, Last(moved).tick, false)) + moved)
                <==> AfterCopy(curves, axis, start, end, target, k))
  {
    var taken := Taken(curves, axis, start, end);
    var moved := Moved(JustPoints(taken), taken[0].1.tick, target);
    MovedEnds(taken, target);
    JoinedKnots(JustPoints(OwnedPoints(CurvesOn(curves, axis), moved[0].tick, Last(moved).tick, false)), moved);
    OutsideOwned(CurvesOn(curves, axis), moved[0].tick, Last(moved).tick, k);
    HasKnotOn(curves, axis, k);
    TakenRise(curves, axis, start, end);
    MovedKnots(taken, target, k);
  }

  lemma CopiedKnots(w: Work, render: Render, axis: Axis, start: nat, end: nat, target: nat, k: Point)
    requires Renders(render) && CopiedOn(w, render, axis, start, end, target).Ok?
    ensures HasKnot(CopiedOn(w, render, axis, start, end, target).value.0.curves, axis, k) <==>
            AfterCopy(w.curves, axis, start, end, target, k)
  {
    var taken := Taken(w.curves, axis, start, end);
    if |taken| >= 2 {
      var moved := Moved(JustPoints(taken), taken[0].1.tick, target);
      PointsAfterCopyAre(w.curves, axis, start, end, target, k);
      var points := JustPoints(OwnedPoints(CurvesOn(w.curves, axis), moved[0].tick, Last(moved).tick, false)) + moved;
      RewrittenAxisHas(w, render, axis, taken[0].0.id, taken[0].0.order, Sort(points, TickLeq()), k);
      SortedKnots(points);
    }
  }

  ghost predicate Distinct(axes: seq<Axis>) { forall i, j :: 0 <= i < j < |axes| ==> axes[i] != axes[j] }

  lemma {:induction false} RangeCopiedKnots(
    w: Work, render: Render, axes: seq<Axis>, start: nat, end: nat, target: nat, axis: Axis, k: Point)
    requires Renders(render) && WorkOk(render, w) && RangeCopied(w, render, axes, start, end, target).Ok?
    requires Distinct(axes) && axis in axes
    ensures HasKnot(RangeCopied(w, render, axes, start, end, target).value.0.curves, axis, k) <==>
            AfterCopy(w.curves, axis, start, end, target, k)
  {
    var before := RangeCopied(w, render, Front(axes), start, end, target).value.0;
    var after := RangeCopied(w, render, axes, start, end, target).value.0;
    FrontAndLast(axes);
    CopyingRangeKeeps(w, render, Front(axes), start, end, target);
    if axis == Last(axes) {
      RangeCopiedElsewhere(w, render, Front(axes), start, end, target, axis);
      SameKnots(before.curves, w.curves, axis, k);
      CopiedKnots(before, render, axis, start, end, target, k);
    } else {
      RangeCopiedKnots(w, render, Front(axes), start, end, target, axis, k);
      CopiedElsewhere(before, render, Last(axes), start, end, target, axis);
      SameKnots(before.curves, after.curves, axis, k);
    }
  }

  /** After a copy, a chosen axis with two points or more to copy has these at their new times,
      the old ones outside the stretch that they take, and no others; and every point is in the
      frames. */
  lemma CopyingPlaces(
    layer: Layer, render: Render, names: Names, ids: seq<Axis>, start: nat, end: nat, target: nat, axis: Axis, k: Point)
    requires Succeeds(layer, CopyRange(ids, start, end, target), render, names) && axis in ids
    ensures var after := Edited(layer, CopyRange(ids, start, end, target), render, names).value;
            && (HasKnot(after.curves, axis, k) <==>
                  AfterCopy(layer.curves, axis, LayerConflicts.Min(start, end), LayerConflicts.Max(start, end), target, k))
            && (HasKnot(after.curves, axis, k) ==> FirstAt(after.frames, axis, k.tick) == Some(k.value))
  {
    EditedKnots(layer, CopyRange(ids, start, end, target), render, names, axis, k);
    TakingApart(render, layer.frames, layer.curves);
    RangeCopiedKnots(WorkOf(layer), render, Unique(ids), LayerConflicts.Min(start, end), LayerConflicts.Max(start, end),
      target, axis, k);
  }

  // ----- Moving and scaling -------------------------------------------------------------------------------------

  /** Where a change puts the points of an axis. */
  function ChangedTo(w: Work, axis: Axis, change: Change, k: Point): Point {
    KnotAfter(k, change, TimePivot(change), ValuePivot(w.tracks, axis, change))
  }

  lemma {:induction false} ChangedAllAre(render: Render, tracks: Tracks, curves: seq<Curve>, change: Change)
    requires ChangedAll(render, tracks, curves, change).Ok?
    ensures var changed := ChangedAll(render, tracks, curves, change).value;
            && |changed| == |curves|
            && forall i :: 0 <= i < |curves| ==>
                 ChangedCurve(render, curves[i], change, TimePivot(change), ValuePivot(tracks, curves[i].axis, change)) ==
                 Ok(changed[i])
  {
    if curves != [] {
      ChangedAllAre(render, tracks, Front(curves), change);
    }
  }

  /** A curve with the points of another, each where the change puts it. */
  ghost predicate KnotsMapped(w: Work, change: Change, curve: Curve, next: Curve) {
    && next.axis == curve.axis
    && KnotSet(next.points) == set k | k in KnotSet(curve.points) :: ChangedTo(w, curve.axis, change, k)
  }

  function Changes(w: Work, render: Render, axes: seq<Axis>, change: Change): Result<seq<(Curve, seq<Point>)>> {
    ChangedAll(render, w.tracks, Affected(w.curves, axes, change.start, change.end), change)
  }

  /** A curve with a point in the stretch of time is replaced by the changed one. */
  lemma AffectedReplaced(w: Work, render: Render, axes: seq<Axis>, change: Change, curve: Curve)
    requires Renders(render) && WorkOk(render, w) && curve in w.curves && curve.axis in axes
    requires Changes(w, render, axes, change).Ok? && HasPointIn(curve, change.start, change.end)
    ensures var r := ChangedCurve(render, curve, change, TimePivot(change), ValuePivot(w.tracks, curve.axis, change));
            r.Ok? && r.value.0 == Replacement(curve, Changes(w, render, axes, change).value)
  {
    var affected := Affected(w.curves, axes, change.start, change.end);
    var changed := Changes(w, render, axes, change).value;
    ChangedAllAre(render, w.tracks, affected, change);
    ChangedAllResults(render, w.tracks, affected, change);
    ReplacementIs(curve, changed);
    AffectedAre(w.curves, axes, change.start, change.end, curve);
    var i :| 0 <= i < |affected| && affected[i] == curve;
    assert changed[i].0.id == curve.id;
    var j :| 0 <= j < |changed| && changed[j].0 == Replacement(curve, changed);
    AffectedIsCurve(w, render, affected, axes, change, j, curve);
  }

  lemma OthersStay(w: Work, render: Render, axes: seq<Axis>, change: Change, curve: Curve)
    requires Renders(render) && WorkOk(render, w) && curve in w.curves
    requires Changes(w, render, axes, change).Ok?
    requires curve.axis !in axes || !HasPointIn(curve, change.start, change.end)
    ensures Replacement(curve, Changes(w, render, axes, change).value) == curve
  {
    var affected := Affected(w.curves, axes, change.start, change.end);
    var changed := Changes(w, render, axes, change).value;
    ChangedAllResults(render, w.tracks, affected, change);
    ReplacementIs(curve, changed);
    AffectedAre(w.curves, axes, change.start, change.end, curve);
    forall i | 0 <= i < |changed| ensures changed[i].0.id != curve.id {
      if affected[i].id == curve.id { AffectedIsCurve(w, render, affected, axes, change, i, curve); }
    }
  }

  lemma UnmovedKnots(w: Work, change: Change, curve: Curve)
    requires !HasPointIn(curve, change.start, change.end)
    ensures KnotSet(curve.points) == set k | k in KnotSet(curve.points) :: ChangedTo(w, curve.axis, change, k)
  {
    NothingFound(curve.points, change.start, change.end);
    forall k | k in KnotSet(curve.points) ensures ChangedTo(w, curve.axis, change, k) == k {
      var p :| p in curve.points && Knot(p) == k;
    }
  }

  /** An axis that is chosen: every curve has its points where the change puts them. */
  lemma ReplacementKnots(w: Work, render: Render, axes: seq<Axis>, change: Change, curve: Curve)
    requires Renders(render) && WorkOk(render, w) && curve in w.curves && curve.axis in axes
    requires Changes(w, render, axes, change).Ok?
    ensures KnotsMapped(w, change, curve, Replacement(curve, Changes(w, render, axes, change).value))
  {
    if HasPointIn(curve, change.start, change.end) {
      AffectedReplaced(w, render, axes, change, curve);
      TransformingMoves(render, curve, change, TimePivot(change), ValuePivot(w.tracks, curve.axis, change));
    } else {
      OthersStay(w, render, axes, change, curve);
      UnmovedKnots(w, change, curve);
    }
  }

  lemma AffectedIsCurve(
    w: Work, render: Render, affected: seq<Curve>, axes: seq<Axis>, change: Change, i: nat, curve: Curve)
    requires Structure(render, w.curves) && affected == Affected(w.curves, axes, change.start, change.end)
    requires i < |affected| && affected[i].id == curve.id && curve in w.curves
    ensures affected[i] == curve && HasPointIn(curve, change.start, change.end)
  {
    assert affected[i] in affected;
    AffectedAre(w.curves, axes, change.start, change.end, affected[i]);
    OnlyOneSoNamed(render, w.curves, curve);
  }

  /** Every curve of a chosen axis has its points where the change puts them. */
  ghost predicate AllMapped(w: Work, axes: seq<Axis>, change: Change, after: seq<Curve>) {
    |after| == |w.curves| && forall i :: 0 <= i < |after| ==> OneMapped(w, axes, change, w.curves[i], after[i])
  }

  ghost predicate OneMapped(w: Work, axes: seq<Axis>, change: Change, curve: Curve, next: Curve) {
    if curve.axis in axes then KnotsMapped(w, change, curve, next) else next == curve
  }

  lemma UpdatedMaps(w: Work, render: Render, axes: seq<Axis>, change: Change)
    requires Renders(render) && WorkOk(render, w) && Changes(w, render, axes, change).Ok?
    ensures AllMapped(w, axes, change, Updated(w.curves, Changes(w, render, axes, change).value))
  {
    var after := Updated(w.curves, Changes(w, render, axes, change).value);
    forall i | 0 <= i < |after| ensures OneMapped(w, axes, change, w.curves[i], after[i]) {
      if w.curves[i].axis in axes {
        ReplacementKnots(w, render, axes, change, w.curves[i]);
      } else {
        OthersStay(w, render, axes, change, w.curves[i]);
      }
    }
  }

  lemma TransformedKnots(w: Work, render: Render, ids: seq<Axis>, change: Change, axis: Axis, k: Point)
    requires Renders(render) && WorkOk(render, w) && Transformed(w, render, ids, change).Ok? && axis in ids
    ensures HasKnot(Transformed(w, render, ids, change).value.curves, axis, k) <==>
            exists was :: HasKnot(w.curves, axis, was) && ChangedTo(w, axis, change, was) == k
  {
    UpdatedMaps(w, render, Unique(ids), change);
    MappedHasKnot(w, Updated(w.curves, Changes(w, render, Unique(ids), change).value), Unique(ids), change, axis, k);
  }

  lemma MappedHasKnot(w: Work, after: seq<Curve>, axes: seq<Axis>, change: Change, axis: Axis, k: Point)
    requires AllMapped(w, axes, change, after) && axis in axes
    ensures HasKnot(after, axis, k) <==> exists was :: HasKnot(w.curves, axis, was) && ChangedTo(w, axis, change, was) == k
  {
    if HasKnot(after, axis, k) {
      var curve :| curve in after && curve.axis == axis && k in KnotSet(curve.points);
      var i :| 0 <= i < |after| && after[i] == curve;
      assert OneMapped(w, axes, change, w.curves[i], after[i]);
      var was :| was in KnotSet(w.curves[i].points) && ChangedTo(w, axis, change, was) == k;
      assert w.curves[i] in w.curves && HasKnot(w.curves, axis, was);
    }
    if was :| HasKnot(w.curves, axis, was) && ChangedTo(w, axis, change, was) == k {
      var curve :| curve in w.curves && curve.axis == axis && was in KnotSet(curve.points);
      var i :| 0 <= i < |after| && w.curves[i] == curve;
      assert OneMapped(w, axes, change, w.curves[i], after[i]) && after[i] in after;
    }
  }

  /** After a change of a stretch of time, the points of a chosen axis are exactly the old
      ones, each where the change puts it, and the frames have them. */
  lemma TransformingPlaces(
    layer: Layer, render: Render, names: Names, ids: seq<Axis>, change: Change, axis: Axis, k: Point)
    requires Succeeds(layer, Transform(ids, change), render, names) && axis in ids
    ensures var after := Edited(layer, Transform(ids, change), render, names).value;
            && (HasKnot(after.curves, axis, k) <==>
                  exists was :: HasKnot(layer.curves, axis, was) && ChangedTo(WorkOf(layer), axis, change, was) == k)
            && (HasKnot(after.curves, axis, k) ==> FirstAt(after.frames, axis, k.tick) == Some(k.value))
  {
    EditedKnots(layer, Transform(ids, change), render, names, axis, k);
    TakingApart(render, layer.frames, layer.curves);
    TransformedKnots(WorkOf(layer), render, ids, change, axis, k);
  }
}

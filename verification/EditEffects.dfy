/** What edits do besides keeping frames and curves in step: what was asked for happens,
    and nothing happens on other axes. */
module EditEffects {
  import opened MotionTypes
  import opened Sorting
  import opened Timeline
  import opened CurveEngine
  import opened EditState
  import opened EditFrames
  import opened LayerEdit
  import opened RangeEdit
  import opened CurveTransform
  import opened EditLayer
  import LayerConflicts

  // ----- Other axes -----------------------------------------------------------------------------------

  /** Samples and curves of an axis are the same. */
  ghost predicate SameOn(a: Work, b: Work, axis: Axis) {
    Track(a.tracks, axis) == Track(b.tracks, axis) && CurvesOn(a.curves, axis) == CurvesOn(b.curves, axis)
  }

  /** The axes that an edit names. */
  function EditAxes(w: Work, edit: Edit, names: Names): set<Axis> {
    match edit
    case Resolve(_, ids) => set curve | curve in Chosen(w.curves, ids) :: curve.axis
    case AddAxis(ids, _) => set id | id in ids
    case CopyAxis(_, ids) => set id | id in ids
    case DeleteAxes(ids) => set id | id in ids
    case CopyRange(ids, _, _, _) => set id | id in ids
    case DeleteRange(ids, _, _) => set id | id in ids
    case SetCurve(ids, id, _, _) =>
      (set axis | axis in ids) + (set curve | curve in w.curves && curve.id == NameOf(id, names) :: curve.axis)
    case FitCurve(ids, _, _, _) => set id | id in ids
    case Transform(ids, _) => set id | id in ids
  }

  lemma RemovedElsewhere(render: Render, w: Work, curve: Curve, axis: Axis)
    requires Structure(render, w.curves) && curve in w.curves && curve.axis != axis
    ensures SameOn(w, Removed(w, curve), axis)
  {
    OnlyOneSoNamed(render, w.curves, curve);
    WithoutIdOn(w.curves, curve.id, axis);
  }

  ghost predicate NotNamedOn(curves: seq<Curve>, id: string, axis: Axis) {
    forall i :: 0 <= i < |curves| && curves[i].id == id ==> curves[i].axis != axis
  }

  lemma RewrittenElsewhere(
    w: Work, render: Render, id: string, axis: Axis, order: int, points: seq<CurvePoint>, other: Axis)
    requires Rewritten(w, render, id, axis, order, points).Ok? && axis != other && NotNamedOn(w.curves, id, other)
    ensures SameOn(w, Rewritten(w, render, id, axis, order, points).value, other)
  {
    var curve := Curve(id, axis, order, render(points, order).value.0);
    FoundCurve(w.curves, id);
    WithoutIdOn(w.curves, id, other);
    CurvesOnJoin(WithoutId(w.curves, id), [curve], other);
    CurvesOnSingle(curve, other);
    assert CurvesOn(w.curves, other) + [] == CurvesOn(w.curves, other);
  }

  lemma {:induction false} RemovedOthersElsewhere(
    render: Render, w: Work, curves: seq<Curve>, id: string, axis: Axis)
    requires Renders(render) && WorkOk(render, w) && Listed(curves, w)
    requires forall i :: 0 <= i < |curves| ==> curves[i].axis != axis
    ensures SameOn(w, RemovedOthers(w, curves, id), axis)
  {
    if curves != [] {
      RemovedOthersElsewhere(render, w, Front(curves), id, axis);
      if Last(curves).id != id {
        LastStillThere(w, curves, id);
        RemovingOthersKeeps(render, w, Front(curves), id);
        RemovedElsewhere(render, RemovedOthers(w, Front(curves), id), Last(curves), axis);
      }
    }
  }

  lemma AxisRewrittenElsewhere(
    w: Work, render: Render, axis: Axis, id: string, order: int, points: seq<CurvePoint>, other: Axis)
    requires Renders(render) && WorkOk(render, w) && AxisRewritten(w, render, axis, id, order, points).Ok?
    requires Named(w.curves, id, axis) && axis != other
    ensures SameOn(w, AxisRewritten(w, render, axis, id, order, points).value, other)
  {
    var on := CurvesOn(w.curves, axis);
    var left := RemovedOthers(w, on, id);
    CurvesOnListed(render, w, axis);
    forall i | 0 <= i < |on| ensures on[i].axis != other {
      assert on[i] in on;
      CurvesOnAxis(w.curves, axis, on[i]);
    }
    RemovedOthersElsewhere(render, w, on, id, other);
    NamedOnAxis(render, w.curves, id, axis);
    forall i | 0 <= i < |left.curves| && left.curves[i].id == id ensures left.curves[i].axis != other {
      RemovedOthersAre(w, on, id, left.curves[i]);
    }
    RewrittenElsewhere(left, render, id, axis, order, points, other);
  }

  lemma CopiedElsewhere(w: Work, render: Render, axis: Axis, start: nat, end: nat, target: nat, other: Axis)
    requires Renders(render) && WorkOk(render, w) && CopiedOn(w, render, axis, start, end, target).Ok? && axis != other
    ensures SameOn(w, CopiedOn(w, render, axis, start, end, target).value.0, other)
  {
    var on := CurvesOn(w.curves, axis);
    var owned := OwnedPoints(on, start, end, true);
    var taken := Sort(owned, OwnedLeq());
    if |taken| >= 2 {
      TakenFrom(w, axis, start, end);
      var moved := Moved(JustPoints(taken), taken[0].1.tick, target);
      var kept := JustPoints(OwnedPoints(on, moved[0].tick, Last(moved).tick, false));
      AxisRewrittenElsewhere(
        w, render, axis, taken[0].0.id, taken[0].0.order, Sort(kept + moved, TickLeq()), other);
    }
  }

  lemma TakenFrom(w: Work, axis: Axis, start: nat, end: nat)
    requires |Sort(OwnedPoints(CurvesOn(w.curves, axis), start, end, true), OwnedLeq())| > 0
    ensures var curve := Sort(OwnedPoints(CurvesOn(w.curves, axis), start, end, true), OwnedLeq())[0].0;
            curve in w.curves && curve.axis == axis && Named(w.curves, curve.id, axis)
  {
    var on := CurvesOn(w.curves, axis);
    var owned := OwnedPoints(on, start, end, true);
    var taken := Sort(owned, OwnedLeq());
    assert taken[0] in taken && taken[0] in owned;
    OwnedBy(on, start, end, true, taken[0]);
    CurvesOnAxis(w.curves, axis, taken[0].0);
  }

  lemma {:induction false} RangeCopiedElsewhere(
    w: Work, render: Render, axes: seq<Axis>, start: nat, end: nat, target: nat, other: Axis)
    requires Renders(render) && WorkOk(render, w) && RangeCopied(w, render, axes, start, end, target).Ok?
    requires other !in axes
    ensures SameOn(w, RangeCopied(w, render, axes, start, end, target).value.0, other)
  {
    if axes != [] {
      FrontAndLast(axes);
      RangeCopiedElsewhere(w, render, Front(axes), start, end, target, other);
      CopyingRangeKeeps(w, render, Front(axes), start, end, target);
      CopiedElsewhere(
        RangeCopied(w, render, Front(axes), start, end, target).value.0, render, Last(axes), start, end, target, other);
    }
  }

  lemma {:induction false} RangeDeletedElsewhere(
    w: Work, render: Render, done: seq<Curve>, all: seq<Curve>, axes: seq<Axis>, start: nat, end: nat, other: Axis)
    requires Renders(render) && WorkOk(render, w) && Listed(all, w) && other !in axes
    requires |done| <= |all| && done == all[..|done|]
    requires RangeDeleted(w, render, done, axes, start, end).Ok?
    ensures SameOn(w, RangeDeleted(w, render, done, axes, start, end).value.0, other)
    decreases |done|
  {
    if done != [] {
      var before := RangeDeleted(w, render, Front(done), axes, start, end).value.0;
      RangeDeletedElsewhere(w, render, Front(done), all, axes, start, end, other);
      DeletingRangeKeeps(w, render, Front(done), all, axes, start, end);
      assert Last(done) == all[|done| - 1];
      DeletedFromElsewhere(before, render, Last(done), axes, start, end, other);
    }
  }

  lemma DeletedFromElsewhere(
    w: Work, render: Render, curve: Curve, axes: seq<Axis>, start: nat, end: nat, other: Axis)
    requires Renders(render) && WorkOk(render, w) && curve in w.curves && other !in axes
    requires DeletedFrom(w, render, curve, axes, start, end).Ok?
    ensures SameOn(w, DeletedFrom(w, render, curve, axes, start, end).value.0, other)
  {
    var rest := PointsInside(curve.points, start, end, false);
    if curve.axis in axes && PointsInside(curve.points, start, end, true) != [] {
      OnlyOneSoNamed(render, w.curves, curve);
      if |rest| < 2 {
        RemovedElsewhere(render, w, curve, other);
      } else {
        RewrittenElsewhere(w, render, curve.id, curve.axis, curve.order, rest, other);
      }
    }
  }

  /** Curves that differ only on other axes. */
  lemma {:induction false} PointwiseOn(a: seq<Curve>, b: seq<Curve>, axis: Axis)
    requires |a| == |b|
    requires forall i :: 0 <= i < |a| ==> if a[i].axis == axis then b[i] == a[i] else b[i].axis != axis
    ensures CurvesOn(a, axis) == CurvesOn(b, axis)
  {
    if a != [] {
      PointwiseOn(Front(a), Front(b), axis);
    }
  }

  lemma {:induction false} RedrawnElsewhere(render: Render, tracks: Tracks, chosen: seq<Curve>, other: Axis)
    requires RedrawAll(render, tracks, chosen).Ok?
    requires forall i :: 0 <= i < |chosen| ==> chosen[i].axis != other
    ensures Track(RedrawAll(render, tracks, chosen).value, other) == Track(tracks, other)
  {
    if chosen != [] {
      RedrawnElsewhere(render, tracks, Front(chosen), other);
    }
  }

  lemma ResolvedElsewhere(w: Work, render: Render, ids: set<string>, other: Axis)
    requires Resolved(w, render, ids).Ok?
    requires other !in (set curve | curve in Chosen(w.curves, ids) :: curve.axis)
    ensures SameOn(w, Resolved(w, render, ids).value, other)
  {
    var chosen := Chosen(w.curves, ids);
    forall i | 0 <= i < |chosen| ensures chosen[i].axis != other {
      assert chosen[i] in chosen;
    }
    RedrawnElsewhere(render, w.tracks, chosen, other);
    forall i | 0 <= i < |w.curves| && w.curves[i].axis == other
      ensures !(ids == {} || w.curves[i].id in ids)
    {
      ChosenAre(w.curves, ids, w.curves[i]);
    }
    PointwiseOn(w.curves, StoredAll(render, w.curves, ids), other);
  }

  lemma {:induction false} OtherCurvesElsewhere(curves: seq<Curve>, axes: seq<Axis>, other: Axis)
    requires other !in axes
    ensures CurvesOn(OtherCurves(curves, axes), other) == CurvesOn(curves, other)
  {
    if curves != [] {
      var shorter := OtherCurves(Front(curves), axes);
      OtherCurvesElsewhere(Front(curves), axes, other);
      if Last(curves).axis in axes {
        assert shorter + [] == shorter;
      } else {
        CurvesOnJoin(shorter, [Last(curves)], other);
        CurvesOnSingle(Last(curves), other);
      }
    }
  }

  lemma CopiedAxisElsewhere(w: Work, source: Axis, ids: seq<Axis>, names: Names, other: Axis)
    requires AxisCopied(w, source, ids, names).Ok? && other !in ids
    ensures SameOn(w, AxisCopied(w, source, ids, names).value, other)
  {
    var copies := Copies(CurvesOn(w.curves, source), Unique(ids)[0], names);
    assert Unique(ids)[0] in Unique(ids);
    NoneLeft(copies, other);
    CurvesOnJoin(w.curves, copies, other);
    assert CurvesOn(w.curves, other) + [] == CurvesOn(w.curves, other);
  }

  lemma FittedElsewhere(w: Work, render: Render, axis: Axis, id: string, order: int, points: seq<CurvePoint>, other: Axis)
    requires CurveFitted(w, render, axis, id, order, points).Ok? && other != axis
    ensures SameOn(w, CurveFitted(w, render, axis, id, order, points).value, other)
  {
    var curve := Curve(id, axis, order, render(points, order).value.0);
    OtherCurvesElsewhere(w.curves, [axis], other);
    CurvesOnJoin(OtherCurves(w.curves, [axis]), [curve], other);
    CurvesOnSingle(curve, other);
    assert CurvesOn(w.curves, other) + [] == CurvesOn(w.curves, other);
  }

  lemma {:induction false} ClearedElsewhere(tracks: Tracks, curves: seq<Curve>, other: Axis)
    requires forall i :: 0 <= i < |curves| ==> curves[i].axis != other
    ensures Track(ClearedAll(tracks, curves), other) == Track(tracks, other)
  {
    if curves != [] {
      ClearedElsewhere(tracks, Front(curves), other);
    }
  }

  lemma {:induction false} ExtendedElsewhere(tracks: Tracks, changed: seq<(Curve, seq<Point>)>, other: Axis)
    requires forall i :: 0 <= i < |changed| ==> changed[i].0.axis != other
    ensures Track(Extended(tracks, changed), other) == Track(tracks, other)
  {
    if changed != [] {
      ExtendedElsewhere(tracks, Front(changed), other);
    }
  }

  lemma TransformedElsewhere(w: Work, render: Render, ids: seq<Axis>, change: Change, other: Axis)
    requires Renders(render) && WorkOk(render, w) && Transformed(w, render, ids, change).Ok? && other !in ids
    ensures SameOn(w, Transformed(w, render, ids, change).value, other)
  {
    var affected := Affected(w.curves, Unique(ids), change.start, change.end);
    var changed := ChangedAll(render, w.tracks, affected, change).value;
    ChangedAllResults(render, w.tracks, affected, change);
    forall i | 0 <= i < |affected| ensures affected[i] in w.curves && affected[i].axis != other {
      assert affected[i] in affected;
      AffectedAre(w.curves, Unique(ids), change.start, change.end, affected[i]);
    }
    ClearedElsewhere(w.tracks, affected, other);
    ExtendedElsewhere(ClearedAll(w.tracks, affected), changed, other);
    forall i | 0 <= i < |w.curves|
      ensures var after := Replacement(w.curves[i], changed);
              if w.curves[i].axis == other then after == w.curves[i] else after.axis != other
    {
      ReplacedElsewhere(w, render, affected, changed, i, other);
    }
    PointwiseOn(w.curves, Updated(w.curves, changed), other);
  }

  lemma ReplacedElsewhere(
    w: Work, render: Render, affected: seq<Curve>, changed: seq<(Curve, seq<Point>)>, i: nat, other: Axis)
    requires Structure(render, w.curves) && Results(render, affected, changed) && i < |w.curves|
    requires forall k :: 0 <= k < |affected| ==> affected[k] in w.curves && affected[k].axis != other
    ensures var after := Replacement(w.curves[i], changed);
            if w.curves[i].axis == other then after == w.curves[i] else after.axis != other
  {
    ReplacementIs(w.curves[i], changed);
    if w.curves[i].axis == other {
      forall k | 0 <= k < |changed| ensures changed[k].0.id != w.curves[i].id {
        assert changed[k].0.id == affected[k].id;
        OnlyOneSoNamed(render, w.curves, affected[k]);
      }
    }
  }

  lemma RangeEditElsewhere(w: Work, frames: seq<Frame>, edit: Edit, render: Render, names: Names, other: Axis)
    requires Renders(render) && WorkOk(render, w) && (edit.CopyRange? || edit.DeleteRange?)
    requires Applied(w, frames, edit, render, names).Ok? && other !in EditAxes(w, edit, names)
    ensures SameOn(w, Applied(w, frames, edit, render, names).value, other)
  {
    var start, end := LayerConflicts.Min(edit.start, edit.end), LayerConflicts.Max(edit.start, edit.end);
    if edit.CopyRange? {
      RangeCopiedElsewhere(w, render, Unique(edit.ids), start, end, edit.target, other);
    } else {
      assert w.curves[..|w.curves|] == w.curves;
      RangeDeletedElsewhere(w, render, w.curves, w.curves, Unique(edit.ids), start, end, other);
    }
  }

  /** An edit leaves every axis alone that it does not name. */
  lemma AppliedElsewhere(w: Work, frames: seq<Frame>, edit: Edit, render: Render, names: Names, other: Axis)
    requires Renders(render) && WorkOk(render, w) && Applied(w, frames, edit, render, names).Ok?
    requires other !in EditAxes(w, edit, names)
    ensures SameOn(w, Applied(w, frames, edit, render, names).value, other)
  {
    match edit {
      case Resolve(_, ids) => ResolvedElsewhere(w, render, ids, other);
      case AddAxis(ids, initial) => assert Unique(ids)[0] in Unique(ids);
      case CopyAxis(source, ids) => CopiedAxisElsewhere(w, source, ids, names, other);
      case DeleteAxes(ids) => OtherCurvesElsewhere(w.curves, ids, other);
      case CopyRange(_, _, _, _) => RangeEditElsewhere(w, frames, edit, render, names, other);
      case DeleteRange(_, _, _) => RangeEditElsewhere(w, frames, edit, render, names, other);
      case SetCurve(ids, id, order, points) =>
        assert Unique(ids)[0] in Unique(ids);
        RewrittenElsewhere(w, render, NameOf(id, names), Unique(ids)[0], order, points, other);
      case FitCurve(ids, id, order, fitted) =>
        assert Unique(ids)[0] in Unique(ids);
        FittedElsewhere(w, render, Unique(ids)[0], NameOf(id, names), order, fitted.value, other);
      case Transform(ids, change) => TransformedElsewhere(w, render, ids, change, other);
    }
  }

  lemma GatheredElsewhere(w: Work, render: Render, axis: Axis, other: Axis)
    requires Renders(render) && WorkOk(render, w) && Gathered(w, render, axis).Ok?
    requires axis != other || |CurvesOn(w.curves, other)| <= 1
    ensures SameOn(w, Gathered(w, render, axis).value, other)
  {
    var on := CurvesOn(w.curves, axis);
    var pieces := Sort(on, StartLeq());
    if |pieces| >= 2 {
      assert pieces[0] in pieces && pieces[0] in on;
      CurvesOnAxis(w.curves, axis, pieces[0]);
      AxisRewrittenElsewhere(
        w, render, axis, pieces[0].id, RangeEdit.Largest(pieces).order, Sort(AllPoints(pieces), TickLeq()), other);
    }
  }

  lemma {:induction false} GatheredAllElsewhere(w: Work, render: Render, axes: seq<Axis>, other: Axis)
    requires Renders(render) && WorkOk(render, w) && GatheredAll(w, render, axes).Ok?
    requires |CurvesOn(w.curves, other)| <= 1
    ensures SameOn(w, GatheredAll(w, render, axes).value, other)
  {
    if axes != [] {
      GatheredAllElsewhere(w, render, Front(axes), other);
      GatheringAllKeeps(w, render, Front(axes), other);
      GatheredElsewhere(GatheredAll(w, render, Front(axes)).value, render, Last(axes), other);
    }
  }

  /** The same values at every tick. */
  ghost predicate SameMotion(a: Layer, b: Layer, axis: Axis) {
    && CurvesOn(a.curves, axis) == CurvesOn(b.curves, axis)
    && forall tick :: FirstAt(a.frames, axis, tick) == FirstAt(b.frames, axis, tick)
  }

  lemma FinishedElsewhere(layer: Layer, w: Work, limited: bool, axis: Axis)
    requires SameOn(WorkOf(layer), w, axis) && Finished(layer, w, limited).Ok?
    ensures SameMotion(layer, Finished(layer, w, limited).value, axis)
  {
    forall tick
      ensures FirstAt(layer.frames, axis, tick) == FirstAt(Finished(layer, w, limited).value.frames, axis, tick)
    {
      FramesLookup(w.tracks, axis, tick);
      SeriesLookup(layer.frames, axis, tick);
      if axis !in AxesOf(layer.frames) { FirstAtNeedsAxis(layer.frames, axis, tick); }
    }
  }

  /** An axis that an edit does not name, and that has at most one curve, keeps its curve
      and every value. */
  lemma OtherAxesUntouched(layer: Layer, edit: Edit, render: Render, names: Names, axis: Axis)
    requires Renders(render) && LayerOk(render, layer) && Fresh(names, layer.curves)
    requires Edited(layer, edit, render, names).Ok?
    requires axis !in EditAxes(WorkOf(layer), edit, names) && |CurvesOn(layer.curves, axis)| <= 1
    ensures SameMotion(layer, Edited(layer, edit, render, names).value, axis)
  {
    var w := WorkOf(layer);
    TakingApart(render, layer.frames, layer.curves);
    AppliedElsewhere(w, layer.frames, edit, render, names, axis);
    var applied := Applied(w, layer.frames, edit, render, names).value;
    FinishedElsewhere(layer, applied, Limited(edit), axis);
    AppliedKeeps(w, layer.frames, edit, render, names);
    FinishedOk(render, layer, applied, Limited(edit));
    GatheringElsewhere(EditedOnce(layer, edit, render, names).value, render, axis);
  }

  lemma GatheringElsewhere(layer: Layer, render: Render, axis: Axis)
    requires Renders(render) && LayerOk(render, layer) && OneCurvePerAxis(layer, render).Ok?
    requires |CurvesOn(layer.curves, axis)| <= 1
    ensures SameMotion(layer, OneCurvePerAxis(layer, render).value, axis)
  {
    if Gatherable(layer.curves) {
      TakingApart(render, layer.frames, layer.curves);
      GatheredAllElsewhere(WorkOf(layer), render, AxesInOrder(layer.curves), axis);
      FinishedElsewhere(
        layer, GatheredAll(WorkOf(layer), render, AxesInOrder(layer.curves)).value, false, axis);
    }
  }

  // ----- What was asked for ------------------------------------------------------------------------------

  /** After a curve is set, its axis has what the points draw; outside their span, what was
      there before, without the samples of the curve of that name. */
  lemma SettingDraws(
    w: Work, render: Render, ids: seq<Axis>, id: string, order: int, points: seq<CurvePoint>, p: Point)
    requires Renders(render) && CurveSet(w, render, ids, id, order, points).Ok?
    ensures var samples := render(points, order).value.1;
            var axis := Unique(ids)[0];
            p in Track(CurveSet(w, render, ids, id, order, points).value.tracks, axis) <==>
            || p in samples
            || (p in Track(WithoutOld(w, id), axis)
                && !InSpan(p.tick, SpanOfSamples(samples).0, SpanOfSamples(samples).1))
  {
    var samples := render(points, order).value.1;
    ClearSpanKeeps(
      Track(WithoutOld(w, id), Unique(ids)[0]), SpanOfSamples(samples).0, SpanOfSamples(samples).1, p);
  }

  ghost predicate NoneInside(curve: Curve, start: nat, end: nat) {
    forall p :: p in curve.points ==> !InSpan(p.tick, start, end)
  }

  lemma NothingFound(points: seq<CurvePoint>, start: nat, end: nat)
    requires PointsInside(points, start, end, true) == []
    ensures forall p :: p in points ==> !InSpan(p.tick, start, end)
  {
    forall p | p in points ensures !InSpan(p.tick, start, end) { PointsInsideAre(points, start, end, true, p); }
  }

  /** What is stored has the points that were given. */
  lemma StoredInside(render: Render, points: seq<CurvePoint>, order: int, start: nat, end: nat)
    requires Renders(render) && render(points, order).Ok?
    requires forall p :: p in points ==> !InSpan(p.tick, start, end)
    ensures forall p :: p in render(points, order).value.0 ==> !InSpan(p.tick, start, end)
  {
    var stored := render(points, order).value.0;
    assert RendersWell(render, points, order);
    forall p | p in stored ensures !InSpan(p.tick, start, end) {
      assert Knot(p) in KnotSet(stored);
      var q :| q in points && Knot(q) == Knot(p);
    }
  }

  lemma DeletedFromDeletes(
    w: Work, render: Render, curve: Curve, axes: seq<Axis>, start: nat, end: nat, after: Curve)
    requires Renders(render) && WorkOk(render, w) && curve in w.curves
    requires DeletedFrom(w, render, curve, axes, start, end).Ok?
    requires after in DeletedFrom(w, render, curve, axes, start, end).value.0.curves
    ensures (after in w.curves && after != curve) || after.axis !in axes || NoneInside(after, start, end)
  {
    var rest := PointsInside(curve.points, start, end, false);
    if curve.axis in axes && PointsInside(curve.points, start, end, true) != [] {
      WithoutIdKeeps(w.curves, curve.id, after);
      if |rest| >= 2 {
        forall p | p in rest ensures !InSpan(p.tick, start, end) {
          PointsInsideAre(curve.points, start, end, false, p);
        }
        StoredInside(render, rest, curve.order, start, end);
      }
    } else if curve.axis in axes {
      NothingFound(curve.points, start, end);
    }
  }

  ghost predicate StillToCome(curves: seq<Curve>, k: nat, curve: Curve) {
    exists i :: k <= i < |curves| && curves[i] == curve
  }

  lemma {:induction false} RangeDeletedDeletes(
    w: Work, render: Render, done: seq<Curve>, axes: seq<Axis>, start: nat, end: nat, after: Curve)
    requires Renders(render) && WorkOk(render, w)
    requires |done| <= |w.curves| && done == w.curves[..|done|]
    requires RangeDeleted(w, render, done, axes, start, end).Ok?
    requires after in RangeDeleted(w, render, done, axes, start, end).value.0.curves
    ensures StillToCome(w.curves, |done|, after) || after.axis !in axes || NoneInside(after, start, end)
    decreases |done|
  {
    if done != [] {
      var before := RangeDeleted(w, render, Front(done), axes, start, end).value.0;
      DeletingRangeKeeps(w, render, Front(done), w.curves, axes, start, end);
      DeletedFromDeletes(before, render, Last(done), axes, start, end, after);
      if after in before.curves && after != Last(done) {
        RangeDeletedDeletes(w, render, Front(done), axes, start, end, after);
      }
    }
  }

  /** After a stretch of time is deleted, no curve of the chosen axes has a point there. */
  lemma DeletingDeletes(w: Work, render: Render, axes: seq<Axis>, start: nat, end: nat)
    requires Renders(render) && WorkOk(render, w) && RangeDeleted(w, render, w.curves, axes, start, end).Ok?
    ensures forall after :: after in RangeDeleted(w, render, w.curves, axes, start, end).value.0.curves ==>
              after.axis in axes ==> NoneInside(after, start, end)
  {
    assert w.curves[..|w.curves|] == w.curves;
    forall after | after in RangeDeleted(w, render, w.curves, axes, start, end).value.0.curves && after.axis in axes
      ensures NoneInside(after, start, end)
    {
      RangeDeletedDeletes(w, render, w.curves, axes, start, end, after);
    }
  }

  /** The points that the axis has after a copy. */
  function PointsAfterCopy(w: Work, axis: Axis, start: nat, end: nat, target: nat): seq<CurvePoint> {
    var on := CurvesOn(w.curves, axis);
    var taken := Sort(OwnedPoints(on, start, end, true), OwnedLeq());
    if taken == [] then []
    else
      var moved := Moved(JustPoints(taken), taken[0].1.tick, target);
      Sort(JustPoints(OwnedPoints(on, moved[0].tick, Last(moved).tick, false)) + moved, TickLeq())
  }

  lemma CurveAfterCopy(w: Work, render: Render, axis: Axis, start: nat, end: nat, target: nat)
    requires Renders(render) && CopiedOn(w, render, axis, start, end, target).Ok?
    requires CopiedOn(w, render, axis, start, end, target).value.1
    ensures var after := CopiedOn(w, render, axis, start, end, target).value.0.curves;
            && after != [] && Last(after).axis == axis
            && KnotSet(Last(after).points) == KnotSet(PointsAfterCopy(w, axis, start, end, target))
  {
    var on := CurvesOn(w.curves, axis);
    var taken := Sort(OwnedPoints(on, start, end, true), OwnedLeq());
    assert RendersWell(render, PointsAfterCopy(w, axis, start, end, target), taken[0].0.order);
  }

  lemma MovedPoint(w: Work, axis: Axis, start: nat, end: nat, target: nat, curve: Curve, p: CurvePoint)
    requires curve in w.curves && curve.axis == axis && p in curve.points && InSpan(p.tick, start, end)
    ensures var taken := Sort(OwnedPoints(CurvesOn(w.curves, axis), start, end, true), OwnedLeq());
            && taken != [] && taken[0].1.tick <= p.tick
            && Point(p.tick - taken[0].1.tick + target, p.value) in KnotSet(PointsAfterCopy(w, axis, start, end, target))
  {
    var on := CurvesOn(w.curves, axis);
    var owned := OwnedPoints(on, start, end, true);
    var taken := Sort(owned, OwnedLeq());
    CurvesOnAxis(w.curves, axis, curve);
    OwnedHas(on, start, end, curve, p);
    FirstTaken(owned, (curve, p));
    var moved := Moved(JustPoints(taken), taken[0].1.tick, target);
    var i :| 0 <= i < |taken| && taken[i] == (curve, p);
    MovedKnot(taken, i, taken[0].1.tick, target);
    InTheSorted(JustPoints(OwnedPoints(on, moved[0].tick, Last(moved).tick, false)), moved, i);
  }

  lemma MovedKnot(taken: seq<Owned>, i: nat, first: nat, target: nat)
    requires i < |taken| && first <= taken[i].1.tick
    ensures var moved := Moved(JustPoints(taken), first, target);
            |moved| == |taken| && Knot(moved[i]) == Point(taken[i].1.tick - first + target, taken[i].1.value)
  {}

  lemma InTheSorted(kept: seq<CurvePoint>, moved: seq<CurvePoint>, i: nat)
    requires i < |moved|
    ensures Knot(moved[i]) in KnotSet(Sort(kept + moved, TickLeq()))
  {}

  /** After a copy, the curve of the axis has every copied point at its new time, the first
      of them at the target. */
  lemma CopyingCopies(w: Work, render: Render, axis: Axis, start: nat, end: nat, target: nat, curve: Curve, p: CurvePoint)
    requires Renders(render) && CopiedOn(w, render, axis, start, end, target).Ok?
    requires CopiedOn(w, render, axis, start, end, target).value.1
    requires curve in w.curves && curve.axis == axis && p in curve.points && InSpan(p.tick, start, end)
    ensures var taken := Sort(OwnedPoints(CurvesOn(w.curves, axis), start, end, true), OwnedLeq());
            var after := CopiedOn(w, render, axis, start, end, target).value.0.curves;
            && taken != [] && taken[0].1.tick <= p.tick
            && after != [] && Last(after).axis == axis
            && Point(p.tick - taken[0].1.tick + target, p.value) in KnotSet(Last(after).points)
  {
    CurveAfterCopy(w, render, axis, start, end, target);
    MovedPoint(w, axis, start, end, target, curve, p);
  }

  lemma {:induction false} OwnedHas(curves: seq<Curve>, start: nat, end: nat, curve: Curve, p: CurvePoint)
    requires curve in curves && p in curve.points && InSpan(p.tick, start, end)
    ensures (curve, p) in OwnedPoints(curves, start, end, true)
  {
    FrontAndLast(curves);
    if curve in Front(curves) {
      OwnedHas(Front(curves), start, end, curve, p);
    } else {
      var inside := PointsInside(curve.points, start, end, true);
      PointsInsideAre(curve.points, start, end, true, p);
      var i :| 0 <= i < |inside| && inside[i] == p;
      assert WithCurve(curve, inside)[i] == (curve, p);
    }
  }

  lemma FirstTaken(owned: seq<Owned>, one: Owned)
    requires one in owned
    ensures Sort(owned, OwnedLeq()) != [] && Sort(owned, OwnedLeq())[0].1.tick <= one.1.tick
    ensures one in Sort(owned, OwnedLeq())
  {
    var sorted := Sort(owned, OwnedLeq());
    SortOrdered(owned, OwnedLeq());
    var i :| 0 <= i < |sorted| && sorted[i] == one;
    assert i > 0 ==> OwnedLeq()(sorted[0], sorted[i]);
  }

  /** Where a change puts a point. */
  function KnotAfter(knot: Point, change: Change, timePivot: nat, valuePivot: real): Point {
    if !InSpan(knot.tick, change.start, change.end) then knot
    else match change.kind
      case TimeShift => Point(if knot.tick + change.delta < 0 then 0 else knot.tick + change.delta, knot.value)
      case TimeScale => Point(ScaledTick(knot.tick, timePivot, change.factor), knot.value)
      case ValueOffset => Point(knot.tick, knot.value + change.offset)
      case ValueScale => Point(knot.tick, ScaledValue(knot.value, valuePivot, change.factor))
  }

  lemma {:induction false} ChangedKnots(points: seq<CurvePoint>, change: Change, timePivot: nat, valuePivot: real)
    requires ChangedPoints(points, change, timePivot, valuePivot).Some?
    ensures var changed := ChangedPoints(points, change, timePivot, valuePivot).value;
            && |changed| == |points|
            && forall i :: 0 <= i < |points| ==>
                 Knot(changed[i]) == KnotAfter(Knot(points[i]), change, timePivot, valuePivot)
  {
    if points != [] {
      ChangedKnots(Front(points), change, timePivot, valuePivot);
      ChangedKnot(Last(points), change, timePivot, valuePivot);
    }
  }

  lemma ChangedKnot(point: CurvePoint, change: Change, timePivot: nat, valuePivot: real)
    requires ChangedPoint(point, change, timePivot, valuePivot).Some?
    ensures Knot(ChangedPoint(point, change, timePivot, valuePivot).value) ==
            KnotAfter(Knot(point), change, timePivot, valuePivot)
  {}

  /** A changed curve has exactly the points of the old one, each where the change puts it. */
  lemma TransformingMoves(render: Render, curve: Curve, change: Change, timePivot: nat, valuePivot: real)
    requires Renders(render) && ChangedCurve(render, curve, change, timePivot, valuePivot).Ok?
    ensures KnotSet(ChangedCurve(render, curve, change, timePivot, valuePivot).value.0.points) ==
            set knot | knot in KnotSet(curve.points) :: KnotAfter(knot, change, timePivot, valuePivot)
  {
    var stored := render(curve.points, curve.order).value.0;
    var points := ChangedPoints(stored, change, timePivot, valuePivot).value;
    assert RendersWell(render, curve.points, curve.order) && RendersWell(render, points, curve.order);
    ChangedKnots(stored, change, timePivot, valuePivot);
    MappedKnots(stored, points, change, timePivot, valuePivot);
  }

  lemma MappedKnots(a: seq<CurvePoint>, b: seq<CurvePoint>, change: Change, timePivot: nat, valuePivot: real)
    requires |a| == |b|
    requires forall i :: 0 <= i < |a| ==> Knot(b[i]) == KnotAfter(Knot(a[i]), change, timePivot, valuePivot)
    ensures KnotSet(b) == set knot | knot in KnotSet(a) :: KnotAfter(knot, change, timePivot, valuePivot)
  {}
}

/** What every edit leaves of the samples: where a curve runs afterwards, what it draws; where
    one ran before and none does now, nothing; and everywhere else what was there. */
module EditSamples {
  import opened MotionTypes
  import opened Sorting
  import opened Timeline
  import opened CurveEngine
  import opened EditState
  import opened EditFrames
  import opened LayerEdit
  import opened RangeEdit
  import opened CurveTransform
  import opened EditLayer
  import opened EditEffects
  import opened EditKnots
  import GatherCurves
  import JoinedCurve
  import LayerConflicts

  /** A curve of the axis runs over the tick. */
  ghost predicate RunsAt(curves: seq<Curve>, axis: Axis, tick: nat) {
    exists curve :: curve in curves && RunsOver(curve, axis, tick)
  }

  predicate RunsOver(curve: Curve, axis: Axis, tick: nat) {
    curve.axis == axis && InSpan(tick, Bounds(curve).0, Bounds(curve).1)
  }

  /** Where no curve runs afterwards, the sample is there exactly if it was, and none ran over
      it before. */
  ghost predicate Leaves(w: Work, after: Work, axis: Axis, p: Point) {
    !RunsAt(after.curves, axis, p.tick) ==>
      (p in Track(after.tracks, axis) <==> p in Track(w.tracks, axis) && !RunsAt(w.curves, axis, p.tick))
  }

  /** Curves run only where some ran before. */
  ghost predicate Narrows(w: Work, after: Work, axis: Axis, tick: nat) {
    RunsAt(after.curves, axis, tick) ==> RunsAt(w.curves, axis, tick)
  }

  lemma {:induction false} LeavesThen(w: Work, m: Work, after: Work, axis: Axis, p: Point)
    requires Leaves(w, m, axis, p) && Leaves(m, after, axis, p)
    requires RunsAt(m.curves, axis, p.tick) ==> RunsAt(w.curves, axis, p.tick) || RunsAt(after.curves, axis, p.tick)
    ensures Leaves(w, after, axis, p)
  {}

  lemma {:induction false} SameRuns(a: seq<Curve>, b: seq<Curve>, axis: Axis, tick: nat)
    requires CurvesOn(a, axis) == CurvesOn(b, axis)
    ensures RunsAt(a, axis, tick) <==> RunsAt(b, axis, tick)
  {
    forall curve ensures curve in a && curve.axis == axis <==> curve in b && curve.axis == axis {
      CurvesOnAxis(a, axis, curve);
      CurvesOnAxis(b, axis, curve);
    }
  }

  lemma {:induction false} SameLeaves(w: Work, after: Work, axis: Axis, p: Point)
    requires SameOn(w, after, axis) && (RunsAt(w.curves, axis, p.tick) ==> RunsAt(after.curves, axis, p.tick))
    ensures Leaves(w, after, axis, p)
  {
    SameRuns(w.curves, after.curves, axis, p.tick);
  }

  // ----- One curve -----------------------------------------------------------------------------------------

  /** Without the curves of a name, of which there is one. */
  lemma {:induction false} RunsWithout(render: Render, curves: seq<Curve>, curve: Curve, axis: Axis, tick: nat)
    requires Structure(render, curves) && curve in curves
    ensures RunsAt(curves, axis, tick) <==> RunsAt(WithoutId(curves, curve.id), axis, tick) || RunsOver(curve, axis, tick)
  {
    forall c ensures c in WithoutId(curves, curve.id) <==> c in curves && c.id != curve.id {
      WithoutIdKeeps(curves, curve.id, c);
    }
    forall c | c in curves && c.id == curve.id ensures c == curve { InStructure(render, curves, c, curve); }
  }

  lemma {:induction false} RemovedLeaves(render: Render, w: Work, curve: Curve, axis: Axis, p: Point)
    requires Structure(render, w.curves) && curve in w.curves
    ensures Leaves(w, Removed(w, curve), axis, p) && Narrows(w, Removed(w, curve), axis, p.tick)
  {
    RunsWithout(render, w.curves, curve, axis, p.tick);
    ClearSpanKeeps(Track(w.tracks, curve.axis), Bounds(curve).0, Bounds(curve).1, p);
  }

  lemma {:induction false} OldLeaves(render: Render, w: Work, id: string, axis: Axis, p: Point)
    requires Structure(render, w.curves)
    ensures Leaves(w, Work(WithoutOld(w, id), WithoutId(w.curves, id)), axis, p)
    ensures Narrows(w, Work(WithoutOld(w, id), WithoutId(w.curves, id)), axis, p.tick)
  {
    FoundCurve(w.curves, id);
    var found := FindId(w.curves, id);
    if found.Some? {
      RemovedLeaves(render, w, found.value, axis, p);
    } else {
      forall c ensures c in WithoutId(w.curves, id) <==> c in w.curves { WithoutIdKeeps(w.curves, id, c); }
    }
  }

  lemma {:induction false} SnocRuns(curves: seq<Curve>, curve: Curve, axis: Axis, tick: nat)
    ensures RunsAt(curves + [curve], axis, tick) <==> RunsAt(curves, axis, tick) || RunsOver(curve, axis, tick)
  {
    assert curve in curves + [curve];
    forall c | c in curves ensures c in curves + [curve] {}
  }

  lemma {:induction false} RewrittenLeaves(
    render: Render, w: Work, id: string, to: Axis, order: int, points: seq<CurvePoint>, axis: Axis, p: Point)
    requires Renders(render) && Structure(render, w.curves) && Rewritten(w, render, id, to, order, points).Ok?
    ensures Leaves(w, Rewritten(w, render, id, to, order, points).value, axis, p)
  {
    var (stored, samples) := render(points, order).value;
    var m := Work(WithoutOld(w, id), WithoutId(w.curves, id));
    var curve := Curve(id, to, order, stored);
    OldLeaves(render, w, id, axis, p);
    NewCurve(render, points, order, id, to);
    DrawnFills(render, curve);
    SnocRuns(m.curves, curve, axis, p.tick);
    ClearSpanKeeps(Track(m.tracks, to), Bounds(curve).0, Bounds(curve).1, p);
    forall q | q in samples ensures InSpan(q.tick, Bounds(curve).0, Bounds(curve).1) {}
    LeavesThen(w, m, Rewritten(w, render, id, to, order, points).value, axis, p);
  }

  // ----- An axis rewritten, copied or gathered -------------------------------------------------------------------

  lemma {:induction false} RemovedOthersLeave(
    render: Render, w: Work, curves: seq<Curve>, id: string, axis: Axis, p: Point)
    requires Renders(render) && WorkOk(render, w) && Listed(curves, w)
    ensures Leaves(w, RemovedOthers(w, curves, id), axis, p) && Narrows(w, RemovedOthers(w, curves, id), axis, p.tick)
  {
    if curves != [] {
      var before := RemovedOthers(w, Front(curves), id);
      RemovedOthersLeave(render, w, Front(curves), id, axis, p);
      if Last(curves).id != id {
        LastStillThere(w, curves, id);
        RemovingOthersKeeps(render, w, Front(curves), id);
        RemovedLeaves(render, before, Last(curves), axis, p);
        LeavesThen(w, before, Removed(before, Last(curves)), axis, p);
      }
    }
  }

  lemma {:induction false} AxisRewrittenLeaves(
    w: Work, render: Render, to: Axis, id: string, order: int, points: seq<CurvePoint>, axis: Axis, p: Point)
    requires Renders(render) && WorkOk(render, w) && AxisRewritten(w, render, to, id, order, points).Ok?
    ensures Leaves(w, AxisRewritten(w, render, to, id, order, points).value, axis, p)
  {
    var on := CurvesOn(w.curves, to);
    var left := RemovedOthers(w, on, id);
    CurvesOnListed(render, w, to);
    RemovedOthersLeave(render, w, on, id, axis, p);
    RemovingOthersKeeps(render, w, on, id);
    RewrittenLeaves(render, left, id, to, order, points, axis, p);
    LeavesThen(w, left, AxisRewritten(w, render, to, id, order, points).value, axis, p);
  }

  lemma {:induction false} CopiedLeaves(
    w: Work, render: Render, axis: Axis, start: nat, end: nat, target: nat, p: Point)
    requires Renders(render) && WorkOk(render, w) && CopiedOn(w, render, axis, start, end, target).Ok?
    ensures Leaves(w, CopiedOn(w, render, axis, start, end, target).value.0, axis, p)
  {
    var on := CurvesOn(w.curves, axis);
    var taken := Sort(OwnedPoints(on, start, end, true), OwnedLeq());
    if |taken| >= 2 {
      var moved := Moved(JustPoints(taken), taken[0].1.tick, target);
      var kept := JustPoints(OwnedPoints(on, moved[0].tick, Last(moved).tick, false));
      AxisRewrittenLeaves(
        w, render, axis, taken[0].0.id, taken[0].0.order, Sort(kept + moved, TickLeq()), axis, p);
    } else {
      SameLeaves(w, w, axis, p);
    }
  }

  lemma {:induction false} RangeCopiedLeaves(
    w: Work, render: Render, axes: seq<Axis>, start: nat, end: nat, target: nat, axis: Axis, p: Point)
    requires Renders(render) && WorkOk(render, w) && RangeCopied(w, render, axes, start, end, target).Ok?
    requires forall i, j :: 0 <= i < j < |axes| ==> axes[i] != axes[j]
    ensures Leaves(w, RangeCopied(w, render, axes, start, end, target).value.0, axis, p)
  {
    if axis !in axes {
      RangeCopiedElsewhere(w, render, axes, start, end, target, axis);
      SameRuns(w.curves, RangeCopied(w, render, axes, start, end, target).value.0.curves, axis, p.tick);
    } else {
      var before := RangeCopied(w, render, Front(axes), start, end, target).value.0;
      FrontAndLast(axes);
      CopyingRangeKeeps(w, render, Front(axes), start, end, target);
      if axis == Last(axes) {
        RangeCopiedElsewhere(w, render, Front(axes), start, end, target, axis);
        SameRuns(w.curves, before.curves, axis, p.tick);
        CopiedLeaves(before, render, axis, start, end, target, p);
      } else {
        RangeCopiedLeaves(w, render, Front(axes), start, end, target, axis, p);
        CopiedElsewhere(before, render, Last(axes), start, end, target, axis);
        SameRuns(
          before.curves, CopiedOn(before, render, Last(axes), start, end, target).value.0.curves, axis, p.tick);
      }
    }
  }

  // ----- A stretch deleted -----------------------------------------------------------------------------------

  lemma {:induction false} NarrowerRuns(w: Work, render: Render, curve: Curve, start: nat, end: nat, axis: Axis, tick: nat)
    requires Renders(render) && Structure(render, w.curves) && curve in w.curves
    requires var rest := PointsInside(curve.points, start, end, false);
             |rest| >= 2 && Rewritten(w, render, curve.id, curve.axis, curve.order, rest).Ok?
    ensures var rest := PointsInside(curve.points, start, end, false);
            Narrows(w, Rewritten(w, render, curve.id, curve.axis, curve.order, rest).value, axis, tick)
  {
    var rest := PointsInside(curve.points, start, end, false);
    var now := Curve(curve.id, curve.axis, curve.order, render(rest, curve.order).value.0);
    InStructure(render, w.curves, curve, curve);
    PointsInsideSpaced(curve.points, start, end, false);
    NarrowerBounds(curve.points, start, end);
    assert RendersWell(render, rest, curve.order);
    BoundsOfSpaced(curve.points);
    BoundsOfSpaced(now.points);
    RunsWithout(render, w.curves, curve, axis, tick);
    SnocRuns(WithoutId(w.curves, curve.id), now, axis, tick);
  }

  lemma {:induction false} DeletedFromLeaves(
    w: Work, render: Render, curve: Curve, axes: seq<Axis>, start: nat, end: nat, axis: Axis, p: Point)
    requires Renders(render) && WorkOk(render, w) && curve in w.curves
    requires DeletedFrom(w, render, curve, axes, start, end).Ok?
    ensures var after := DeletedFrom(w, render, curve, axes, start, end).value.0;
            Leaves(w, after, axis, p) && Narrows(w, after, axis, p.tick)
  {
    var rest := PointsInside(curve.points, start, end, false);
    if curve.axis !in axes || PointsInside(curve.points, start, end, true) == [] {
      SameLeaves(w, w, axis, p);
    } else if |rest| < 2 {
      RemovedLeaves(render, w, curve, axis, p);
    } else {
      RewrittenLeaves(render, w, curve.id, curve.axis, curve.order, rest, axis, p);
      NarrowerRuns(w, render, curve, start, end, axis, p.tick);
    }
  }

  lemma {:induction false} RangeDeletedLeaves(
    w: Work, render: Render, done: seq<Curve>, all: seq<Curve>, axes: seq<Axis>, start: nat, end: nat, axis: Axis, p: Point)
    requires Renders(render) && WorkOk(render, w) && Listed(all, w)
    requires |done| <= |all| && done == all[..|done|]
    requires RangeDeleted(w, render, done, axes, start, end).Ok?
    ensures var after := RangeDeleted(w, render, done, axes, start, end).value.0;
            Leaves(w, after, axis, p) && Narrows(w, after, axis, p.tick)
    decreases |done|
  {
    if done == [] {
      SameLeaves(w, w, axis, p);
    } else {
      var before := RangeDeleted(w, render, Front(done), axes, start, end).value.0;
      RangeDeletedLeaves(w, render, Front(done), all, axes, start, end, axis, p);
      DeletingRangeKeeps(w, render, Front(done), all, axes, start, end);
      assert Last(done) == all[|done| - 1];
      DeletedFromLeaves(before, render, Last(done), axes, start, end, axis, p);
      LeavesThen(
        w, before, DeletedFrom(before, render, Last(done), axes, start, end).value.0, axis, p);
    }
  }

  // ----- Recalculated, moved or scaled -------------------------------------------------------------------------

  lemma {:induction false} RedrawnLeaves(render: Render, tracks: Tracks, curve: Curve, axis: Axis, p: Point)
    requires Renders(render) && CurveOk(render, curve) && !RunsOver(curve, axis, p.tick)
    ensures p in Track(Redrawn(tracks, curve.axis, Drawn(render, curve)), axis) <==> p in Track(tracks, axis)
  {
    DrawnFills(render, curve);
    ClearSpanKeeps(Track(tracks, curve.axis), Bounds(curve).0, Bounds(curve).1, p);
    forall q | q in Drawn(render, curve) ensures InSpan(q.tick, Bounds(curve).0, Bounds(curve).1) {}
  }

  lemma {:induction false} RedrawAllLeaves(render: Render, tracks: Tracks, chosen: seq<Curve>, axis: Axis, p: Point)
    requires Renders(render) && RedrawAll(render, tracks, chosen).Ok?
    requires forall i :: 0 <= i < |chosen| ==> CurveOk(render, chosen[i])
    requires !RunsAt(chosen, axis, p.tick)
    ensures p in Track(RedrawAll(render, tracks, chosen).value, axis) <==> p in Track(tracks, axis)
  {
    if chosen != [] {
      var last := Last(chosen);
      var before := RedrawAll(render, tracks, Front(chosen)).value;
      FrontAndLast(chosen);
      SnocRuns(Front(chosen), last, axis, p.tick);
      assert chosen == Front(chosen) + [last];
      RedrawAllLeaves(render, tracks, Front(chosen), axis, p);
      RedrawnLeaves(render, before, last, axis, p);
    }
  }

  lemma {:induction false} StoredRuns(render: Render, curves: seq<Curve>, ids: set<string>, axis: Axis, tick: nat)
    requires Renders(render) && Structure(render, curves)
    ensures RunsAt(StoredAll(render, curves, ids), axis, tick) <==> RunsAt(curves, axis, tick)
  {
    var stored := StoredAll(render, curves, ids);
    forall i | 0 <= i < |curves| ensures RunsOver(stored[i], axis, tick) <==> RunsOver(curves[i], axis, tick) {
      StoredSame(render, curves[i]);
    }
    if c :| c in curves && RunsOver(c, axis, tick) {
      var i :| 0 <= i < |curves| && curves[i] == c;
      assert stored[i] in stored;
    }
    if c :| c in stored && RunsOver(c, axis, tick) {
      var i :| 0 <= i < |stored| && stored[i] == c;
      assert curves[i] in curves;
    }
  }

  lemma {:induction false} ResolvedLeaves(w: Work, render: Render, ids: set<string>, axis: Axis, p: Point)
    requires Renders(render) && WorkOk(render, w) && Resolved(w, render, ids).Ok?
    ensures Leaves(w, Resolved(w, render, ids).value, axis, p)
  {
    var chosen := Chosen(w.curves, ids);
    StoredRuns(render, w.curves, ids, axis, p.tick);
    forall c | c in chosen ensures c in w.curves && CurveOk(render, c) {
      ChosenAre(w.curves, ids, c);
      InStructure(render, w.curves, c, c);
    }
    if !RunsAt(w.curves, axis, p.tick) { RedrawAllLeaves(render, w.tracks, chosen, axis, p); }
  }

  lemma {:induction false} ClearedAllHas(tracks: Tracks, curves: seq<Curve>, axis: Axis, p: Point)
    ensures p in Track(ClearedAll(tracks, curves), axis) <==> p in Track(tracks, axis) && !RunsAt(curves, axis, p.tick)
  {
    if curves != [] {
      var before, last := ClearedAll(tracks, Front(curves)), Last(curves);
      ClearedAllHas(tracks, Front(curves), axis, p);
      assert curves == Front(curves) + [last];
      SnocRuns(Front(curves), last, axis, p.tick);
      ClearSpanKeeps(Track(before, last.axis), Bounds(last).0, Bounds(last).1, p);
    }
  }

  lemma {:induction false} ExtendedHas(tracks: Tracks, changed: seq<(Curve, seq<Point>)>, axis: Axis, p: Point)
    requires forall i :: 0 <= i < |changed| ==> changed[i].0.axis != axis || p !in changed[i].1
    ensures p in Track(CurveTransform.Extended(tracks, changed), axis) <==> p in Track(tracks, axis)
  {
    if changed != [] {
      ExtendedHas(tracks, Front(changed), axis, p);
    }
  }

  /** Every changed curve is in the layer, in the place of an affected one. */
  lemma {:induction false} ChangedIsThere(w: Work, render: Render, axes: seq<Axis>, change: Change, i: nat)
    requires Renders(render) && WorkOk(render, w) && Changes(w, render, axes, change).Ok?
    requires i < |Changes(w, render, axes, change).value|
    ensures var changed := Changes(w, render, axes, change).value;
            changed[i].0 in Updated(w.curves, changed) && IsResult(render, changed[i], changed[i].0)
  {
    var affected := Affected(w.curves, axes, change.start, change.end);
    var changed := Changes(w, render, axes, change).value;
    ChangedAllAre(render, w.tracks, affected, change);
    ChangedAllResults(render, w.tracks, affected, change);
    assert affected[i] in affected;
    AffectedAre(w.curves, axes, change.start, change.end, affected[i]);
    AffectedReplaced(w, render, axes, change, affected[i]);
    var j :| 0 <= j < |w.curves| && w.curves[j] == affected[i];
    assert Updated(w.curves, changed)[j] == changed[i].0;
  }

  /** A curve that is not affected stays. */
  lemma {:induction false} UnaffectedStays(w: Work, render: Render, axes: seq<Axis>, change: Change, curve: Curve)
    requires Renders(render) && WorkOk(render, w) && Changes(w, render, axes, change).Ok?
    requires curve in w.curves && curve !in Affected(w.curves, axes, change.start, change.end)
    ensures curve in Updated(w.curves, Changes(w, render, axes, change).value)
  {
    AffectedAre(w.curves, axes, change.start, change.end, curve);
    OthersStay(w, render, axes, change, curve);
    var j :| 0 <= j < |w.curves| && w.curves[j] == curve;
    assert Updated(w.curves, Changes(w, render, axes, change).value)[j] == curve;
  }

  lemma {:induction false} TransformedLeaves(w: Work, render: Render, ids: seq<Axis>, change: Change, axis: Axis, p: Point)
    requires Renders(render) && WorkOk(render, w) && Transformed(w, render, ids, change).Ok?
    ensures Leaves(w, Transformed(w, render, ids, change).value, axis, p)
  {
    var affected := Affected(w.curves, Unique(ids), change.start, change.end);
    var changed := Changes(w, render, Unique(ids), change).value;
    var after := Updated(w.curves, changed);
    if !RunsAt(after, axis, p.tick) {
      forall i | 0 <= i < |changed| ensures changed[i].0.axis != axis || p !in changed[i].1 {
        ChangedIsThere(w, render, Unique(ids), change, i);
        DrawnFills(render, changed[i].0);
      }
      ExtendedHas(ClearedAll(w.tracks, affected), changed, axis, p);
      ClearedAllHas(w.tracks, affected, axis, p);
      forall c | c in w.curves && RunsOver(c, axis, p.tick) ensures c in affected {
        if c !in affected { UnaffectedStays(w, render, Unique(ids), change, c); }
      }
      forall c | c in affected ensures c in w.curves {
        AffectedAre(w.curves, Unique(ids), change.start, change.end, c);
      }
    }
  }

  // ----- Gathered ----------------------------------------------------------------------------------------------

  lemma {:induction false} JoinedLeaves(w: Work, render: Render, after: Work, axis: Axis, p: Point)
    requires Renders(render) && Structure(render, w.curves) && JoinedCurve.AxisJoined(render, w, after, axis)
    ensures Leaves(w, after, axis, p)
    ensures RunsAt(w.curves, axis, p.tick) ==> RunsAt(after.curves, axis, p.tick)
  {
    var on := CurvesOn(w.curves, axis);
    var curve := JoinedCurve.Joined(render, w.curves, axis).value;
    DrawnFills(render, curve);
    CurvesOnAxis(after.curves, axis, curve);
    assert curve in CurvesOn(after.curves, axis);
    if c :| c in w.curves && RunsOver(c, axis, p.tick) {
      CurvesOnAxis(w.curves, axis, c);
      var i :| 0 <= i < |on| && on[i] == c;
      JoinedCurve.WithinJoined(render, w.curves, axis, i);
    }
  }

  lemma {:induction false} GatheredLeaves(w: Work, render: Render, axis: Axis, p: Point)
    requires Renders(render) && WorkOk(render, w) && GatheredAll(w, render, AxesInOrder(w.curves)).Ok?
    ensures var after := GatheredAll(w, render, AxesInOrder(w.curves)).value;
            && Leaves(w, after, axis, p)
            && (RunsAt(w.curves, axis, p.tick) ==> RunsAt(after.curves, axis, p.tick))
  {
    var after := GatheredAll(w, render, AxesInOrder(w.curves)).value;
    GatherCurves.GatheringEvery(w, render, AxesInOrder(w.curves), axis, p);
    if axis in AxesInOrder(w.curves) && |CurvesOn(w.curves, axis)| >= 2 {
      JoinedCurve.GatheringJoinsEvery(w, render, AxesInOrder(w.curves), axis);
      JoinedLeaves(w, render, after, axis, p);
    } else {
      SameRuns(w.curves, after.curves, axis, p.tick);
    }
  }

  // ----- The whole edit ------------------------------------------------------------------------------------------

  /** The edits that draw curves again, or move or remove them. */
  predicate Redraws(edit: Edit) {
    edit.Resolve? || edit.SetCurve? || edit.CopyRange? || edit.DeleteRange? || edit.Transform?
  }

  lemma {:induction false} AppliedLeaves(
    w: Work, frames: seq<Frame>, edit: Edit, render: Render, names: Names, axis: Axis, p: Point)
    requires Renders(render) && WorkOk(render, w) && Applied(w, frames, edit, render, names).Ok?
    requires Redraws(edit) || axis !in EditAxes(w, edit, names)
    ensures Leaves(w, Applied(w, frames, edit, render, names).value, axis, p)
  {
    if !Redraws(edit) {
      AppliedElsewhere(w, frames, edit, render, names, axis);
      SameRuns(w.curves, Applied(w, frames, edit, render, names).value.curves, axis, p.tick);
    } else {
      match edit {
        case Resolve(_, ids) => ResolvedLeaves(w, render, ids, axis, p);
        case CopyRange(ids, start, end, target) =>
          RangeCopiedLeaves(
            w, render, Unique(ids), LayerConflicts.Min(start, end), LayerConflicts.Max(start, end), target, axis, p);
        case DeleteRange(ids, start, end) =>
          assert w.curves[..|w.curves|] == w.curves;
          RangeDeletedLeaves(
            w, render, w.curves, w.curves, Unique(ids), LayerConflicts.Min(start, end), LayerConflicts.Max(start, end),
            axis, p);
        case SetCurve(ids, id, order, points) =>
          RewrittenLeaves(render, w, NameOf(id, names), Unique(ids)[0], order, points, axis, p);
        case Transform(ids, change) => TransformedLeaves(w, render, ids, change, axis, p);
      }
    }
  }

  lemma {:induction false} SameValue(a: seq<Point>, b: seq<Point>, tick: nat)
    requires NoDoubles(b) && forall p: Point :: p.tick == tick ==> (p in a <==> p in b)
    ensures FirstPointAt(a, tick) == FirstPointAt(b, tick)
  {
    FoundPoint(a, tick);
    FoundPoint(b, tick);
    if FirstPointAt(a, tick).Some? { OnlyPoint(b, Point(tick, FirstPointAt(a, tick).value)); }
  }

  /** What a step leaves of the values of an axis at a tick. */
  ghost predicate StepLeaves(before: Layer, after: Layer, axis: Axis, tick: nat) {
    !RunsAt(after.curves, axis, tick) ==>
      FirstAt(after.frames, axis, tick) ==
      if RunsAt(before.curves, axis, tick) then None else FirstAt(before.frames, axis, tick)
  }

  lemma {:induction false} FinishedLeaves(layer: Layer, w: Work, limited: bool, axis: Axis, tick: nat)
    requires Finished(layer, w, limited).Ok?
    requires forall p: Point :: p.tick == tick ==> Leaves(WorkOf(layer), w, axis, p)
    ensures StepLeaves(layer, Finished(layer, w, limited).value, axis, tick)
  {
    FramesLookup(w.tracks, axis, tick);
    SeriesLookup(layer.frames, axis, tick);
    if axis !in AxesOf(layer.frames) { FirstAtNeedsAxis(layer.frames, axis, tick); }
    if !RunsAt(w.curves, axis, tick) {
      if RunsAt(layer.curves, axis, tick) {
        FoundPoint(Track(w.tracks, axis), tick);
        forall q: Point | q.tick == tick ensures q !in Track(w.tracks, axis) {
          assert Leaves(WorkOf(layer), w, axis, q);
        }
      } else {
        SameValue(Track(WorkOf(layer).tracks, axis), Track(w.tracks, axis), tick);
      }
    }
  }

  /** After a whole edit, where no curve of the axis runs, there is nothing if one ran there
      before, and else what was there. */
  lemma {:induction false} EditingLeaves(
    layer: Layer, edit: Edit, render: Render, names: Names, axis: Axis, tick: nat)
    requires Succeeds(layer, edit, render, names)
    requires Redraws(edit) || axis !in EditAxes(WorkOf(layer), edit, names)
    ensures StepLeaves(layer, Edited(layer, edit, render, names).value, axis, tick)
  {
    var w := Applied(WorkOf(layer), layer.frames, edit, render, names).value;
    var once := EditedOnce(layer, edit, render, names).value;
    TakingApart(render, layer.frames, layer.curves);
    AppliedKeeps(WorkOf(layer), layer.frames, edit, render, names);
    FinishedOk(render, layer, w, Limited(edit));
    forall p: Point | p.tick == tick ensures Leaves(WorkOf(layer), w, axis, p) {
      AppliedLeaves(WorkOf(layer), layer.frames, edit, render, names, axis, p);
    }
    FinishedLeaves(layer, w, Limited(edit), axis, tick);
    GatheringStep(once, render, axis, tick);
  }

  lemma {:induction false} GatheringStep(once: Layer, render: Render, axis: Axis, tick: nat)
    requires Renders(render) && LayerOk(render, once) && OneCurvePerAxis(once, render).Ok?
    ensures var after := OneCurvePerAxis(once, render).value;
            && StepLeaves(once, after, axis, tick)
            && (RunsAt(once.curves, axis, tick) ==> RunsAt(after.curves, axis, tick))
  {
    if Gatherable(once.curves) {
      var w := GatheredAll(WorkOf(once), render, AxesInOrder(once.curves)).value;
      TakingApart(render, once.frames, once.curves);
      forall p: Point | p.tick == tick ensures Leaves(WorkOf(once), w, axis, p) {
        GatheredLeaves(WorkOf(once), render, axis, p);
      }
      GatheredLeaves(WorkOf(once), render, axis, Point(tick, 0.0));
      FinishedLeaves(once, w, false, axis, tick);
    }
  }

  /** Where one runs, the frames have what it draws. */
  lemma {:induction false} CurvesAreDrawn(render: Render, layer: Layer, axis: Axis, tick: nat) returns (curve: Curve)
    requires Renders(render) && LayerOk(render, layer) && RunsAt(layer.curves, axis, tick)
    ensures curve in layer.curves && RunsOver(curve, axis, tick) && CurveOk(render, curve)
    ensures exists p :: p in Drawn(render, curve) && p.tick == tick && FirstAt(layer.frames, axis, tick) == Some(p.value)
  {
    curve :| curve in layer.curves && RunsOver(curve, axis, tick);
    var i :| 0 <= i < |layer.curves| && layer.curves[i] == curve;
    assert InStep(render, layer.frames, layer.curves[i]);
    DrawnFills(render, curve);
    var p := Drawn(render, curve)[tick - Bounds(curve).0];
    assert p in Drawn(render, curve);
  }
}

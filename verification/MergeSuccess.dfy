/** Merging good sources succeeds: what gathering needs is always there, and its curves fit
    into the samples. Where curves start decides whether the merged layer is in step. */
module MergeSuccess {
  import opened MotionTypes
  import opened Sorting
  import opened Timeline
  import Ownership
  import LayerConflicts
  import LayerMerging = Merging
  import opened CurveEngine
  import opened EditState
  import opened EditFrames
  import opened LayerEdit
  import opened RangeEdit
  import opened EditLayer
  import opened EditKnots
  import opened EditRepeat
  import opened LayerValidation
  import opened CurveFrames
  import opened GatherCurves
  import opened CurveMerging
  import opened MergedCurves
  import opened JoinedCurve

  // ----- The samples before gathering ---------------------------------------------------------------

  lemma {:induction false} PointOfFrame(frames: seq<Frame>, axis: Axis, p: Point)
    requires p in AxisPoints(frames, axis)
    ensures exists i :: 0 <= i < |frames| && frames[i].tick == p.tick
  {
    if p in AxisPoints(frames[1..], axis) {
      PointOfFrame(frames[1..], axis, p);
      var i :| 0 <= i < |frames| - 1 && frames[1..][i].tick == p.tick;
      assert frames[i + 1].tick == p.tick;
    } else {
      assert frames[0].tick == p.tick;
    }
  }

  lemma {:induction false} DistinctNoDoubles(frames: seq<Frame>, axis: Axis)
    requires DistinctTicks(frames)
    ensures NoDoubles(AxisPoints(frames, axis))
  {
    if frames != [] {
      var rest := AxisPoints(frames[1..], axis);
      DistinctNoDoubles(frames[1..], axis);
      forall i | 0 <= i < |rest| ensures rest[i].tick != frames[0].tick {
        assert rest[i] in rest;
        PointOfFrame(frames[1..], axis, rest[i]);
      }
    }
  }

  lemma DistinctIsClean(frames: seq<Frame>)
    requires DistinctTicks(frames)
    ensures Clean(AxisTracks(frames))
  {
    forall axis | axis in AxisTracks(frames) ensures NoDoubles(AxisTracks(frames)[axis]) {
      DistinctNoDoubles(frames, axis);
      SortNoDoubles(AxisPoints(frames, axis));
    }
  }

  // ----- Gathering keeps one sample a tick --------------------------------------------------------------

  lemma ClearedClean(tracks: Tracks, axis: Axis, span: (nat, nat))
    requires Clean(tracks)
    ensures Clean(Cleared(tracks, axis, span))
  {
    ClearSpanNoDoubles(Track(tracks, axis), span.0, span.1);
  }

  lemma {:induction false} RemovedOthersClean(w: Work, curves: seq<Curve>, id: string)
    requires Clean(w.tracks)
    ensures Clean(RemovedOthers(w, curves, id).tracks)
  {
    if curves != [] {
      RemovedOthersClean(w, Front(curves), id);
      if Last(curves).id != id {
        ClearedClean(RemovedOthers(w, Front(curves), id).tracks, Last(curves).axis, Bounds(Last(curves)));
      }
    }
  }

  lemma WithoutOldClean(w: Work, id: string)
    requires Clean(w.tracks)
    ensures Clean(WithoutOld(w, id))
  {
    if FindId(w.curves, id).Some? {
      ClearedClean(w.tracks, FindId(w.curves, id).value.axis, Bounds(FindId(w.curves, id).value));
    }
  }

  lemma RedrawnNoDoubles(points: seq<Point>, samples: seq<Point>, start: nat, end: nat)
    requires NoDoubles(points) && Fills(samples, start, end)
    ensures NoDoubles(ClearSpan(points, start, end) + samples)
  {
    var rest := ClearSpan(points, start, end);
    ClearSpanNoDoubles(points, start, end);
    forall i | 0 <= i < |rest| ensures !InSpan(rest[i].tick, start, end) {
      ClearSpanKeeps(points, start, end, rest[i]);
    }
  }

  lemma RedrawnClean(render: Render, tracks: Tracks, curve: Curve)
    requires Renders(render) && CurveOk(render, curve) && Clean(tracks)
    ensures Clean(Redrawn(tracks, curve.axis, Drawn(render, curve)))
  {
    DrawnFills(render, curve);
    RedrawnNoDoubles(Track(tracks, curve.axis), Drawn(render, curve), Bounds(curve).0, Bounds(curve).1);
  }

  lemma GatheredClean(w: Work, render: Render, axis: Axis)
    requires Renders(render) && Structure(render, w.curves) && Gathered(w, render, axis).Ok? && Clean(w.tracks)
    ensures Clean(Gathered(w, render, axis).value.tracks)
  {
    if |CurvesOn(w.curves, axis)| >= 2 {
      GatheredIs(w, render, axis);
      var curve, id := Joined(render, w.curves, axis).value, Pieces(w.curves, axis)[0].id;
      RemovedOthersClean(w, CurvesOn(w.curves, axis), id);
      WithoutOldClean(RemovedOthers(w, CurvesOn(w.curves, axis), id), id);
      RedrawnClean(render, WithoutOld(RemovedOthers(w, CurvesOn(w.curves, axis), id), id), curve);
    }
  }

  // ----- Gathering can draw what it gathers ---------------------------------------------------------------

  lemma {:induction false} LargestIn(curves: seq<Curve>)
    requires curves != []
    ensures Largest(curves) in curves
  {
    if |curves| > 1 {
      LargestIn(Front(curves));
    }
  }

  lemma DrawableHasOrder(curve: Curve)
    requires CurveOk(Renderer(), curve)
    ensures IsOrder(curve.order)
  {
  }

  lemma SpacedIsDrawable(points: seq<CurvePoint>, order: int)
    requires Spaced(points) && |points| >= 2 && IsOrder(order)
    ensures Renderer()(points, order).Ok?
  {
    SpacedIsSorted(points);
  }

  lemma GatheringSucceeds(w: Work, axis: Axis)
    requires Structure(Renderer(), w.curves)
    ensures Gathered(w, Renderer(), axis).Ok?
  {
    var pieces := Pieces(w.curves, axis);
    if |pieces| >= 2 {
      PiecesFollow(Renderer(), w.curves, axis);
      JoinedIsAll(pieces);
      AllPointsSpaced(pieces);
      LargestIn(pieces);
      CurvesOnAxis(w.curves, axis, Largest(pieces));
      InStructure(Renderer(), w.curves, Largest(pieces), Largest(pieces));
      DrawableHasOrder(Largest(pieces));
      SpacedIsDrawable(AllPoints(pieces), Largest(pieces).order);
    }
  }

  lemma {:induction false} GatheringAllSucceeds(w: Work, axes: seq<Axis>)
    requires Structure(Renderer(), w.curves) && Clean(w.tracks) && Distinct(axes)
    ensures var after := GatheredAll(w, Renderer(), axes);
            after.Ok? && Clean(after.value.tracks) && Structure(Renderer(), after.value.curves)
  {
    if axes != [] {
      CurveEngineRenders();
      GatheringAllSucceeds(w, Front(axes));
      var before := GatheredAll(w, Renderer(), Front(axes)).value;
      GatheringSucceeds(before, Last(axes));
      GatheredClean(before, Renderer(), Last(axes));
      GatheringCurves(before, Renderer(), Last(axes), 0, Point(0, 0.0));
    }
  }

  lemma LayerGathers(layer: Layer)
    requires Structure(Renderer(), layer.curves) && DistinctTicks(layer.frames)
    ensures OneCurvePerAxis(layer, Renderer()).Ok?
  {
    DistinctIsClean(layer.frames);
    GatheringAllSucceeds(WorkOf(layer), AxesInOrder(layer.curves));
  }

  /** Merging good sources succeeds, whatever their curves are. */
  lemma MergingSucceeds(base: Layer, sources: seq<Layer>, manual: map<Axis, real>, names: Names)
    requires GoodSources(Renderer(), sources, names) && LayerMerging.IsMerge(base, sources, manual)
    ensures WithCurves(Renderer(), base, sources, names).Ok?
  {
    var curves := CurvesOfMerge(Renderer(), sources, base.frames, names);
    CurvesOfMergeOk(Renderer(), base, sources, manual, names);
    BaseTicks(base, sources, manual);
    LayerGathers(base.(curves := curves));
  }

  lemma BaseTicks(base: Layer, sources: seq<Layer>, manual: map<Axis, real>)
    requires LayerMerging.IsMerge(base, sources, manual)
    ensures DistinctTicks(base.frames)
  {
  }

  /** Layers that may be merged are merged exactly if their curves do not overlap. */
  lemma MergedUnlessOverlapping(
    layers: seq<Layer>, ids: set<string>, appendId: Option<string>, base: Layer, manual: map<Axis, real>, names: Names)
    requires Mergeable(Renderer(), layers, ids, appendId) && forall layer :: layer in layers ==> Tidy(layer)
    requires var sources := LayerMerging.Sources(layers, ids, appendId).value;
             Fresh(names, SourceCurves(sources)) && LayerMerging.IsMerge(base, sources, manual)
    ensures var sources := LayerMerging.Sources(layers, ids, appendId).value;
            WithCurves(Renderer(), base, sources, names).Ok? <==> NoOverlaps(Collected(SourceCurves(sources), names))
  {
    var sources := LayerMerging.Sources(layers, ids, appendId).value;
    if NoOverlaps(Collected(SourceCurves(sources), names)) {
      SourcesAreGood(layers, ids, appendId, names);
      MergingSucceeds(base, sources, manual, names);
    }
  }

  // ----- A source curve that starts at 0 -------------------------------------------------------------------

  ghost predicate SamePoints(a: seq<Curve>, b: seq<Curve>) {
    |a| == |b| && forall i :: 0 <= i < |a| ==> a[i].points == b[i].points
  }

  lemma {:induction false} CollectedOn(curves: seq<Curve>, names: Names, axis: Axis)
    ensures SamePoints(CurvesOn(Collected(curves, names), axis), CurvesOn(curves, axis))
  {
    if curves != [] {
      CollectedOn(Front(curves), names, axis);
      assert Front(Collected(curves, names)) == Collected(Front(curves), names);
    }
  }

  lemma FillersStartLater(base: Layer, sources: seq<Layer>, manual: map<Axis, real>, filled: seq<Curve>, axis: Axis)
    requires LayerMerging.IsMerge(base, sources, manual)
    requires forall i :: 0 <= i < |filled| ==> Fitting(Renderer(), base.frames, filled[i])
    ensures forall i :: 0 <= i < |CurvesOn(filled, axis)| ==>
              |CurvesOn(filled, axis)[i].points| >= 2 && CurvesOn(filled, axis)[i].points[0].tick > 0
  {
    CurveEngineRenders();
    forall i | 0 <= i < |CurvesOn(filled, axis)|
      ensures |CurvesOn(filled, axis)[i].points| >= 2 && CurvesOn(filled, axis)[i].points[0].tick > 0
    {
      var curve := CurvesOn(filled, axis)[i];
      assert curve in CurvesOn(filled, axis);
      CurvesOnAxis(filled, axis, curve);
      var j :| 0 <= j < |filled| && filled[j] == curve;
      FittingStartsLater(Renderer(), base, sources, manual, filled[j]);
    }
  }

  /** A curve alone at 0 in the merge was so among the curves of the sources. */
  lemma StartsInSource(base: Layer, sources: seq<Layer>, manual: map<Axis, real>, names: Names, axis: Axis)
    requires LayerMerging.IsMerge(base, sources, manual)
    requires StartsAtZero(CurvesOfMerge(Renderer(), sources, base.frames, names), axis)
    ensures StartsAtZero(SourceCurves(sources), axis)
  {
    var all := SourceCurves(sources);
    var collected := Collected(all, names);
    var filled := CurvesForGaps(Renderer(), base.frames, collected, names);
    CurveEngineRenders();
    CollectedOn(all, names, axis);
    GapCurvesFit(Renderer(), base.frames, collected, names);
    FillersStartLater(base, sources, manual, filled, axis);
    CurvesOnJoin(collected, filled, axis);
  }

  // ----- Where curves run over every sample, nothing is filled -------------------------------------------------

  /** A source curve runs over every sample of the axis. */
  ghost predicate DrawnThroughout(sources: seq<Layer>, axis: Axis) {
    forall i, tick :: 0 <= i < |sources| && FirstAt(sources[i].frames, axis, tick).Some? ==>
      CoveredAt(SourceCurves(sources), axis, tick)
  }

  lemma CoveredOn(curves: seq<Curve>, axis: Axis, tick: nat)
    ensures CoveredAt(curves, axis, tick) <==>
            exists i :: 0 <= i < |CurvesOn(curves, axis)| && CoveredBy(CurvesOn(curves, axis)[i], axis, tick)
  {
    var on := CurvesOn(curves, axis);
    if i :| 0 <= i < |curves| && CoveredBy(curves[i], axis, tick) {
      CurvesOnAxis(curves, axis, curves[i]);
      var k :| 0 <= k < |on| && on[k] == curves[i];
    }
    if k :| 0 <= k < |on| && CoveredBy(on[k], axis, tick) {
      assert on[k] in on;
      CurvesOnAxis(curves, axis, on[k]);
      var i :| 0 <= i < |curves| && curves[i] == on[k];
    }
  }

  /** One curve covers what lies between two ticks that it covers. */
  lemma CoveredBetween(curves: seq<Curve>, axis: Axis, start: nat, tick: nat, end: nat)
    requires |CurvesOn(curves, axis)| == 1 && start <= tick <= end
    requires CoveredAt(curves, axis, start) && CoveredAt(curves, axis, end)
    ensures CoveredBy(CurvesOn(curves, axis)[0], axis, tick)
  {
    CoveredOn(curves, axis, start);
    CoveredOn(curves, axis, end);
  }

  lemma OwnedIsCovered(sources: seq<Layer>, axis: Axis, tick: nat)
    requires DrawnThroughout(sources, axis) && |CurvesOn(SourceCurves(sources), axis)| == 1
    requires Ownership.Owns(sources, axis, tick)
    ensures CoveredBy(CurvesOn(SourceCurves(sources), axis)[0], axis, tick)
  {
    var i :| 0 <= i < |sources| && Ownership.LayerOwns(sources[i], axis, tick);
    var start: nat, end: nat :| start <= tick <= end && Ownership.Spans(sources[i], axis, start, end);
    CoveredBetween(SourceCurves(sources), axis, start, tick, end);
  }

  lemma CollectedCovers(curves: seq<Curve>, names: Names, axis: Axis, tick: nat)
    requires |CurvesOn(curves, axis)| == 1 && CoveredBy(CurvesOn(curves, axis)[0], axis, tick)
    ensures CoveredAt(Collected(curves, names), axis, tick)
  {
    var on := CurvesOn(Collected(curves, names), axis);
    CollectedOn(curves, names, axis);
    assert on[0] in on;
    CurvesOnAxis(Collected(curves, names), axis, on[0]);
    CoveredOn(Collected(curves, names), axis, tick);
  }

  lemma {:induction false} PointIsFound(frames: seq<Frame>, axis: Axis, p: Point)
    requires p in AxisPoints(frames, axis)
    ensures FirstAt(frames, axis, p.tick).Some?
  {
    if frames[0].tick != p.tick || axis !in frames[0].values {
      PointIsFound(frames[1..], axis, p);
    }
  }

  lemma {:induction false} CoveredRuns(samples: seq<Point>, curves: seq<Curve>, axis: Axis)
    requires forall p :: p in samples ==> CoveredAt(curves, axis, p.tick)
    ensures RunsOf(samples, curves, axis) == Runs([], [])
  {
    if samples != [] {
      FrontAndLast(samples);
      CoveredRuns(Front(samples), curves, axis);
    }
  }

  /** Curves run wherever the axis is owned. */
  ghost predicate OwnedCovered(sources: seq<Layer>, curves: seq<Curve>, axis: Axis) {
    forall tick: nat :: Ownership.Owns(sources, axis, tick) ==> CoveredAt(curves, axis, tick)
  }

  lemma SampleCovered(base: Layer, sources: seq<Layer>, manual: map<Axis, real>, curves: seq<Curve>, axis: Axis, p: Point)
    requires LayerMerging.IsMerge(base, sources, manual) && Enabled(sources) == sources && LayerConflicts.ConflictFree(sources)
    requires OwnedCovered(sources, curves, axis) && p in AxisPoints(base.frames, axis)
    ensures CoveredAt(curves, axis, p.tick)
  {
    var table :|
      Ownership.IsOwnership(table, sources) && base.frames == LayerMerging.MergedFrames(sources, manual, table);
    PointIsFound(base.frames, axis, p);
    LayerMerging.MergedSupply(sources, manual, table, axis, p.tick);
  }

  lemma NothingToFill(
    base: Layer, sources: seq<Layer>, manual: map<Axis, real>, curves: seq<Curve>, names: Names, axis: Axis, k: nat)
    requires LayerMerging.IsMerge(base, sources, manual) && Enabled(sources) == sources && LayerConflicts.ConflictFree(sources)
    requires OwnedCovered(sources, curves, axis)
    ensures AxisFillers(Renderer(), base.frames, curves, axis, names, k) == []
  {
    var samples := Series(base.frames, axis);
    forall p | p in samples ensures CoveredAt(curves, axis, p.tick) {
      SampleCovered(base, sources, manual, curves, axis, p);
    }
    CoveredRuns(samples, curves, axis);
  }

  ghost predicate AllOn(curves: seq<Curve>, axis: Axis) { forall i :: 0 <= i < |curves| ==> curves[i].axis == axis }

  lemma {:induction false} FillersOn(fill: GapFiller, gaps: seq<seq<Point>>, names: Names, from: nat, axis: Axis)
    requires forall gap, id :: AllOn(fill(gap, id), axis)
    ensures AllOn(Fillers(fill, gaps, names, from), axis)
  {
    if gaps != [] {
      var before := Fillers(fill, Front(gaps), names, from);
      FillersOn(fill, Front(gaps), names, from, axis);
      assert AllOn(fill(Last(gaps), names(from + |before|)), axis);
    }
  }

  lemma AxisFillersOn(render: Render, frames: seq<Frame>, curves: seq<Curve>, axis: Axis, names: Names, from: nat)
    ensures AllOn(AxisFillers(render, frames, curves, axis, names, from), axis)
  {
    var fill := GapFillerFor(render, frames, axis);
    forall gap, id ensures AllOn(fill(gap, id), axis) {}
    FillersOn(fill, UncoveredGaps(Series(frames, axis), curves, axis), names, from, axis);
  }

  ghost predicate FillsItself(fill: AxisFiller, axis: Axis, from: nat) { AllOn(fill(axis, from), axis) }

  lemma {:induction false} NoneFilledOn(fill: AxisFiller, axes: seq<Axis>, from: nat, axis: Axis)
    requires (forall b, k: nat :: FillsItself(fill, b, k)) && forall k: nat :: fill(axis, k) == []
    ensures CurvesOn(AllFillers(fill, axes, from), axis) == []
  {
    if axes != [] {
      var before := AllFillers(fill, Front(axes), from);
      var more := fill(Last(axes), from + |before|);
      NoneFilledOn(fill, Front(axes), from, axis);
      CurvesOnJoin(before, more, axis);
      assert FillsItself(fill, Last(axes), from + |before|);
      if Last(axes) != axis { NoneLeft(more, axis); }
    }
  }

  lemma NothingFilledOn(
    base: Layer, sources: seq<Layer>, manual: map<Axis, real>, curves: seq<Curve>, names: Names, axis: Axis)
    requires LayerMerging.IsMerge(base, sources, manual) && Enabled(sources) == sources && LayerConflicts.ConflictFree(sources)
    requires OwnedCovered(sources, curves, axis)
    ensures CurvesOn(CurvesForGaps(Renderer(), base.frames, curves, names), axis) == []
  {
    var fill := AxisFillerFor(Renderer(), base.frames, curves, names);
    forall b, k: nat ensures FillsItself(fill, b, k) { AxisFillersOn(Renderer(), base.frames, curves, b, names, k); }
    forall k: nat ensures fill(axis, k) == [] { NothingToFill(base, sources, manual, curves, names, axis, k); }
    NoneFilledOn(fill, SortedSet(AxesOf(base.frames)), |curves|, axis);
  }

  lemma OneCurveCovers(sources: seq<Layer>, names: Names, axis: Axis)
    requires DrawnThroughout(sources, axis) && |CurvesOn(SourceCurves(sources), axis)| == 1
    ensures OwnedCovered(sources, Collected(SourceCurves(sources), names), axis)
  {
    forall tick: nat | Ownership.Owns(sources, axis, tick)
      ensures CoveredAt(Collected(SourceCurves(sources), names), axis, tick)
    {
      OwnedIsCovered(sources, axis, tick);
      CollectedCovers(SourceCurves(sources), names, axis, tick);
    }
  }

  lemma StartStays(base: Layer, sources: seq<Layer>, manual: map<Axis, real>, names: Names, axis: Axis)
    requires LayerMerging.IsMerge(base, sources, manual) && Enabled(sources) == sources && LayerConflicts.ConflictFree(sources)
    requires DrawnThroughout(sources, axis) && StartsAtZero(SourceCurves(sources), axis)
    ensures StartsAtZero(CurvesOfMerge(Renderer(), sources, base.frames, names), axis)
  {
    var all := SourceCurves(sources);
    var collected := Collected(all, names);
    CollectedOn(all, names, axis);
    OneCurveCovers(sources, names, axis);
    NothingFilledOn(base, sources, manual, collected, names, axis);
    CurvesOnJoin(collected, CurvesForGaps(Renderer(), base.frames, collected, names), axis);
  }

  lemma MergedInStep(base: Layer, sources: seq<Layer>, manual: map<Axis, real>, names: Names, merged: Layer)
    requires GoodSources(Renderer(), sources, names) && LayerMerging.IsMerge(base, sources, manual)
    requires WithCurves(Renderer(), base, sources, names) == Ok(merged)
    ensures Mismatches(Renderer(), merged.frames, merged.curves, MatchTolerance) == Ok([]) <==>
            NoneStarts(CurvesOfMerge(Renderer(), sources, base.frames, names))
  {
    MergingKeepsCurves(Renderer(), base, sources, manual, names, merged);
  }

  /** No curve is alone on its axis and starts at 0. */
  ghost predicate NoneStarts(curves: seq<Curve>) { forall axis :: !StartsAtZero(curves, axis) }

  lemma SameStarts(base: Layer, sources: seq<Layer>, manual: map<Axis, real>, names: Names)
    requires LayerMerging.IsMerge(base, sources, manual) && Enabled(sources) == sources && LayerConflicts.ConflictFree(sources)
    requires forall axis :: StartsAtZero(SourceCurves(sources), axis) ==> DrawnThroughout(sources, axis)
    ensures NoneStarts(CurvesOfMerge(Renderer(), sources, base.frames, names)) <==> NoneStarts(SourceCurves(sources))
  {
    forall axis
      ensures StartsAtZero(CurvesOfMerge(Renderer(), sources, base.frames, names), axis) <==>
              StartsAtZero(SourceCurves(sources), axis)
    {
      SameStart(base, sources, manual, names, axis);
    }
  }

  /** In terms of the curves of the sources: the merged layer is in step if none of them is
      alone on its axis and starts at 0. Where such a curve runs over every sample of its axis,
      it is in step only then. */
  lemma SourceStartsDecide(base: Layer, sources: seq<Layer>, manual: map<Axis, real>, names: Names)
    requires GoodSources(Renderer(), sources, names) && LayerMerging.IsMerge(base, sources, manual)
    requires forall axis :: StartsAtZero(SourceCurves(sources), axis) ==> DrawnThroughout(sources, axis)
    ensures var merged := WithCurves(Renderer(), base, sources, names);
            && merged.Ok?
            && (Mismatches(Renderer(), merged.value.frames, merged.value.curves, MatchTolerance) == Ok([]) <==>
                  NoneStarts(SourceCurves(sources)))
  {
    MergingSucceeds(base, sources, manual, names);
    MergedInStep(base, sources, manual, names, WithCurves(Renderer(), base, sources, names).value);
    SameStarts(base, sources, manual, names);
  }

  lemma SameStart(base: Layer, sources: seq<Layer>, manual: map<Axis, real>, names: Names, axis: Axis)
    requires LayerMerging.IsMerge(base, sources, manual) && Enabled(sources) == sources && LayerConflicts.ConflictFree(sources)
    requires StartsAtZero(SourceCurves(sources), axis) ==> DrawnThroughout(sources, axis)
    ensures StartsAtZero(CurvesOfMerge(Renderer(), sources, base.frames, names), axis) <==>
            StartsAtZero(SourceCurves(sources), axis)
  {
    if StartsAtZero(SourceCurves(sources), axis) {
      StartStays(base, sources, manual, names, axis);
    } else if StartsAtZero(CurvesOfMerge(Renderer(), sources, base.frames, names), axis) {
      StartsInSource(base, sources, manual, names, axis);
      assert false;
    }
  }
}

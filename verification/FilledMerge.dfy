/** Where the merged layer has curves: wherever its sources had some, and on every stretch that
    could be filled. */
module FilledMerge {
  import opened MotionTypes
  import opened Sorting
  import opened Timeline
  import LayerMerging = Merging
  import opened CurveEngine
  import opened EditState
  import opened LayerEdit
  import opened RangeEdit
  import opened EditKnots
  import opened LayerValidation
  import opened CurveMerging
  import opened MergedCurves
  import opened JoinedCurve
  import opened MergedAxes
  import opened BridgedGaps
  import opened MergeSuccess
  import opened FilledGaps

  // ----- The curves of the sources over the composed frames -----------------------------------------------

  lemma InMerge(sources: seq<Layer>, frames: seq<Frame>, names: Names, j: nat)
    requires j < |Collected(SourceCurves(sources), names)|
    ensures Collected(SourceCurves(sources), names)[j] in CurvesOfMerge(Renderer(), sources, frames, names)
  {
  }

  /** Each of them covers a sample: its last time is owned, and not 0. */
  lemma CollectedTouches(base: Layer, sources: seq<Layer>, manual: map<Axis, real>, names: Names, j: nat)
    requires GoodSources(Renderer(), sources, names) && LayerMerging.IsMerge(base, sources, manual)
    requires j < |Collected(SourceCurves(sources), names)|
    ensures Touches(base.frames, Collected(SourceCurves(sources), names)[j])
  {
    var c := Collected(SourceCurves(sources), names)[j];
    CollectedFits(Renderer(), base, sources, manual, names, j);
    InMerge(sources, base.frames, names, j);
    PieceInOrder(c);
    BoundsOfSpaced(c.points);
    CurveTickOwned(Renderer(), base, sources, manual, names, c, Bounds(c).1);
    OwnedIsMotion(base, sources, manual, c.axis, Bounds(c).1);
    assert CoveredBy(c, c.axis, Bounds(c).1);
  }

  lemma CollectedPlaced(base: Layer, sources: seq<Layer>, manual: map<Axis, real>, names: Names)
    requires GoodSources(Renderer(), sources, names) && LayerMerging.IsMerge(base, sources, manual)
    ensures WellPlaced(base.frames, Collected(SourceCurves(sources), names))
  {
    var curves := Collected(SourceCurves(sources), names);
    forall c | c in curves ensures Touches(base.frames, c) {
      var j :| 0 <= j < |curves| && curves[j] == c;
      CollectedTouches(base, sources, manual, names, j);
    }
  }

  // ----- Names do not matter ---------------------------------------------------------------------------------

  lemma CoveredWhateverName(curves: seq<Curve>, names: Names, axis: Axis, tick: nat)
    ensures CoveredAt(Collected(curves, names), axis, tick) <==> CoveredAt(curves, axis, tick)
  {
    var collected := Collected(curves, names);
    forall i | 0 <= i < |curves| ensures CoveredBy(collected[i], axis, tick) <==> CoveredBy(curves[i], axis, tick) {
      CollectedLike(curves, names, i);
    }
  }

  lemma HasCurveWhateverName(curves: seq<Curve>, names: Names, axis: Axis)
    ensures HasCurve(Collected(curves, names), axis) <==> HasCurve(curves, axis)
  {
    var collected := Collected(curves, names);
    forall i | 0 <= i < |curves|
      ensures collected[i].axis == curves[i].axis && collected[i].points == curves[i].points
    {
      CollectedLike(curves, names, i);
    }
    if i :| 0 <= i < |curves| && curves[i].axis == axis && |curves[i].points| >= 2 { assert collected[i].axis == axis; }
    if i :| 0 <= i < |collected| && collected[i].axis == axis && |collected[i].points| >= 2 { assert curves[i].axis == axis; }
  }

  lemma FilledWhateverName(frames: seq<Frame>, curves: seq<Curve>, names: Names, axis: Axis, i: nat, j: nat)
    ensures Filled(Renderer(), frames, Collected(curves, names), axis, i, j) <==> Filled(Renderer(), frames, curves, axis, i, j)
  {
    HasCurveWhateverName(curves, names, axis);
    forall tick: nat
      ensures CoveredAt(Collected(curves, names), axis, tick) <==> CoveredAt(curves, axis, tick)
    {
      CoveredWhateverName(curves, names, axis, tick);
    }
  }

  // ----- Gathering covers what was covered -----------------------------------------------------------------------

  lemma JoinedCovers(curves: seq<Curve>, axis: Axis, tick: nat, k: nat)
    requires Structure(Renderer(), curves) && k < |CurvesOn(curves, axis)| && Joined(Renderer(), curves, axis).Ok?
    requires CoveredBy(CurvesOn(curves, axis)[k], axis, tick)
    ensures CoveredBy(Joined(Renderer(), curves, axis).value, axis, tick)
  {
    var joined, piece := Joined(Renderer(), curves, axis).value, CurvesOn(curves, axis)[k];
    CurveEngineRenders();
    WithinJoined(Renderer(), curves, axis, k);
    JoinedDraws(Renderer(), curves, axis);
    assert piece in CurvesOn(curves, axis);
    CurvesOnAxis(curves, axis, piece);
    InStructure(Renderer(), curves, piece, piece);
    BoundsOfSpaced(piece.points);
    BoundsOfSpaced(joined.points);
  }

  /** What gathering leaves on the axis: the joined curve, or what there was. */
  ghost predicate JoinedOn(before: seq<Curve>, after: seq<Curve>, axis: Axis) {
    if |CurvesOn(before, axis)| >= 2 then
      Joined(Renderer(), before, axis).Ok? && CurvesOn(after, axis) == [Joined(Renderer(), before, axis).value]
    else CurvesOn(after, axis) == CurvesOn(before, axis)
  }

  lemma GatheredCovers(before: seq<Curve>, after: seq<Curve>, axis: Axis, tick: nat)
    requires Structure(Renderer(), before) && JoinedOn(before, after, axis) && CoveredAt(before, axis, tick)
    ensures CoveredAt(after, axis, tick)
  {
    if |CurvesOn(before, axis)| >= 2 {
      var k := CoveringOn(before, axis, tick);
      JoinedCovers(before, axis, tick, k);
      OneCovers(after, axis, tick, Joined(Renderer(), before, axis).value);
    } else {
      SameCovers(before, after, axis, tick);
    }
  }

  lemma SameCovers(before: seq<Curve>, after: seq<Curve>, axis: Axis, tick: nat)
    requires CurvesOn(before, axis) == CurvesOn(after, axis) && CoveredAt(before, axis, tick)
    ensures CoveredAt(after, axis, tick)
  {
    var k := CoveringOn(before, axis, tick);
    CoveredOn(after, axis, tick);
    assert CoveredBy(CurvesOn(after, axis)[k], axis, tick);
  }

  lemma CoveringOn(curves: seq<Curve>, axis: Axis, tick: nat) returns (k: nat)
    requires CoveredAt(curves, axis, tick)
    ensures k < |CurvesOn(curves, axis)| && CoveredBy(CurvesOn(curves, axis)[k], axis, tick)
  {
    CoveredOn(curves, axis, tick);
    k :| k < |CurvesOn(curves, axis)| && CoveredBy(CurvesOn(curves, axis)[k], axis, tick);
  }

  lemma OneCovers(curves: seq<Curve>, axis: Axis, tick: nat, c: Curve)
    requires CurvesOn(curves, axis) == [c] && CoveredBy(c, axis, tick)
    ensures CoveredAt(curves, axis, tick)
  {
    CoveredOn(curves, axis, tick);
    assert CoveredBy(CurvesOn(curves, axis)[0], axis, tick);
  }

  lemma MergeJoins(
    base: Layer, sources: seq<Layer>, manual: map<Axis, real>, names: Names, merged: Layer, axis: Axis)
    requires GoodSources(Renderer(), sources, names) && LayerMerging.IsMerge(base, sources, manual)
    requires WithCurves(Renderer(), base, sources, names) == Ok(merged)
    ensures JoinedOn(CurvesOfMerge(Renderer(), sources, base.frames, names), merged.curves, axis)
  {
    MergingKeepsCurves(Renderer(), base, sources, manual, names, merged);
    if |CurvesOn(CurvesOfMerge(Renderer(), sources, base.frames, names), axis)| >= 2 {
      JoinedInMerge(Renderer(), base, sources, manual, names, merged, axis);
    }
  }

  /** What the merged layer covers: at least what its curves covered before they became one on
      each axis. */
  lemma MergeCovers(
    base: Layer, sources: seq<Layer>, manual: map<Axis, real>, names: Names, merged: Layer, axis: Axis, tick: nat)
    requires GoodSources(Renderer(), sources, names) && LayerMerging.IsMerge(base, sources, manual)
    requires WithCurves(Renderer(), base, sources, names) == Ok(merged)
    requires CoveredAt(CurvesOfMerge(Renderer(), sources, base.frames, names), axis, tick)
    ensures CoveredAt(merged.curves, axis, tick)
  {
    MergeStructure(Renderer(), base, sources, manual, names);
    MergeJoins(base, sources, manual, names, merged, axis);
    GatheredCovers(CurvesOfMerge(Renderer(), sources, base.frames, names), merged.curves, axis, tick);
  }

  // ----- The merged layer -----------------------------------------------------------------------------------------

  /** What the curves of the sources cover stays covered; and every tick of a stretch of two or
      more successive samples that they leave, on an axis with a curve, is covered as well, if
      the frames have what the straight curve through the stretch draws. */
  lemma MergeFillsStretches(
    base: Layer, sources: seq<Layer>, manual: map<Axis, real>, names: Names, merged: Layer, axis: Axis, tick: nat)
    requires GoodSources(Renderer(), sources, names) && LayerMerging.IsMerge(base, sources, manual)
    requires WithCurves(Renderer(), base, sources, names) == Ok(merged)
    ensures CoveredAt(SourceCurves(sources), axis, tick) ==> CoveredAt(merged.curves, axis, tick)
    ensures InFilled(Renderer(), base.frames, SourceCurves(sources), axis, tick) ==> CoveredAt(merged.curves, axis, tick)
  {
    var all := SourceCurves(sources);
    var collected := Collected(all, names);
    CurveEngineRenders();
    BaseTicks(base, sources, manual);
    CollectedPlaced(base, sources, manual, names);
    ExtendingCovers(Renderer(), base.frames, collected, names, axis, tick);
    CoveredWhateverName(all, names, axis, tick);
    if InFilled(Renderer(), base.frames, all, axis, tick) {
      var i: nat, j: nat :| FilledAround(Renderer(), base.frames, all, axis, tick, i, j);
      FilledWhateverName(base.frames, all, names, axis, i, j);
      assert FilledAround(Renderer(), base.frames, collected, axis, tick, i, j);
    }
    if CoveredAt(all, axis, tick) || InFilled(Renderer(), base.frames, all, axis, tick) {
      MergeCovers(base, sources, manual, names, merged, axis, tick);
    }
  }

  /** A corner of a stretch that is filled. */
  ghost predicate FilledCorner(frames: seq<Frame>, curves: seq<Curve>, axis: Axis, p: Point) {
    exists i: nat, j: nat :: Filled(Renderer(), frames, curves, axis, i, j) && CornerIs(Series(frames, axis), i, j, p)
  }

  /** The points of the merged layer are those of its sources and the corners of the stretches
      that are filled, and no others. */
  lemma MergedPoints(
    base: Layer, sources: seq<Layer>, manual: map<Axis, real>, names: Names, merged: Layer, axis: Axis, p: Point)
    requires GoodSources(Renderer(), sources, names) && LayerMerging.IsMerge(base, sources, manual)
    requires WithCurves(Renderer(), base, sources, names) == Ok(merged)
    ensures HasKnot(merged.curves, axis, p) <==>
            HasKnot(SourceCurves(sources), axis, p) || FilledCorner(base.frames, SourceCurves(sources), axis, p)
  {
    var all := SourceCurves(sources);
    var collected := Collected(all, names);
    CurveEngineRenders();
    BaseTicks(base, sources, manual);
    CollectedPlaced(base, sources, manual, names);
    MergingKeepsCurves(Renderer(), base, sources, manual, names, merged);
    ExtendedKnots(base.frames, collected, names, axis, p);
    KnotWhateverName(all, names, axis, p);
    forall i: nat, j: nat
      ensures Filled(Renderer(), base.frames, collected, axis, i, j) <==> Filled(Renderer(), base.frames, all, axis, i, j)
    {
      FilledWhateverName(base.frames, all, names, axis, i, j);
    }
    CornersWhateverName(base.frames, collected, all, axis, p);
  }

  lemma CornersWhateverName(frames: seq<Frame>, a: seq<Curve>, b: seq<Curve>, axis: Axis, p: Point)
    requires forall i: nat, j: nat ::
               Filled(Renderer(), frames, a, axis, i, j) <==> Filled(Renderer(), frames, b, axis, i, j)
    ensures FilledCorner(frames, a, axis, p) <==> FilledCorner(frames, b, axis, p)
  {
  }

  lemma KnotWhateverName(curves: seq<Curve>, names: Names, axis: Axis, p: Point)
    ensures HasKnot(Collected(curves, names), axis, p) <==> HasKnot(curves, axis, p)
  {
    var collected := Collected(curves, names);
    if c :| c in curves && c.axis == axis && p in KnotSet(c.points) {
      var i :| 0 <= i < |curves| && curves[i] == c;
      CollectedLike(curves, names, i);
      assert collected[i] in collected;
    }
    if c :| c in collected && c.axis == axis && p in KnotSet(c.points) {
      var i :| 0 <= i < |collected| && collected[i] == c;
      CollectedLike(curves, names, i);
      assert curves[i] in curves;
    }
  }

  lemma ExtendedKnots(frames: seq<Frame>, curves: seq<Curve>, names: Names, axis: Axis, p: Point)
    requires DistinctTicks(frames) && WellPlaced(frames, curves)
    ensures HasKnot(CurveMerging.Extended(Renderer(), frames, curves, names), axis, p) <==>
            HasKnot(curves, axis, p) || FilledCorner(frames, curves, axis, p)
  {
    var after := CurveMerging.Extended(Renderer(), frames, curves, names);
    CurveEngineRenders();
    ExtendingFills(Renderer(), frames, curves, names);
    if d :| d in after && d.axis == axis && p in KnotSet(d.points) { KnotComesFrom(frames, curves, after, d, p); }
    if HasKnot(curves, axis, p) {
      var c :| c in curves && c.axis == axis && p in KnotSet(c.points);
      assert c in after;
    }
    if FilledCorner(frames, curves, axis, p) { CornerIsThere(frames, curves, after, axis, p); }
  }

  lemma KnotComesFrom(frames: seq<Frame>, curves: seq<Curve>, after: seq<Curve>, d: Curve, p: Point)
    requires d in after && p in KnotSet(d.points)
    requires d in curves || exists i: nat, j: nat :: FillsStretch(Renderer(), frames, curves, d, i, j)
    ensures HasKnot(curves, d.axis, p) || FilledCorner(frames, curves, d.axis, p)
  {
    if d !in curves {
      var i: nat, j: nat :| FillsStretch(Renderer(), frames, curves, d, i, j);
      assert CornerIs(Series(frames, d.axis), i, j, p);
    }
  }

  lemma CornerIsThere(frames: seq<Frame>, curves: seq<Curve>, after: seq<Curve>, axis: Axis, p: Point)
    requires FilledCorner(frames, curves, axis, p)
    requires forall b, i: nat, j: nat :: Filled(Renderer(), frames, curves, b, i, j) ==>
               FilledIn(after, Series(frames, b), b, i, j)
    ensures HasKnot(after, axis, p)
  {
    var i: nat, j: nat :| Filled(Renderer(), frames, curves, axis, i, j) && CornerIs(Series(frames, axis), i, j, p);
    assert FilledIn(after, Series(frames, axis), axis, i, j);
    var d :| d in after && Through(d, axis, Series(frames, axis), i, j);
    assert p in KnotSet(d.points);
  }

  // ----- Stretches that hold still ---------------------------------------------------------------------------------

  /** One value, at every tick of the stretch. */
  ghost predicate HoldsStill(samples: seq<Point>, i: nat, j: nat) {
    i < j < |samples| && forall k :: i <= k <= j ==> samples[k] == Point(samples[i].tick + (k - i), samples[i].value)
  }

  lemma StillCorners(samples: seq<Point>, i: nat, j: nat, p: Point)
    requires HoldsStill(samples, i, j)
    ensures CornerIs(samples, i, j, p) <==> p == samples[i] || p == samples[j]
  {
    assert IsCorner(samples, i, j, i) && IsCorner(samples, i, j, j);
  }

  function StillCurve(axis: Axis, samples: seq<Point>, i: nat, j: nat): Curve
    requires i < j < |samples|
  {
    Curve("", axis, 1, [Straight(samples[i]), Straight(samples[j])])
  }

  lemma StillThrough(axis: Axis, samples: seq<Point>, i: nat, j: nat)
    requires HoldsStill(samples, i, j)
    ensures Through(StillCurve(axis, samples, i, j), axis, samples, i, j)
    ensures CurveOk(Renderer(), StillCurve(axis, samples, i, j))
    ensures Bounds(StillCurve(axis, samples, i, j)) == (samples[i].tick, samples[j].tick)
  {
    var c := StillCurve(axis, samples, i, j);
    assert c.points[0] in c.points && c.points[1] in c.points;
    forall p ensures p in KnotSet(c.points) <==> CornerIs(samples, i, j, p) { StillCorners(samples, i, j, p); }
    SpacedIsSorted(c.points);
    BoundsOfSpaced(c.points);
  }

  lemma StillIsDrawn(axis: Axis, samples: seq<Point>, i: nat, j: nat, tick: nat)
    requires HoldsStill(samples, i, j) && samples[i].tick <= tick <= samples[j].tick
    ensures DrawnAt(Renderer(), StillCurve(axis, samples, i, j), tick) == samples[i].value
  {
    StillThrough(axis, samples, i, j);
    StraightSegment(StillCurve(axis, samples, i, j), 0, tick);
    LevelLine(samples[i], samples[j], tick);
  }

  lemma LevelLine(a: Point, b: Point, tick: nat)
    requires a.value == b.value
    ensures Line(a, b, tick) == a.value
  {
  }

  /** Such a stretch can be filled. */
  lemma StillIsFillable(frames: seq<Frame>, axis: Axis, i: nat, j: nat)
    requires DistinctTicks(frames) && HoldsStill(Series(frames, axis), i, j)
    ensures Fillable(Renderer(), frames, Series(frames, axis), axis, i, j)
  {
    var samples := Series(frames, axis);
    var c := StillCurve(axis, samples, i, j);
    CurveEngineRenders();
    StillThrough(axis, samples, i, j);
    DrawnFills(Renderer(), c);
    forall n | 0 <= n < |Drawn(Renderer(), c)| ensures Agrees(frames, axis, Drawn(Renderer(), c)[n], MatchTolerance) {
      StillAgrees(frames, axis, i, j, n);
    }
  }

  lemma StillValue(frames: seq<Frame>, axis: Axis, i: nat, j: nat, n: nat)
    requires DistinctTicks(frames) && HoldsStill(Series(frames, axis), i, j) && n <= j - i
    ensures var first := Series(frames, axis)[i]; LastAt(frames, axis, first.tick + n) == Some(first.value)
  {
    var samples := Series(frames, axis);
    var tick := samples[i].tick + n;
    assert samples[i + n] == Point(tick, samples[i].value);
    SeriesRises(frames, axis);
    FirstPointAtIndex(samples, tick, i + n);
    SeriesLookup(frames, axis, tick);
    DistinctIsOneValue(frames);
    assert FirstAt(frames, axis, tick) == LastAt(frames, axis, tick);
  }

  lemma StillAgrees(frames: seq<Frame>, axis: Axis, i: nat, j: nat, n: nat)
    requires DistinctTicks(frames) && HoldsStill(Series(frames, axis), i, j)
    requires CurveOk(Renderer(), StillCurve(axis, Series(frames, axis), i, j))
    requires n < |Drawn(Renderer(), StillCurve(axis, Series(frames, axis), i, j))|
    ensures Agrees(frames, axis, Drawn(Renderer(), StillCurve(axis, Series(frames, axis), i, j))[n], MatchTolerance)
  {
    var samples := Series(frames, axis);
    var c := StillCurve(axis, samples, i, j);
    CurveEngineRenders();
    StillThrough(axis, samples, i, j);
    DrawnFills(Renderer(), c);
    assert samples[j].tick == samples[i].tick + (j - i);
    StillIsDrawn(axis, samples, i, j, samples[i].tick + n);
    DrawnIs(Renderer(), c, samples[i].tick + n);
    StillValue(frames, axis, i, j, n);
  }
}

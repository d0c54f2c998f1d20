/** What merging layers with point curves is worth: every point is kept, every axis ends with
    one curve, and the frames are what the curves draw, but for a curve that starts at 0. */
module MergedCurves {
  import opened MotionTypes
  import opened Sorting
  import opened Timeline
  import LayerConflicts
  import LayerRendering = Rendering
  import Ownership
  import LayerMerging = Merging
  import opened CurveEngine
  import opened EditState
  import opened EditFrames
  import opened LayerEdit
  import opened RangeEdit
  import opened EditLayer
  import opened EditEffects
  import opened EditKnots
  import opened EditRepeat
  import opened LayerValidation
  import opened CurveFrames
  import opened GatherCurves
  import opened CurveMerging
  import opened CurveOverlaps
  import opened CurveShift

  // ----- Frames with one value a tick --------------------------------------------------------------

  ghost predicate DistinctTicks(frames: seq<Frame>) {
    forall i, j :: 0 <= i < j < |frames| ==> frames[i].tick != frames[j].tick
  }

  lemma {:induction false} NoFrameThere(frames: seq<Frame>, axis: Axis, tick: nat)
    requires forall i :: 0 <= i < |frames| ==> frames[i].tick != tick
    ensures LastAt(frames, axis, tick).None? && FirstAt(frames, axis, tick).None?
    decreases |frames|
  {
    if frames != [] {
      NoFrameThere(Front(frames), axis, tick);
      NoFrameThere(frames[1..], axis, tick);
    }
  }

  lemma {:induction false} FoundAtFrame(frames: seq<Frame>, axis: Axis, i: nat)
    requires DistinctTicks(frames) && i < |frames|
    ensures FirstAt(frames, axis, frames[i].tick) ==
            if axis in frames[i].values then Some(frames[i].values[axis]) else None
    decreases |frames|
  {
    if i > 0 {
      FoundAtFrame(frames[1..], axis, i - 1);
    } else if axis !in frames[0].values {
      NoFrameThere(frames[1..], axis, frames[0].tick);
    }
  }

  lemma {:induction false} LastAtFrame(frames: seq<Frame>, axis: Axis, i: nat)
    requires DistinctTicks(frames) && i < |frames|
    ensures LastAt(frames, axis, frames[i].tick) ==
            if axis in frames[i].values then Some(frames[i].values[axis]) else None
    decreases |frames|
  {
    if i < |frames| - 1 {
      LastAtFrame(Front(frames), axis, i);
    } else if axis !in frames[i].values {
      NoFrameThere(Front(frames), axis, frames[i].tick);
    }
  }

  lemma DistinctIsOneValue(frames: seq<Frame>)
    requires DistinctTicks(frames)
    ensures OneValueATick(frames)
  {
    forall axis, tick ensures FirstAt(frames, axis, tick) == LastAt(frames, axis, tick) {
      if i :| 0 <= i < |frames| && frames[i].tick == tick {
        FoundAtFrame(frames, axis, i);
        LastAtFrame(frames, axis, i);
      } else {
        NoFrameThere(frames, axis, tick);
      }
    }
  }

  lemma BaseIsDistinct(base: Layer, sources: seq<Layer>, manual: map<Axis, real>)
    requires LayerMerging.IsMerge(base, sources, manual)
    ensures OneValueATick(base.frames)
  {
    DistinctIsOneValue(base.frames);
  }

  lemma FramesOfIsDistinct(tracks: Tracks)
    requires FramesOf(tracks).Ok?
    ensures OneValueATick(FramesOf(tracks).value)
  {
    DistinctIsOneValue(FramesOf(tracks).value);
  }

  // ----- The curves that are collected ----------------------------------------------------------------

  lemma {:induction false} CollectedLike(curves: seq<Curve>, names: Names, i: nat)
    requires i < |curves|
    ensures Collected(curves, names)[i] == curves[i].(id := Collected(curves, names)[i].id)
  {
    if i < |curves| - 1 {
      CollectedLike(Front(curves), names, i);
    }
  }

  /** A name of one of the curves, or one of the first new ones. */
  ghost predicate OldOrNew(id: string, curves: seq<Curve>, names: Names) {
    id in IdsOf(curves) || exists k: nat :: k < |curves| && names(k) == id
  }

  lemma {:induction false} CollectedIds(curves: seq<Curve>, names: Names, i: nat)
    requires i < |curves|
    ensures OldOrNew(Collected(curves, names)[i].id, curves, names)
  {
    if i < |curves| - 1 {
      CollectedIds(Front(curves), names, i);
    } else {
      assert curves[i] in curves;
    }
  }

  lemma {:induction false} CollectedUnique(curves: seq<Curve>, names: Names)
    requires Fresh(names, curves)
    ensures UniqueIds(Collected(curves, names))
  {
    if curves != [] {
      var before, last := Collected(Front(curves), names), Collected(curves, names)[|curves| - 1];
      CollectedUnique(Front(curves), names);
      forall i | 0 <= i < |before| ensures before[i].id != last.id {
        assert before[i] in before;
        CollectedIds(Front(curves), names, i);
      }
    }
  }

  lemma {:induction false} FromSomeSource(layers: seq<Layer>, curve: Curve)
    requires curve in SourceCurves(layers)
    ensures exists i :: 0 <= i < |layers| && curve in layers[i].curves
  {
    if curve in SourceCurves(Front(layers)) {
      FromSomeSource(Front(layers), curve);
      var i :| 0 <= i < |layers| - 1 && curve in Front(layers)[i].curves;
      assert curve in layers[i].curves;
    } else {
      assert curve in layers[|layers| - 1].curves;
    }
  }

  // ----- The curves for the gaps ------------------------------------------------------------------------

  /** Curves that draw what the frames have. */
  ghost predicate Fitting(render: Render, frames: seq<Frame>, curve: Curve) {
    CurveOk(render, curve) && Matches(render, frames, curve, MatchTolerance)
  }

  ghost predicate NamedFrom(curves: seq<Curve>, names: Names, from: nat) {
    forall i :: 0 <= i < |curves| ==> curves[i].id == names(from + i)
  }

  ghost predicate GoodFillers(render: Render, frames: seq<Frame>, curves: seq<Curve>, names: Names, from: nat) {
    NamedFrom(curves, names, from) && forall i :: 0 <= i < |curves| ==> Fitting(render, frames, curves[i])
  }

  lemma GoodFillersJoin(
    render: Render, frames: seq<Frame>, a: seq<Curve>, b: seq<Curve>, names: Names, from: nat)
    requires GoodFillers(render, frames, a, names, from) && GoodFillers(render, frames, b, names, from + |a|)
    ensures GoodFillers(render, frames, a + b, names, from)
  {
  }

  lemma {:induction false} CornersRise(samples: seq<Point>, k: nat)
    requires k <= |samples|
    ensures forall i :: 0 < i < |Corners(samples, k)| ==> Corners(samples, k)[i - 1].tick < Corners(samples, k)[i].tick
  {
    if k > 0 {
      CornersRise(samples, k - 1);
    }
  }

  lemma FillerFits(render: Render, frames: seq<Frame>, axis: Axis, gap: seq<Point>, names: Names, k: nat)
    requires Renders(render)
    ensures GoodFillers(render, frames, Filler(render, frames, axis, gap, names(k)), names, k)
  {
    var piece := CurveFromSamples(axis, gap, names(k));
    if Filler(render, frames, axis, gap, names(k)) != [] {
      NoMismatchMeansMatch(render, frames, [piece.value], MatchTolerance);
      assert Matches(render, frames, [piece.value][0], MatchTolerance);
      CornersRise(gap, |gap|);
    }
  }

  ghost predicate GoodGapFiller(fill: GapFiller, render: Render, frames: seq<Frame>, names: Names) {
    forall gap, k: nat :: GapFilledWell(fill, render, frames, names, gap, k)
  }

  ghost predicate GapFilledWell(
    fill: GapFiller, render: Render, frames: seq<Frame>, names: Names, gap: seq<Point>, k: nat)
  {
    GoodFillers(render, frames, fill(gap, names(k)), names, k)
  }

  lemma {:induction false} FillersFit(
    fill: GapFiller, render: Render, frames: seq<Frame>, gaps: seq<seq<Point>>, names: Names, from: nat)
    requires GoodGapFiller(fill, render, frames, names)
    ensures GoodFillers(render, frames, Fillers(fill, gaps, names, from), names, from)
  {
    if gaps != [] {
      var before := Fillers(fill, Front(gaps), names, from);
      FillersFit(fill, render, frames, Front(gaps), names, from);
      assert GapFilledWell(fill, render, frames, names, Last(gaps), from + |before|);
      GoodFillersJoin(render, frames, before, fill(Last(gaps), names(from + |before|)), names, from);
    }
  }

  lemma AxisFillersFit(render: Render, frames: seq<Frame>, curves: seq<Curve>, axis: Axis, names: Names, from: nat)
    requires Renders(render)
    ensures GoodFillers(render, frames, AxisFillers(render, frames, curves, axis, names, from), names, from)
  {
    var fill := GapFillerFor(render, frames, axis);
    forall gap, k: nat ensures GapFilledWell(fill, render, frames, names, gap, k) {
      FillerFits(render, frames, axis, gap, names, k);
    }
    FillersFit(fill, render, frames, UncoveredGaps(Series(frames, axis), curves, axis), names, from);
  }

  ghost predicate GoodAxisFiller(fill: AxisFiller, render: Render, frames: seq<Frame>, names: Names) {
    forall axis, from: nat :: AxisFilledWell(fill, render, frames, names, axis, from)
  }

  ghost predicate AxisFilledWell(
    fill: AxisFiller, render: Render, frames: seq<Frame>, names: Names, axis: Axis, from: nat)
  {
    GoodFillers(render, frames, fill(axis, from), names, from)
  }

  lemma {:induction false} AllFillersFit(
    fill: AxisFiller, render: Render, frames: seq<Frame>, axes: seq<Axis>, names: Names, from: nat)
    requires GoodAxisFiller(fill, render, frames, names)
    ensures GoodFillers(render, frames, AllFillers(fill, axes, from), names, from)
  {
    if axes != [] {
      var before := AllFillers(fill, Front(axes), from);
      AllFillersFit(fill, render, frames, Front(axes), names, from);
      assert AxisFilledWell(fill, render, frames, names, Last(axes), from + |before|);
      GoodFillersJoin(render, frames, before, fill(Last(axes), from + |before|), names, from);
    }
  }

  lemma GapCurvesFit(render: Render, frames: seq<Frame>, curves: seq<Curve>, names: Names)
    requires Renders(render)
    ensures GoodFillers(render, frames, CurvesForGaps(render, frames, curves, names), names, |curves|)
  {
    var fill := AxisFillerFor(render, frames, curves, names);
    forall axis, from: nat ensures AxisFilledWell(fill, render, frames, names, axis, from) {
      AxisFillersFit(render, frames, curves, axis, names, from);
    }
    AllFillersFit(fill, render, frames, SortedSet(AxesOf(frames)), names, |curves|);
  }

  // ----- The curves of the merge ----------------------------------------------------------------------------

  /** A layer that may be merged: its frames have one value a tick, which is what its curves
      draw. */
  ghost predicate GoodSource(render: Render, layer: Layer) {
    OneValueATick(layer.frames) && forall curve :: curve in layer.curves ==> Fitting(render, layer.frames, curve)
  }

  ghost predicate GoodSources(render: Render, sources: seq<Layer>, names: Names) {
    && Renders(render) && Enabled(sources) == sources && LayerConflicts.Disjoint(sources)
    && (forall i :: 0 <= i < |sources| ==> GoodSource(render, sources[i]))
    && Fresh(names, SourceCurves(sources)) && NoOverlaps(Collected(SourceCurves(sources), names))
  }

  lemma BaseHasValue(base: Layer, sources: seq<Layer>, manual: map<Axis, real>, i: nat, axis: Axis, tick: nat)
    requires LayerMerging.IsMerge(base, sources, manual)
    requires Enabled(sources) == sources && LayerConflicts.Disjoint(sources)
    requires i < |sources| && tick > 0 && FirstAt(sources[i].frames, axis, tick).Some?
    ensures FirstAt(base.frames, axis, tick) == FirstAt(sources[i].frames, axis, tick)
  {
    var table :|
      Ownership.IsOwnership(table, sources) && base.frames == LayerMerging.MergedFrames(sources, manual, table);
    LayerRendering.SupplierIsUnique(sources, axis, tick, i);
    Ownership.OwnedWhereSupplied(sources, axis, tick);
    LayerMerging.MergedSupply(sources, manual, table, axis, tick);
  }

  lemma NothingAtZero(base: Layer, sources: seq<Layer>, manual: map<Axis, real>, axis: Axis)
    requires LayerMerging.IsMerge(base, sources, manual)
    ensures LastAt(base.frames, axis, 0).None?
  {
    NoFrameThere(base.frames, axis, 0);
  }

  /** A curve that starts at 0 has lost its first sample. */
  lemma FittingStartsLater(render: Render, base: Layer, sources: seq<Layer>, manual: map<Axis, real>, curve: Curve)
    requires Renders(render) && LayerMerging.IsMerge(base, sources, manual) && Fitting(render, base.frames, curve)
    ensures curve.points[0].tick > 0
  {
    DrawnFills(render, curve);
    BoundsOfSpaced(curve.points);
    NothingAtZero(base, sources, manual, curve.axis);
    assert Agrees(base.frames, curve.axis, Drawn(render, curve)[0], MatchTolerance);
  }

  lemma SourceCurveFits(
    render: Render, base: Layer, sources: seq<Layer>, manual: map<Axis, real>, names: Names, i: nat, curve: Curve)
    requires GoodSources(render, sources, names) && LayerMerging.IsMerge(base, sources, manual)
    requires i < |sources| && curve in sources[i].curves && curve.points[0].tick > 0
    ensures Fitting(render, base.frames, curve)
  {
    var s := sources[i];
    assert GoodSource(render, s) && Fitting(render, s.frames, curve);
    DrawnFills(render, curve);
    BoundsOfSpaced(curve.points);
    BaseIsDistinct(base, sources, manual);
    forall k | 0 <= k < |Drawn(render, curve)|
      ensures Agrees(base.frames, curve.axis, Drawn(render, curve)[k], MatchTolerance)
    {
      var p := Drawn(render, curve)[k];
      assert Agrees(s.frames, curve.axis, p, MatchTolerance);
      assert FirstAt(s.frames, curve.axis, p.tick) == LastAt(s.frames, curve.axis, p.tick);
      BaseHasValue(base, sources, manual, i, curve.axis, p.tick);
      assert FirstAt(base.frames, curve.axis, p.tick) == LastAt(base.frames, curve.axis, p.tick);
    }
  }

  /** A collected curve can be drawn, and has what it draws in the frames exactly if it does
      not start at 0. */
  lemma CollectedFits(
    render: Render, base: Layer, sources: seq<Layer>, manual: map<Axis, real>, names: Names, j: nat)
    requires GoodSources(render, sources, names) && LayerMerging.IsMerge(base, sources, manual)
    requires j < |SourceCurves(sources)|
    ensures var curve := Collected(SourceCurves(sources), names)[j];
            CurveOk(render, curve) && (Fitting(render, base.frames, curve) <==> curve.points[0].tick > 0)
  {
    var curves := SourceCurves(sources);
    var curve := Collected(curves, names)[j];
    CollectedLike(curves, names, j);
    FromSomeSource(sources, curves[j]);
    var i :| 0 <= i < |sources| && curves[j] in sources[i].curves;
    assert GoodSource(render, sources[i]) && Fitting(render, sources[i].frames, curves[j]);
    if curve.points[0].tick > 0 {
      SourceCurveFits(render, base, sources, manual, names, i, curves[j]);
    }
    if Fitting(render, base.frames, curve) {
      FittingStartsLater(render, base, sources, manual, curve);
    }
  }

  lemma ExtendedUnique(collected: seq<Curve>, filled: seq<Curve>, curves: seq<Curve>, names: Names)
    requires collected == Collected(curves, names) && Fresh(names, curves) && NamedFrom(filled, names, |curves|)
    ensures UniqueIds(collected + filled)
  {
    CollectedUnique(curves, names);
    forall i, j | 0 <= i < |collected| && 0 <= j < |filled| ensures collected[i].id != filled[j].id {
      CollectedIds(curves, names, i);
      if collected[i].id in IdsOf(curves) {
        var curve :| curve in curves && curve.id == collected[i].id;
        var k :| 0 <= k < |curves| && curves[k] == curve;
      }
    }
  }

  /** The curves of the merge: apart, each under its own name, and in the frames unless they
      start at 0. */
  lemma CurvesOfMergeOk(render: Render, base: Layer, sources: seq<Layer>, manual: map<Axis, real>, names: Names)
    requires GoodSources(render, sources, names) && LayerMerging.IsMerge(base, sources, manual)
    ensures var curves := CurvesOfMerge(render, sources, base.frames, names);
            && Structure(render, curves)
            && forall i :: 0 <= i < |curves| ==>
                 (Fitting(render, base.frames, curves[i]) <==> curves[i].points[0].tick > 0)
  {
    var all := SourceCurves(sources);
    var collected := Collected(all, names);
    var filled := CurvesForGaps(render, base.frames, collected, names);
    var curves := CurvesOfMerge(render, sources, base.frames, names);
    GapCurvesFit(render, base.frames, collected, names);
    ExtendedUnique(collected, filled, all, names);
    CollectedUnique(all, names);
    forall i | 0 <= i < |curves|
      ensures CurveOk(render, curves[i])
      ensures Fitting(render, base.frames, curves[i]) <==> curves[i].points[0].tick > 0
    {
      if i < |collected| {
        CollectedFits(render, base, sources, manual, names, i);
      } else {
        assert Fitting(render, base.frames, filled[i - |collected|]);
        FittingStartsLater(render, base, sources, manual, curves[i]);
      }
    }
  }

  // ----- The merged layer ------------------------------------------------------------------------------------

  /** What becomes of an axis: one curve in step if it had several, else nothing changes. */
  ghost predicate AxisMerged(render: Render, before: Layer, after: Layer, axis: Axis) {
    if |CurvesOn(before.curves, axis)| >= 2 then
      |CurvesOn(after.curves, axis)| == 1 && InStep(render, after.frames, CurvesOn(after.curves, axis)[0])
    else SameMotion(before, after, axis)
  }

  lemma GatheredTracks(layer: Layer, after: Work, render: Render, axis: Axis)
    requires FramesOf(after.tracks).Ok? && AxisDone(render, WorkOf(layer), after, axis)
    ensures AxisMerged(render, layer, layer.(frames := FramesOf(after.tracks).value, curves := after.curves), axis)
  {
    if |CurvesOn(layer.curves, axis)| >= 2 {
      HeldIsInStep(render, after.tracks, CurvesOn(after.curves, axis)[0]);
    } else {
      forall tick ensures FirstAt(layer.frames, axis, tick) == FirstAt(FramesOf(after.tracks).value, axis, tick) {
        FramesLookup(after.tracks, axis, tick);
        TracksLookup(layer.frames, axis, tick);
      }
    }
  }

  lemma NotListedDone(render: Render, w: Work, after: Work, axis: Axis)
    requires SameOn(w, after, axis) && axis !in AxesInOrder(w.curves)
    ensures AxisDone(render, w, after, axis)
  {
    NotListed(w.curves, axis);
  }

  lemma OnePerAxisMerged(layer: Layer, render: Render, axis: Axis)
    requires !Gatherable(layer.curves)
    ensures AxisMerged(render, layer, layer, axis) && |CurvesOn(layer.curves, axis)| <= 1
  {
    if axis !in AxesInOrder(layer.curves) { NotListed(layer.curves, axis); }
  }

  /** One curve an axis, whatever the frames were. */
  lemma GatheredLayer(layer: Layer, render: Render, axis: Axis, k: Point)
    requires Renders(render) && Structure(render, layer.curves) && OneValueATick(layer.frames)
    requires OneCurvePerAxis(layer, render).Ok?
    ensures var after := OneCurvePerAxis(layer, render).value;
            && Structure(render, after.curves) && OneValueATick(after.frames) && AxisMerged(render, layer, after, axis)
            && (HasKnot(after.curves, axis, k) <==> HasKnot(layer.curves, axis, k))
  {
    if Gatherable(layer.curves) {
      var w, axes := WorkOf(layer), AxesInOrder(layer.curves);
      var after := GatheredAll(w, render, axes).value;
      GatheringEvery(w, render, axes, axis, k);
      FramesOfIsDistinct(after.tracks);
      if axis !in axes { NotListedDone(render, w, after, axis); }
      GatheredTracks(layer, after, render, axis);
    } else {
      OnePerAxisMerged(layer, render, axis);
    }
  }

  /** With the same values on an axis, a curve fits both or neither. */
  lemma SameFits(render: Render, a: Layer, b: Layer, curve: Curve)
    requires OneValueATick(a.frames) && OneValueATick(b.frames) && CurveOk(render, curve)
    requires forall tick :: FirstAt(a.frames, curve.axis, tick) == FirstAt(b.frames, curve.axis, tick)
    ensures Matches(render, a.frames, curve, MatchTolerance) <==> Matches(render, b.frames, curve, MatchTolerance)
  {
    forall i | 0 <= i < |Drawn(render, curve)|
      ensures Agrees(a.frames, curve.axis, Drawn(render, curve)[i], MatchTolerance) <==>
              Agrees(b.frames, curve.axis, Drawn(render, curve)[i], MatchTolerance)
    {
      var tick := Drawn(render, curve)[i].tick;
      assert FirstAt(a.frames, curve.axis, tick) == LastAt(a.frames, curve.axis, tick);
      assert FirstAt(b.frames, curve.axis, tick) == LastAt(b.frames, curve.axis, tick);
    }
  }

  lemma InStepMatches(render: Render, frames: seq<Frame>, curve: Curve)
    requires InStep(render, frames, curve) && OneValueATick(frames)
    ensures Matches(render, frames, curve, MatchTolerance)
  {
    var samples := render(curve.points, curve.order).value.1;
    forall i | 0 <= i < |samples| ensures Agrees(frames, curve.axis, samples[i], MatchTolerance) {
      assert samples[i] == Drawn(render, curve)[i];
      assert FirstAt(frames, curve.axis, samples[i].tick) == LastAt(frames, curve.axis, samples[i].tick);
    }
  }

  /** A curve that is left alone on its axis and starts at 0. */
  ghost predicate StartsAtZero(curves: seq<Curve>, axis: Axis) {
    |CurvesOn(curves, axis)| == 1 && |CurvesOn(curves, axis)[0].points| >= 2 && CurvesOn(curves, axis)[0].points[0].tick == 0
  }

  lemma OnlyOneOn(curves: seq<Curve>, curve: Curve)
    requires curve in curves && |CurvesOn(curves, curve.axis)| <= 1
    ensures CurvesOn(curves, curve.axis) == [curve]
  {
    CurvesOnAxis(curves, curve.axis, curve);
    assert curve in CurvesOn(curves, curve.axis);
  }

  /** A curve of the merged layer is what the frames have, unless it alone was on its axis
      and starts at 0. */
  lemma MergedCurveMatches(render: Render, before: Layer, after: Layer, curve: Curve)
    requires Structure(render, before.curves) && OneValueATick(before.frames)
    requires forall i :: 0 <= i < |before.curves| ==>
               (Fitting(render, before.frames, before.curves[i]) <==> before.curves[i].points[0].tick > 0)
    requires Structure(render, after.curves) && OneValueATick(after.frames)
    requires AxisMerged(render, before, after, curve.axis) && curve in after.curves
    ensures CurvesOn(after.curves, curve.axis) == [curve]
    ensures Matches(render, after.frames, curve, MatchTolerance) <==> !StartsAtZero(before.curves, curve.axis)
  {
    CurvesOnAxis(after.curves, curve.axis, curve);
    OnlyOneOn(after.curves, curve);
    if |CurvesOn(before.curves, curve.axis)| >= 2 {
      InStepMatches(render, after.frames, curve);
    } else {
      CurvesOnAxis(before.curves, curve.axis, curve);
      var i :| 0 <= i < |before.curves| && before.curves[i] == curve;
      assert CurveOk(render, before.curves[i]);
      SameFits(render, before, after, curve);
    }
  }

  /** What the merged layer is like. */
  ghost predicate WellMerged(render: Render, before: Layer, after: Layer) {
    && OnePerAxis(after.curves) && UniqueIds(after.curves)
    && (forall axis :: |CurvesOn(before.curves, axis)| <= 1 ==> SameMotion(before, after, axis))
    && (forall axis, k :: HasKnot(after.curves, axis, k) <==> HasKnot(before.curves, axis, k))
    && (Mismatches(render, after.frames, after.curves, MatchTolerance) == Ok([]) <==>
          forall axis :: !StartsAtZero(before.curves, axis))
  }

  lemma StillThere(render: Render, before: Layer, after: Layer, axis: Axis)
    requires AxisMerged(render, before, after, axis) && StartsAtZero(before.curves, axis)
    ensures exists i :: 0 <= i < |after.curves| && after.curves[i].axis == axis
  {
    var curve := CurvesOn(after.curves, axis)[0];
    assert curve in CurvesOn(after.curves, axis);
    CurvesOnAxis(after.curves, axis, curve);
  }

  /** The frames are what the curves draw, unless a curve that is alone starts at 0. */
  lemma MergedFramesMatch(render: Render, before: Layer, after: Layer)
    requires Renders(render) && forall axis :: AxisMerged(render, before, after, axis)
    requires forall i :: 0 <= i < |after.curves| ==>
               (Matches(render, after.frames, after.curves[i], MatchTolerance) <==>
                  !StartsAtZero(before.curves, after.curves[i].axis))
    ensures Mismatches(render, after.frames, after.curves, MatchTolerance) == Ok([]) <==>
            forall axis :: !StartsAtZero(before.curves, axis)
  {
    NoMismatchMeansMatch(render, after.frames, after.curves, MatchTolerance);
    if axis :| StartsAtZero(before.curves, axis) {
      assert AxisMerged(render, before, after, axis);
      StillThere(render, before, after, axis);
    }
  }

  lemma MergedOnePerAxis(render: Render, before: Layer, after: Layer, axis: Axis)
    requires AxisMerged(render, before, after, axis)
    ensures |CurvesOn(after.curves, axis)| <= 1
    ensures |CurvesOn(before.curves, axis)| <= 1 ==> SameMotion(before, after, axis)
  {
  }

  lemma LayerIsMerged(render: Render, before: Layer, after: Layer)
    requires Renders(render) && Structure(render, before.curves) && OneValueATick(before.frames)
    requires forall i :: 0 <= i < |before.curves| ==>
               (Fitting(render, before.frames, before.curves[i]) <==> before.curves[i].points[0].tick > 0)
    requires OneCurvePerAxis(before, render) == Ok(after)
    ensures WellMerged(render, before, after)
  {
    GatheredLayer(before, render, 0, Point(0, 0.0));
    forall axis ensures AxisMerged(render, before, after, axis) { GatheredLayer(before, render, axis, Point(0, 0.0)); }
    forall axis
      ensures |CurvesOn(after.curves, axis)| <= 1
      ensures |CurvesOn(before.curves, axis)| <= 1 ==> SameMotion(before, after, axis)
    {
      MergedOnePerAxis(render, before, after, axis);
    }
    forall axis, k ensures HasKnot(after.curves, axis, k) <==> HasKnot(before.curves, axis, k) {
      GatheredLayer(before, render, axis, k);
    }
    forall i | 0 <= i < |after.curves|
      ensures Matches(render, after.frames, after.curves[i], MatchTolerance) <==>
              !StartsAtZero(before.curves, after.curves[i].axis)
    {
      MergedCurveMatches(render, before, after, after.curves[i]);
    }
    MergedFramesMatch(render, before, after);
  }

  /** Merging good sources gives a layer with every point of theirs, one curve an axis, and
      frames that are what the curves draw, unless a curve that is alone on its axis starts
      at 0, where the merged layer has no frame. */
  lemma MergingKeepsCurves(
    render: Render, base: Layer, sources: seq<Layer>, manual: map<Axis, real>, names: Names, merged: Layer)
    requires GoodSources(render, sources, names) && LayerMerging.IsMerge(base, sources, manual)
    requires WithCurves(render, base, sources, names) == Ok(merged)
    ensures WellMerged(render, base.(curves := CurvesOfMerge(render, sources, base.frames, names)), merged)
  {
    CurvesOfMergeOk(render, base, sources, manual, names);
    BaseIsDistinct(base, sources, manual);
    LayerIsMerged(render, base.(curves := CurvesOfMerge(render, sources, base.frames, names)), merged);
  }

  // ----- From the layers that are chosen ----------------------------------------------------------------------

  /** A layer as it is stored: one value a tick, the points of every curve in time order. */
  ghost predicate Tidy(layer: Layer) {
    OneValueATick(layer.frames) && forall curve :: curve in layer.curves ==> Ordered(curve.points, TickLeq())
  }

  lemma MatchingIsGood(layer: Layer)
    requires Tidy(layer) && Mismatches(Renderer(), layer.frames, layer.curves, MatchTolerance) == Ok([])
    ensures GoodSource(Renderer(), layer)
  {
    CurveEngineRenders();
    NoMismatchMeansMatch(Renderer(), layer.frames, layer.curves, MatchTolerance);
    forall curve | curve in layer.curves ensures Fitting(Renderer(), layer.frames, curve) {
      var i :| 0 <= i < |layer.curves| && layer.curves[i] == curve;
      assert Matches(Renderer(), layer.frames, layer.curves[i], MatchTolerance);
      SortOfOrdered(curve.points, TickLeq());
    }
  }

  lemma {:induction false} LastAtMoves(frames: seq<Frame>, offset: nat, axis: Axis, tick: nat)
    ensures LastAt(LayerMerging.ShiftFrames(frames, offset), axis, tick + offset) == LastAt(frames, axis, tick)
  {
    if frames != [] {
      assert Front(LayerMerging.ShiftFrames(frames, offset)) == LayerMerging.ShiftFrames(Front(frames), offset);
      LastAtMoves(Front(frames), offset, axis, tick);
    }
  }

  lemma OneValueMoves(frames: seq<Frame>, offset: nat)
    requires OneValueATick(frames)
    ensures OneValueATick(LayerMerging.ShiftFrames(frames, offset))
  {
    var moved := LayerMerging.ShiftFrames(frames, offset);
    forall axis, tick: nat ensures FirstAt(moved, axis, tick) == LastAt(moved, axis, tick) {
      if tick < offset {
        NoFrameThere(moved, axis, tick);
      } else {
        LayerMerging.ShiftMoves(frames, offset, axis, tick - offset);
        LastAtMoves(frames, offset, axis, tick - offset);
        assert FirstAt(frames, axis, tick - offset) == LastAt(frames, axis, tick - offset);
      }
    }
  }

  lemma DrawnMoves(curve: Curve, offset: nat)
    requires CurveOk(Renderer(), curve)
    ensures CurveOk(Renderer(), LayerMerging.ShiftCurve(curve, offset))
    ensures Drawn(Renderer(), LayerMerging.ShiftCurve(curve, offset)) == ShiftSamples(Drawn(Renderer(), curve), offset)
  {
    RenderingMoves(curve.points, curve.order, offset);
  }

  lemma AgreesMoves(frames: seq<Frame>, axis: Axis, sample: Point, offset: nat)
    requires Agrees(frames, axis, sample, MatchTolerance)
    ensures Agrees(LayerMerging.ShiftFrames(frames, offset), axis, ShiftPoint(sample, offset), MatchTolerance)
  {
    LastAtMoves(frames, offset, axis, sample.tick);
  }

  lemma FittingMoves(frames: seq<Frame>, curve: Curve, offset: nat)
    requires Fitting(Renderer(), frames, curve)
    ensures Fitting(Renderer(), LayerMerging.ShiftFrames(frames, offset), LayerMerging.ShiftCurve(curve, offset))
  {
    var samples := Drawn(Renderer(), curve);
    DrawnMoves(curve, offset);
    forall i | 0 <= i < |samples|
      ensures Agrees(LayerMerging.ShiftFrames(frames, offset), curve.axis, ShiftSamples(samples, offset)[i], MatchTolerance)
    {
      AgreesMoves(frames, curve.axis, samples[i], offset);
    }
  }

  lemma GoodMoves(layer: Layer, stationary: seq<Layer>)
    requires GoodSource(Renderer(), layer) && layer.frames != []
    ensures GoodSource(Renderer(), LayerMerging.Shifted(stationary, layer))
  {
    var offset := LayerMerging.AppendOffset(stationary, layer);
    var moved := LayerMerging.Shifted(stationary, layer);
    OneValueMoves(layer.frames, offset);
    forall curve | curve in moved.curves ensures Fitting(Renderer(), moved.frames, curve) {
      var i :| 0 <= i < |moved.curves| && moved.curves[i] == curve;
      assert layer.curves[i] in layer.curves;
      FittingMoves(layer.frames, layer.curves[i], offset);
    }
  }

  lemma {:induction false} ChosenAreLayers(layers: seq<Layer>, ids: set<string>, layer: Layer)
    requires layer in LayerMerging.Chosen(layers, ids)
    ensures exists stored :: stored in layers && layer == stored.(enabled := true)
  {
    if layers[0].id !in ids || layer != layers[0].(enabled := true) {
      ChosenAreLayers(layers[1..], ids, layer);
    } else {
      assert layers[0] in layers;
    }
  }

  ghost predicate AllGood(layers: seq<Layer>) {
    forall i :: 0 <= i < |layers| ==> GoodSource(Renderer(), layers[i])
  }

  lemma ChosenAreGood(layers: seq<Layer>, ids: set<string>)
    requires AllMatch(Renderer(), LayerMerging.Chosen(layers, ids)) && forall layer :: layer in layers ==> Tidy(layer)
    ensures AllGood(LayerMerging.Chosen(layers, ids))
  {
    var chosen := LayerMerging.Chosen(layers, ids);
    forall i | 0 <= i < |chosen| ensures GoodSource(Renderer(), chosen[i]) {
      assert chosen[i] in chosen;
      ChosenAreLayers(layers, ids, chosen[i]);
      MatchingIsGood(chosen[i]);
    }
  }

  lemma SourcesAllGood(layers: seq<Layer>, ids: set<string>, appendId: Option<string>)
    requires LayerMerging.Sources(layers, ids, appendId).Ok? && AllGood(LayerMerging.Chosen(layers, ids))
    ensures AllGood(LayerMerging.Sources(layers, ids, appendId).value)
  {
    var chosen := LayerMerging.Chosen(layers, ids);
    if appendId.Some? {
      var k := LayerMerging.IndexOf(chosen, appendId.value);
      LayerMerging.NoAxesWithoutFrames(chosen[k]);
      GoodMoves(chosen[k], chosen[..k] + chosen[k + 1..]);
    }
  }

  /** Layers that may be merged are good sources. */
  lemma SourcesAreGood(layers: seq<Layer>, ids: set<string>, appendId: Option<string>, names: Names)
    requires Mergeable(Renderer(), layers, ids, appendId) && forall layer :: layer in layers ==> Tidy(layer)
    requires var curves := SourceCurves(LayerMerging.Sources(layers, ids, appendId).value);
             Fresh(names, curves) && NoOverlaps(Collected(curves, names))
    ensures GoodSources(Renderer(), LayerMerging.Sources(layers, ids, appendId).value, names)
  {
    var sources := LayerMerging.Sources(layers, ids, appendId).value;
    CurveEngineRenders();
    LayerMerging.SourcesAreEnabled(layers, ids, appendId);
    LayerConflicts.NoConflictsMeansConflictFree(sources);
    ChosenAreGood(layers, ids);
    SourcesAllGood(layers, ids, appendId);
  }

  // ----- The motion ---------------------------------------------------------------------------------------------

  /** An axis with at most one curve moves as the sources do, exactly if no lone value at
      tick 0 gets lost. */
  lemma MergedMotion(
    before: Layer, merged: Layer, sources: seq<Layer>, manual: map<Axis, real>, axis: Axis)
    requires LayerMerging.IsMerge(before, sources, manual) && LayerConflicts.ConflictFree(sources)
    requires merged.enabled && SameMotion(before, merged, axis)
    ensures LayerMerging.Harmless(sources, axis, manual) <==>
            forall tick: nat ::
              LayerMerging.PositionOf([merged], manual, axis, tick) == LayerMerging.PositionOf(sources, manual, axis, tick)
  {
    LayerMerging.MergeKeepsMotion(before, sources, manual, axis);
    LayerMerging.EnabledOne(before);
    LayerMerging.EnabledOne(merged);
    var a, b := LayerRendering.SupplyOf([before], axis), LayerRendering.SupplyOf([merged], axis);
    forall tick: nat ensures a(tick) == b(tick) {
      LayerMerging.SupplyOfOne(before, axis, tick);
      LayerMerging.SupplyOfOne(merged, axis, tick);
    }
    forall tick: nat
      ensures LayerMerging.PositionOf([merged], manual, axis, tick) == LayerMerging.PositionOf([before], manual, axis, tick)
    {
      LayerRendering.RenderedIsMotion([before], manual, axis, tick);
      LayerRendering.RenderedIsMotion([merged], manual, axis, tick);
      LayerRendering.MotionDependsOnSupply(a, b, LayerRendering.InitialOf(manual, axis), tick);
    }
  }
}

/** Two layers whose merge is not in step with its curves, though each of them is. */
module MergeStart {
  import opened MotionTypes
  import opened Sorting
  import opened Timeline
  import opened LayerConflicts
  import LayerRendering = Rendering
  import opened Merging
  import opened CurveEngine
  import opened EditState
  import opened LayerEdit
  import opened RangeEdit
  import opened EditLayer
  import opened LayerValidation
  import opened CurveFrames
  import opened CurveMerging
  import opened MergedCurves

  function Corner(tick: nat): CurvePoint { Straight(Point(tick, 0.0)) }

  /** A straight line at 0.0 from tick 0 to tick 1. */
  function Line(): Curve { Curve("line", 0, 1, [Corner(0), Corner(1)]) }

  function Drawing(): Layer {
    Layer("a", "a", true, [Frame(0, map[0 := 0.0]), Frame(1, map[0 := 0.0])], [Line()])
  }

  function Other(): Layer { Layer("b", "b", true, [Frame(1, map[1 := 0.0])], []) }

  function Both(): seq<Layer> { [Drawing(), Other()] }

  lemma DrawingHas(axis: Axis, tick: nat)
    ensures FirstAt(Drawing().frames, axis, tick) == if axis == 0 && tick <= 1 then Some(0.0) else None
    ensures LastAt(Drawing().frames, axis, tick) == FirstAt(Drawing().frames, axis, tick)
  {
    var frames := Drawing().frames;
    assert frames[1..] == [frames[1]] && Front(frames) == [frames[0]] && Front([frames[0]]) == [];
    assert FirstAt([frames[1]], axis, tick) == if axis == 0 && tick == 1 then Some(0.0) else None;
    assert LastAt([frames[0]], axis, tick) == if axis == 0 && tick == 0 then Some(0.0) else None;
  }

  lemma OtherHas(axis: Axis, tick: nat)
    ensures FirstAt(Other().frames, axis, tick) == if axis == 1 && tick == 1 then Some(0.0) else None
    ensures LastAt(Other().frames, axis, tick) == FirstAt(Other().frames, axis, tick)
  {
    assert Front(Other().frames) == [];
  }

  lemma LineDraws()
    ensures CurveOk(Renderer(), Line()) && Drawn(Renderer(), Line()) == [Point(0, 0.0), Point(1, 0.0)]
  {
    var points := Line().points;
    SpacedIsSorted(points);
    CurveEngineRenders();
    assert RendersWell(Renderer(), points, 1);
    RenderingPassesThrough(points, 1, 0);
    RenderingPassesThrough(points, 1, 1);
  }

  lemma DrawingIsGood()
    ensures Tidy(Drawing()) && Mismatches(Renderer(), Drawing().frames, Drawing().curves, MatchTolerance) == Ok([])
  {
    LineDraws();
    CurveEngineRenders();
    forall axis, tick ensures FirstAt(Drawing().frames, axis, tick) == LastAt(Drawing().frames, axis, tick) {
      DrawingHas(axis, tick);
    }
    DrawingHas(0, 0);
    DrawingHas(0, 1);
    var samples := Drawn(Renderer(), Line());
    forall i | 0 <= i < |samples| ensures Agrees(Drawing().frames, 0, samples[i], MatchTolerance) {}
    NoMismatchMeansMatch(Renderer(), Drawing().frames, Drawing().curves, MatchTolerance);
  }

  lemma OtherIsGood()
    ensures Tidy(Other()) && Mismatches(Renderer(), Other().frames, Other().curves, MatchTolerance) == Ok([])
  {
    forall axis, tick ensures FirstAt(Other().frames, axis, tick) == LastAt(Other().frames, axis, tick) {
      OtherHas(axis, tick);
    }
  }

  lemma BothChosen()
    ensures Sources(Both(), {"a", "b"}, None) == Ok(Both()) && Merging.Chosen(Both(), {"a", "b"}) == Both()
    ensures Enabled(Both()) == Both()
  {
    var both := Both();
    assert 0 in Drawing().frames[0].values && 1 in Other().frames[0].values;
    assert 0 in AxesOf(Drawing().frames) && 1 in AxesOf(Other().frames);
    assert both[1..] == [both[1]] && both[1..][1..] == [];
    assert Merging.Chosen(both[1..], {"a", "b"}) == [both[1]];
    assert Merging.Chosen(both, {"a", "b"}) == both;
    AllEnabled(both);
  }

  lemma BothAreFree()
    ensures ProjectConflicts(Both(), None) == []
  {
    BothChosen();
    forall i, j, axis | 0 <= i < j < 2 ensures NeverClash(Both()[i], Both()[j], axis) {
      forall tick ensures !Clash(Both()[i], Both()[j], axis, tick) {
        DrawingHas(axis, tick);
        OtherHas(axis, tick);
      }
    }
    NoConflictsMeansConflictFree(Both());
  }

  lemma NoAxisIsMixed()
    ensures !Mixed(Renderer(), Both())
  {
    forall axis, layer | layer in Both() && axis in AxesOf(layer.frames)
      ensures layer == if axis == 0 then Drawing() else Other()
    {
      var frame :| frame in layer.frames && axis in frame.values;
    }
  }

  /** The two layers may be merged. */
  lemma BothMergeable()
    ensures Mergeable(Renderer(), Both(), {"a", "b"}, None) && forall layer :: layer in Both() ==> Tidy(layer)
  {
    BothChosen();
    BothAreFree();
    NoAxisIsMixed();
    DrawingIsGood();
    OtherIsGood();
  }

  // ----- Their merge ----------------------------------------------------------------------------------

  lemma BothAreShort()
    ensures LayerRendering.SampleCount(Both()) == 1
  {
    var both := Both();
    BothChosen();
    assert Front(Drawing().frames) == [Drawing().frames[0]] && Front([Drawing().frames[0]]) == [];
    assert LayerRendering.LastTick([Drawing().frames[0]]) == 0;
    assert LayerRendering.LastTick(Drawing().frames) == 1;
    assert Front(Other().frames) == [];
    assert LayerRendering.LastTick(Other().frames) == 1;
    assert Front(both) == [both[0]] && Front([both[0]]) == [];
    assert LayerRendering.Duration([both[0]]) == 1;
  }

  lemma BaseIsShort(base: Layer, manual: map<Axis, real>)
    requires IsMerge(base, Both(), manual)
    ensures |base.frames| == 1
  {
    BothAreShort();
  }

  lemma {:induction false} FewPoints(frames: seq<Frame>, axis: Axis)
    ensures |AxisPoints(frames, axis)| <= |frames|
  {
    if frames != [] {
      FewPoints(frames[1..], axis);
    }
  }

  lemma {:induction false} NothingFilled(fill: AxisFiller, axes: seq<Axis>, from: nat)
    requires forall axis, k: nat :: fill(axis, k) == []
    ensures AllFillers(fill, axes, from) == []
  {
    if axes != [] {
      NothingFilled(fill, Front(axes), from);
    }
  }

  lemma ShortHasNoGaps(render: Render, frames: seq<Frame>, curves: seq<Curve>, axis: Axis, names: Names, k: nat)
    requires |frames| <= 1
    ensures AxisFillers(render, frames, curves, axis, names, k) == []
  {
    FewPoints(frames, axis);
  }

  lemma NoGaps(base: Layer, manual: map<Axis, real>, curves: seq<Curve>, names: Names)
    requires IsMerge(base, Both(), manual)
    ensures CurvesForGaps(Renderer(), base.frames, curves, names) == []
  {
    var fill := AxisFillerFor(Renderer(), base.frames, curves, names);
    BaseIsShort(base, manual);
    forall axis, k: nat ensures fill(axis, k) == [] {
      ShortHasNoGaps(Renderer(), base.frames, curves, axis, names, k);
    }
    NothingFilled(fill, SortedSet(AxesOf(base.frames)), |curves|);
  }

  lemma OnlyTheLine(base: Layer, manual: map<Axis, real>, names: Names)
    requires IsMerge(base, Both(), manual)
    ensures SourceCurves(Both()) == [Line()] && Collected([Line()], names) == [Line()]
    ensures CurvesOfMerge(Renderer(), Both(), base.frames, names) == [Line()]
  {
    var both := Both();
    assert Front(both) == [both[0]] && Front([both[0]]) == [];
    assert SourceCurves([both[0]]) == [Line()];
    assert Front([Line()]) == [] && IdsOf([]) == {};
    NoGaps(base, manual, [Line()], names);
  }

  lemma LineAlone()
    ensures StartsAtZero([Line()], 0) && !Gatherable([Line()]) && NoOverlaps([Line()])
  {
    CurvesOnSingle(Line(), 0);
    forall axis ensures |CurvesOn([Line()], axis)| <= 1 { CurvesOnSingle(Line(), axis); }
  }

  /** Two layers that may be merged, each with frames that are what its curves draw; in the
      merged layer the curve still starts at 0, where there is no frame. */
  lemma MergeMayLoseStart()
    ensures Mergeable(Renderer(), Both(), {"a", "b"}, None) && Sources(Both(), {"a", "b"}, None) == Ok(Both())
    ensures forall base, manual, names ::
              IsMerge(base, Both(), manual) && Fresh(names, [Line()]) ==>
                var merged := WithCurves(Renderer(), base, Both(), names);
                && merged.Ok?
                && Mismatches(Renderer(), merged.value.frames, merged.value.curves, MatchTolerance) != Ok([])
  {
    BothMergeable();
    BothChosen();
    forall base, manual, names | IsMerge(base, Both(), manual) && Fresh(names, [Line()])
      ensures var merged := WithCurves(Renderer(), base, Both(), names);
              && merged.Ok?
              && Mismatches(Renderer(), merged.value.frames, merged.value.curves, MatchTolerance) != Ok([])
    {
      OnlyTheLine(base, manual, names);
      LineAlone();
      SourcesAreGood(Both(), {"a", "b"}, None, names);
      MergingKeepsCurves(Renderer(), base, Both(), manual, names, WithCurves(Renderer(), base, Both(), names).value);
    }
  }
}

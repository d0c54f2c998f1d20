/** Two layers that hold still, each as its curve draws it; merged, the axis moves across the
    gap between them. */
module MergeBridge {
  import opened MotionTypes
  import opened Sorting
  import opened Timeline
  import opened LayerConflicts
  import LayerRendering = Rendering
  import Ownership
  import opened Merging
  import opened CurveEngine
  import opened EditState
  import opened LayerEdit
  import opened RangeEdit
  import opened EditLayer
  import opened LayerValidation
  import opened CurveFrames
  import opened CurveMerging
  import opened MergedCurves
  import opened JoinedCurve
  import opened MergedAxes
  import opened BridgedGaps
  import opened MergeSuccess

  // ----- One value, for two ticks ---------------------------------------------------------------------

  function Flat(id: string, start: nat, value: real): Curve {
    Curve(id, 0, 1, [Straight(Point(start, value)), Straight(Point(start + 1, value))])
  }

  function Still(id: string, start: nat, value: real): Layer {
    Layer(id, id, true, [Frame(start, map[0 := value]), Frame(start + 1, map[0 := value])], [Flat(id, start, value)])
  }

  lemma StillHas(id: string, start: nat, value: real, axis: Axis, tick: nat)
    ensures var frames := Still(id, start, value).frames;
            && FirstAt(frames, axis, tick) == (if axis == 0 && start <= tick <= start + 1 then Some(value) else None)
            && LastAt(frames, axis, tick) == FirstAt(frames, axis, tick)
  {
    var frames := Still(id, start, value).frames;
    assert frames[1..] == [frames[1]] && Front(frames) == [frames[0]] && Front([frames[0]]) == [];
    assert FirstAt([frames[1]], axis, tick) == if axis == 0 && tick == start + 1 then Some(value) else None;
    assert LastAt([frames[0]], axis, tick) == if axis == 0 && tick == start then Some(value) else None;
  }

  lemma FlatDraws(id: string, start: nat, value: real)
    ensures CurveOk(Renderer(), Flat(id, start, value))
    ensures Drawn(Renderer(), Flat(id, start, value)) == [Point(start, value), Point(start + 1, value)]
    ensures Bounds(Flat(id, start, value)) == (start, start + 1)
  {
    var points := Flat(id, start, value).points;
    SpacedIsSorted(points);
    BoundsOfSpaced(points);
    CurveEngineRenders();
    assert RendersWell(Renderer(), points, 1);
    RenderingPassesThrough(points, 1, 0);
    RenderingPassesThrough(points, 1, 1);
  }

  lemma StillIsGood(id: string, start: nat, value: real)
    ensures var layer := Still(id, start, value);
            Tidy(layer) && Mismatches(Renderer(), layer.frames, layer.curves, MatchTolerance) == Ok([])
  {
    var layer := Still(id, start, value);
    FlatDraws(id, start, value);
    CurveEngineRenders();
    forall axis, tick ensures FirstAt(layer.frames, axis, tick) == LastAt(layer.frames, axis, tick) {
      StillHas(id, start, value, axis, tick);
    }
    StillHas(id, start, value, 0, start);
    StillHas(id, start, value, 0, start + 1);
    var samples := Drawn(Renderer(), layer.curves[0]);
    forall i | 0 <= i < |samples| ensures Agrees(layer.frames, 0, samples[i], MatchTolerance) {}
    NoMismatchMeansMatch(Renderer(), layer.frames, layer.curves, MatchTolerance);
  }

  lemma StillSeries(id: string, start: nat, value: real)
    ensures AxesOf(Still(id, start, value).frames) == {0}
    ensures SampleTicks(Still(id, start, value).frames, 0) == {start, start + 1}
  {
    var frames := Still(id, start, value).frames;
    assert frames[1..] == [frames[1]] && frames[1..][1..] == [];
    assert 0 in frames[0].values && frames[0] in frames;
    var points := AxisPoints(frames, 0);
    assert AxisPoints([frames[1]], 0) == [Point(start + 1, value)];
    assert points == [Point(start, value), Point(start + 1, value)];
    assert points[0] in Series(frames, 0) && points[1] in Series(frames, 0);
  }

  lemma StillIsWhole(id: string, start: nat, value: real)
    ensures Whole(Renderer(), Still(id, start, value), 0)
  {
    var curve := Flat(id, start, value);
    StillSeries(id, start, value);
    FlatDraws(id, start, value);
    assert Front([curve]) == [] && Last([curve]) == curve;
    assert DrawnTicks(Renderer(), [], 0) == {};
    var drawn := Drawn(Renderer(), curve);
    assert drawn[0] in drawn && drawn[1] in drawn;
    assert DrawnTicks(Renderer(), [curve], 0) == set p | p in drawn :: p.tick;
  }

  // ----- Two of them ------------------------------------------------------------------------------------

  /** At 0.0 for ticks 1 and 2. */
  function Low(): Layer { Still("a", 1, 0.0) }

  /** At 1.0 for ticks 4 and 5. */
  function High(): Layer { Still("b", 4, 1.0) }

  function Both(): seq<Layer> { [Low(), High()] }

  function BothCurves(): seq<Curve> { [Flat("a", 1, 0.0), Flat("b", 4, 1.0)] }

  lemma BothChosen()
    ensures Sources(Both(), {"a", "b"}, None) == Ok(Both()) && Merging.Chosen(Both(), {"a", "b"}) == Both()
    ensures Enabled(Both()) == Both()
  {
    ChosenAreBoth();
    BothHaveData();
    AllEnabled(Both());
  }

  lemma BothHaveData()
    ensures AxesOf(Low().frames) != {} && AxesOf(High().frames) != {}
  {
    StillSeries("a", 1, 0.0);
    StillSeries("b", 4, 1.0);
  }

  lemma ChosenAreBoth()
    ensures Merging.Chosen(Both(), {"a", "b"}) == Both()
  {
    var both := Both();
    assert both[1..] == [both[1]] && both[1..][1..] == [];
    assert Merging.Chosen(both[1..], {"a", "b"}) == [both[1]];
  }

  lemma BothAreFree()
    ensures ProjectConflicts(Both(), None) == [] && ConflictFree(Both())
  {
    BothChosen();
    forall i, j, axis | 0 <= i < j < 2 ensures NeverClash(Both()[i], Both()[j], axis) {
      forall tick ensures !Clash(Both()[i], Both()[j], axis, tick) {
        StillHas("a", 1, 0.0, axis, tick);
        StillHas("b", 4, 1.0, axis, tick);
      }
    }
    NoConflictsMeansConflictFree(Both());
  }

  lemma IsStill(layer: Layer)
    requires layer in Both()
    ensures layer == Low() || layer == High()
  {
  }

  lemma BothWhole(layer: Layer)
    requires layer in Both()
    ensures AxesOf(layer.frames) == {0} && Whole(Renderer(), layer, 0)
  {
    IsStill(layer);
    StillIsWhole("a", 1, 0.0);
    StillIsWhole("b", 4, 1.0);
    StillSeries("a", 1, 0.0);
    StillSeries("b", 4, 1.0);
  }

  lemma BothMatch(layer: Layer)
    requires layer in Both()
    ensures Tidy(layer) && Mismatches(Renderer(), layer.frames, layer.curves, MatchTolerance) == Ok([])
  {
    IsStill(layer);
    StillIsGood("a", 1, 0.0);
    StillIsGood("b", 4, 1.0);
  }

  lemma NotMixed()
    ensures !Mixed(Renderer(), Both())
  {
    forall axis | AxisIn(Renderer(), Both(), axis, false) ensures false {
      var layer :| layer in Both() && axis in AxesOf(layer.frames) && Whole(Renderer(), layer, axis) == false;
      BothWhole(layer);
      assert false;
    }
  }

  /** The two layers may be merged. */
  lemma BothMergeable()
    ensures Mergeable(Renderer(), Both(), {"a", "b"}, None)
  {
    BothChosen();
    BothAreFree();
    NotMixed();
    forall layer | layer in Both()
      ensures Mismatches(Renderer(), layer.frames, layer.curves, MatchTolerance) == Ok([])
    {
      BothMatch(layer);
    }
  }

  lemma BothCollected(names: Names)
    ensures Collected(BothCurves(), names) == BothCurves()
  {
    var curves := BothCurves();
    assert Front(curves) == [curves[0]] && Front([curves[0]]) == [];
    assert Collected([curves[0]], names) == [curves[0]];
    assert IdsOf([curves[0]]) == {"a"};
  }

  lemma BothApart()
    ensures NoOverlaps(BothCurves())
  {
    FlatDraws("a", 1, 0.0);
    FlatDraws("b", 4, 1.0);
  }

  lemma BothCurvesAre()
    ensures SourceCurves(Both()) == BothCurves()
  {
    var both := Both();
    assert Front(both) == [both[0]] && Front([both[0]]) == [];
    assert SourceCurves([both[0]]) == [BothCurves()[0]];
  }

  lemma BothAreGood(names: Names)
    requires Fresh(names, BothCurves())
    ensures GoodSources(Renderer(), Both(), names)
  {
    BothMergeable();
    BothChosen();
    BothCurvesAre();
    BothCollected(names);
    BothApart();
    forall layer | layer in Both() ensures Tidy(layer) { BothMatch(layer); }
    SourcesAreGood(Both(), {"a", "b"}, None, names);
  }

  // ----- What they do -----------------------------------------------------------------------------------

  lemma BothOwn(axis: Axis, tick: nat)
    ensures Ownership.Owns(Both(), axis, tick) <==> axis == 0 && (1 <= tick <= 2 || 4 <= tick <= 5)
  {
    forall t: nat
      ensures FirstAt(Low().frames, axis, t).Some? <==> axis == 0 && 1 <= t <= 2
      ensures FirstAt(High().frames, axis, t).Some? <==> axis == 0 && 4 <= t <= 5
    {
      StillHas("a", 1, 0.0, axis, t);
      StillHas("b", 4, 1.0, axis, t);
    }
    if axis == 0 && 1 <= tick <= 2 { SupplierOwns(Both(), 0, axis, tick); }
    if axis == 0 && 4 <= tick <= 5 { SupplierOwns(Both(), 1, axis, tick); }
  }

  lemma BothSupply(axis: Axis, tick: nat)
    ensures LayerRendering.SupplyOf(Both(), axis)(tick) ==
            if axis == 0 && 1 <= tick <= 2 then Some(0.0) else if axis == 0 && 4 <= tick <= 5 then Some(1.0) else None
  {
    var both := Both();
    assert Front(both) == [both[0]] && Front([both[0]]) == [];
    StillHas("a", 1, 0.0, axis, tick);
    StillHas("b", 4, 1.0, axis, tick);
    SupplyOfOne(both[0], axis, tick);
  }

  lemma BothHarmless(axis: Axis, manual: map<Axis, real>)
    ensures Harmless(Both(), axis, manual)
  {
    BothChosen();
    BothOwn(axis, 0);
  }

  /** A tick after a sample, the value is still there. */
  lemma NextMotion(supply: nat -> Option<real>, initial: Option<real>, from: nat, value: real)
    requires from > 0 && supply(from) == Some(value) && supply(from + 1).None?
    ensures LayerRendering.Motion(supply, initial, from + 1) == value
  {
    HeldMotion(supply, initial, from, from, from + 1);
  }

  lemma BothHold(manual: map<Axis, real>)
    ensures PositionOf(Both(), manual, 0, 3) == 0.0
  {
    BothChosen();
    BothAreFree();
    BothSupply(0, 2);
    BothSupply(0, 3);
    NextMotion(LayerRendering.SupplyOf(Both(), 0), LayerRendering.InitialOf(manual, 0), 2, 0.0);
    PlayedIs(Both(), manual, 0, 3);
  }

  // ----- Their merge -----------------------------------------------------------------------------------

  lemma BothCovered(axis: Axis)
    ensures OwnedCovered(Both(), BothCurves(), axis)
  {
    var curves := BothCurves();
    forall tick: nat | Ownership.Owns(Both(), axis, tick) ensures CoveredAt(curves, axis, tick) {
      BothOwn(axis, tick);
      if tick <= 2 { assert CoveredBy(curves[0], axis, tick); } else { assert CoveredBy(curves[1], axis, tick); }
    }
  }

  lemma NoCurveIsNone(curves: seq<Curve>)
    requires forall axis :: CurvesOn(curves, axis) == []
    ensures curves == []
  {
    if curves != [] {
      CurvesOnAxis(curves, curves[0].axis, curves[0]);
    }
  }

  lemma OnlyBoth(base: Layer, manual: map<Axis, real>, names: Names)
    requires IsMerge(base, Both(), manual)
    ensures CurvesOfMerge(Renderer(), Both(), base.frames, names) == BothCurves()
  {
    BothChosen();
    BothAreFree();
    BothCurvesAre();
    BothCollected(names);
    forall axis ensures CurvesOn(CurvesForGaps(Renderer(), base.frames, BothCurves(), names), axis) == [] {
      BothCovered(axis);
      NothingFilledOn(base, Both(), manual, BothCurves(), names, axis);
    }
    NoCurveIsNone(CurvesForGaps(Renderer(), base.frames, BothCurves(), names));
  }

  lemma BothPieces()
    ensures CurvesOn(BothCurves(), 0) == BothCurves() && Pieces(BothCurves(), 0) == BothCurves()
    ensures Largest(BothCurves()).order == 1
  {
    var curves := BothCurves();
    assert Front(curves) == [curves[0]];
    CurvesOnSingle(curves[0], 0);
    FlatDraws("a", 1, 0.0);
    FlatDraws("b", 4, 1.0);
    assert curves[1..] == [curves[1]] && curves[1..][1..] == [];
  }

  lemma LineHalfWay()
    ensures InGap(BothCurves()[0], BothCurves()[1], 3) && GapLine(BothCurves()[0], BothCurves()[1], 3) == 0.5
  {
  }

  /** In the gap the joined curve is half-way. */
  lemma HalfWay(raw: Curve)
    requires IsJoined(raw, BothCurves()) && raw.order == 1
    ensures InSpan(3, Bounds(raw).0, Bounds(raw).1) && DrawnAt(Renderer(), raw, 3) == 0.5
  {
    var curves := BothCurves();
    PieceWithin(raw, curves, 0);
    PieceWithin(raw, curves, 1);
    LineHalfWay();
    var k := GapLies(curves, 0);
    StraightGap(raw, curves[0], curves[1], k, 3);
  }

  lemma MergedIsHalfWay(base: Layer, manual: map<Axis, real>, names: Names, merged: Layer)
    requires IsMerge(base, Both(), manual) && Fresh(names, BothCurves())
    requires WithCurves(Renderer(), base, Both(), names) == Ok(merged)
    ensures PositionOf([merged], manual, 0, 3) == 0.5
  {
    BothAreGood(names);
    OnlyBoth(base, manual, names);
    BothPieces();
    JoinedStands(base, Both(), manual, names, merged, 0, 3);
    HalfWay(RawJoined(BothCurves(), 0));
    BeforeGathering(Renderer(), base, Both(), names, merged);
    EnabledOne(merged);
    SupplyOfOne(merged, 0, 3);
    PlayedIs([merged], manual, 0, 3);
  }

  /** The merge succeeds, and moves the axis where the sources hold it. */
  ghost predicate Bridges(base: Layer, manual: map<Axis, real>, names: Names) {
    var merged := WithCurves(Renderer(), base, Both(), names);
    && merged.Ok?
    && PositionOf([merged.value], manual, 0, 3) == 0.5 && PositionOf(Both(), manual, 0, 3) == 0.0
  }

  lemma BothBridge(base: Layer, manual: map<Axis, real>, names: Names)
    requires IsMerge(base, Both(), manual) && Fresh(names, BothCurves())
    ensures Bridges(base, manual, names)
  {
    BothAreGood(names);
    MergingSucceeds(base, Both(), manual, names);
    MergedIsHalfWay(base, manual, names, WithCurves(Renderer(), base, Both(), names).value);
    BothHold(manual);
  }

  /** Two layers that may be merged, each with frames that are what its curve draws, and no
      value at tick 0. Between them the axis holds at 0.0; in the merged layer it is half-way
      to 1.0. */
  lemma MergeMayBridge()
    ensures Mergeable(Renderer(), Both(), {"a", "b"}, None) && Sources(Both(), {"a", "b"}, None) == Ok(Both())
    ensures forall axis, manual :: Harmless(Both(), axis, manual)
    ensures forall base, manual, names ::
              IsMerge(base, Both(), manual) && Fresh(names, BothCurves()) ==> Bridges(base, manual, names)
  {
    BothMergeable();
    BothChosen();
    forall axis, manual ensures Harmless(Both(), axis, manual) { BothHarmless(axis, manual); }
    forall base, manual, names | IsMerge(base, Both(), manual) && Fresh(names, BothCurves())
      ensures Bridges(base, manual, names)
    {
      BothBridge(base, manual, names);
    }
  }
}

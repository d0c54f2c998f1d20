/** Moving a curve in time moves what it draws. */
module CurveShift {
  import opened MotionTypes
  import opened Sorting
  import opened Timeline
  import opened CurveEngine
  import opened CurveShapes
  import LayerMerging = Merging

  function ShiftPoint(p: Point, offset: nat): Point { Point(p.tick + offset, p.value) }

  function ShiftOne(point: CurvePoint, offset: nat): CurvePoint { point.(tick := point.tick + offset) }

  function ShiftAt(p: Option<Point>, offset: nat): Option<Point> {
    if p.Some? then Some(ShiftPoint(p.value, offset)) else None
  }

  function ShiftSamples(samples: seq<Point>, offset: nat): (r: seq<Point>)
    ensures |r| == |samples|
    ensures forall i :: 0 <= i < |samples| ==> r[i] == ShiftPoint(samples[i], offset)
  {
    seq(|samples|, i requires 0 <= i < |samples| => ShiftPoint(samples[i], offset))
  }

  // ----- Handles and shapes do not depend on when -------------------------------------------------

  ghost predicate PreparesAnywhere(prepare: Preparer) {
    forall before, point, after, offset: nat :: PreparesThere(prepare, before, point, after, offset)
  }

  ghost predicate PreparesThere(prepare: Preparer, before: Option<Point>, point: CurvePoint, after: Option<Point>, offset: nat) {
    prepare(ShiftAt(before, offset), ShiftOne(point, offset), ShiftAt(after, offset)) ==
    ShiftOne(prepare(before, point, after), offset)
  }

  lemma SpanAnywhere(a: Point, b: Point, offset: nat)
    ensures CurveEngine.Span(ShiftPoint(a, offset), ShiftPoint(b, offset)) == CurveEngine.Span(a, b)
    ensures Slope(ShiftPoint(a, offset), ShiftPoint(b, offset)) == Slope(a, b)
  {
  }

  lemma SlopeAnywhere(before: Option<Point>, point: Point, after: Option<Point>, offset: nat)
    ensures AutomaticSlope(ShiftAt(before, offset), ShiftPoint(point, offset), ShiftAt(after, offset)) ==
            AutomaticSlope(before, point, after)
    ensures AutomaticAcceleration(ShiftAt(before, offset), ShiftPoint(point, offset), ShiftAt(after, offset)) ==
            AutomaticAcceleration(before, point, after)
  {
    if before.Some? { SpanAnywhere(before.value, point, offset); }
    if after.Some? { SpanAnywhere(point, after.value, offset); }
    if before.Some? && after.Some? { SpanAnywhere(before.value, after.value, offset); }
  }

  lemma SmoothedAnywhere(point: CurvePoint, inDt: real, outDt: real, slope: real, offset: nat)
    ensures Smoothed(ShiftOne(point, offset), inDt, outDt, slope) == ShiftOne(Smoothed(point, inDt, outDt, slope), offset)
  {
  }

  lemma PrepareOneAnywhere(before: Option<Point>, point: CurvePoint, after: Option<Point>, order: int, offset: nat)
    ensures PreparePoint(ShiftAt(before, offset), ShiftOne(point, offset), ShiftAt(after, offset), order) ==
            ShiftOne(PreparePoint(before, point, after, order), offset)
  {
    var here := Knot(point);
    assert Knot(ShiftOne(point, offset)) == ShiftPoint(here, offset);
    SlopeAnywhere(before, here, after, offset);
    if before.Some? { SpanAnywhere(before.value, here, offset); }
    if after.Some? { SpanAnywhere(here, after.value, offset); }
    if before.Some? && after.Some? {
      SmoothedAnywhere(point, InReach(point.inHandle, CurveEngine.Span(before.value, here)),
        OutReach(point.outHandle, CurveEngine.Span(here, after.value)), AutomaticSlope(before, here, after), offset);
    }
  }

  lemma PrepareAnywhere(order: int)
    ensures PreparesAnywhere(PrepareFor(order))
  {
    forall before, point, after, offset: nat ensures PreparesThere(PrepareFor(order), before, point, after, offset) {
      PrepareOneAnywhere(before, point, after, order, offset);
    }
  }

  ghost predicate ShapesAnywhere(shape: Shape) {
    forall before, first, second, after, tick: nat, offset: nat ::
      ShapesThere(shape, before, first, second, after, tick, offset)
  }

  ghost predicate ShapesThere(
    shape: Shape, before: Option<Point>, first: CurvePoint, second: CurvePoint, after: Option<Point>, tick: nat, offset: nat)
  {
    shape(ShiftAt(before, offset), ShiftOne(first, offset), ShiftOne(second, offset), ShiftAt(after, offset), tick + offset) ==
    shape(before, first, second, after, tick)
  }

  lemma PointAnywhere(before: Option<Point>, point: CurvePoint, after: Option<Point>, offset: nat)
    ensures PointSlope(ShiftAt(before, offset), ShiftOne(point, offset), ShiftAt(after, offset)) ==
            PointSlope(before, point, after)
    ensures PointAcceleration(ShiftAt(before, offset), ShiftOne(point, offset), ShiftAt(after, offset)) ==
            PointAcceleration(before, point, after)
  {
    SlopeAnywhere(before, Knot(point), after, offset);
  }

  lemma RatioAnywhere(first: CurvePoint, second: CurvePoint, tick: nat, offset: nat)
    requires first.tick < second.tick
    ensures Ratio(ShiftOne(first, offset), ShiftOne(second, offset), tick + offset) == Ratio(first, second, tick)
  {
    SpanAnywhere(Knot(first), Knot(second), offset);
  }

  lemma BlendedAnywhere(
    blend: Blend, before: Option<Point>, first: CurvePoint, second: CurvePoint, after: Option<Point>, tick: nat, offset: nat)
    ensures Blended(blend, ShiftAt(before, offset), ShiftOne(first, offset), ShiftOne(second, offset),
              ShiftAt(after, offset), tick + offset) ==
            Blended(blend, before, first, second, after, tick)
  {
    if first.tick < second.tick {
      RatioAnywhere(first, second, tick, offset);
      SpanAnywhere(Knot(first), Knot(second), offset);
      PointAnywhere(before, first, Some(Knot(second)), offset);
      PointAnywhere(Some(Knot(first)), second, after, offset);
    }
  }

  lemma SegmentAnywhere(
    before: Option<Point>, first: CurvePoint, second: CurvePoint, after: Option<Point>, order: int, tick: nat, offset: nat)
    ensures SegmentValue(ShiftAt(before, offset), ShiftOne(first, offset), ShiftOne(second, offset),
              ShiftAt(after, offset), order, tick + offset) ==
            SegmentValue(before, first, second, after, order, tick)
  {
    SegmentIsBlended(before, first, second, after, order, tick);
    SegmentIsBlended(ShiftAt(before, offset), ShiftOne(first, offset), ShiftOne(second, offset),
      ShiftAt(after, offset), order, tick + offset);
    BlendedAnywhere(BlendFor(order), before, first, second, after, tick, offset);
  }

  lemma ShapeAnywhere(order: int)
    ensures ShapesAnywhere(ShapeFor(order))
  {
    forall before, first, second, after, tick: nat, offset: nat
      ensures ShapesThere(ShapeFor(order), before, first, second, after, tick, offset)
    {
      SegmentAnywhere(before, first, second, after, order, tick, offset);
    }
  }

  // ----- A whole curve ------------------------------------------------------------------------------

  lemma ConsMoves(p: CurvePoint, points: seq<CurvePoint>, offset: nat)
    ensures LayerMerging.ShiftPoints([p] + points, offset) == [ShiftOne(p, offset)] + LayerMerging.ShiftPoints(points, offset)
  {
  }

  lemma {:induction false} InsertMoves(p: CurvePoint, points: seq<CurvePoint>, offset: nat)
    ensures Insert(ShiftOne(p, offset), LayerMerging.ShiftPoints(points, offset), TickLeq()) ==
            LayerMerging.ShiftPoints(Insert(p, points, TickLeq()), offset)
  {
    if points == [] || TickLeq()(p, points[0]) {
      ConsMoves(p, points, offset);
    } else {
      assert LayerMerging.ShiftPoints(points, offset)[1..] == LayerMerging.ShiftPoints(points[1..], offset);
      InsertMoves(p, points[1..], offset);
      ConsMoves(points[0], Insert(p, points[1..], TickLeq()), offset);
    }
  }

  lemma {:induction false} SortMoves(points: seq<CurvePoint>, offset: nat)
    ensures Sort(LayerMerging.ShiftPoints(points, offset), TickLeq()) == LayerMerging.ShiftPoints(Sort(points, TickLeq()), offset)
  {
    if points != [] {
      assert LayerMerging.ShiftPoints(points, offset)[1..] == LayerMerging.ShiftPoints(points[1..], offset);
      SortMoves(points[1..], offset);
      InsertMoves(points[0], Sort(points[1..], TickLeq()), offset);
    }
  }

  lemma AtMoves(points: seq<CurvePoint>, i: int, offset: nat)
    ensures At(LayerMerging.ShiftPoints(points, offset), i) == ShiftAt(At(points, i), offset)
  {
  }

  lemma PrepareMoves(points: seq<CurvePoint>, prepare: Preparer, offset: nat)
    requires PreparesAnywhere(prepare)
    ensures PrepareAll(LayerMerging.ShiftPoints(points, offset), prepare) == LayerMerging.ShiftPoints(PrepareAll(points, prepare), offset)
  {
    forall i | 0 <= i < |points|
      ensures PreparedAt(LayerMerging.ShiftPoints(points, offset), prepare, i) == ShiftOne(PreparedAt(points, prepare, i), offset)
    {
      AtMoves(points, i - 1, offset);
      AtMoves(points, i + 1, offset);
      assert PreparesThere(prepare, At(points, i - 1), points[i], At(points, i + 1), offset);
    }
  }

  lemma {:induction false} AdvanceMoves(points: seq<CurvePoint>, from: nat, tick: nat, offset: nat)
    requires from + 1 < |points|
    ensures Advance(LayerMerging.ShiftPoints(points, offset), from, tick + offset) == Advance(points, from, tick)
    decreases |points| - from
  {
    if from + 2 < |points| && tick > points[from + 1].tick {
      AdvanceMoves(points, from + 1, tick, offset);
    }
  }

  lemma SampleMoves(points: seq<CurvePoint>, shape: Shape, j: nat, tick: nat, offset: nat)
    requires ShapesAnywhere(shape) && j + 1 < |points|
    ensures SampleAt(LayerMerging.ShiftPoints(points, offset), shape, j, tick + offset) == SampleAt(points, shape, j, tick)
  {
    AtMoves(points, j - 1, offset);
    AtMoves(points, j + 2, offset);
    assert ShapesThere(shape, At(points, j - 1), points[j], points[j + 1], At(points, j + 2), tick, offset);
  }

  lemma CurveMoves(points: seq<CurvePoint>, shape: Shape, tick: nat, offset: nat)
    requires ShapesAnywhere(shape) && |points| >= 2
    ensures CurveAt(LayerMerging.ShiftPoints(points, offset), shape, tick + offset) == CurveAt(points, shape, tick)
  {
    AdvanceMoves(points, 0, tick, offset);
    SampleMoves(points, shape, Advance(points, 0, tick), tick, offset);
  }

  lemma StartMoves(points: seq<CurvePoint>, offset: nat)
    requires points != []
    ensures LayerMerging.ShiftPoints(points, offset) != []
    ensures LayerMerging.ShiftPoints(points, offset)[0].tick == points[0].tick + offset
  {
  }

  lemma OneSampleMoves(points: seq<CurvePoint>, moved: seq<CurvePoint>, shape: Shape, i: nat, offset: nat)
    requires |points| >= 2 && |moved| >= 2 && moved[0].tick == points[0].tick + offset
    requires CurveAt(moved, shape, points[0].tick + i + offset) == CurveAt(points, shape, points[0].tick + i)
    ensures CurveSample(moved, shape, i) == ShiftPoint(CurveSample(points, shape, i), offset)
  {
  }

  lemma SamplesMove(points: seq<CurvePoint>, shape: Shape, offset: nat)
    requires ShapesAnywhere(shape) && |points| >= 2
    ensures Samples(LayerMerging.ShiftPoints(points, offset), shape) == ShiftSamples(Samples(points, shape), offset)
  {
    var later := LayerMerging.ShiftPoints(points, offset);
    var moved, samples := Samples(later, shape), Samples(points, shape);
    assert |moved| == |samples|;
    StartMoves(points, offset);
    forall i | 0 <= i < |samples| ensures moved[i] == ShiftPoint(samples[i], offset) {
      CurveMoves(points, shape, points[0].tick + i, offset);
      OneSampleMoves(points, later, shape, i, offset);
    }
  }

  /** Moved points draw the moved curve. */
  lemma RenderingMoves(raw: seq<CurvePoint>, order: int, offset: nat)
    ensures Rendering(LayerMerging.ShiftPoints(raw, offset), order).Ok? <==> Rendering(raw, order).Ok?
    ensures Rendering(raw, order).Ok? ==>
              var (stored, samples) := Rendering(raw, order).value;
              Rendering(LayerMerging.ShiftPoints(raw, offset), order) == Ok((LayerMerging.ShiftPoints(stored, offset), ShiftSamples(samples, offset)))
  {
    var sorted := Sort(raw, TickLeq());
    SortMoves(raw, offset);
    assert Spaced(LayerMerging.ShiftPoints(sorted, offset)) <==> Spaced(sorted);
    if Rendering(raw, order).Ok? {
      PrepareAnywhere(order);
      PrepareMoves(sorted, PrepareFor(order), offset);
      ShapeAnywhere(order);
      SamplesMove(Prepared(raw, order).value, ShapeFor(order), offset);
    }
  }
}

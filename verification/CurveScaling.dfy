/** Scaling the values of a curve scales what it draws. */
module CurveScaling {
  import opened MotionTypes
  import opened Sorting
  import opened Timeline
  import opened CurveEngine
  import opened CurveShapes

  /** Values are multiplied and moved; what hangs on a handle is multiplied. */
  datatype Scale = Scale(factor: real, offset: real)

  function Rescaled(value: real, scale: Scale): real { scale.factor * value + scale.offset }

  function ScaledPoint(p: Point, scale: Scale): Point { Point(p.tick, Rescaled(p.value, scale)) }

  function ScaledOption(p: Option<Point>, scale: Scale): Option<Point> {
    if p.Some? then Some(ScaledPoint(p.value, scale)) else None
  }

  function ScaledRise(handle: Handle, scale: Scale): Handle { handle.(dv := ScaledPart(handle.dv, scale.factor)) }

  function ScaledOne(point: CurvePoint, scale: Scale): CurvePoint {
    point.(value := Rescaled(point.value, scale), inHandle := ScaledRise(point.inHandle, scale),
           outHandle := ScaledRise(point.outHandle, scale))
  }

  function ScaledPoints(points: seq<CurvePoint>, scale: Scale): (r: seq<CurvePoint>)
    ensures |r| == |points|
    ensures forall i :: 0 <= i < |points| ==> r[i] == ScaledOne(points[i], scale)
  {
    seq(|points|, i requires 0 <= i < |points| => ScaledOne(points[i], scale))
  }

  function ScaledSamples(samples: seq<Point>, scale: Scale): (r: seq<Point>)
    ensures |r| == |samples|
    ensures forall i :: 0 <= i < |samples| ==> r[i] == ScaledPoint(samples[i], scale)
  {
    seq(|samples|, i requires 0 <= i < |samples| => ScaledPoint(samples[i], scale))
  }

  // ----- Slopes scale ---------------------------------------------------------------------------------

  lemma QuotientScales(factor: real, x: real, y: real)
    requires y != 0.0
    ensures factor * x / y == factor * (x / y)
  {
    Spread(x, y);
    var q := x / y;
    assert factor * x == (factor * q) * y;
    Quotient(factor * q, y);
  }

  lemma SlopeScales(a: Point, b: Point, scale: Scale)
    ensures Slope(ScaledPoint(a, scale), ScaledPoint(b, scale)) == scale.factor * Slope(a, b)
    ensures CurveEngine.Span(ScaledPoint(a, scale), ScaledPoint(b, scale)) == CurveEngine.Span(a, b)
  {
    if a.tick < b.tick {
      assert Rescaled(b.value, scale) - Rescaled(a.value, scale) == scale.factor * (b.value - a.value);
      QuotientScales(scale.factor, b.value - a.value, CurveEngine.Span(a, b));
    }
  }

  lemma AutomaticScales(before: Option<Point>, point: Point, after: Option<Point>, scale: Scale)
    ensures AutomaticSlope(ScaledOption(before, scale), ScaledPoint(point, scale), ScaledOption(after, scale)) ==
            scale.factor * AutomaticSlope(before, point, after)
  {
    SlopeScales(if before.Some? then before.value else point, if after.Some? then after.value else point, scale);
  }

  lemma AccelerationScales(before: Option<Point>, point: Point, after: Option<Point>, scale: Scale)
    ensures AutomaticAcceleration(ScaledOption(before, scale), ScaledPoint(point, scale), ScaledOption(after, scale)) ==
            scale.factor * AutomaticAcceleration(before, point, after)
  {
    if before.Some? && after.Some? && before.value.tick < point.tick < after.value.tick {
      SlopeScales(before.value, point, scale);
      SlopeScales(point, after.value, scale);
      var rise := Slope(point, after.value) - Slope(before.value, point);
      var span := CurveEngine.Span(before.value, point) + CurveEngine.Span(point, after.value);
      assert 2.0 * (scale.factor * Slope(point, after.value) - scale.factor * Slope(before.value, point)) ==
             scale.factor * (2.0 * rise);
      QuotientScales(scale.factor, 2.0 * rise, span);
    }
  }

  // ----- Handles scale -----------------------------------------------------------------------------------

  lemma HandleIs(dt: real, slope: real, rise: real)
    requires rise == slope * dt
    ensures HandleOf(dt, slope) == Handle(Some(dt), Some(rise))
  {
  }

  lemma HandleScales(dt: real, slope: real, scaled: real, scale: Scale)
    requires scaled == scale.factor * slope
    ensures HandleOf(dt, scaled) == ScaledRise(HandleOf(dt, slope), scale)
  {
    var rise := slope * dt;
    HandleIs(dt, slope, rise);
    ProductScales(scale.factor, slope, scaled, dt, rise);
    HandleIs(dt, scaled, Times(scale.factor, rise));
  }

  lemma ProductScales(factor: real, x: real, scaled: real, y: real, product: real)
    requires scaled == factor * x && product == x * y
    ensures scaled * y == factor * product
  {
  }

  lemma QuotientIs(factor: real, x: real, scaled: real, y: real)
    requires y != 0.0 && scaled == factor * x
    ensures scaled / y == factor * (x / y)
  {
    QuotientScales(factor, x, y);
  }

  lemma AverageScales(factor: real, x: real, y: real)
    ensures (factor * x + factor * y) / 2.0 == factor * ((x + y) / 2.0)
  {
  }

  lemma SharedScales(
    inDt: real, inDv: real, inScaled: real, outDt: real, outDv: real, outScaled: real, slope: real, scaled: real,
    factor: real)
    requires inScaled == factor * inDv && outScaled == factor * outDv && scaled == factor * slope
    ensures SharedSlope(inDt, inScaled, outDt, outScaled, scaled) == factor * SharedSlope(inDt, inDv, outDt, outDv, slope)
  {
    if inDt != 0.0 { QuotientIs(factor, inDv, inScaled, inDt); }
    if outDt != 0.0 { QuotientIs(factor, outDv, outScaled, outDt); }
    if inDt != 0.0 && outDt != 0.0 { AverageScales(factor, inDv / inDt, outDv / outDt); }
  }

  lemma GivenScales(dv: Option<real>, slope: real, scaled: real, dt: real, factor: real)
    requires scaled == factor * slope
    ensures Given(ScaledPart(dv, factor), scaled * dt) == factor * Given(dv, slope * dt)
  {
    ProductScales(factor, slope, scaled, dt, slope * dt);
  }

  lemma SharedForIs(point: CurvePoint, inDt: real, inDv: real, outDt: real, outDv: real, slope: real)
    requires inDv == Given(point.inHandle.dv, slope * inDt) && outDv == Given(point.outHandle.dv, slope * outDt)
    ensures SharedFor(point, inDt, outDt, slope) == SharedSlope(inDt, inDv, outDt, outDv, slope)
  {
  }

  lemma SharedFrom(
    point: CurvePoint, after: CurvePoint, inDt: real, inDv: real, inScaled: real, outDt: real, outDv: real, outScaled: real,
    slope: real, scaled: real, factor: real)
    requires inDv == Given(point.inHandle.dv, slope * inDt) && outDv == Given(point.outHandle.dv, slope * outDt)
    requires inScaled == Given(after.inHandle.dv, scaled * inDt) && outScaled == Given(after.outHandle.dv, scaled * outDt)
    requires inScaled == factor * inDv && outScaled == factor * outDv && scaled == factor * slope
    ensures SharedFor(after, inDt, outDt, scaled) == factor * SharedFor(point, inDt, outDt, slope)
  {
    SharedForIs(point, inDt, inDv, outDt, outDv, slope);
    SharedForIs(after, inDt, inScaled, outDt, outScaled, scaled);
    SharedScales(inDt, inDv, inScaled, outDt, outDv, outScaled, slope, scaled, factor);
  }

  lemma SharedForScales(point: CurvePoint, inDt: real, outDt: real, slope: real, scaled: real, scale: Scale)
    requires scaled == scale.factor * slope
    ensures SharedFor(ScaledOne(point, scale), inDt, outDt, scaled) == scale.factor * SharedFor(point, inDt, outDt, slope)
  {
    var after := ScaledOne(point, scale);
    GivenScales(point.inHandle.dv, slope, scaled, inDt, scale.factor);
    GivenScales(point.outHandle.dv, slope, scaled, outDt, scale.factor);
    SharedFrom(point, after, inDt, Given(point.inHandle.dv, slope * inDt), Given(after.inHandle.dv, scaled * inDt),
      outDt, Given(point.outHandle.dv, slope * outDt), Given(after.outHandle.dv, scaled * outDt), slope, scaled, scale.factor);
  }

  lemma SmoothedScales(point: CurvePoint, inDt: real, outDt: real, slope: real, scaled: real, scale: Scale)
    requires scaled == scale.factor * slope
    ensures Smoothed(ScaledOne(point, scale), inDt, outDt, scaled) == ScaledOne(Smoothed(point, inDt, outDt, slope), scale)
  {
    var shared := SharedFor(point, inDt, outDt, slope);
    var after := SharedFor(ScaledOne(point, scale), inDt, outDt, scaled);
    SharedForScales(point, inDt, outDt, slope, scaled, scale);
    HandleScales(inDt, shared, after, scale);
    HandleScales(outDt, shared, after, scale);
  }

  lemma StraightScales(before: Option<Point>, point: CurvePoint, after: Option<Point>, scale: Scale)
    ensures PreparePoint(ScaledOption(before, scale), ScaledOne(point, scale), ScaledOption(after, scale), 1) ==
            ScaledOne(PreparePoint(before, point, after, 1), scale)
  {
    var here := Knot(point);
    var there := ScaledPoint(here, scale);
    assert Knot(ScaledOne(point, scale)) == there;
    if before.Some? {
      SlopeScales(before.value, here, scale);
      HandleScales(-(CurveEngine.Span(before.value, here) / 3.0), Slope(before.value, here),
        Slope(ScaledPoint(before.value, scale), there), scale);
    } else {
      HandleScales(-(0.0 / 3.0), 0.0, 0.0, scale);
    }
    if after.Some? {
      SlopeScales(here, after.value, scale);
      HandleScales(CurveEngine.Span(here, after.value) / 3.0, Slope(here, after.value),
        Slope(there, ScaledPoint(after.value, scale)), scale);
    } else {
      HandleScales(0.0 / 3.0, 0.0, 0.0, scale);
    }
  }

  lemma SmoothScales(before: Point, point: CurvePoint, after: Point, order: int, scale: Scale)
    requires order != 1 && point.mode.Smooth?
    ensures PreparePoint(Some(ScaledPoint(before, scale)), ScaledOne(point, scale), Some(ScaledPoint(after, scale)), order) ==
            ScaledOne(PreparePoint(Some(before), point, Some(after), order), scale)
  {
    var here := Knot(point);
    var slope := AutomaticSlope(Some(before), here, Some(after));
    AutomaticScales(Some(before), here, Some(after), scale);
    SlopeScales(before, here, scale);
    SlopeScales(here, after, scale);
    SmoothedScales(point, InReach(point.inHandle, CurveEngine.Span(before, here)),
      OutReach(point.outHandle, CurveEngine.Span(here, after)), slope,
      AutomaticSlope(Some(ScaledPoint(before, scale)), ScaledPoint(here, scale), Some(ScaledPoint(after, scale))), scale);
  }

  lemma AutoScales(before: Option<Point>, point: CurvePoint, after: Option<Point>, order: int, scale: Scale)
    requires order != 1 && (!point.mode.Smooth? || before.None? || after.None?)
    ensures PreparePoint(ScaledOption(before, scale), ScaledOne(point, scale), ScaledOption(after, scale), order) ==
            ScaledOne(PreparePoint(before, point, after, order), scale)
  {
    var here := Knot(point);
    var previous := if before.Some? then CurveEngine.Span(before.value, here) else 0.0;
    var following := if after.Some? then CurveEngine.Span(here, after.value) else 0.0;
    if before.Some? { SlopeScales(before.value, here, scale); }
    if after.Some? { SlopeScales(here, after.value, scale); }
    var slope, scaled := 0.0, 0.0;
    if !point.mode.Broken? && before.Some? && after.Some? {
      AutomaticScales(before, here, after, scale);
      slope := AutomaticSlope(before, here, after);
      scaled := AutomaticSlope(ScaledOption(before, scale), ScaledPoint(here, scale), ScaledOption(after, scale));
    }
    HandleScales(-(previous / 3.0), slope, scaled, scale);
    HandleScales(following / 3.0, slope, scaled, scale);
  }

  /** Scaled neighbours scale what a point is prepared to. */
  lemma PreparedScales(before: Option<Point>, point: CurvePoint, after: Option<Point>, order: int, scale: Scale)
    ensures PreparePoint(ScaledOption(before, scale), ScaledOne(point, scale), ScaledOption(after, scale), order) ==
            ScaledOne(PreparePoint(before, point, after, order), scale)
  {
    if order == 1 {
      StraightScales(before, point, after, scale);
    } else if point.mode.Smooth? && before.Some? && after.Some? {
      SmoothScales(before.value, point, after.value, order, scale);
    } else {
      AutoScales(before, point, after, order, scale);
    }
  }

  lemma PointSlopeScales(before: Option<Point>, point: CurvePoint, after: Option<Point>, scale: Scale)
    ensures PointSlope(ScaledOption(before, scale), ScaledOne(point, scale), ScaledOption(after, scale)) ==
            Times(scale.factor, PointSlope(before, point, after))
  {
    if before.Some? && after.Some? && !point.mode.Broken? {
      var handle := if point.outHandle != Handle(None, None) then point.outHandle else point.inHandle;
      var dt := Given(handle.dt, 0.0);
      assert Knot(ScaledOne(point, scale)) == ScaledPoint(Knot(point), scale);
      if dt == 0.0 {
        AutomaticScales(before, Knot(point), after, scale);
      } else {
        assert Given(ScaledRise(handle, scale).dv, 0.0) == scale.factor * Given(handle.dv, 0.0);
        QuotientScales(scale.factor, Given(handle.dv, 0.0), dt);
      }
    }
  }

  lemma PointAccelerationScales(before: Option<Point>, point: CurvePoint, after: Option<Point>, scale: Scale)
    ensures PointAcceleration(ScaledOption(before, scale), ScaledOne(point, scale), ScaledOption(after, scale)) ==
            Times(scale.factor, PointAcceleration(before, point, after))
  {
    assert Knot(ScaledOne(point, scale)) == ScaledPoint(Knot(point), scale);
    AccelerationScales(before, Knot(point), after, scale);
  }

  // ----- Segments scale ------------------------------------------------------------------------------------

  /** Scaling what a segment is made of scales the segment. */
  ghost predicate ScalesBlend(blend: Blend, scale: Scale) {
    forall a: real, b: real, s: real, t: real, u: real, v: real, span: real, x: real ::
      ScalesThere(blend, scale, a, b, s, t, u, v, span, x)
  }

  ghost predicate ScalesThere(
    blend: Blend, scale: Scale, a: real, b: real, s: real, t: real, u: real, v: real, span: real, x: real)
  {
    var f := scale.factor;
    blend(Rescaled(a, scale), Rescaled(b, scale), Times(f, s), Times(f, t), Times(f, u), Times(f, v), span, x) ==
    Rescaled(blend(a, b, s, t, u, v, span, x), scale)
  }

  lemma LineScales(a: real, b: real, x: real, scale: Scale)
    ensures Rescaled(a, scale) + (Rescaled(b, scale) - Rescaled(a, scale)) * x == Rescaled(a + (b - a) * x, scale)
  {
  }

  lemma CubicScales(a: real, b: real, s: real, t: real, span: real, x: real, scale: Scale)
    ensures Cubic(Rescaled(a, scale), Rescaled(b, scale), Times(scale.factor, s), Times(scale.factor, t), span, x) ==
            Rescaled(Cubic(a, b, s, t, span, x), scale)
  {
  }

  lemma QuinticScales(a: real, b: real, s: real, t: real, u: real, v: real, span: real, x: real, scale: Scale)
    ensures Quintic(Rescaled(a, scale), Rescaled(b, scale), Times(scale.factor, s), Times(scale.factor, t), Times(scale.factor, u),
              Times(scale.factor, v), span, x) ==
            Rescaled(Quintic(a, b, s, t, u, v, span, x), scale)
  {
  }

  lemma BlendScalesThere(
    order: int, scale: Scale, a: real, b: real, s: real, t: real, u: real, v: real, span: real, x: real)
    ensures ScalesThere(BlendFor(order), scale, a, b, s, t, u, v, span, x)
  {
    if order == 1 {
      LineScales(a, b, x, scale);
    } else if order == 3 {
      CubicScales(a, b, s, t, span, x, scale);
    } else {
      QuinticScales(a, b, s, t, u, v, span, x, scale);
    }
  }

  lemma BlendScales(order: int, scale: Scale)
    ensures ScalesBlend(BlendFor(order), scale)
  {
    forall a: real, b: real, s: real, t: real, u: real, v: real, span: real, x: real
      ensures ScalesThere(BlendFor(order), scale, a, b, s, t, u, v, span, x)
    {
      BlendScalesThere(order, scale, a, b, s, t, u, v, span, x);
    }
  }

  lemma SegmentPartsScale(first: CurvePoint, second: CurvePoint, tick: nat, scale: Scale)
    requires first.tick < second.tick
    ensures Knot(ScaledOne(first, scale)) == ScaledPoint(Knot(first), scale)
    ensures CurveEngine.Span(Knot(ScaledOne(first, scale)), Knot(ScaledOne(second, scale))) ==
            CurveEngine.Span(Knot(first), Knot(second))
    ensures Ratio(ScaledOne(first, scale), ScaledOne(second, scale), tick) == Ratio(first, second, tick)
  {
  }

  lemma BlendedScales(
    blend: Blend, before: Option<Point>, first: CurvePoint, second: CurvePoint, after: Option<Point>, tick: nat,
    scale: Scale)
    requires ScalesBlend(blend, scale)
    ensures Blended(blend, ScaledOption(before, scale), ScaledOne(first, scale), ScaledOne(second, scale),
              ScaledOption(after, scale), tick) ==
            Rescaled(Blended(blend, before, first, second, after, tick), scale)
  {
    if first.tick < second.tick {
      var s, t := PointSlope(before, first, Some(Knot(second))), PointSlope(Some(Knot(first)), second, after);
      var u := PointAcceleration(before, first, Some(Knot(second)));
      var v := PointAcceleration(Some(Knot(first)), second, after);
      SegmentPartsScale(first, second, tick, scale);
      assert Knot(ScaledOne(second, scale)) == ScaledPoint(Knot(second), scale);
      PointSlopeScales(before, first, Some(Knot(second)), scale);
      PointSlopeScales(Some(Knot(first)), second, after, scale);
      PointAccelerationScales(before, first, Some(Knot(second)), scale);
      PointAccelerationScales(Some(Knot(first)), second, after, scale);
      assert ScalesThere(blend, scale, first.value, second.value, s, t, u, v,
          CurveEngine.Span(Knot(first), Knot(second)), Ratio(first, second, tick));
    }
  }

  ghost predicate ScalesShape(shape: Shape, scale: Scale) {
    forall before, first, second, after, tick :: ShapeScalesThere(shape, scale, before, first, second, after, tick)
  }

  ghost predicate ShapeScalesThere(
    shape: Shape, scale: Scale, before: Option<Point>, first: CurvePoint, second: CurvePoint, after: Option<Point>, tick: nat)
  {
    shape(ScaledOption(before, scale), ScaledOne(first, scale), ScaledOne(second, scale), ScaledOption(after, scale), tick) ==
    Rescaled(shape(before, first, second, after, tick), scale)
  }

  lemma ShapeScales(order: int, scale: Scale)
    ensures ScalesShape(ShapeFor(order), scale)
  {
    BlendScales(order, scale);
    forall before, first, second, after, tick: nat
      ensures ShapeScalesThere(ShapeFor(order), scale, before, first, second, after, tick)
    {
      SegmentIsBlended(before, first, second, after, order, tick);
      SegmentIsBlended(ScaledOption(before, scale), ScaledOne(first, scale), ScaledOne(second, scale),
        ScaledOption(after, scale), order, tick);
      BlendedScales(BlendFor(order), before, first, second, after, tick, scale);
    }
  }

  // ----- A whole curve ---------------------------------------------------------------------------------------

  ghost predicate ScalesPrepare(prepare: Preparer, scale: Scale) {
    forall before, point, after :: PrepareScalesThere(prepare, scale, before, point, after)
  }

  ghost predicate PrepareScalesThere(
    prepare: Preparer, scale: Scale, before: Option<Point>, point: CurvePoint, after: Option<Point>)
  {
    prepare(ScaledOption(before, scale), ScaledOne(point, scale), ScaledOption(after, scale)) ==
    ScaledOne(prepare(before, point, after), scale)
  }

  lemma PrepareScales(order: int, scale: Scale)
    ensures ScalesPrepare(PrepareFor(order), scale)
  {
    forall before, point, after ensures PrepareScalesThere(PrepareFor(order), scale, before, point, after) {
      PreparedScales(before, point, after, order, scale);
    }
  }

  lemma AtScales(points: seq<CurvePoint>, i: int, scale: Scale)
    ensures At(ScaledPoints(points, scale), i) == ScaledOption(At(points, i), scale)
  {
  }

  lemma PrepareAllScales(points: seq<CurvePoint>, prepare: Preparer, scale: Scale)
    requires ScalesPrepare(prepare, scale)
    ensures PrepareAll(ScaledPoints(points, scale), prepare) == ScaledPoints(PrepareAll(points, prepare), scale)
  {
    forall i | 0 <= i < |points|
      ensures PreparedAt(ScaledPoints(points, scale), prepare, i) == ScaledOne(PreparedAt(points, prepare, i), scale)
    {
      AtScales(points, i - 1, scale);
      AtScales(points, i + 1, scale);
      assert PrepareScalesThere(prepare, scale, At(points, i - 1), points[i], At(points, i + 1));
    }
  }

  lemma {:induction false} AdvanceScales(points: seq<CurvePoint>, from: nat, tick: nat, scale: Scale)
    requires from + 1 < |points|
    ensures Advance(ScaledPoints(points, scale), from, tick) == Advance(points, from, tick)
    decreases |points| - from
  {
    if from + 2 < |points| && tick > points[from + 1].tick {
      AdvanceScales(points, from + 1, tick, scale);
    }
  }

  lemma SampleScales(points: seq<CurvePoint>, shape: Shape, j: nat, tick: nat, scale: Scale)
    requires ScalesShape(shape, scale) && j + 1 < |points|
    ensures SampleAt(ScaledPoints(points, scale), shape, j, tick) == Rescaled(SampleAt(points, shape, j, tick), scale)
  {
    AtScales(points, j - 1, scale);
    AtScales(points, j + 2, scale);
    assert ShapeScalesThere(shape, scale, At(points, j - 1), points[j], points[j + 1], At(points, j + 2), tick);
  }

  lemma CurveScales(points: seq<CurvePoint>, shape: Shape, tick: nat, scale: Scale)
    requires ScalesShape(shape, scale) && |points| >= 2
    ensures CurveAt(ScaledPoints(points, scale), shape, tick) == Rescaled(CurveAt(points, shape, tick), scale)
  {
    AdvanceScales(points, 0, tick, scale);
    SampleScales(points, shape, Advance(points, 0, tick), tick, scale);
  }

  lemma OneSampleScales(points: seq<CurvePoint>, after: seq<CurvePoint>, shape: Shape, i: nat, scale: Scale)
    requires |points| >= 2 && |after| >= 2 && after[0].tick == points[0].tick
    requires CurveAt(after, shape, points[0].tick + i) == Rescaled(CurveAt(points, shape, points[0].tick + i), scale)
    ensures CurveSample(after, shape, i) == ScaledPoint(CurveSample(points, shape, i), scale)
  {
  }

  lemma SampleInPlace(points: seq<CurvePoint>, after: seq<CurvePoint>, shape: Shape, i: nat, scale: Scale)
    requires |points| >= 2 && |after| >= 2 && i < |Samples(points, shape)| == |Samples(after, shape)|
    requires CurveSample(after, shape, i) == ScaledPoint(CurveSample(points, shape, i), scale)
    ensures Samples(after, shape)[i] == ScaledPoint(Samples(points, shape)[i], scale)
  {
  }

  lemma SamplesScale(points: seq<CurvePoint>, shape: Shape, scale: Scale)
    requires ScalesShape(shape, scale) && |points| >= 2
    ensures Samples(ScaledPoints(points, scale), shape) == ScaledSamples(Samples(points, shape), scale)
  {
    var after := ScaledPoints(points, scale);
    assert after[0].tick == points[0].tick && |Samples(after, shape)| == |Samples(points, shape)|;
    forall i | 0 <= i < |Samples(points, shape)|
      ensures Samples(after, shape)[i] == ScaledPoint(Samples(points, shape)[i], scale)
    {
      CurveScales(points, shape, points[0].tick + i, scale);
      OneSampleScales(points, after, shape, i, scale);
      SampleInPlace(points, after, shape, i, scale);
    }
  }

  /** Rendering points in time order, spelled out. */
  lemma {:induction false} RenderingIs(points: seq<CurvePoint>, order: int)
    requires Spaced(points)
    ensures Rendering(points, order).Ok? <==> |points| >= 2 && IsOrder(order)
    ensures Rendering(points, order).Ok? ==>
              var stored := PrepareAll(points, PrepareFor(order));
              Rendering(points, order).value == (stored, Samples(stored, ShapeFor(order)))
  {
    SpacedIsSorted(points);
  }

  /** Scaled points, in time order, draw the scaled curve; their handles scale with them. */
  lemma {:induction false} RenderingScales(points: seq<CurvePoint>, order: int, scale: Scale)
    requires Spaced(points)
    ensures Rendering(ScaledPoints(points, scale), order).Ok? <==> Rendering(points, order).Ok?
    ensures Rendering(points, order).Ok? ==>
              var (stored, samples) := Rendering(points, order).value;
              Rendering(ScaledPoints(points, scale), order) ==
              Ok((ScaledPoints(stored, scale), ScaledSamples(samples, scale)))
  {
    RenderingIs(points, order);
    RenderingIs(ScaledPoints(points, scale), order);
    if Rendering(points, order).Ok? {
      PrepareScales(order, scale);
      PrepareAllScales(points, PrepareFor(order), scale);
      ShapeScales(order, scale);
      SamplesScale(PrepareAll(points, PrepareFor(order)), ShapeFor(order), scale);
    }
  }
}

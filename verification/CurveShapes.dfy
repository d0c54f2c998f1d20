/** What a curve is between its points: the polynomial that its points, slopes and
    accelerations determine, with the slopes and accelerations that the points have. */
module CurveShapes {
  import opened MotionTypes
  import opened Sorting
  import opened Timeline
  import opened CurveEngine

  // ----- Polynomials over the unit interval ---------------------------------------------------------

  function Power3(c0: real, c1: real, c2: real, c3: real, x: real): real {
    c0 + c1 * x + c2 * (x * x) + c3 * (x * x * x)
  }

  function Slope3(c1: real, c2: real, c3: real, x: real): real {
    c1 + 2.0 * c2 * x + 3.0 * c3 * (x * x)
  }

  function Slope5(c1: real, c2: real, c3: real, c4: real, c5: real, x: real): real {
    c1 + 2.0 * c2 * x + 3.0 * c3 * (x * x) + 4.0 * c4 * (x * x * x) + 5.0 * c5 * (x * x * x * x)
  }

  function Bend5(c2: real, c3: real, c4: real, c5: real, x: real): real {
    2.0 * c2 + 6.0 * c3 * x + 12.0 * c4 * (x * x) + 20.0 * c5 * (x * x * x)
  }

  /** A slope over the whole span, spread over its ticks. */
  lemma Spread(slope: real, span: real)
    requires span != 0.0
    ensures span * (slope / span) == slope && (slope / span) * span == slope
  {
  }

  lemma CubicOfSlopes(c0: real, c1: real, c2: real, c3: real, s: real, t: real, span: real, x: real)
    requires span * s == c1 && span * t == c1 + 2.0 * c2 + 3.0 * c3
    ensures Cubic(c0, c0 + c1 + c2 + c3, s, t, span, x) == Power3(c0, c1, c2, c3, x)
  {
    var x2, x3 := x * x, x * x * x;
    assert (x3 - 2.0 * x2 + x) * span * s == (x3 - 2.0 * x2 + x) * c1;
    assert (x3 - x2) * span * t == (x3 - x2) * (c1 + 2.0 * c2 + 3.0 * c3);
  }

  /** Order 3 draws every cubic, given its values and slopes at the two ends. */
  lemma CubicReproduces(c0: real, c1: real, c2: real, c3: real, span: real, x: real)
    requires span != 0.0
    ensures Cubic(Power3(c0, c1, c2, c3, 0.0), Power3(c0, c1, c2, c3, 1.0),
              Slope3(c1, c2, c3, 0.0) / span, Slope3(c1, c2, c3, 1.0) / span, span, x) ==
            Power3(c0, c1, c2, c3, x)
  {
    Spread(Slope3(c1, c2, c3, 0.0), span);
    Spread(Slope3(c1, c2, c3, 1.0), span);
    CubicOfSlopes(c0, c1, c2, c3, Slope3(c1, c2, c3, 0.0) / span, Slope3(c1, c2, c3, 1.0) / span, span, x);
  }

  lemma QuinticOfCoefficients(
    c0: real, c1: real, c2: real, c3: real, c4: real, c5: real, s: real, t: real, u: real, v: real, span: real, x: real)
    requires span * s == c1 && span * t == Slope5(c1, c2, c3, c4, c5, 1.0)
    requires span * (span * u) == 2.0 * c2 && span * (span * v) == Bend5(c2, c3, c4, c5, 1.0)
    ensures Quintic(c0, c0 + c1 + c2 + c3 + c4 + c5, s, t, u, v, span, x) == Power5(c0, c1, c2, c3, c4, c5, x)
  {
    assert 0.5 * u * span * span == c2 && v * span * span == Bend5(c2, c3, c4, c5, 1.0);
  }

  /** Order 5 draws every quintic, given its values, slopes and accelerations at the two ends. */
  lemma QuinticReproduces(c0: real, c1: real, c2: real, c3: real, c4: real, c5: real, span: real, x: real)
    requires span != 0.0
    ensures Quintic(Power5(c0, c1, c2, c3, c4, c5, 0.0), Power5(c0, c1, c2, c3, c4, c5, 1.0),
              Slope5(c1, c2, c3, c4, c5, 0.0) / span, Slope5(c1, c2, c3, c4, c5, 1.0) / span,
              Bend5(c2, c3, c4, c5, 0.0) / (span * span), Bend5(c2, c3, c4, c5, 1.0) / (span * span), span, x) ==
            Power5(c0, c1, c2, c3, c4, c5, x)
  {
    var start, end := Bend5(c2, c3, c4, c5, 0.0), Bend5(c2, c3, c4, c5, 1.0);
    var square := Product(span, span);
    Spread(Slope5(c1, c2, c3, c4, c5, 0.0), span);
    Spread(Slope5(c1, c2, c3, c4, c5, 1.0), span);
    SpreadTwice(start, span, square);
    SpreadTwice(end, span, square);
    QuinticOfCoefficients(c0, c1, c2, c3, c4, c5, Slope5(c1, c2, c3, c4, c5, 0.0) / span,
      Slope5(c1, c2, c3, c4, c5, 1.0) / span, start / square, end / square, span, x);
  }

  lemma SpreadTwice(bend: real, span: real, square: real)
    requires span != 0.0 && square == span * span && square != 0.0
    ensures span * (span * (bend / square)) == bend
  {
    Spread(bend, square);
    var u := bend / square;
    assert span * (span * u) == square * u;
  }

  lemma Product(x: real, y: real) returns (product: real)
    requires x != 0.0 && y != 0.0
    ensures product == x * y && product != 0.0
  {
    product := x * y;
  }

  // ----- The slope at a point --------------------------------------------------------------------------

  /** The handles of the point lie on one line through it. */
  ghost predicate OnOneLine(point: CurvePoint, slope: real) {
    && point.inHandle.dt.Some? && point.outHandle.dt.Some? && point.inHandle.dv.Some? && point.outHandle.dv.Some?
    && point.inHandle.dv.value == slope * point.inHandle.dt.value
    && point.outHandle.dv.value == slope * point.outHandle.dt.value
  }

  lemma Quotient(x: real, y: real)
    requires y != 0.0
    ensures x * y / y == x
  {
  }

  /** The outgoing handle says what the slope is. */
  lemma HandlesTell(before: Option<Point>, prepared: CurvePoint, after: Option<Point>, inDt: real, outDt: real, slope: real)
    requires prepared.inHandle == HandleOf(inDt, slope) && prepared.outHandle == HandleOf(outDt, slope)
    requires !Flat(before, prepared, after) && outDt != 0.0
    ensures PointSlope(before, prepared, after) == slope && OnOneLine(prepared, slope)
  {
    Quotient(slope, outDt);
    assert Given(prepared.outHandle.dv, 0.0) == slope * outDt;
  }

  ghost predicate Between(before: Option<Point>, point: CurvePoint, after: Option<Point>) {
    (before.Some? ==> before.value.tick < point.tick) && (after.Some? ==> point.tick < after.value.tick)
  }

  predicate Flat(before: Option<Point>, point: CurvePoint, after: Option<Point>) {
    before.None? || after.None? || point.mode.Broken?
  }

  /** At an end and at a broken point the curve is flat; elsewhere both handles of a prepared
      point lie on its slope, unless the outgoing one has no length: then it is the slope
      between the neighbours. */
  lemma SlopeOfPrepared(before: Option<Point>, point: CurvePoint, after: Option<Point>, order: int)
    requires order != 1 && Between(before, point, after)
    ensures var prepared := PreparePoint(before, point, after, order);
            var slope := PointSlope(before, prepared, after);
            if Flat(before, point, after) then slope == 0.0 && OnOneLine(prepared, 0.0)
            else if prepared.outHandle.dt == Some(0.0) then slope == AutomaticSlope(before, Knot(point), after)
            else OnOneLine(prepared, slope)
  {
    var prepared := PreparePoint(before, point, after, order);
    assert Knot(prepared) == Knot(point) && prepared.mode == point.mode;
    if !Flat(before, point, after) {
      var here := Knot(point);
      var previous, following := CurveEngine.Span(before.value, here), CurveEngine.Span(here, after.value);
      var slope := AutomaticSlope(before, here, after);
      if point.mode.Smooth? {
        var inDt, outDt := InReach(point.inHandle, previous), OutReach(point.outHandle, following);
        var shared := SharedFor(point, inDt, outDt, slope);
        assert prepared == Smoothed(point, inDt, outDt, slope);
        if outDt != 0.0 { HandlesTell(before, prepared, after, inDt, outDt, shared); }
      } else {
        HandlesTell(before, prepared, after, -(previous / 3.0), following / 3.0, slope);
      }
    }
  }

  /** A point without handles of its own has the slope between its neighbours. */
  lemma SlopeOfAuto(before: Option<Point>, point: CurvePoint, after: Option<Point>, order: int)
    requires order != 1 && Between(before, point, after) && !Flat(before, point, after) && !point.mode.Smooth?
    ensures PointSlope(before, PreparePoint(before, point, after, order), after) ==
            AutomaticSlope(before, Knot(point), after)
  {
    var slope := AutomaticSlope(before, Knot(point), after);
    Quotient(slope, CurveEngine.Span(Knot(point), after.value) / 3.0);
  }

  /** A smooth point takes the average of the slopes that its handles ask for. */
  lemma SlopeOfSmooth(before: Point, point: CurvePoint, after: Point, order: int, i: real, x: real, o: real, y: real)
    requires order != 1 && before.tick < point.tick < after.tick && point.mode.Smooth?
    requires point.inHandle == Handle(Some(i), Some(x)) && point.outHandle == Handle(Some(o), Some(y))
    requires -CurveEngine.Span(before, Knot(point)) / 2.0 <= i < 0.0 < o <= CurveEngine.Span(Knot(point), after) / 2.0
    ensures var prepared := PreparePoint(Some(before), point, Some(after), order);
            && PointSlope(Some(before), prepared, Some(after)) == (x / i + y / o) / 2.0
            && prepared.inHandle.dt == Some(i) && prepared.outHandle.dt == Some(o)
  {
    var here := Knot(point);
    var slope := AutomaticSlope(Some(before), here, Some(after));
    assert InReach(point.inHandle, CurveEngine.Span(before, here)) == i;
    assert OutReach(point.outHandle, CurveEngine.Span(here, after)) == o;
    assert PreparePoint(Some(before), point, Some(after), order) == Smoothed(point, i, o, slope);
    Quotient((x / i + y / o) / 2.0, o);
  }

  /** Handles reach a third of the way to the neighbours; those of a smooth point reach as far
      as asked for, but at most half of the way, and not past the point. */
  lemma HandlesReach(before: Point, point: CurvePoint, after: Point, order: int)
    requires before.tick < point.tick < after.tick
    ensures var prepared := PreparePoint(Some(before), point, Some(after), order);
            var previous, following := CurveEngine.Span(before, Knot(point)), CurveEngine.Span(Knot(point), after);
            && prepared.inHandle.dt.Some? && prepared.outHandle.dt.Some?
            && var i, o := prepared.inHandle.dt.value, prepared.outHandle.dt.value;
               && -previous <= 2.0 * i <= 0.0 <= 2.0 * o <= following
               && (order == 1 || !point.mode.Smooth? ==> -previous == 3.0 * i && following == 3.0 * o)
               && (order != 1 && point.mode.Smooth? ==>
                     && (point.inHandle.dt.Some? && -previous <= 2.0 * point.inHandle.dt.value <= 0.0 ==>
                           i == point.inHandle.dt.value)
                     && (point.outHandle.dt.Some? && 0.0 <= 2.0 * point.outHandle.dt.value <= following ==>
                           o == point.outHandle.dt.value))
  {
  }

  /** In a straight curve, handles lie on the lines to the neighbours. */
  lemma StraightHandles(before: Point, point: CurvePoint, after: Point)
    requires before.tick < point.tick < after.tick
    ensures var prepared := PreparePoint(Some(before), point, Some(after), 1);
            && prepared.inHandle.dv.Some? && 3.0 * prepared.inHandle.dv.value == before.value - point.value
            && prepared.outHandle.dv.Some? && 3.0 * prepared.outHandle.dv.value == after.value - point.value
  {
    var here := Knot(point);
    Third(point.value - before.value, CurveEngine.Span(before, here));
    Third(after.value - point.value, CurveEngine.Span(here, after));
  }

  lemma Third(rise: real, span: real)
    requires span > 0.0
    ensures 3.0 * (rise / span * (span / 3.0)) == rise && 3.0 * (rise / span * -(span / 3.0)) == -rise
  {
    Spread(rise, span);
    var slope := rise / span;
    assert 3.0 * (slope * (span / 3.0)) == slope * span;
  }

  /** A smooth point whose outgoing handle has no length: the incoming one asks for a slope
      of 2, and the curve has a slope of 1. */
  lemma ShortHandle()
    ensures var before, after := Point(0, 0.0), Point(20, 20.0);
            var point := CurvePoint("p", 10, 0.0, Smooth, Handle(Some(-3.0), Some(-6.0)), Handle(Some(0.0), None));
            var prepared := PreparePoint(Some(before), point, Some(after), 3);
            && PointSlope(Some(before), prepared, Some(after)) == 1.0
            && prepared.inHandle == Handle(Some(-3.0), Some(-6.0))
  {
  }

  // ----- What the neighbours tell -----------------------------------------------------------------------

  function Parabola(a: real, b: real, c: real, x: real): real { a + b * x + c * (x * x) }

  /** A point of the parabola. */
  ghost predicate OnParabola(p: Point, a: real, b: real, c: real) { p.value == Parabola(a, b, c, p.tick as real) }

  lemma ChordOfParabola(p: Point, q: Point, a: real, b: real, c: real)
    requires p.tick < q.tick && OnParabola(p, a, b, c) && OnParabola(q, a, b, c)
    ensures Slope(p, q) == b + c * (p.tick as real + q.tick as real)
  {
    var x, y := p.tick as real, q.tick as real;
    var slope := b + c * (x + y);
    assert CurveEngine.Span(p, q) == y - x;
    assert q.value - p.value == slope * (y - x);
    Quotient(slope, y - x);
  }

  /** Evenly spaced, the slope between the neighbours is that of the parabola. */
  lemma SlopeOfParabola(before: Point, here: Point, after: Point, a: real, b: real, c: real)
    requires before.tick < here.tick < after.tick && after.tick - here.tick == here.tick - before.tick
    requires OnParabola(before, a, b, c) && OnParabola(after, a, b, c)
    ensures AutomaticSlope(Some(before), here, Some(after)) == b + 2.0 * c * here.tick as real
  {
    ChordOfParabola(before, after, a, b, c);
    assert before.tick as real + after.tick as real == 2.0 * here.tick as real;
  }

  /** Whatever the spacing, the acceleration is that of the parabola. */
  lemma AccelerationOfParabola(before: Point, here: Point, after: Point, a: real, b: real, c: real)
    requires before.tick < here.tick < after.tick
    requires OnParabola(before, a, b, c) && OnParabola(here, a, b, c) && OnParabola(after, a, b, c)
    ensures AutomaticAcceleration(Some(before), here, Some(after)) == 2.0 * c
  {
    ChordOfParabola(before, here, a, b, c);
    ChordOfParabola(here, after, a, b, c);
    var x, z := before.tick as real, after.tick as real;
    assert Slope(here, after) - Slope(before, here) == c * (z - x);
    Quotient(2.0 * c, z - x);
  }

  // ----- A parabola, drawn through its points ----------------------------------------------------------------

  /** The parabola between two ticks, as a polynomial over the unit interval. */
  lemma ParabolaWithin(a: real, b: real, c: real, start: real, span: real, x: real)
    ensures Parabola(a, b, c, start + span * x) ==
            Power3(Parabola(a, b, c, start), span * (b + 2.0 * c * start), c * span * span, 0.0, x)
    ensures Parabola(a, b, c, start + span * x) ==
            Power5(Parabola(a, b, c, start), span * (b + 2.0 * c * start), c * span * span, 0.0, 0.0, 0.0, x)
  {
    assert (start + span * x) * (start + span * x) == start * start + 2.0 * start * span * x + span * span * (x * x);
  }

  /** The ends, slopes and acceleration of the parabola `a + bx + cx^2`, and its value on the way. */
  ghost predicate PartOf(
    a: real, b: real, c: real, start: real, end: real, span: real, x: real, at: real,
    first: real, second: real, s: real, t: real, u: real, value: real)
  {
    && end == start + span && at == start + span * x
    && first == Parabola(a, b, c, start) && second == Parabola(a, b, c, end) && value == Parabola(a, b, c, at)
    && s == b + 2.0 * c * start && t == b + 2.0 * c * end && u == 2.0 * c
  }

  /** Both orders draw the parabola from these. */
  lemma CubicParabola(
    a: real, b: real, c: real, start: real, end: real, span: real, x: real, at: real,
    first: real, second: real, s: real, t: real, u: real, value: real)
    requires PartOf(a, b, c, start, end, span, x, at, first, second, s, t, u, value)
    ensures Cubic(first, second, s, t, span, x) == value
  {
    var c1, c2 := span * s, c * span * span;
    ParabolaWithin(a, b, c, start, span, x);
    ParabolaWithin(a, b, c, start, span, 1.0);
    CubicOfSlopes(first, c1, c2, 0.0, s, t, span, x);
  }

  lemma QuinticParabola(
    a: real, b: real, c: real, start: real, end: real, span: real, x: real, at: real,
    first: real, second: real, s: real, t: real, u: real, value: real)
    requires PartOf(a, b, c, start, end, span, x, at, first, second, s, t, u, value)
    ensures Quintic(first, second, s, t, u, u, span, x) == value
  {
    var c1, c2 := span * s, c * span * span;
    ParabolaWithin(a, b, c, start, span, x);
    ParabolaWithin(a, b, c, start, span, 1.0);
    QuinticOfCoefficients(first, c1, c2, 0.0, 0.0, 0.0, s, t, u, u, span, x);
  }

  /** Points of a parabola, evenly spaced, without handles of their own. */
  ghost predicate SamplesParabola(points: seq<CurvePoint>, a: real, b: real, c: real, step: nat) {
    && step > 0 && (forall i :: 0 <= i < |points| ==> IsSample(points[i], a, b, c))
    && forall i :: 0 < i < |points| ==> points[i].tick == points[i - 1].tick + step
  }

  ghost predicate IsSample(point: CurvePoint, a: real, b: real, c: real) {
    OnParabola(Knot(point), a, b, c) && !point.mode.Smooth? && !point.mode.Broken?
  }

  /** The slope and the acceleration at an inner point. */
  lemma InnerPoint(before: CurvePoint, point: CurvePoint, after: CurvePoint, order: int, a: real, b: real, c: real)
    requires order != 1 && IsSample(before, a, b, c) && IsSample(point, a, b, c) && IsSample(after, a, b, c)
    requires before.tick < point.tick < after.tick && after.tick - point.tick == point.tick - before.tick
    ensures var prepared := PreparePoint(Some(Knot(before)), point, Some(Knot(after)), order);
            && Knot(prepared) == Knot(point)
            && PointSlope(Some(Knot(before)), prepared, Some(Knot(after))) == b + 2.0 * c * point.tick as real
            && PointAcceleration(Some(Knot(before)), prepared, Some(Knot(after))) == 2.0 * c
  {
    SlopeOfAuto(Some(Knot(before)), point, Some(Knot(after)), order);
    SlopeOfParabola(Knot(before), Knot(point), Knot(after), a, b, c);
    AccelerationOfParabola(Knot(before), Knot(point), Knot(after), a, b, c);
  }

  /** What a segment is made of: the two values, slopes and accelerations, the span, and how
      far along it the tick is. */
  type Blend = (real, real, real, real, real, real, real, real) -> real

  function BlendFor(order: int): Blend {
    (a: real, b: real, s: real, t: real, u: real, v: real, span: real, ratio: real) =>
      if order == 1 then a + (b - a) * ratio
      else if order == 3 then Cubic(a, b, s, t, span, ratio)
      else Quintic(a, b, s, t, u, v, span, ratio)
  }

  function Blended(
    blend: Blend, before: Option<Point>, first: CurvePoint, second: CurvePoint, after: Option<Point>, tick: nat): real
  {
    if second.tick <= first.tick then first.value
    else
      blend(first.value, second.value,
        PointSlope(before, first, Some(Knot(second))), PointSlope(Some(Knot(first)), second, after),
        PointAcceleration(before, first, Some(Knot(second))), PointAcceleration(Some(Knot(first)), second, after),
        CurveEngine.Span(Knot(first), Knot(second)), Ratio(first, second, tick))
  }

  lemma SegmentIsBlended(
    before: Option<Point>, first: CurvePoint, second: CurvePoint, after: Option<Point>, order: int, tick: nat)
    ensures SegmentValue(before, first, second, after, order, tick) ==
            Blended(BlendFor(order), before, first, second, after, tick)
  {
  }

  /** Every segment is drawn like that. */
  ghost predicate Runs(shape: Shape, blend: Blend) {
    forall before, first, second, after, tick :: RunsAt(shape, blend, before, first, second, after, tick)
  }

  ghost predicate RunsAt(
    shape: Shape, blend: Blend, before: Option<Point>, first: CurvePoint, second: CurvePoint, after: Option<Point>, tick: nat)
  {
    shape(before, first, second, after, tick) == Blended(blend, before, first, second, after, tick)
  }

  lemma ShapeRuns(order: int)
    ensures Runs(ShapeFor(order), BlendFor(order))
  {
    forall before, first, second, after, tick: nat
      ensures RunsAt(ShapeFor(order), BlendFor(order), before, first, second, after, tick)
    {
      SegmentIsBlended(before, first, second, after, order, tick);
    }
  }

  /** A motion with its slope and its constant acceleration. */
  datatype Path = Path(value: real -> real, slope: real -> real, bend: real)

  function ParabolaPath(a: real, b: real, c: real): Path {
    Path((x: real) => Parabola(a, b, c, x), (x: real) => b + 2.0 * c * x, 2.0 * c)
  }

  /** Between any two points of the path, with its slopes and acceleration, it is drawn. */
  ghost predicate Follows(blend: Blend, path: Path) {
    forall start: real, span: real, x: real :: FollowsAt(blend, path, start, span, x)
  }

  ghost predicate FollowsAt(blend: Blend, path: Path, start: real, span: real, x: real) {
    blend(path.value(start), path.value(start + span), path.slope(start), path.slope(start + span), path.bend, path.bend,
      span, x) == path.value(start + span * x)
  }

  lemma FollowsTo(blend: Blend, path: Path, start: real, end: real, span: real, x: real, at: real)
    requires Follows(blend, path) && end == start + span && at == start + span * x
    ensures blend(path.value(start), path.value(end), path.slope(start), path.slope(end), path.bend, path.bend, span, x)
            == path.value(at)
  {
    assert FollowsAt(blend, path, start, span, x);
  }

  lemma PathAt(a: real, b: real, c: real, x: real)
    ensures ParabolaPath(a, b, c).value(x) == Parabola(a, b, c, x)
    ensures ParabolaPath(a, b, c).slope(x) == b + 2.0 * c * x
    ensures ParabolaPath(a, b, c).bend == 2.0 * c
  {
  }

  lemma BlendIs(order: int, first: real, second: real, s: real, t: real, u: real, span: real, x: real)
    requires order != 1
    ensures BlendFor(order)(first, second, s, t, u, u, span, x) ==
            if order == 3 then Cubic(first, second, s, t, span, x) else Quintic(first, second, s, t, u, u, span, x)
  {
  }

  lemma ParabolaFollowedAt(order: int, a: real, b: real, c: real, start: real, span: real, x: real)
    requires order != 1
    ensures FollowsAt(BlendFor(order), ParabolaPath(a, b, c), start, span, x)
  {
    var p, end, at := ParabolaPath(a, b, c), start + span, start + span * x;
    PathAt(a, b, c, start);
    PathAt(a, b, c, end);
    PathAt(a, b, c, at);
    BlendIs(order, p.value(start), p.value(end), p.slope(start), p.slope(end), p.bend, span, x);
    if order == 3 {
      CubicParabola(a, b, c, start, end, span, x, at, p.value(start), p.value(end), p.slope(start), p.slope(end), p.bend,
        p.value(at));
    } else {
      QuinticParabola(a, b, c, start, end, span, x, at, p.value(start), p.value(end), p.slope(start), p.slope(end), p.bend,
        p.value(at));
    }
  }

  lemma ParabolaFollowed(order: int, a: real, b: real, c: real)
    requires order == 3 || order == 5
    ensures Follows(BlendFor(order), ParabolaPath(a, b, c))
  {
    forall start: real, span: real, x: real ensures FollowsAt(BlendFor(order), ParabolaPath(a, b, c), start, span, x) {
      ParabolaFollowedAt(order, a, b, c, start, span, x);
    }
  }

  ghost predicate OnPath(p: Point, path: Path) { p.value == path.value(p.tick as real) }

  /** The slopes and accelerations at both ends are those of the path. */
  ghost predicate Bends(before: Option<Point>, first: CurvePoint, second: CurvePoint, after: Option<Point>, path: Path) {
    && OnPath(Knot(first), path) && OnPath(Knot(second), path)
    && PointSlope(before, first, Some(Knot(second))) == path.slope(first.tick as real)
    && PointSlope(Some(Knot(first)), second, after) == path.slope(second.tick as real)
    && PointAcceleration(before, first, Some(Knot(second))) == path.bend
    && PointAcceleration(Some(Knot(first)), second, after) == path.bend
  }

  lemma SegmentOfPath(
    before: Option<Point>, first: CurvePoint, second: CurvePoint, after: Option<Point>, shape: Shape, blend: Blend,
    path: Path, tick: nat)
    requires Runs(shape, blend) && Follows(blend, path)
    requires first.tick < second.tick && first.tick <= tick <= second.tick
    requires Bends(before, first, second, after, path)
    ensures shape(before, first, second, after, tick) == path.value(tick as real)
  {
    var start, end, span := first.tick as real, second.tick as real, CurveEngine.Span(Knot(first), Knot(second));
    var x := RatioIs(first, second, tick);
    assert RunsAt(shape, blend, before, first, second, after, tick);
    FollowsTo(blend, path, start, end, span, x, tick as real);
  }

  lemma RatioIs(first: CurvePoint, second: CurvePoint, tick: nat) returns (x: real)
    requires first.tick < second.tick && first.tick <= tick <= second.tick
    ensures x == Ratio(first, second, tick)
    ensures tick as real - first.tick as real == CurveEngine.Span(Knot(first), Knot(second)) * x
  {
    var span, part := CurveEngine.Span(Knot(first), Knot(second)), (tick as int - first.tick as int) as real;
    Spread(part, span);
    x := part / span;
    Fraction(part, span);
  }

  lemma Fraction(part: real, span: real)
    requires 0.0 <= part <= span && span > 0.0
    ensures 0.0 <= part / span <= 1.0
  {
    Spread(part, span);
    var x := part / span;
    assert x < 0.0 ==> span * x < 0.0;
    assert x > 1.0 ==> span * x > span;
  }

  lemma InnerSegment(
    before: CurvePoint, first: CurvePoint, second: CurvePoint, after: CurvePoint, order: int, a: real, b: real, c: real)
    requires order != 1 && IsSample(before, a, b, c) && IsSample(first, a, b, c)
    requires IsSample(second, a, b, c) && IsSample(after, a, b, c)
    requires before.tick < first.tick < second.tick < after.tick
    requires first.tick - before.tick == second.tick - first.tick == after.tick - second.tick
    ensures Bends(
              Some(Knot(before)), PreparePoint(Some(Knot(before)), first, Some(Knot(second)), order),
              PreparePoint(Some(Knot(first)), second, Some(Knot(after)), order), Some(Knot(after)), ParabolaPath(a, b, c))
  {
    InnerPoint(before, first, second, order, a, b, c);
    InnerPoint(first, second, after, order, a, b, c);
  }

  lemma InnerTick(
    points: seq<CurvePoint>, order: int, a: real, b: real, c: real, step: nat, j: nat, tick: nat)
    requires (order == 3 || order == 5) && SamplesParabola(points, a, b, c, step) && Spaced(points)
    requires 1 <= j && j + 2 < |points| && points[j].tick <= tick <= points[j + 1].tick
    ensures SampleAt(PrepareAll(points, PrepareFor(order)), ShapeFor(order), j, tick) == Parabola(a, b, c, tick as real)
  {
    var prepare := PrepareFor(order);
    var prepared := PrepareAll(points, prepare);
    PrepareKeepsKnots(order);
    PreparedKnots(points, prepare, j - 1);
    PreparedKnots(points, prepare, j);
    PreparedKnots(points, prepare, j + 1);
    PreparedKnots(points, prepare, j + 2);
    InnerSegment(points[j - 1], points[j], points[j + 1], points[j + 2], order, a, b, c);
    ShapeRuns(order);
    ParabolaFollowed(order, a, b, c);
    SegmentOfPath(At(prepared, j - 1), prepared[j], prepared[j + 1], At(prepared, j + 2), ShapeFor(order), BlendFor(order),
      ParabolaPath(a, b, c), tick);
    PathAt(a, b, c, tick as real);
  }

  /** The tick, `k` ticks after the first point, lies on the segment. */
  ghost predicate OnSegment(points: seq<CurvePoint>, j: nat, tick: nat, k: nat) {
    && Spaced(points) && j + 1 < |points| && points[j].tick <= tick <= points[j + 1].tick
    && tick == points[0].tick + k
  }

  lemma SegmentSample(points: seq<CurvePoint>, shape: Shape, j: nat, tick: nat, k: nat)
    requires OnSegment(points, j, tick, k) && PassesThrough(shape)
    ensures k < |Samples(points, shape)| && Samples(points, shape)[k] == Point(tick, SampleAt(points, shape, j, tick))
  {
    CurveIsLocal(points, shape, j, tick);
    if j > 0 { SpacedIsOrdered(points, 0, j); }
    if j + 1 < |points| - 1 { SpacedIsOrdered(points, j + 1, |points| - 1); }
    assert Samples(points, shape)[k] == CurveSample(points, shape, k);
  }

  lemma PreparedSegment(points: seq<CurvePoint>, prepare: Preparer, j: nat, tick: nat, k: nat)
    requires OnSegment(points, j, tick, k) && KeepsKnots(prepare)
    ensures OnSegment(PrepareAll(points, prepare), j, tick, k)
  {
    PreparedStaysSpaced(points, prepare);
    PreparedTick(points, prepare, 0);
    PreparedTick(points, prepare, j);
    PreparedTick(points, prepare, j + 1);
  }

  /** The segment as drawing gives it. */
  lemma RenderedSegment(points: seq<CurvePoint>, order: int, j: nat, tick: nat, k: nat)
    requires OnSegment(points, j, tick, k) && IsOrder(order)
    ensures Rendering(points, order).Ok? && k < |Rendering(points, order).value.1|
    ensures Rendering(points, order).value.1[k] ==
            Point(tick, SampleAt(PrepareAll(points, PrepareFor(order)), ShapeFor(order), j, tick))
  {
    SpacedIsSorted(points);
    PrepareKeepsKnots(order);
    PreparedSegment(points, PrepareFor(order), j, tick, k);
    ShapePassesThrough(order);
    SegmentSample(PrepareAll(points, PrepareFor(order)), ShapeFor(order), j, tick, k);
  }

  /** Orders 3 and 5 draw a parabola exactly, between the second and the last but one of the
      points that are taken from it. */
  lemma ParabolaIsKept(
    points: seq<CurvePoint>, order: int, a: real, b: real, c: real, step: nat, j: nat, tick: nat, k: nat)
    requires (order == 3 || order == 5) && SamplesParabola(points, a, b, c, step)
    requires 1 <= j && j + 2 < |points| && points[j].tick <= tick <= points[j + 1].tick && tick == points[0].tick + k
    ensures Rendering(points, order).Ok? && k < |Rendering(points, order).value.1|
    ensures Rendering(points, order).value.1[k] == Point(tick, Parabola(a, b, c, tick as real))
  {
    RenderedSegment(points, order, j, tick, k);
    InnerTick(points, order, a, b, c, step, j, tick);
  }
}

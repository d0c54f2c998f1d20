/** Point curves: how handles are filled in, what a curve is worth between its points, and
    how it is sampled.  Slopes are per tick. */
module CurveEngine {
  import opened MotionTypes
  import opened Sorting
  import opened Timeline

  // ----- One point and its neighbours ----------------------------------------------------------

  /** Where a point is. */
  function Knot(point: CurvePoint): Point { Point(point.tick, point.value) }

  function At(points: seq<CurvePoint>, i: int): Option<Point> {
    if 0 <= i < |points| then Some(Knot(points[i])) else None
  }

  function Span(a: Point, b: Point): real { (b.tick as int - a.tick as int) as real }

  function Slope(a: Point, b: Point): real {
    if b.tick <= a.tick then 0.0 else (b.value - a.value) / Span(a, b)
  }

  /** The slope between the neighbours; at an end, between the end and its neighbour. */
  function AutomaticSlope(before: Option<Point>, point: Point, after: Option<Point>): real {
    Slope(if before.Some? then before.value else point, if after.Some? then after.value else point)
  }

  function AutomaticAcceleration(before: Option<Point>, point: Point, after: Option<Point>): real {
    if before.None? || after.None? then 0.0
    else if point.tick <= before.value.tick || after.value.tick <= point.tick then 0.0
    else
      2.0 * (Slope(point, after.value) - Slope(before.value, point))
      / (Span(before.value, point) + Span(point, after.value))
  }

  // ----- Handles -------------------------------------------------------------------------------

  function Given(part: Option<real>, default: real): real { if part.Some? then part.value else default }

  function Within(low: real, x: real, high: real): real {
    if x < low then low else if x > high then high else x
  }

  function Times(x: real, y: real): real { x * y }

  /** A part of a handle, if there is one, multiplied. */
  function ScaledPart(part: Option<real>, factor: real): Option<real> {
    if part.Some? then Some(Times(factor, part.value)) else None
  }

  function HandleOf(dt: real, slope: real): Handle { Handle(Some(dt), Some(slope * dt)) }

  /** The slope that a smooth point keeps on both sides: the average of those its handles
      ask for, or the automatic one when neither handle has a length. */
  function SharedSlope(inDt: real, inDv: real, outDt: real, outDv: real, automatic: real): real {
    if inDt != 0.0 && outDt != 0.0 then (inDv / inDt + outDv / outDt) / 2.0
    else if inDt != 0.0 then inDv / inDt
    else if outDt != 0.0 then outDv / outDt
    else automatic
  }

  /** How far the handles of a smooth point reach: at most half of each span. */
  function InReach(handle: Handle, previous: real): real {
    Within(-previous / 2.0, Given(handle.dt, -(previous / 3.0)), 0.0)
  }

  function OutReach(handle: Handle, following: real): real {
    Within(0.0, Given(handle.dt, following / 3.0), following / 2.0)
  }

  function SharedFor(point: CurvePoint, inDt: real, outDt: real, slope: real): real {
    SharedSlope(
      inDt, Given(point.inHandle.dv, slope * inDt), outDt, Given(point.outHandle.dv, slope * outDt), slope)
  }

  /** A smooth point with handles of these lengths, which get one slope. */
  function Smoothed(point: CurvePoint, inDt: real, outDt: real, slope: real): CurvePoint {
    var shared := SharedFor(point, inDt, outDt, slope);
    point.(inHandle := HandleOf(inDt, shared), outHandle := HandleOf(outDt, shared))
  }

  /** A point with its handles filled in, told by its neighbours. */
  function PreparePoint(before: Option<Point>, point: CurvePoint, after: Option<Point>, order: int): CurvePoint {
    var here := Knot(point);
    var previous := if before.Some? then Span(before.value, here) else 0.0;
    var following := if after.Some? then Span(here, after.value) else 0.0;
    var slope := AutomaticSlope(before, here, after);
    var boundary := before.None? || after.None?;
    if order == 1 then
      var inSlope := if before.Some? then Slope(before.value, here) else 0.0;
      var outSlope := if after.Some? then Slope(here, after.value) else 0.0;
      point.(inHandle := HandleOf(-(previous / 3.0), inSlope), outHandle := HandleOf(following / 3.0, outSlope))
    else if point.mode.Smooth? && !boundary then
      Smoothed(point, InReach(point.inHandle, previous), OutReach(point.outHandle, following), slope)
    else
      var applied := if point.mode.Broken? || boundary then 0.0 else slope;
      point.(inHandle := HandleOf(-(previous / 3.0), applied), outHandle := HandleOf(following / 3.0, applied))
  }

  type Preparer = (Option<Point>, CurvePoint, Option<Point>) -> CurvePoint

  function PrepareFor(order: int): Preparer {
    (before: Option<Point>, point: CurvePoint, after: Option<Point>) => PreparePoint(before, point, after, order)
  }

  function TickLeq(): (CurvePoint, CurvePoint) -> bool { (a: CurvePoint, b: CurvePoint) => a.tick <= b.tick }

  predicate Spaced(points: seq<CurvePoint>) {
    forall i :: 0 < i < |points| ==> points[i - 1].tick < points[i].tick
  }

  function PreparedAt(points: seq<CurvePoint>, prepare: Preparer, i: nat): CurvePoint
    requires i < |points|
  {
    prepare(At(points, i - 1), points[i], At(points, i + 1))
  }

  function PrepareAll(points: seq<CurvePoint>, prepare: Preparer): (r: seq<CurvePoint>)
    ensures |r| == |points|
    ensures forall i :: 0 <= i < |points| ==> r[i] == PreparedAt(points, prepare, i)
  {
    seq(|points|, i requires 0 <= i < |points| => PreparedAt(points, prepare, i))
  }

  predicate IsOrder(order: int) { order == 1 || order == 3 || order == 5 }

  function Prepared(raw: seq<CurvePoint>, order: int): Result<seq<CurvePoint>> {
    var points := Sort(raw, TickLeq());
    if |points| < 2 then Err("a curve needs two points")
    else if !Spaced(points) then Err("points must be a tick apart")
    else if !IsOrder(order) then Err("order must be 1, 3 or 5")
    else Ok(PrepareAll(points, PrepareFor(order)))
  }

  ghost predicate KeepsKnots(prepare: Preparer) {
    forall before, point, after ::
      Knot(prepare(before, point, after)) == Knot(point) && prepare(before, point, after).mode == point.mode
  }

  lemma PrepareKeepsKnots(order: int)
    ensures KeepsKnots(PrepareFor(order))
  {}

  /** Fills the handles in place, point by point. */
  method PrepareCurvePoints(raw: seq<CurvePoint>, order: int) returns (r: Result<seq<CurvePoint>>)
    ensures r == Prepared(raw, order)
  {
    var points := Sort(raw, TickLeq());
    if |points| < 2 {
      return Err("a curve needs two points");
    }
    if exists i :: 0 < i < |points| && points[i].tick <= points[i - 1].tick {
      return Err("points must be a tick apart");
    }
    if order != 1 && order != 3 && order != 5 {
      return Err("order must be 1, 3 or 5");
    }
    PrepareKeepsKnots(order);
    points := FillHandles(points, PrepareFor(order));
    return Ok(points);
  }

  method FillHandles(sorted: seq<CurvePoint>, prepare: Preparer) returns (points: seq<CurvePoint>)
    requires KeepsKnots(prepare)
    ensures points == PrepareAll(sorted, prepare)
  {
    points := sorted;
    for i := 0 to |points|
      invariant points == PrepareAll(sorted, prepare)[..i] + sorted[i..]
    {
      SameNeighbours(points, sorted, i, prepare);
      points := points[i := PreparedAt(points, prepare, i)];
    }
  }

  lemma PreparedKnot(points: seq<CurvePoint>, prepare: Preparer, i: nat)
    requires i < |points| && KeepsKnots(prepare)
    ensures Knot(PreparedAt(points, prepare, i)) == Knot(points[i])
    ensures PreparedAt(points, prepare, i).mode == points[i].mode
  {}

  /** Preparing looks only at the time and the value of the neighbours, which it leaves
      alone. */
  lemma SameNeighbours(points: seq<CurvePoint>, sorted: seq<CurvePoint>, i: nat, prepare: Preparer)
    requires i < |sorted| && points == PrepareAll(sorted, prepare)[..i] + sorted[i..] && KeepsKnots(prepare)
    ensures PreparedAt(points, prepare, i) == PreparedAt(sorted, prepare, i)
  {}

  // ----- Preparing twice ---------------------------------------------------------------------------

  lemma SharedForHandles(point: CurvePoint, inDt: real, outDt: real, shared: real, slope: real)
    requires point.inHandle == HandleOf(inDt, shared) && point.outHandle == HandleOf(outDt, shared)
    requires inDt == 0.0 && outDt == 0.0 ==> shared == slope
    ensures SharedFor(point, inDt, outDt, slope) == shared
  {}

  lemma SmoothedTwice(point: CurvePoint, inDt: real, outDt: real, slope: real)
    ensures Smoothed(Smoothed(point, inDt, outDt, slope), inDt, outDt, slope) == Smoothed(point, inDt, outDt, slope)
  {
    var shared := SharedFor(point, inDt, outDt, slope);
    SharedForHandles(Smoothed(point, inDt, outDt, slope), inDt, outDt, shared, slope);
  }

  lemma ReachAgain(handle: Handle, span: real, shared: real)
    requires span >= 0.0
    ensures InReach(HandleOf(InReach(handle, span), shared), span) == InReach(handle, span)
    ensures OutReach(HandleOf(OutReach(handle, span), shared), span) == OutReach(handle, span)
  {}

  /** A point between its neighbours in time. */
  ghost predicate InOrder(before: Option<Point>, point: CurvePoint, after: Option<Point>) {
    (before.Some? ==> before.value.tick < point.tick) && (after.Some? ==> point.tick < after.value.tick)
  }

  lemma PrepareTwice(before: Option<Point>, point: CurvePoint, after: Option<Point>, order: int)
    requires InOrder(before, point, after)
    ensures PreparePoint(before, PreparePoint(before, point, after, order), after, order) ==
            PreparePoint(before, point, after, order)
  {
    if order != 1 && point.mode.Smooth? && before.Some? && after.Some? {
      var here := Knot(point);
      var previous, following := Span(before.value, here), Span(here, after.value);
      var inDt, outDt := InReach(point.inHandle, previous), OutReach(point.outHandle, following);
      var slope := AutomaticSlope(before, here, after);
      var once := Smoothed(point, inDt, outDt, slope);
      var shared := SharedFor(point, inDt, outDt, slope);
      ReachAgain(point.inHandle, previous, shared);
      ReachAgain(point.outHandle, following, shared);
      SmoothedTwice(point, inDt, outDt, slope);
    }
  }

  ghost predicate Settles(prepare: Preparer) {
    forall before, point, after :: InOrder(before, point, after) ==>
      prepare(before, prepare(before, point, after), after) == prepare(before, point, after)
  }

  lemma PrepareSettles(order: int)
    ensures Settles(PrepareFor(order))
  {
    forall before, point, after | InOrder(before, point, after)
      ensures PrepareFor(order)(before, PrepareFor(order)(before, point, after), after) ==
              PrepareFor(order)(before, point, after)
    {
      PrepareTwice(before, point, after, order);
    }
  }

  lemma PreparedAgain(points: seq<CurvePoint>, prepare: Preparer, i: nat)
    requires i < |points| && Spaced(points) && KeepsKnots(prepare) && Settles(prepare)
    ensures PreparedAt(PrepareAll(points, prepare), prepare, i) == PreparedAt(points, prepare, i)
  {}

  lemma SpacedIsOrdered(points: seq<CurvePoint>, i: nat, j: nat)
    requires Spaced(points) && i < j < |points|
    ensures points[i].tick < points[j].tick
    decreases j - i
  {
    if i + 1 < j { SpacedIsOrdered(points, i, j - 1); }
  }

  lemma SpacedIsSorted(points: seq<CurvePoint>)
    requires Spaced(points)
    ensures Sort(points, TickLeq()) == points
  {
    forall i, j | 0 <= i < j < |points| ensures TickLeq()(points[i], points[j]) { SpacedIsOrdered(points, i, j); }
    SortOfOrdered(points, TickLeq());
  }

  lemma PreparedStaysSpaced(points: seq<CurvePoint>, prepare: Preparer)
    requires Spaced(points) && KeepsKnots(prepare)
    ensures Spaced(PrepareAll(points, prepare))
  {}

  /** What has been prepared once is prepared, whatever the tangent modes and the order. */
  lemma PreparingIsDoneOnce(raw: seq<CurvePoint>, order: int)
    requires Prepared(raw, order).Ok?
    ensures Spaced(Prepared(raw, order).value)
    ensures Prepared(Prepared(raw, order).value, order) == Prepared(raw, order)
  {
    var sorted, prepare := Sort(raw, TickLeq()), PrepareFor(order);
    var points := PrepareAll(sorted, prepare);
    PrepareKeepsKnots(order);
    PrepareSettles(order);
    PreparedStaysSpaced(sorted, prepare);
    SpacedIsSorted(points);
    forall i | 0 <= i < |points| ensures PrepareAll(points, prepare)[i] == points[i] {
      PreparedAgain(sorted, prepare, i);
    }
    assert PrepareAll(points, prepare) == points;
  }

  // ----- Between two points ------------------------------------------------------------------------

  /** The slope of a prepared point: flat at the ends and at broken points, else what its
      handle says. */
  function PointSlope(before: Option<Point>, point: CurvePoint, after: Option<Point>): real {
    if before.None? || after.None? || point.mode.Broken? then 0.0
    else
      var handle := if point.outHandle != Handle(None, None) then point.outHandle else point.inHandle;
      var dt := Given(handle.dt, 0.0);
      if dt == 0.0 then AutomaticSlope(before, Knot(point), after) else Given(handle.dv, 0.0) / dt
  }

  function PointAcceleration(before: Option<Point>, point: CurvePoint, after: Option<Point>): real {
    if point.mode.Broken? then 0.0 else AutomaticAcceleration(before, Knot(point), after)
  }

  function Cubic(first: real, second: real, firstSlope: real, secondSlope: real, span: real, ratio: real): real {
    var ratio2 := ratio * ratio;
    var ratio3 := ratio * ratio * ratio;
    (2.0 * ratio3 - 3.0 * ratio2 + 1.0) * first
    + (ratio3 - 2.0 * ratio2 + ratio) * span * firstSlope
    + (-2.0 * ratio3 + 3.0 * ratio2) * second
    + (ratio3 - ratio2) * span * secondSlope
  }

  function Quintic(
    first: real, second: real, firstSlope: real, secondSlope: real,
    firstAcceleration: real, secondAcceleration: real, span: real, ratio: real): real
  {
    var delta := second - first;
    var c0 := first;
    var c1 := firstSlope * span;
    var c2 := 0.5 * firstAcceleration * span * span;
    var value := delta - c1 - c2;
    var slope := secondSlope * span - c1 - 2.0 * c2;
    var acceleration := secondAcceleration * span * span - 2.0 * c2;
    var c3 := 10.0 * value - 4.0 * slope + 0.5 * acceleration;
    var c4 := -15.0 * value + 7.0 * slope - acceleration;
    var c5 := 6.0 * value - 3.0 * slope + 0.5 * acceleration;
    Power5(c0, c1, c2, c3, c4, c5, ratio)
  }

  function Power5(c0: real, c1: real, c2: real, c3: real, c4: real, c5: real, x: real): real {
    c0 + c1 * x + c2 * (x * x) + c3 * (x * x * x) + c4 * (x * x * x * x) + c5 * (x * x * x * x * x)
  }

  function Ratio(first: CurvePoint, second: CurvePoint, tick: nat): real
    requires first.tick < second.tick
  {
    Within(0.0, (tick as int - first.tick as int) as real / Span(Knot(first), Knot(second)), 1.0)
  }

  /** The curve between two prepared points, told by those two and their neighbours. */
  function SegmentValue(
    before: Option<Point>, first: CurvePoint, second: CurvePoint, after: Option<Point>, order: int, tick: nat): real
  {
    if second.tick <= first.tick then first.value
    else
      var ratio := Ratio(first, second, tick);
      var span := Span(Knot(first), Knot(second));
      if order == 1 then first.value + (second.value - first.value) * ratio
      else
        var firstSlope := PointSlope(before, first, Some(Knot(second)));
        var secondSlope := PointSlope(Some(Knot(first)), second, after);
        if order == 3 then Cubic(first.value, second.value, firstSlope, secondSlope, span, ratio)
        else
          Quintic(first.value, second.value, firstSlope, secondSlope,
            PointAcceleration(before, first, Some(Knot(second))),
            PointAcceleration(Some(Knot(first)), second, after), span, ratio)
  }

  lemma QuinticEnds(a: real, b: real, s: real, t: real, u: real, v: real, span: real)
    ensures Quintic(a, b, s, t, u, v, span, 0.0) == a
    ensures Quintic(a, b, s, t, u, v, span, 1.0) == b
  {}

  lemma CubicEnds(a: real, b: real, s: real, t: real, span: real)
    ensures Cubic(a, b, s, t, span, 0.0) == a
    ensures Cubic(a, b, s, t, span, 1.0) == b
  {}

  lemma RatioEnds(first: CurvePoint, second: CurvePoint)
    requires first.tick < second.tick
    ensures Ratio(first, second, first.tick) == 0.0 && Ratio(first, second, second.tick) == 1.0
  {
    var span := Span(Knot(first), Knot(second));
    assert span > 0.0 && 0.0 / span == 0.0 && span / span == 1.0;
  }

  /** A segment starts at its first point and ends at its second one, for every order. */
  lemma SegmentEnds(
    before: Option<Point>, first: CurvePoint, second: CurvePoint, after: Option<Point>, order: int)
    requires first.tick < second.tick
    ensures SegmentValue(before, first, second, after, order, first.tick) == first.value
    ensures SegmentValue(before, first, second, after, order, second.tick) == second.value
  {
    var span := Span(Knot(first), Knot(second));
    var s, t := PointSlope(before, first, Some(Knot(second))), PointSlope(Some(Knot(first)), second, after);
    RatioEnds(first, second);
    if order == 3 {
      CubicEnds(first.value, second.value, s, t, span);
    } else if order != 1 {
      QuinticEnds(first.value, second.value, s, t, PointAcceleration(before, first, Some(Knot(second))),
        PointAcceleration(Some(Knot(first)), second, after), span);
    }
  }

  // ----- A whole curve -----------------------------------------------------------------------------

  /** How a curve runs between two points. */
  type Shape = (Option<Point>, CurvePoint, CurvePoint, Option<Point>, nat) -> real

  /** Between prepared points. */
  function ShapeFor(order: int): Shape {
    (before: Option<Point>, first: CurvePoint, second: CurvePoint, after: Option<Point>, tick: nat) =>
      SegmentValue(before, first, second, after, order, tick)
  }

  ghost predicate PassesThrough(shape: Shape) {
    forall before, first, second, after :: MeetsEnds(shape, before, first, second, after)
  }

  ghost predicate MeetsEnds(
    shape: Shape, before: Option<Point>, first: CurvePoint, second: CurvePoint, after: Option<Point>)
  {
    first.tick < second.tick ==>
      && shape(before, first, second, after, first.tick) == first.value
      && shape(before, first, second, after, second.tick) == second.value
  }

  lemma ShapePassesThrough(order: int)
    ensures PassesThrough(ShapeFor(order))
  {
    forall before, first, second, after ensures MeetsEnds(ShapeFor(order), before, first, second, after) {
      if first.tick < second.tick { SegmentEnds(before, first, second, after, order); }
    }
  }

  function SampleAt(points: seq<CurvePoint>, shape: Shape, j: nat, tick: nat): real
    requires j + 1 < |points|
  {
    shape(At(points, j - 1), points[j], points[j + 1], At(points, j + 2), tick)
  }

  /** The first segment from `from` on that does not end before the tick, or the last one. */
  function Advance(points: seq<CurvePoint>, from: nat, tick: nat): (j: nat)
    requires from + 1 < |points|
    ensures from <= j && j + 1 < |points|
    ensures j + 2 < |points| ==> tick <= points[j + 1].tick
    ensures from < j ==> points[j].tick < tick
    decreases |points| - from
  {
    if from + 2 < |points| && tick > points[from + 1].tick then Advance(points, from + 1, tick) else from
  }

  function CurveAt(points: seq<CurvePoint>, shape: Shape, tick: nat): real
    requires |points| >= 2
  {
    if tick <= points[0].tick then points[0].value
    else if tick >= points[|points| - 1].tick then points[|points| - 1].value
    else SampleAt(points, shape, Advance(points, 0, tick), tick)
  }

  function Count(points: seq<CurvePoint>): nat
    requires |points| >= 2
  {
    if points[|points| - 1].tick >= points[0].tick then points[|points| - 1].tick - points[0].tick else 0
  }

  function CurveSample(points: seq<CurvePoint>, shape: Shape, i: nat): Point
    requires |points| >= 2
  {
    Point(points[0].tick + i, CurveAt(points, shape, points[0].tick + i))
  }

  /** One sample a tick, both ends included. */
  function Samples(points: seq<CurvePoint>, shape: Shape): (r: seq<Point>)
    requires |points| >= 2
    ensures |r| == Count(points) + 1
    ensures forall i :: 0 <= i < |r| ==> r[i] == CurveSample(points, shape, i)
  {
    seq(Count(points) + 1, i requires 0 <= i => CurveSample(points, shape, i))
  }

  function Rendering(raw: seq<CurvePoint>, order: int): Result<(seq<CurvePoint>, seq<Point>)> {
    var prepared := Prepared(raw, order);
    if prepared.Err? then Err(prepared.reason)
    else Ok((prepared.value, Samples(prepared.value, ShapeFor(order))))
  }

  lemma AdvanceFrom(points: seq<CurvePoint>, from: nat, earlier: nat, tick: nat)
    requires from + 1 < |points| && earlier <= tick
    ensures Advance(points, Advance(points, from, earlier), tick) == Advance(points, from, tick)
    decreases |points| - from
  {
    if from + 2 < |points| && earlier > points[from + 1].tick {
      AdvanceFrom(points, from + 1, earlier, tick);
    }
  }

  /** The inner loop of both renderers: on to the segment that holds the tick. */
  method FindSegment(points: seq<CurvePoint>, from: nat, tick: nat) returns (j: nat)
    requires from + 1 < |points|
    ensures j == Advance(points, from, tick)
  {
    j := from;
    while j + 2 < |points| && tick > points[j + 1].tick
      invariant j + 1 < |points| && Advance(points, j, tick) == Advance(points, from, tick)
    {
      j := j + 1;
    }
  }

  /** Before both ends are set. */
  function RawSample(points: seq<CurvePoint>, shape: Shape, i: nat): Point
    requires |points| >= 2
  {
    var tick := points[0].tick + i;
    Point(tick, SampleAt(points, shape, Advance(points, 0, tick), tick))
  }

  function RawSamples(points: seq<CurvePoint>, shape: Shape, count: nat): (r: seq<Point>)
    requires |points| >= 2
    ensures |r| == count
    ensures forall i :: 0 <= i < count ==> r[i] == RawSample(points, shape, i)
  {
    seq(count, i requires 0 <= i => RawSample(points, shape, i))
  }

  lemma OneMoreRaw(points: seq<CurvePoint>, shape: Shape, count: nat)
    requires |points| >= 2
    ensures RawSamples(points, shape, count + 1) == RawSamples(points, shape, count) + [RawSample(points, shape, count)]
  {}

  /** Only at the ends can the two differ. */
  lemma EndsSet(points: seq<CurvePoint>, shape: Shape, count: nat)
    requires |points| >= 2 && points[0].tick < points[|points| - 1].tick && count == Count(points)
    ensures RawSamples(points, shape, count + 1)
              [0 := Point(points[0].tick, points[0].value)]
              [count := Point(points[|points| - 1].tick, points[|points| - 1].value)] == Samples(points, shape)
  {}

  /** The segment that the sample before this one was in; none before the first. */
  ghost predicate Follows(points: seq<CurvePoint>, segment: nat, first: nat, index: nat) {
    && segment + 1 < |points|
    && (if index <= first then segment == 0 else segment == Advance(points, 0, points[0].tick + index - 1))
  }

  method NextRawSample(points: seq<CurvePoint>, shape: Shape, before: nat, index: nat)
    returns (segment: nat, sample: Point)
    requires |points| >= 2 && Follows(points, before, 0, index)
    ensures Follows(points, segment, 0, index + 1)
    ensures sample == RawSample(points, shape, index)
  {
    if index > 0 { AdvanceFrom(points, 0, points[0].tick + index - 1, points[0].tick + index); }
    segment := FindSegment(points, before, points[0].tick + index);
    sample := Point(points[0].tick + index, SampleAt(points, shape, segment, points[0].tick + index));
  }

  method SampleCurve(points: seq<CurvePoint>, shape: Shape) returns (samples: seq<Point>)
    requires |points| >= 2 && points[0].tick < points[|points| - 1].tick
    ensures samples == Samples(points, shape)
  {
    var count := points[|points| - 1].tick - points[0].tick;
    samples := [];
    var segment, sample := 0, Knot(points[0]);
    for index := 0 to count + 1
      invariant Follows(points, segment, 0, index)
      invariant samples == RawSamples(points, shape, index)
    {
      segment, sample := NextRawSample(points, shape, segment, index);
      samples := samples + [sample];
      OneMoreRaw(points, shape, index);
    }
    EndsSet(points, shape, count);
    samples := samples[0 := Point(points[0].tick, points[0].value)];
    samples := samples[count := Point(points[|points| - 1].tick, points[|points| - 1].value)];
  }

  method RenderPointCurve(raw: seq<CurvePoint>, order: int) returns (r: Result<(seq<CurvePoint>, seq<Point>)>)
    ensures r == Rendering(raw, order)
  {
    var prepared := PrepareCurvePoints(raw, order);
    if prepared.Err? {
      return Err(prepared.reason);
    }
    var points := prepared.value;
    PreparingIsDoneOnce(raw, order);
    SpacedIsOrdered(points, 0, |points| - 1);
    var samples := SampleCurve(points, ShapeFor(order));
    return Ok((points, samples));
  }

  /** The samples from one step up to, not including, another, cut to what there is. */
  function Slice(samples: seq<Point>, firstStep: int, end: int): seq<Point> {
    var first := if firstStep < 0 then 0 else firstStep;
    var last := if end < |samples| then end else |samples|;
    if first < last then samples[first..last] else []
  }

  lemma OneMoreOfSlice(samples: seq<Point>, firstStep: int, index: nat)
    requires firstStep <= index < |samples|
    ensures Slice(samples, firstStep, index + 1) == Slice(samples, firstStep, index) + [samples[index]]
  {}

  /** One sample of the window: an end as it is, anything else from its segment. */
  method NextSample(points: seq<CurvePoint>, shape: Shape, before: nat, ghost first: nat, index: nat)
    returns (segment: nat, sample: Point)
    requires |points| >= 2 && points[0].tick < points[|points| - 1].tick && first <= index <= Count(points)
    requires Follows(points, before, first, index)
    ensures Follows(points, segment, first, index + 1)
    ensures sample == CurveSample(points, shape, index)
  {
    if index > first { AdvanceFrom(points, 0, points[0].tick + index - 1, points[0].tick + index); }
    segment := FindSegment(points, before, points[0].tick + index);
    if index == 0 {
      sample := Point(points[0].tick, points[0].value);
    } else if index == points[|points| - 1].tick - points[0].tick {
      sample := Point(points[|points| - 1].tick, points[|points| - 1].value);
    } else {
      sample := Point(points[0].tick + index, SampleAt(points, shape, segment, points[0].tick + index));
    }
  }

  method SampleWindow(points: seq<CurvePoint>, shape: Shape, firstStep: int, lastStep: int)
    returns (samples: seq<Point>)
    requires |points| >= 2 && points[0].tick < points[|points| - 1].tick
    ensures samples == Slice(Samples(points, shape), firstStep, lastStep + 1)
  {
    var count := points[|points| - 1].tick - points[0].tick;
    var first: nat := if firstStep < 0 then 0 else firstStep;
    var end := (if lastStep < count then lastStep else count) + 1;
    samples := [];
    var segment, sample := 0, Knot(points[0]);
    ghost var all := Samples(points, shape);
    for index := first to if end < first then first else end
      invariant Follows(points, segment, first, index)
      invariant samples == Slice(all, firstStep, index)
    {
      segment, sample := NextSample(points, shape, segment, first, index);
      samples := samples + [sample];
      OneMoreOfSlice(all, firstStep, index);
    }
  }

  /** Renders only the samples between two steps: the same as rendering them all. */
  method RenderPointCurveWindow(raw: seq<CurvePoint>, order: int, firstStep: int, lastStep: int)
    returns (r: Result<seq<Point>>)
    ensures r.Err? <==> Rendering(raw, order).Err?
    ensures r.Ok? ==> r.value == Slice(Rendering(raw, order).value.1, firstStep, lastStep + 1)
  {
    var prepared := PrepareCurvePoints(raw, order);
    if prepared.Err? {
      return Err(prepared.reason);
    }
    var points := prepared.value;
    PreparingIsDoneOnce(raw, order);
    SpacedIsOrdered(points, 0, |points| - 1);
    var samples := SampleWindow(points, ShapeFor(order), firstStep, lastStep);
    return Ok(samples);
  }

  // ----- What a curve is worth ----------------------------------------------------------------------

  lemma AdvanceIs(points: seq<CurvePoint>, from: nat, j: nat, tick: nat)
    requires Spaced(points) && from <= j && j + 1 < |points|
    requires j == from || points[j].tick < tick
    requires j + 2 == |points| || tick <= points[j + 1].tick
    ensures Advance(points, from, tick) == j
    decreases j - from
  {
    if from < j {
      if from + 1 < j { SpacedIsOrdered(points, from + 1, j); }
      AdvanceIs(points, from + 1, j, tick);
    }
  }

  lemma SampleEnds(points: seq<CurvePoint>, shape: Shape, j: nat)
    requires PassesThrough(shape) && Spaced(points) && j + 1 < |points|
    ensures SampleAt(points, shape, j, points[j].tick) == points[j].value
    ensures SampleAt(points, shape, j, points[j + 1].tick) == points[j + 1].value
  {
    assert MeetsEnds(shape, At(points, j - 1), points[j], points[j + 1], At(points, j + 2));
  }

  /** Two segments, each of its own curve, with the same two points and neighbours. */
  ghost predicate SameAround(a: seq<CurvePoint>, i: nat, b: seq<CurvePoint>, j: nat) {
    && i + 1 < |a| && j + 1 < |b| && a[i] == b[j] && a[i + 1] == b[j + 1]
    && At(a, i - 1) == At(b, j - 1) && At(a, i + 2) == At(b, j + 2)
  }

  /** Inside a segment, ends included, the curve is what that segment's two points and
      their neighbours say: nothing further away matters. */
  lemma CurveIsLocal(points: seq<CurvePoint>, shape: Shape, j: nat, tick: nat)
    requires PassesThrough(shape) && Spaced(points) && j + 1 < |points|
    requires points[j].tick <= tick <= points[j + 1].tick
    ensures CurveAt(points, shape, tick) == SampleAt(points, shape, j, tick)
  {
    var last := |points| - 1;
    SampleEnds(points, shape, j);
    if j > 0 { SpacedIsOrdered(points, 0, j); }
    if j + 1 < last { SpacedIsOrdered(points, j + 1, last); }
    if tick == points[j].tick && j > 0 {
      SampleEnds(points, shape, j - 1);
      AdvanceIs(points, 0, j - 1, tick);
    } else if points[j].tick < tick {
      AdvanceIs(points, 0, j, tick);
    }
  }

  /** Such segments run alike. */
  lemma SameAroundSameCurve(a: seq<CurvePoint>, i: nat, b: seq<CurvePoint>, j: nat, shape: Shape, tick: nat)
    requires PassesThrough(shape) && Spaced(a) && Spaced(b) && SameAround(a, i, b, j)
    requires a[i].tick <= tick <= a[i + 1].tick
    ensures CurveAt(a, shape, tick) == CurveAt(b, shape, tick)
  {
    CurveIsLocal(a, shape, i, tick);
    CurveIsLocal(b, shape, j, tick);
  }

  /** A curve passes through its points. */
  lemma CurvePassesThrough(points: seq<CurvePoint>, shape: Shape, k: nat)
    requires PassesThrough(shape) && Spaced(points) && |points| >= 2 && k < |points|
    ensures CurveAt(points, shape, points[k].tick) == points[k].value
  {
    var j := if k + 1 < |points| then k else k - 1;
    CurveIsLocal(points, shape, j, points[k].tick);
    SampleEnds(points, shape, j);
  }

  lemma SamplesPassThrough(points: seq<CurvePoint>, shape: Shape, k: nat)
    requires PassesThrough(shape) && Spaced(points) && |points| >= 2 && k < |points|
    ensures points[0].tick <= points[k].tick && points[k].tick - points[0].tick < |Samples(points, shape)|
    ensures Samples(points, shape)[points[k].tick - points[0].tick] == Knot(points[k])
  {
    CurvePassesThrough(points, shape, k);
    if k > 0 { SpacedIsOrdered(points, 0, k); }
    if k + 1 < |points| { SpacedIsOrdered(points, k, |points| - 1); }
    var step: nat := points[k].tick - points[0].tick;
    assert Samples(points, shape)[step] == CurveSample(points, shape, step);
  }

  /** Whatever the modes, the handles and the order, a rendering runs through every point. */
  lemma RenderingPassesThrough(raw: seq<CurvePoint>, order: int, k: nat)
    requires Rendering(raw, order).Ok? && k < |Rendering(raw, order).value.0|
    ensures var (points, samples) := Rendering(raw, order).value;
            && points[0].tick <= points[k].tick && points[k].tick - points[0].tick < |samples|
            && samples[points[k].tick - points[0].tick] == Knot(points[k])
  {
    PreparingIsDoneOnce(raw, order);
    ShapePassesThrough(order);
    SamplesPassThrough(Rendering(raw, order).value.0, ShapeFor(order), k);
  }

  /** Rendering what a rendering returned gives the same samples. */
  lemma RenderingAgain(raw: seq<CurvePoint>, order: int)
    requires Rendering(raw, order).Ok?
    ensures Rendering(Rendering(raw, order).value.0, order) == Rendering(raw, order)
  {
    PreparingIsDoneOnce(raw, order);
  }

  // ----- From unprepared points ------------------------------------------------------------------------

  /** Between points whose handles are still to be filled in. */
  function Unprepared(shape: Shape, prepare: Preparer): Shape {
    (before: Option<Point>, first: CurvePoint, second: CurvePoint, after: Option<Point>, tick: nat) =>
      shape(before, prepare(before, first, Some(Knot(second))), prepare(Some(Knot(first)), second, after), after, tick)
  }

  lemma UnpreparedPassesThrough(shape: Shape, prepare: Preparer)
    requires PassesThrough(shape) && KeepsKnots(prepare)
    ensures PassesThrough(Unprepared(shape, prepare))
  {
    forall before, first, second, after
      ensures MeetsEnds(Unprepared(shape, prepare), before, first, second, after)
    {
      assert MeetsEnds(shape, before, prepare(before, first, Some(Knot(second))),
        prepare(Some(Knot(first)), second, after), after);
      assert Knot(prepare(before, first, Some(Knot(second)))) == Knot(first);
      assert Knot(prepare(Some(Knot(first)), second, after)) == Knot(second);
    }
  }

  lemma PreparedKnots(points: seq<CurvePoint>, prepare: Preparer, i: int)
    requires KeepsKnots(prepare)
    ensures At(PrepareAll(points, prepare), i) == At(points, i)
  {}

  lemma PreparedSample(points: seq<CurvePoint>, shape: Shape, prepare: Preparer, j: nat, tick: nat)
    requires KeepsKnots(prepare) && j + 1 < |points|
    ensures SampleAt(PrepareAll(points, prepare), shape, j, tick) ==
            SampleAt(points, Unprepared(shape, prepare), j, tick)
  {}

  lemma PreparedAdvance(points: seq<CurvePoint>, prepare: Preparer, from: nat, tick: nat)
    requires KeepsKnots(prepare) && from + 1 < |points|
    ensures Advance(PrepareAll(points, prepare), from, tick) == Advance(points, from, tick)
    decreases |points| - from
  {
    PreparedKnots(points, prepare, from + 1);
    if from + 2 < |points| && tick > points[from + 1].tick { PreparedAdvance(points, prepare, from + 1, tick); }
  }

  /** Preparing first, or while sampling, is the same. */
  lemma PreparedCurve(points: seq<CurvePoint>, shape: Shape, prepare: Preparer, tick: nat)
    requires KeepsKnots(prepare) && |points| >= 2
    ensures CurveAt(PrepareAll(points, prepare), shape, tick) == CurveAt(points, Unprepared(shape, prepare), tick)
  {
    PreparedKnots(points, prepare, 0);
    PreparedKnots(points, prepare, |points| - 1);
    PreparedAdvance(points, prepare, 0, tick);
    PreparedSample(points, shape, prepare, Advance(points, 0, tick), tick);
  }

  lemma PreparedTick(points: seq<CurvePoint>, prepare: Preparer, i: nat)
    requires KeepsKnots(prepare) && i < |points|
    ensures PrepareAll(points, prepare)[i].tick == points[i].tick
  {}

  lemma PreparedCount(points: seq<CurvePoint>, prepare: Preparer)
    requires KeepsKnots(prepare) && |points| >= 2
    ensures Count(PrepareAll(points, prepare)) == Count(points)
  {}

  lemma UnpreparedSamples(points: seq<CurvePoint>, shape: Shape, prepare: Preparer, i: nat)
    requires KeepsKnots(prepare) && |points| >= 2
    ensures CurveSample(PrepareAll(points, prepare), shape, i) == CurveSample(points, Unprepared(shape, prepare), i)
  {
    PreparedTick(points, prepare, 0);
    PreparedCurve(points, shape, prepare, points[0].tick + i);
  }

  /** How a curve of an order runs through points whose handles are still to be filled in. */
  function RawShape(order: int): (shape: Shape) {
    Unprepared(ShapeFor(order), PrepareFor(order))
  }

  lemma RawShapePassesThrough(order: int)
    ensures PassesThrough(RawShape(order))
  {
    PrepareKeepsKnots(order);
    ShapePassesThrough(order);
    UnpreparedPassesThrough(ShapeFor(order), PrepareFor(order));
  }

  /** What rendering such points gives. */
  lemma RenderedCurve(points: seq<CurvePoint>, order: int, i: nat)
    requires Spaced(points) && |points| >= 2 && IsOrder(order) && i <= Count(points)
    ensures Rendering(points, order).Ok? && |Rendering(points, order).value.1| == Count(points) + 1
    ensures Rendering(points, order).value.1[i] == CurveSample(points, RawShape(order), i)
  {
    SpacedIsSorted(points);
    PrepareKeepsKnots(order);
    PreparedCount(points, PrepareFor(order));
    UnpreparedSamples(points, ShapeFor(order), PrepareFor(order), i);
    var prepared := PrepareAll(points, PrepareFor(order));
    assert Samples(prepared, ShapeFor(order))[i] == CurveSample(prepared, ShapeFor(order), i);
  }
}

/** How well a curve through some points follows a recording. */
module FitErrors {
  import opened MotionTypes
  import opened Sorting
  import opened Timeline
  import opened CurveEngine
  import opened ChordSelection

  /** A recording of one axis: at least two samples, in time order, on the grid. */
  ghost predicate Recording(ordered: seq<Point>) {
    |ordered| >= 2 && forall i, j :: 0 <= i < j < |ordered| ==> ordered[i].tick < ordered[j].tick
  }

  /** `shape` tells what rendering with this order draws through any points. */
  ghost predicate Draws(shape: Shape, order: int) {
    PassesThrough(shape) && forall points, i :: DrawsAt(shape, order, points, i)
  }

  ghost predicate DrawsAt(shape: Shape, order: int, points: seq<CurvePoint>, i: nat) {
    Spaced(points) && |points| >= 2 && i <= Count(points) ==>
      && Rendering(points, order).Ok? && |Rendering(points, order).value.1| == Count(points) + 1
      && Rendering(points, order).value.1[i] == CurveSample(points, shape, i)
  }

  lemma OrderDraws(order: int)
    requires IsOrder(order)
    ensures Draws(RawShape(order), order)
  {
    RawShapePassesThrough(order);
    forall points, i: nat ensures DrawsAt(RawShape(order), order, points, i) {
      if Spaced(points) && |points| >= 2 && i <= Count(points) { RenderedCurve(points, order, i); }
    }
  }

  method DrawCurve(points: seq<CurvePoint>, order: int, ghost shape: Shape) returns (samples: seq<Point>)
    requires Draws(shape, order) && Spaced(points) && |points| >= 2
    ensures |samples| == Count(points) + 1
    ensures forall i: nat :: i <= Count(points) ==> samples[i] == CurveSample(points, shape, i)
  {
    var r := RenderPointCurve(points, order);
    assert DrawsAt(shape, order, points, 0);
    samples := r.value.1;
    forall i: nat | i <= Count(points) ensures samples[i] == CurveSample(points, shape, i) {
      assert DrawsAt(shape, order, points, i);
    }
  }

  // ----- Points taken from the recording --------------------------------------------------------

  function FitMode(order: int): TangentMode { if order == 1 then Linear else Auto }

  function PlainPoint(tick: nat, value: real, mode: TangentMode): CurvePoint {
    CurvePoint("fit", tick, value, mode, Handle(None, None), Handle(None, None))
  }

  function PointOf(ordered: seq<Point>, mode: TangentMode, k: nat): CurvePoint {
    if k < |ordered| then PlainPoint(ordered[k].tick, ordered[k].value, mode) else PlainPoint(0, 0.0, mode)
  }

  function PointsAt(ordered: seq<Point>, mode: TangentMode, kept: seq<nat>): (r: seq<CurvePoint>)
    ensures |r| == |kept|
    ensures forall i :: 0 <= i < |kept| ==> r[i] == PointOf(ordered, mode, kept[i])
  {
    seq(|kept|, i requires 0 <= i < |kept| => PointOf(ordered, mode, kept[i]))
  }

  /** Sample numbers in order, the first and the last sample among them. */
  ghost predicate Keeps(ordered: seq<Point>, kept: seq<nat>) {
    && Increasing(kept) && |kept| >= 2 && kept[0] == 0 && kept[|kept| - 1] == |ordered| - 1
  }

  lemma KeptSpaced(ordered: seq<Point>, mode: TangentMode, kept: seq<nat>)
    requires Recording(ordered) && Increasing(kept) && forall i :: 0 <= i < |kept| ==> kept[i] < |ordered|
    ensures Spaced(PointsAt(ordered, mode, kept))
  {}

  lemma KeptInRange(ordered: seq<Point>, kept: seq<nat>)
    requires Keeps(ordered, kept)
    ensures forall i :: 0 <= i < |kept| ==> kept[i] < |ordered|
  {}

  // ----- Errors ---------------------------------------------------------------------------------------

  /** How far the curve is from a sample. */
  function Miss(ordered: seq<Point>, points: seq<CurvePoint>, shape: Shape, k: nat): real
    requires |points| >= 2 && k < |ordered|
  {
    Abs(ordered[k].value - CurveAt(points, shape, ordered[k].tick))
  }

  /** No sample is further than the tolerance from the curve. */
  ghost predicate Fits(ordered: seq<Point>, points: seq<CurvePoint>, shape: Shape, tolerance: real)
    requires |points| >= 2
  {
    forall k :: 0 <= k < |ordered| ==> Miss(ordered, points, shape, k) <= tolerance
  }

  /** The curve starts and ends where the recording does. */
  ghost predicate Covers(ordered: seq<Point>, points: seq<CurvePoint>) {
    && |points| >= 2 && |ordered| >= 2 && Spaced(points)
    && points[0].tick == ordered[0].tick && points[|points| - 1].tick == ordered[|ordered| - 1].tick
  }

  lemma KeptCovers(ordered: seq<Point>, mode: TangentMode, kept: seq<nat>)
    requires Recording(ordered) && Keeps(ordered, kept)
    ensures Covers(ordered, PointsAt(ordered, mode, kept))
  {}

  /** Draws the whole curve and measures every sample. */
  method CurveErrors(ordered: seq<Point>, points: seq<CurvePoint>, order: int, ghost shape: Shape)
    returns (errors: seq<real>)
    requires Draws(shape, order) && Recording(ordered) && Covers(ordered, points)
    ensures |errors| == |ordered|
    ensures forall k :: 0 <= k < |ordered| ==> errors[k] == Miss(ordered, points, shape, k)
  {
    var samples := DrawCurve(points, order, shape);
    errors := [];
    for k := 0 to |ordered|
      invariant |errors| == k
      invariant forall i :: 0 <= i < k ==> errors[i] == Miss(ordered, points, shape, i)
    {
      SampleInside(ordered, points, k);
      errors := errors + [Abs(ordered[k].value - samples[ordered[k].tick - points[0].tick].value)];
    }
  }

  lemma SampleInside(ordered: seq<Point>, points: seq<CurvePoint>, k: nat)
    requires Recording(ordered) && Covers(ordered, points) && k < |ordered|
    ensures points[0].tick <= ordered[k].tick && ordered[k].tick - points[0].tick <= Count(points)
  {}

  function Largest(errors: seq<real>): real {
    if errors == [] then 0.0
    else if |errors| == 1 then errors[0]
    else if errors[|errors| - 1] > Largest(Front(errors)) then errors[|errors| - 1] else Largest(Front(errors))
  }

  lemma {:induction false} LargestIsLargest(errors: seq<real>)
    requires errors != []
    ensures forall k :: 0 <= k < |errors| ==> errors[k] <= Largest(errors)
    ensures exists k :: 0 <= k < |errors| && errors[k] == Largest(errors)
  {
    if |errors| > 1 {
      LargestIsLargest(Front(errors));
      var k :| 0 <= k < |errors| - 1 && Front(errors)[k] == Largest(Front(errors));
      assert errors[k] == Largest(Front(errors));
    } else {
      assert errors[0] == Largest(errors);
    }
  }

  /** The largest error tells whether the curve fits. */
  lemma LargestTells(ordered: seq<Point>, points: seq<CurvePoint>, shape: Shape, tolerance: real, errors: seq<real>)
    requires Recording(ordered) && |points| >= 2 && |errors| == |ordered|
    requires forall k :: 0 <= k < |ordered| ==> errors[k] == Miss(ordered, points, shape, k)
    ensures Largest(errors) <= tolerance <==> Fits(ordered, points, shape, tolerance)
  {
    LargestIsLargest(errors);
    if Largest(errors) > tolerance {
      var k :| 0 <= k < |errors| && errors[k] == Largest(errors);
      assert Miss(ordered, points, shape, k) > tolerance;
    }
  }

  /** A kept sample is not missed at all. */
  lemma KeptIsHit(ordered: seq<Point>, mode: TangentMode, kept: seq<nat>, shape: Shape, i: nat)
    requires Recording(ordered) && Keeps(ordered, kept) && PassesThrough(shape) && i < |kept|
    ensures kept[i] < |ordered| && Miss(ordered, PointsAt(ordered, mode, kept), shape, kept[i]) == 0.0
  {
    KeptInRange(ordered, kept);
    KeptSpaced(ordered, mode, kept);
    CurvePassesThrough(PointsAt(ordered, mode, kept), shape, i);
  }
}

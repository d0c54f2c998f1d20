/** What the joined curve draws: on straight curves, the pieces and a line across every gap;
    on others, what a piece drew wherever its own points decide. */
module BridgedGaps {
  import opened MotionTypes
  import opened Sorting
  import opened Timeline
  import LayerConflicts
  import LayerRendering = Rendering
  import Ownership
  import LayerMerging = Merging
  import opened CurveEngine
  import opened EditState
  import opened LayerEdit
  import opened RangeEdit
  import opened CurveMerging
  import opened MergedCurves
  import opened JoinedCurve
  import opened MergedAxes

  // ----- A curve at a tick --------------------------------------------------------------------------

  /** The points of a curve, made ready for drawing. */
  function Ready(curve: Curve): seq<CurvePoint> { PrepareAll(curve.points, PrepareFor(curve.order)) }

  lemma SampleOfTick(points: seq<CurvePoint>, shape: Shape, tick: nat)
    requires |points| >= 2 && points[0].tick <= tick <= points[|points| - 1].tick
    ensures var samples, k := Samples(points, shape), tick - points[0].tick;
            k < |samples| && samples[k] == Point(tick, CurveAt(points, shape, tick))
  {
    var k := tick - points[0].tick;
    assert Samples(points, shape)[k] == CurveSample(points, shape, k);
  }

  lemma ReadyTicks(curve: Curve)
    requires CurveOk(Renderer(), curve)
    ensures |Ready(curve)| == |curve.points| && Spaced(Ready(curve))
    ensures Ready(curve)[0].tick == curve.points[0].tick
    ensures Ready(curve)[|curve.points| - 1].tick == Last(curve.points).tick
  {
    PrepareKeepsKnots(curve.order);
    PreparedStaysSpaced(curve.points, PrepareFor(curve.order));
    PreparedTick(curve.points, PrepareFor(curve.order), 0);
    PreparedTick(curve.points, PrepareFor(curve.order), |curve.points| - 1);
  }

  lemma ReadyIsDrawn(curve: Curve)
    requires CurveOk(Renderer(), curve)
    ensures Drawn(Renderer(), curve) == Samples(Ready(curve), ShapeFor(curve.order))
    ensures Bounds(curve) == (curve.points[0].tick, Last(curve.points).tick)
  {
    SpacedIsSorted(curve.points);
    BoundsOfSpaced(curve.points);
  }

  lemma DrawnIs(render: Render, curve: Curve, tick: nat)
    requires CurveOk(render, curve) && Bounds(curve).0 <= tick && tick - Bounds(curve).0 < |Drawn(render, curve)|
    ensures DrawnAt(render, curve, tick) == Drawn(render, curve)[tick - Bounds(curve).0].value
  {
  }

  lemma ReadyDraws(curve: Curve, tick: nat)
    requires CurveOk(Renderer(), curve) && InSpan(tick, curve.points[0].tick, Last(curve.points).tick)
    ensures |Ready(curve)| == |curve.points| >= 2 && Spaced(Ready(curve))
    ensures DrawnAt(Renderer(), curve, tick) == CurveAt(Ready(curve), ShapeFor(curve.order), tick)
  {
    var render := Renderer();
    ReadyIsDrawn(curve);
    ReadyTicks(curve);
    TickIsDrawn(render, curve, Ready(curve), ShapeFor(curve.order), tick);
  }

  lemma TickIsDrawn(render: Render, curve: Curve, ready: seq<CurvePoint>, shape: Shape, tick: nat)
    requires CurveOk(render, curve) && |ready| >= 2 && Drawn(render, curve) == Samples(ready, shape)
    requires Bounds(curve).0 == ready[0].tick <= tick <= ready[|ready| - 1].tick
    ensures DrawnAt(render, curve, tick) == CurveAt(ready, shape, tick)
  {
    SampleOfTick(ready, shape, tick);
    DrawnIs(render, curve, tick);
  }

  /** Inside a segment, the segment says what is drawn. */
  lemma ReadySegment(curve: Curve, j: nat, tick: nat)
    requires CurveOk(Renderer(), curve) && j + 1 < |curve.points|
    requires curve.points[j].tick <= tick <= curve.points[j + 1].tick
    ensures |Ready(curve)| == |curve.points|
    ensures DrawnAt(Renderer(), curve, tick) == SampleAt(Ready(curve), ShapeFor(curve.order), j, tick)
  {
    WithinEnds(curve.points, j, tick);
    ReadyDraws(curve, tick);
    PrepareKeepsKnots(curve.order);
    PreparedKnot(curve.points, PrepareFor(curve.order), j);
    PreparedKnot(curve.points, PrepareFor(curve.order), j + 1);
    ShapePassesThrough(curve.order);
    CurveIsLocal(Ready(curve), ShapeFor(curve.order), j, tick);
  }

  lemma WithinEnds(points: seq<CurvePoint>, j: nat, tick: nat)
    requires Spaced(points) && j + 1 < |points| && points[j].tick <= tick <= points[j + 1].tick
    ensures InSpan(tick, points[0].tick, Last(points).tick)
  {
    if j > 0 { SpacedIsOrdered(points, 0, j); }
    if j + 1 < |points| - 1 { SpacedIsOrdered(points, j + 1, |points| - 1); }
  }

  lemma SomeSegment(points: seq<CurvePoint>, tick: nat) returns (j: nat)
    requires Spaced(points) && |points| >= 2 && InSpan(tick, points[0].tick, Last(points).tick)
    ensures j + 1 < |points| && points[j].tick <= tick <= points[j + 1].tick
  {
    j := Advance(points, 0, tick);
  }

  // ----- Straight curves ------------------------------------------------------------------------------

  /** The line from one point to another. */
  function Line(a: Point, b: Point, tick: nat): real {
    if b.tick <= a.tick then a.value
    else a.value + (b.value - a.value) * ((tick as int - a.tick as int) as real / (b.tick - a.tick) as real)
  }

  lemma StraightSegment(curve: Curve, j: nat, tick: nat)
    requires CurveOk(Renderer(), curve) && curve.order == 1 && j + 1 < |curve.points|
    requires curve.points[j].tick <= tick <= curve.points[j + 1].tick
    ensures DrawnAt(Renderer(), curve, tick) == Line(Knot(curve.points[j]), Knot(curve.points[j + 1]), tick)
  {
    ReadySegment(curve, j, tick);
    PrepareKeepsKnots(1);
    PreparedKnot(curve.points, PrepareFor(1), j);
    PreparedKnot(curve.points, PrepareFor(1), j + 1);
    StraightIsLine(At(Ready(curve), j - 1), Ready(curve)[j], Ready(curve)[j + 1], At(Ready(curve), j + 2), tick);
  }

  lemma StraightIsLine(before: Option<Point>, first: CurvePoint, second: CurvePoint, after: Option<Point>, tick: nat)
    requires first.tick < second.tick && first.tick <= tick <= second.tick
    ensures ShapeFor(1)(before, first, second, after, tick) == Line(Knot(first), Knot(second), tick)
  {
    RatioWithin((tick - first.tick) as real, (second.tick - first.tick) as real);
  }

  lemma RatioWithin(x: real, span: real)
    requires 0.0 <= x <= span && span > 0.0
    ensures Within(0.0, x / span, 1.0) == x / span
  {
    var ratio := x / span;
    assert ratio * span == x;
    assert ratio >= 0.0;
    assert ratio <= 1.0;
  }

  // ----- The joined curve, piece by piece ----------------------------------------------------------------

  /** A curve with the points of its pieces, which follow each other. */
  ghost predicate IsJoined(raw: Curve, pieces: seq<Curve>) {
    && pieces != [] && Follow(pieces) && CurveOk(Renderer(), raw) && raw.points == AllPoints(pieces)
    && forall i :: 0 <= i < |pieces| ==> IsPiece(pieces[i], raw.axis)
  }

  ghost predicate IsPiece(piece: Curve, axis: Axis) { CurveOk(Renderer(), piece) && piece.axis == axis }

  /** The joined curve, before its points are made ready. */
  function RawJoined(curves: seq<Curve>, axis: Axis): Curve
    requires CurvesOn(curves, axis) != []
  {
    var pieces := Pieces(curves, axis);
    Curve(pieces[0].id, axis, Largest(pieces).order, AllPoints(pieces))
  }

  lemma PiecesAreOk(curves: seq<Curve>, axis: Axis, i: nat)
    requires Structure(Renderer(), curves) && i < |Pieces(curves, axis)|
    ensures IsPiece(Pieces(curves, axis)[i], axis)
  {
    PieceOn(curves, axis, i);
    InStructure(Renderer(), curves, Pieces(curves, axis)[i], Pieces(curves, axis)[i]);
  }

  lemma RawDrawsJoined(curves: seq<Curve>, axis: Axis)
    requires Structure(Renderer(), curves) && CurvesOn(curves, axis) != [] && Joined(Renderer(), curves, axis).Ok?
    ensures var curve, raw := Joined(Renderer(), curves, axis).value, RawJoined(curves, axis);
            && CurveOk(Renderer(), curve) && Bounds(curve) == Bounds(raw) && curve.order == raw.order && curve.axis == axis
            && IsJoined(raw, Pieces(curves, axis))
            && forall tick: nat :: DrawnAt(Renderer(), curve, tick) == DrawnAt(Renderer(), raw, tick)
  {
    CurveEngineRenders();
    PiecesThere(curves, axis);
    JoinedDraws(Renderer(), curves, axis);
    BoundsOfSpaced(AllPoints(Pieces(curves, axis)));
    forall i | 0 <= i < |Pieces(curves, axis)| ensures IsPiece(Pieces(curves, axis)[i], axis) { PiecesAreOk(curves, axis, i); }
  }

  /** The points of the piece are points of the curve, one after the other. */
  ghost predicate Lies(piece: seq<CurvePoint>, points: seq<CurvePoint>, offset: nat) {
    offset + |piece| <= |points| && points[offset..offset + |piece|] == piece
  }

  lemma PieceLies(pieces: seq<Curve>, i: nat)
    requires i < |pieces|
    ensures Lies(pieces[i].points, AllPoints(pieces), Offset(pieces, i))
    ensures Offset(pieces, i) + |pieces[i].points| == (if i + 1 < |pieces| then Offset(pieces, i + 1) else |AllPoints(pieces)|)
    ensures i == 0 ==> Offset(pieces, i) == 0
  {
    OffsetStep(pieces, i);
    PrefixPoints(pieces, i + 1);
    if i + 1 == |pieces| { assert pieces[..i + 1] == pieces && pieces[i + 1..] == []; }
  }

  lemma LiesAt(piece: seq<CurvePoint>, points: seq<CurvePoint>, offset: nat, j: nat)
    requires Lies(piece, points, offset) && j < |piece|
    ensures points[offset + j] == piece[j]
  {
    assert points[offset..offset + |piece|][j] == points[offset + j];
  }

  /** Where the gap between two pieces is. */
  lemma GapLies(pieces: seq<Curve>, i: nat) returns (k: nat)
    requires i + 1 < |pieces| && pieces[i].points != [] && pieces[i + 1].points != []
    ensures k + 1 < |AllPoints(pieces)|
    ensures AllPoints(pieces)[k] == Last(pieces[i].points) && AllPoints(pieces)[k + 1] == pieces[i + 1].points[0]
  {
    PieceLies(pieces, i);
    PieceLies(pieces, i + 1);
    k := Offset(pieces, i + 1) - 1;
    LiesAt(pieces[i].points, AllPoints(pieces), Offset(pieces, i), |pieces[i].points| - 1);
    LiesAt(pieces[i + 1].points, AllPoints(pieces), Offset(pieces, i + 1), 0);
  }

  // ----- Straight pieces ------------------------------------------------------------------------------------

  ghost predicate AllStraight(pieces: seq<Curve>) { forall i :: 0 <= i < |pieces| ==> pieces[i].order == 1 }

  lemma {:induction false} LargestIsOne(pieces: seq<Curve>)
    requires pieces != [] && AllStraight(pieces)
    ensures Largest(pieces).order == 1
  {
    if |pieces| > 1 {
      LargestIsOne(Front(pieces));
      assert Last(pieces) == pieces[|pieces| - 1];
    }
  }

  lemma SameSegment(a: Curve, i: nat, b: Curve, j: nat, tick: nat)
    requires CurveOk(Renderer(), a) && a.order == 1 && i + 1 < |a.points|
    requires CurveOk(Renderer(), b) && b.order == 1 && j + 1 < |b.points|
    requires a.points[i] == b.points[j] && a.points[i + 1] == b.points[j + 1]
    requires a.points[i].tick <= tick <= a.points[i + 1].tick
    ensures DrawnAt(Renderer(), a, tick) == DrawnAt(Renderer(), b, tick)
  {
    StraightSegment(a, i, tick);
    StraightSegment(b, j, tick);
  }

  /** On a piece, the joined curve draws what the piece drew. */
  lemma StraightPiece(raw: Curve, piece: Curve, offset: nat, tick: nat)
    requires CurveOk(Renderer(), raw) && CurveOk(Renderer(), piece) && raw.order == 1 && piece.order == 1
    requires Lies(piece.points, raw.points, offset) && InSpan(tick, piece.points[0].tick, Last(piece.points).tick)
    ensures DrawnAt(Renderer(), raw, tick) == DrawnAt(Renderer(), piece, tick)
  {
    var j := SomeSegment(piece.points, tick);
    LiesAt(piece.points, raw.points, offset, j);
    LiesAt(piece.points, raw.points, offset, j + 1);
    SameSegment(raw, offset + j, piece, j, tick);
  }

  /** Between two pieces, it draws a line. */
  lemma StraightGap(raw: Curve, a: Curve, b: Curve, k: nat, tick: nat)
    requires CurveOk(Renderer(), raw) && raw.order == 1 && k + 1 < |raw.points| && InGap(a, b, tick)
    requires raw.points[k] == Last(a.points) && raw.points[k + 1] == b.points[0]
    ensures DrawnAt(Renderer(), raw, tick) == GapLine(a, b, tick)
  {
    StraightSegment(raw, k, tick);
  }

  /** After the last point of one curve, before the first of the next. */
  ghost predicate InGap(a: Curve, b: Curve, tick: nat) {
    a.points != [] && b.points != [] && Last(a.points).tick < tick < b.points[0].tick
  }

  function GapLine(a: Curve, b: Curve, tick: nat): real
    requires a.points != [] && b.points != []
  {
    Line(Knot(Last(a.points)), Knot(b.points[0]), tick)
  }

  predicate On(piece: Curve, tick: nat) {
    piece.points != [] && InSpan(tick, piece.points[0].tick, Last(piece.points).tick)
  }

  /** Every tick of the joined curve is on a piece or between two. */
  lemma {:induction false} PieceOrGap(pieces: seq<Curve>, tick: nat, k: nat) returns (i: nat)
    requires Follow(pieces) && k < |pieces| && InSpan(tick, pieces[0].points[0].tick, Last(pieces[k].points).tick)
    ensures i < |pieces| && (On(pieces[i], tick) || (i + 1 < |pieces| && InGap(pieces[i], pieces[i + 1], tick)))
    decreases k
  {
    if pieces[k].points[0].tick <= tick {
      i := k;
    } else if tick > Last(pieces[k - 1].points).tick {
      i := k - 1;
    } else {
      i := PieceOrGap(pieces, tick, k - 1);
    }
  }

  // ----- Exactly when straight curves may be joined ----------------------------------------------------------

  /** Between the two curves the sources move along the line from one to the other. */
  ghost predicate OnLine(a: Curve, b: Curve, sources: seq<Layer>, manual: map<Axis, real>, axis: Axis) {
    forall tick: nat :: InGap(a, b, tick) ==>
      LayerMerging.PositionOf(sources, manual, axis, tick) == GapLine(a, b, tick)
  }

  /** Every curve draws what the sources do, and so does the line between each two that follow
      each other. */
  ghost predicate PiecesDraw(pieces: seq<Curve>, sources: seq<Layer>, manual: map<Axis, real>, axis: Axis) {
    && (forall i :: 0 <= i < |pieces| ==> DrawsSources(Renderer(), pieces[i], sources, manual))
    && GapsOnLine(pieces, sources, manual, axis)
  }

  ghost predicate GapsOnLine(pieces: seq<Curve>, sources: seq<Layer>, manual: map<Axis, real>, axis: Axis) {
    forall i: nat :: i + 1 < |pieces| ==> OnLineAfter(pieces, i, sources, manual, axis)
  }

  ghost predicate OnLineAfter(pieces: seq<Curve>, i: nat, sources: seq<Layer>, manual: map<Axis, real>, axis: Axis)
    requires i + 1 < |pieces|
  {
    OnLine(pieces[i], pieces[i + 1], sources, manual, axis)
  }

  lemma PieceWithin(raw: Curve, pieces: seq<Curve>, i: nat)
    requires IsJoined(raw, pieces) && i < |pieces|
    ensures Bounds(pieces[i]) == (pieces[i].points[0].tick, Last(pieces[i].points).tick)
    ensures Bounds(raw) == (pieces[0].points[0].tick, Last(Last(pieces).points).tick)
    ensures Bounds(raw).0 <= Bounds(pieces[i]).0 < Bounds(pieces[i]).1 <= Bounds(raw).1
  {
    AllPointsSpaced(pieces);
    BoundsOfSpaced(raw.points);
    BoundsOfSpaced(pieces[i].points);
    BoundsOfSpaced(pieces[0].points);
    BoundsOfSpaced(Last(pieces).points);
    PieceInOrder(pieces[i]);
    PieceInOrder(pieces[0]);
    PieceInOrder(Last(pieces));
  }

  /** What a joined curve tells of one of its pieces. */
  lemma PieceIn(raw: Curve, pieces: seq<Curve>, i: nat)
    requires IsJoined(raw, pieces) && i < |pieces|
    ensures CurveOk(Renderer(), pieces[i]) && pieces[i].axis == raw.axis
    ensures Lies(pieces[i].points, raw.points, Offset(pieces, i))
    ensures Bounds(pieces[i]) == (pieces[i].points[0].tick, Last(pieces[i].points).tick)
    ensures Bounds(raw).0 <= Bounds(pieces[i]).0 < Bounds(pieces[i]).1 <= Bounds(raw).1
  {
    assert IsPiece(pieces[i], raw.axis);
    PieceLies(pieces, i);
    PieceWithin(raw, pieces, i);
  }

  lemma PieceDraws(raw: Curve, piece: Curve, offset: nat, sources: seq<Layer>, manual: map<Axis, real>)
    requires CurveOk(Renderer(), raw) && CurveOk(Renderer(), piece) && raw.order == 1 && piece.order == 1
    requires Lies(piece.points, raw.points, offset) && piece.axis == raw.axis
    requires Bounds(piece) == (piece.points[0].tick, Last(piece.points).tick)
    requires Bounds(raw).0 <= Bounds(piece).0 && Bounds(piece).1 <= Bounds(raw).1
    requires DrawsSources(Renderer(), raw, sources, manual)
    ensures DrawsSources(Renderer(), piece, sources, manual)
  {
    forall tick: nat | tick > 0 && InSpan(tick, Bounds(piece).0, Bounds(piece).1)
      ensures DrawnAt(Renderer(), piece, tick) == LayerMerging.PositionOf(sources, manual, piece.axis, tick)
    {
      StraightPiece(raw, piece, offset, tick);
    }
  }

  lemma DrawsThere(curve: Curve, sources: seq<Layer>, manual: map<Axis, real>, tick: nat, value: real)
    requires DrawsSources(Renderer(), curve, sources, manual) && tick > 0 && InSpan(tick, Bounds(curve).0, Bounds(curve).1)
    requires DrawnAt(Renderer(), curve, tick) == value
    ensures LayerMerging.PositionOf(sources, manual, curve.axis, tick) == value
  {
  }

  lemma GapOnLine(raw: Curve, a: Curve, b: Curve, k: nat, sources: seq<Layer>, manual: map<Axis, real>)
    requires CurveOk(Renderer(), raw) && raw.order == 1 && k + 1 < |raw.points| && a.points != [] && b.points != []
    requires raw.points[k] == Last(a.points) && raw.points[k + 1] == b.points[0]
    requires Bounds(raw).0 <= Last(a.points).tick && b.points[0].tick <= Bounds(raw).1
    requires DrawsSources(Renderer(), raw, sources, manual)
    ensures OnLine(a, b, sources, manual, raw.axis)
  {
    forall tick: nat | InGap(a, b, tick)
      ensures LayerMerging.PositionOf(sources, manual, raw.axis, tick) == GapLine(a, b, tick)
    {
      StraightGap(raw, a, b, k, tick);
      DrawsThere(raw, sources, manual, tick, GapLine(a, b, tick));
    }
  }

  lemma TickOfPieces(raw: Curve, pieces: seq<Curve>, sources: seq<Layer>, manual: map<Axis, real>, tick: nat)
    requires IsJoined(raw, pieces) && raw.order == 1 && AllStraight(pieces)
    requires PiecesDraw(pieces, sources, manual, raw.axis)
    requires tick > 0 && InSpan(tick, Bounds(raw).0, Bounds(raw).1)
    ensures DrawnAt(Renderer(), raw, tick) == LayerMerging.PositionOf(sources, manual, raw.axis, tick)
  {
    PieceWithin(raw, pieces, 0);
    var i := PieceOrGap(pieces, tick, |pieces| - 1);
    PieceIn(raw, pieces, i);
    if On(pieces[i], tick) {
      StraightPiece(raw, pieces[i], Offset(pieces, i), tick);
      assert DrawsSources(Renderer(), pieces[i], sources, manual);
    } else {
      var k := GapLies(pieces, i);
      StraightGap(raw, pieces[i], pieces[i + 1], k, tick);
      assert OnLineAfter(pieces, i, sources, manual, raw.axis);
    }
  }

  /** A straight curve draws what the sources do exactly if its pieces do, and the lines across
      the gaps. */
  lemma StraightDraws(raw: Curve, pieces: seq<Curve>, sources: seq<Layer>, manual: map<Axis, real>)
    requires IsJoined(raw, pieces) && raw.order == 1 && AllStraight(pieces)
    ensures DrawsSources(Renderer(), raw, sources, manual) <==> PiecesDraw(pieces, sources, manual, raw.axis)
  {
    if DrawsSources(Renderer(), raw, sources, manual) {
      forall i | 0 <= i < |pieces| ensures DrawsSources(Renderer(), pieces[i], sources, manual) {
        PieceIn(raw, pieces, i);
        PieceDraws(raw, pieces[i], Offset(pieces, i), sources, manual);
      }
      forall i: nat | i + 1 < |pieces| ensures OnLineAfter(pieces, i, sources, manual, raw.axis) {
        PieceIn(raw, pieces, i);
        PieceIn(raw, pieces, i + 1);
        var k := GapLies(pieces, i);
        GapOnLine(raw, pieces[i], pieces[i + 1], k, sources, manual);
      }
    } else if PiecesDraw(pieces, sources, manual, raw.axis) {
      forall tick: nat | tick > 0 && InSpan(tick, Bounds(raw).0, Bounds(raw).1)
        ensures DrawnAt(Renderer(), raw, tick) == LayerMerging.PositionOf(sources, manual, raw.axis, tick)
      {
        TickOfPieces(raw, pieces, sources, manual, tick);
      }
    }
  }

  /** On an axis with several straight curves, the merged layer moves as the sources do if and
      only if no lone value at tick 0 gets lost, every curve draws what the sources do, and
      between each two curves the sources move along the line from one to the other. */
  lemma StraightAxisDecides(
    base: Layer, sources: seq<Layer>, manual: map<Axis, real>, names: Names, merged: Layer, axis: Axis)
    requires GoodSources(Renderer(), sources, names) && LayerMerging.IsMerge(base, sources, manual)
    requires WithCurves(Renderer(), base, sources, names) == Ok(merged)
    requires var curves := CurvesOfMerge(Renderer(), sources, base.frames, names);
             |CurvesOn(curves, axis)| >= 2 && AllStraight(Pieces(curves, axis))
    ensures MovesAlike(merged, sources, manual, axis) <==>
            && LayerMerging.Harmless(sources, axis, manual)
            && PiecesDraw(Pieces(CurvesOfMerge(Renderer(), sources, base.frames, names), axis), sources, manual, axis)
  {
    var curves := CurvesOfMerge(Renderer(), sources, base.frames, names);
    CurvesOfMergeOk(Renderer(), base, sources, manual, names);
    JoinedAxisDecides(Renderer(), base, sources, manual, names, merged, axis);
    RawDrawsJoined(curves, axis);
    LargestIsOne(Pieces(curves, axis));
    StraightDraws(RawJoined(curves, axis), Pieces(curves, axis), sources, manual);
  }

  /** The frames have exactly what the curve draws, at every tick after 0. */
  ghost predicate DrawsFrames(curve: Curve, frames: seq<Frame>) {
    forall tick: nat :: tick > 0 && InSpan(tick, Bounds(curve).0, Bounds(curve).1) ==>
      FirstAt(frames, curve.axis, tick) == Some(DrawnAt(Renderer(), curve, tick))
  }

  lemma OwnedIsMotion(base: Layer, sources: seq<Layer>, manual: map<Axis, real>, axis: Axis, tick: nat)
    requires LayerMerging.IsMerge(base, sources, manual) && LayerConflicts.ConflictFree(sources)
    requires Enabled(sources) == sources && Ownership.Owns(sources, axis, tick) && tick > 0
    ensures FirstAt(base.frames, axis, tick) == Some(LayerMerging.PositionOf(sources, manual, axis, tick))
  {
    var table :|
      Ownership.IsOwnership(table, sources) && base.frames == LayerMerging.MergedFrames(sources, manual, table);
    LayerMerging.MergedSupply(sources, manual, table, axis, tick);
    LayerRendering.RenderedIsMotion(sources, manual, axis, tick);
  }

  /** A curve of the merge draws what the sources do exactly if it draws the composed frames. */
  lemma FramesTell(base: Layer, sources: seq<Layer>, manual: map<Axis, real>, names: Names, curve: Curve)
    requires GoodSources(Renderer(), sources, names) && LayerMerging.IsMerge(base, sources, manual)
    requires curve in CurvesOfMerge(Renderer(), sources, base.frames, names)
    ensures DrawsFrames(curve, base.frames) <==> DrawsSources(Renderer(), curve, sources, manual)
  {
    forall tick: nat | tick > 0 && InSpan(tick, Bounds(curve).0, Bounds(curve).1)
      ensures FirstAt(base.frames, curve.axis, tick) ==
              Some(LayerMerging.PositionOf(sources, manual, curve.axis, tick))
    {
      CurveTickOwned(Renderer(), base, sources, manual, names, curve, tick);
      OwnedIsMotion(base, sources, manual, curve.axis, tick);
    }
  }

  lemma PiecesTell(
    base: Layer, sources: seq<Layer>, manual: map<Axis, real>, names: Names, curves: seq<Curve>, axis: Axis)
    requires GoodSources(Renderer(), sources, names) && LayerMerging.IsMerge(base, sources, manual)
    requires curves == CurvesOfMerge(Renderer(), sources, base.frames, names)
    requires AllDraw(Pieces(curves, axis), base.frames)
    ensures PiecesDraw(Pieces(curves, axis), sources, manual, axis) <==>
            GapsOnLine(Pieces(curves, axis), sources, manual, axis)
  {
    var pieces := Pieces(curves, axis);
    forall i | 0 <= i < |pieces| ensures DrawsSources(Renderer(), pieces[i], sources, manual) {
      PieceOn(curves, axis, i);
      FramesTell(base, sources, manual, names, pieces[i]);
    }
  }

  ghost predicate AllDraw(pieces: seq<Curve>, frames: seq<Frame>) {
    forall i :: 0 <= i < |pieces| ==> DrawsFrames(pieces[i], frames)
  }

  /** Where the frames are exactly what the curves draw, only the gaps decide. */
  lemma ExactAxisDecides(
    base: Layer, sources: seq<Layer>, manual: map<Axis, real>, names: Names, merged: Layer, axis: Axis)
    requires GoodSources(Renderer(), sources, names) && LayerMerging.IsMerge(base, sources, manual)
    requires WithCurves(Renderer(), base, sources, names) == Ok(merged)
    requires var curves := CurvesOfMerge(Renderer(), sources, base.frames, names);
             && |CurvesOn(curves, axis)| >= 2 && AllStraight(Pieces(curves, axis))
             && AllDraw(Pieces(curves, axis), base.frames)
    ensures MovesAlike(merged, sources, manual, axis) <==>
            && LayerMerging.Harmless(sources, axis, manual)
            && GapsOnLine(Pieces(CurvesOfMerge(Renderer(), sources, base.frames, names), axis), sources, manual, axis)
  {
    StraightAxisDecides(base, sources, manual, names, merged, axis);
    PiecesTell(base, sources, manual, names, CurvesOfMerge(Renderer(), sources, base.frames, names), axis);
  }

  // ----- A gap that is held --------------------------------------------------------------------------------------

  lemma {:induction false} HeldMotion(supply: nat -> Option<real>, initial: Option<real>, start: nat, from: nat, tick: nat)
    requires start <= from <= tick && supply(start).Some?
    requires forall t: nat :: from < t <= tick ==> supply(t).None?
    ensures LayerRendering.Motion(supply, initial, tick) == LayerRendering.Motion(supply, initial, from)
    decreases tick
  {
    if from < tick {
      HeldMotion(supply, initial, start, from, tick - 1);
      LayerMerging.Holds(supply, initial, tick);
    }
  }

  lemma SupplyStarts(sources: seq<Layer>, axis: Axis, tick: nat) returns (start: nat)
    requires Ownership.Owns(sources, axis, tick)
    ensures start <= tick && LayerRendering.SupplyOf(sources, axis)(start).Some?
  {
    start := Ownership.OwnedSince(sources, axis, tick);
  }

  /** Without a sample the sources stay where they are. */
  lemma SourcesHold(sources: seq<Layer>, manual: map<Axis, real>, axis: Axis, from: nat, tick: nat)
    requires LayerConflicts.ConflictFree(sources) && Enabled(sources) == sources && from <= tick
    requires Ownership.Owns(sources, axis, from)
    requires forall t: nat :: from < t <= tick ==> LayerRendering.SupplyOf(sources, axis)(t).None?
    ensures LayerMerging.PositionOf(sources, manual, axis, tick) == LayerMerging.PositionOf(sources, manual, axis, from)
  {
    var start := SupplyStarts(sources, axis, from);
    HeldMotion(LayerRendering.SupplyOf(sources, axis), LayerRendering.InitialOf(manual, axis), start, from, tick);
    PlayedIs(sources, manual, axis, from);
    PlayedIs(sources, manual, axis, tick);
  }

  lemma FlatLine(a: Point, b: Point, tick: nat)
    requires a.tick < tick < b.tick
    ensures Line(a, b, tick) == a.value <==> a.value == b.value
  {
    var ratio := (tick - a.tick) as real / (b.tick - a.tick) as real;
    assert ratio * (b.tick - a.tick) as real == (tick - a.tick) as real;
    assert ratio != 0.0;
    if a.value != b.value { Nonzero(b.value - a.value, ratio); }
  }

  lemma Nonzero(x: real, y: real)
    requires x != 0.0 && y != 0.0
    ensures x * y != 0.0
  {
  }

  lemma FlatGap(a: Curve, b: Curve, sources: seq<Layer>, manual: map<Axis, real>, axis: Axis)
    requires a.points != [] && b.points != [] && Last(a.points).tick < b.points[0].tick
    requires forall tick: nat :: InGap(a, b, tick) ==>
               LayerMerging.PositionOf(sources, manual, axis, tick) == Last(a.points).value
    ensures OnLine(a, b, sources, manual, axis) <==>
            b.points[0].tick == Last(a.points).tick + 1 || Last(a.points).value == b.points[0].value
  {
    var p, q := Knot(Last(a.points)), Knot(b.points[0]);
    forall tick: nat | InGap(a, b, tick) ensures GapLine(a, b, tick) == p.value <==> p.value == q.value {
      FlatLine(p, q, tick);
    }
    if q.tick != p.tick + 1 { assert InGap(a, b, p.tick + 1); }
  }

  /** With no sample between two curves, the sources hold there: on the line only if the curves
      are a tick apart or meet at one value. */
  lemma HeldGap(
    base: Layer, sources: seq<Layer>, manual: map<Axis, real>, names: Names, a: Curve, b: Curve, axis: Axis)
    requires GoodSources(Renderer(), sources, names) && LayerMerging.IsMerge(base, sources, manual)
    requires a in CurvesOfMerge(Renderer(), sources, base.frames, names) && a.axis == axis && CurveOk(Renderer(), a)
    requires b.points != [] && Last(a.points).tick < b.points[0].tick
    requires forall tick: nat :: InGap(a, b, tick) ==> LayerRendering.SupplyOf(sources, axis)(tick).None?
    requires LayerMerging.PositionOf(sources, manual, axis, Last(a.points).tick) == Last(a.points).value
    ensures OnLine(a, b, sources, manual, axis) <==>
            b.points[0].tick == Last(a.points).tick + 1 || Last(a.points).value == b.points[0].value
  {
    PieceInOrder(a);
    BoundsOfSpaced(a.points);
    CurveTickOwned(Renderer(), base, sources, manual, names, a, Last(a.points).tick);
    forall tick: nat | InGap(a, b, tick)
      ensures LayerMerging.PositionOf(sources, manual, axis, tick) == Last(a.points).value
    {
      forall t: nat | Last(a.points).tick < t <= tick ensures LayerRendering.SupplyOf(sources, axis)(t).None? {
        assert InGap(a, b, t);
      }
      SourcesHold(sources, manual, axis, Last(a.points).tick, tick);
    }
    FlatGap(a, b, sources, manual, axis);
  }

  // ----- Curves of any order ---------------------------------------------------------------------------------------

  /** The segment has its neighbours in the piece, or the piece is the first or the last. */
  predicate Enclosed(pieces: seq<Curve>, i: nat, j: nat)
    requires i < |pieces|
  {
    && j + 1 < |pieces[i].points|
    && (j > 0 || i == 0) && (j + 2 < |pieces[i].points| || i == |pieces| - 1)
  }

  lemma SameAround(piece: seq<CurvePoint>, points: seq<CurvePoint>, offset: nat, i: int)
    requires Lies(piece, points, offset) && -1 <= i <= |piece|
    requires (i >= 0 || offset == 0) && (i < |piece| || offset + |piece| == |points|)
    ensures At(points, offset + i) == At(piece, i)
  {
    if 0 <= i < |piece| { LiesAt(piece, points, offset, i); }
  }

  /** A point with the same neighbours is made ready in the same way. */
  lemma SameReady(piece: seq<CurvePoint>, points: seq<CurvePoint>, offset: nat, j: nat, prepare: Preparer)
    requires Lies(piece, points, offset) && j < |piece|
    requires (j > 0 || offset == 0) && (j + 1 < |piece| || offset + |piece| == |points|)
    ensures PrepareAll(points, prepare)[offset + j] == PrepareAll(piece, prepare)[j]
  {
    LiesAt(piece, points, offset, j);
    SameAround(piece, points, offset, j - 1);
    SameAround(piece, points, offset, j + 1);
  }

  lemma SameSample(piece: seq<CurvePoint>, points: seq<CurvePoint>, offset: nat, j: nat, prepare: Preparer, shape: Shape, tick: nat)
    requires Lies(piece, points, offset) && j + 1 < |piece| && KeepsKnots(prepare)
    requires (j > 0 || offset == 0) && (j + 2 < |piece| || offset + |piece| == |points|)
    ensures SampleAt(PrepareAll(points, prepare), shape, offset + j, tick) ==
            SampleAt(PrepareAll(piece, prepare), shape, j, tick)
  {
    SameReady(piece, points, offset, j, prepare);
    SameReady(piece, points, offset, j + 1, prepare);
    PreparedKnots(points, prepare, offset + j - 1);
    PreparedKnots(points, prepare, offset + j + 2);
    PreparedKnots(piece, prepare, j - 1);
    PreparedKnots(piece, prepare, j + 2);
    SameAround(piece, points, offset, j - 1);
    SameAround(piece, points, offset, j + 2);
  }

  lemma EnclosedDraws(raw: Curve, piece: Curve, offset: nat, j: nat, tick: nat)
    requires CurveOk(Renderer(), raw) && CurveOk(Renderer(), piece) && raw.order == piece.order
    requires Lies(piece.points, raw.points, offset) && j + 1 < |piece.points|
    requires (j > 0 || offset == 0) && (j + 2 < |piece.points| || offset + |piece.points| == |raw.points|)
    requires piece.points[j].tick <= tick <= piece.points[j + 1].tick
    ensures DrawnAt(Renderer(), raw, tick) == DrawnAt(Renderer(), piece, tick)
  {
    LiesAt(piece.points, raw.points, offset, j);
    LiesAt(piece.points, raw.points, offset, j + 1);
    ReadySegment(raw, offset + j, tick);
    ReadySegment(piece, j, tick);
    PrepareKeepsKnots(raw.order);
    SameSample(piece.points, raw.points, offset, j, PrepareFor(raw.order), ShapeFor(raw.order), tick);
  }

  lemma EnclosedInJoined(raw: Curve, pieces: seq<Curve>, i: nat, j: nat, tick: nat)
    requires IsJoined(raw, pieces) && i < |pieces| && Enclosed(pieces, i, j) && pieces[i].order == raw.order
    requires pieces[i].points[j].tick <= tick <= pieces[i].points[j + 1].tick
    ensures InSpan(tick, Bounds(raw).0, Bounds(raw).1)
    ensures DrawnAt(Renderer(), raw, tick) == DrawnAt(Renderer(), pieces[i], tick)
  {
    PieceIn(raw, pieces, i);
    PieceLies(pieces, i);
    WithinEnds(pieces[i].points, j, tick);
    EnclosedDraws(raw, pieces[i], Offset(pieces, i), j, tick);
  }

  lemma SameInFrames(before: Layer, merged: Layer, axis: Axis, curve: Curve, raw: Curve, tick: nat)
    requires FramesJoined(Renderer(), before, merged, axis, curve) && Bounds(curve) == Bounds(raw)
    requires DrawnAt(Renderer(), curve, tick) == DrawnAt(Renderer(), raw, tick)
    requires InSpan(tick, Bounds(raw).0, Bounds(raw).1)
    ensures FirstAt(merged.frames, axis, tick) == Some(DrawnAt(Renderer(), raw, tick))
  {
  }

  lemma RawStands(before: Layer, merged: Layer, axis: Axis, tick: nat)
    requires Structure(Renderer(), before.curves) && CurvesOn(before.curves, axis) != []
    requires Joined(Renderer(), before.curves, axis).Ok?
    requires FramesJoined(Renderer(), before, merged, axis, Joined(Renderer(), before.curves, axis).value)
    ensures var raw := RawJoined(before.curves, axis);
            && IsJoined(raw, Pieces(before.curves, axis))
            && (InSpan(tick, Bounds(raw).0, Bounds(raw).1) ==>
                  FirstAt(merged.frames, axis, tick) == Some(DrawnAt(Renderer(), raw, tick)))
  {
    var raw := RawJoined(before.curves, axis);
    RawDrawsJoined(before.curves, axis);
    if InSpan(tick, Bounds(raw).0, Bounds(raw).1) {
      SameInFrames(before, merged, axis, Joined(Renderer(), before.curves, axis).value, raw, tick);
    }
  }

  /** What the merged layer has on an axis with several curves. */
  lemma JoinedStands(
    base: Layer, sources: seq<Layer>, manual: map<Axis, real>, names: Names, merged: Layer, axis: Axis, tick: nat)
    requires GoodSources(Renderer(), sources, names) && LayerMerging.IsMerge(base, sources, manual)
    requires WithCurves(Renderer(), base, sources, names) == Ok(merged)
    requires |CurvesOn(CurvesOfMerge(Renderer(), sources, base.frames, names), axis)| >= 2
    ensures var curves := CurvesOfMerge(Renderer(), sources, base.frames, names);
            var raw := RawJoined(curves, axis);
            && IsJoined(raw, Pieces(curves, axis))
            && (InSpan(tick, Bounds(raw).0, Bounds(raw).1) ==>
                  FirstAt(merged.frames, axis, tick) == Some(DrawnAt(Renderer(), raw, tick)))
  {
    var curves := CurvesOfMerge(Renderer(), sources, base.frames, names);
    CurvesOfMergeOk(Renderer(), base, sources, manual, names);
    JoinedInMerge(Renderer(), base, sources, manual, names, merged, axis);
    RawStands(base.(curves := curves), merged, axis, tick);
  }

  /** Of any order: in a segment that has its neighbours in one curve, of the order that was
      chosen, the merged layer has what that curve drew. */
  lemma EnclosedSegmentsStay(
    base: Layer, sources: seq<Layer>, manual: map<Axis, real>, names: Names, merged: Layer, axis: Axis,
    i: nat, j: nat, tick: nat)
    requires GoodSources(Renderer(), sources, names) && LayerMerging.IsMerge(base, sources, manual)
    requires WithCurves(Renderer(), base, sources, names) == Ok(merged)
    requires var curves := CurvesOfMerge(Renderer(), sources, base.frames, names);
             var pieces := Pieces(curves, axis);
             && |CurvesOn(curves, axis)| >= 2 && i < |pieces| && Enclosed(pieces, i, j)
             && pieces[i].order == Largest(pieces).order
             && pieces[i].points[j].tick <= tick <= pieces[i].points[j + 1].tick
    ensures var piece := Pieces(CurvesOfMerge(Renderer(), sources, base.frames, names), axis)[i];
            FirstAt(merged.frames, axis, tick) == Some(DrawnAt(Renderer(), piece, tick))
  {
    var curves := CurvesOfMerge(Renderer(), sources, base.frames, names);
    JoinedStands(base, sources, manual, names, merged, axis, tick);
    EnclosedInJoined(RawJoined(curves, axis), Pieces(curves, axis), i, j, tick);
  }
}

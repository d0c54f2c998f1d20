/** The state of a layer edit: the samples of every axis, and the curves, kept in step with
    each other while curves are redrawn, moved and removed. */
module EditState {
  import opened MotionTypes
  import opened Sorting
  import opened Timeline
  import opened CurveEngine

  type Tracks = map<Axis, seq<Point>>

  datatype Work = Work(tracks: Tracks, curves: seq<Curve>)

  function Track(tracks: Tracks, axis: Axis): seq<Point> {
    if axis in tracks then tracks[axis] else []
  }

  // ----- Rendering, seen from outside --------------------------------------------------------------

  type Render = (seq<CurvePoint>, int) -> Result<(seq<CurvePoint>, seq<Point>)>

  /** What editing needs to know of rendering: the points it returns are the given ones,
      ready to be stored, its samples run through them and fill every tick between them, and
      rendering the stored points again gives the same. */
  ghost predicate Renders(render: Render) {
    forall points, order :: RendersWell(render, points, order)
  }

  ghost predicate RendersWell(render: Render, points: seq<CurvePoint>, order: int) {
    render(points, order).Ok? ==>
      var (stored, samples) := render(points, order).value;
      && |stored| >= 2 && Spaced(stored) && render(stored, order) == render(points, order)
      && KnotSet(stored) == KnotSet(points) && (forall k :: k in KnotSet(stored) ==> k in samples)
      && Fills(samples, stored[0].tick, stored[|stored| - 1].tick)
      && (Spaced(points) && |points| >= 2 ==>
            stored[0].tick == points[0].tick && stored[|stored| - 1].tick == Last(points).tick)
  }

  function KnotSet(points: seq<CurvePoint>): set<Point> { set p | p in points :: Knot(p) }

  /** One sample for every tick from `start` to `end`. */
  ghost predicate Fills(samples: seq<Point>, start: nat, end: nat) {
    start < end && |samples| == end - start + 1 && forall i :: 0 <= i < |samples| ==> samples[i].tick == start + i
  }

  function Renderer(): Render {
    (points: seq<CurvePoint>, order: int) => Rendering(points, order)
  }

  lemma CurveEngineRenders()
    ensures Renders(Renderer())
  {
    forall points, order ensures RendersWell(Renderer(), points, order) {
      if Rendering(points, order).Ok? {
        RenderingFills(points, order);
      }
    }
  }

  lemma SamplesFill(points: seq<CurvePoint>, shape: Shape)
    requires Spaced(points) && |points| >= 2
    ensures Fills(Samples(points, shape), points[0].tick, Last(points).tick)
  {
    SpacedIsOrdered(points, 0, |points| - 1);
  }

  lemma StoredEnds(points: seq<CurvePoint>, order: int)
    requires Prepared(points, order).Ok? && Spaced(points) && |points| >= 2
    ensures var stored := Prepared(points, order).value;
            |stored| >= 2 && stored[0].tick == points[0].tick && Last(stored).tick == Last(points).tick
  {
    SpacedIsSorted(points);
    PrepareKeepsKnots(order);
    PreparedTick(points, PrepareFor(order), 0);
    PreparedTick(points, PrepareFor(order), |points| - 1);
  }

  lemma StoredKnots(points: seq<CurvePoint>, prepare: Preparer)
    requires KeepsKnots(prepare)
    ensures KnotSet(PrepareAll(points, prepare)) == KnotSet(points)
  {
    var stored := PrepareAll(points, prepare);
    forall i | 0 <= i < |points| ensures Knot(stored[i]) == Knot(points[i]) {
      PreparedKnot(points, prepare, i);
    }
    forall k | k in KnotSet(points) ensures k in KnotSet(stored) {
      var p :| p in points && Knot(p) == k;
      var i :| 0 <= i < |points| && points[i] == p;
      assert stored[i] in stored;
    }
  }

  lemma RenderingKnots(points: seq<CurvePoint>, order: int)
    requires Prepared(points, order).Ok?
    ensures KnotSet(Prepared(points, order).value) == KnotSet(points)
  {
    PrepareKeepsKnots(order);
    StoredKnots(Sort(points, TickLeq()), PrepareFor(order));
  }

  lemma KnotsDrawn(points: seq<CurvePoint>, order: int)
    requires Rendering(points, order).Ok?
    ensures var (stored, samples) := Rendering(points, order).value; forall k :: k in KnotSet(stored) ==> k in samples
  {
    var (stored, samples) := Rendering(points, order).value;
    forall k | k in KnotSet(stored) ensures k in samples {
      var i: nat :| i < |stored| && Knot(stored[i]) == k;
      RenderingPassesThrough(points, order, i);
    }
  }

  lemma RenderingFills(points: seq<CurvePoint>, order: int)
    requires Rendering(points, order).Ok?
    ensures RendersWell(Renderer(), points, order)
  {
    PreparingIsDoneOnce(points, order);
    RenderingAgain(points, order);
    RenderingKnots(points, order);
    KnotsDrawn(points, order);
    SamplesFill(Prepared(points, order).value, ShapeFor(order));
    if Spaced(points) && |points| >= 2 { StoredEnds(points, order); }
  }

  // ----- Curves --------------------------------------------------------------------------------------

  function Lowest(points: seq<CurvePoint>): nat {
    if points == [] then 0
    else if |points| == 1 then points[0].tick
    else if Last(points).tick < Lowest(Front(points)) then Last(points).tick else Lowest(Front(points))
  }

  function Highest(points: seq<CurvePoint>): nat {
    if points == [] then 0
    else if Last(points).tick > Highest(Front(points)) then Last(points).tick else Highest(Front(points))
  }

  /** The first and last time of a curve. */
  function Bounds(curve: Curve): (nat, nat) { (Lowest(curve.points), Highest(curve.points)) }

  lemma {:induction false} BoundsOfSpaced(points: seq<CurvePoint>)
    requires Spaced(points) && points != []
    ensures Lowest(points) == points[0].tick && Highest(points) == Last(points).tick
  {
    if |points| > 1 {
      BoundsOfSpaced(Front(points));
      assert Front(points)[|points| - 2].tick < Last(points).tick;
      if |points| > 2 { SpacedIsOrdered(points, 0, |points| - 2); }
    }
  }

  ghost predicate CurveOk(render: Render, curve: Curve) {
    |curve.points| >= 2 && Spaced(curve.points) && render(curve.points, curve.order).Ok?
  }

  /** The samples of a curve. */
  ghost function Drawn(render: Render, curve: Curve): seq<Point>
    requires CurveOk(render, curve)
  {
    render(curve.points, curve.order).value.1
  }

  predicate Apart(a: Curve, b: Curve) {
    a.axis != b.axis || Bounds(a).1 < Bounds(b).0 || Bounds(b).1 < Bounds(a).0
  }

  /** Curves that can be drawn, each under its own name, none over another. */
  ghost predicate Structure(render: Render, curves: seq<Curve>) {
    && (forall i :: 0 <= i < |curves| ==> CurveOk(render, curves[i]))
    && (forall i, j :: 0 <= i < j < |curves| ==> curves[i].id != curves[j].id && Apart(curves[i], curves[j]))
  }

  /** Every sample of the curve is in the track of its axis. */
  ghost predicate Held(render: Render, tracks: Tracks, curve: Curve) {
    && CurveOk(render, curve)
    && forall i :: 0 <= i < |Drawn(render, curve)| ==> Drawn(render, curve)[i] in Track(tracks, curve.axis)
  }

  ghost predicate AllHeld(render: Render, tracks: Tracks, curves: seq<Curve>) {
    forall i :: 0 <= i < |curves| ==> Held(render, tracks, curves[i])
  }

  ghost predicate WorkOk(render: Render, w: Work) {
    Structure(render, w.curves) && AllHeld(render, w.tracks, w.curves)
  }

  // ----- Clearing and redrawing -------------------------------------------------------------------------

  predicate InSpan(tick: nat, start: nat, end: nat) { start <= tick <= end }

  function ClearSpan(points: seq<Point>, start: nat, end: nat): seq<Point> {
    if points == [] then []
    else ClearSpan(Front(points), start, end) + (if InSpan(Last(points).tick, start, end) then [] else [Last(points)])
  }

  lemma {:induction false} ClearSpanKeeps(points: seq<Point>, start: nat, end: nat, p: Point)
    ensures p in ClearSpan(points, start, end) <==> p in points && !InSpan(p.tick, start, end)
  {
    if points != [] {
      ClearSpanKeeps(Front(points), start, end, p);
      FrontAndLast(points);
    }
  }

  function Cleared(tracks: Tracks, axis: Axis, span: (nat, nat)): Tracks {
    tracks[axis := ClearSpan(Track(tracks, axis), span.0, span.1)]
  }

  function SpanOfSamples(samples: seq<Point>): (nat, nat) {
    if samples == [] then (1, 0) else (samples[0].tick, Last(samples).tick)
  }

  function Redrawn(tracks: Tracks, axis: Axis, samples: seq<Point>): Tracks {
    tracks[axis := ClearSpan(Track(tracks, axis), SpanOfSamples(samples).0, SpanOfSamples(samples).1) + samples]
  }

  /** A curve's samples fill its bounds. */
  lemma DrawnFills(render: Render, curve: Curve)
    requires Renders(render) && CurveOk(render, curve)
    ensures Fills(Drawn(render, curve), Bounds(curve).0, Bounds(curve).1)
  {
    assert RendersWell(render, curve.points, curve.order);
    BoundsOfSpaced(curve.points);
  }

  /** Whether a span leaves a curve alone. */
  predicate Spares(axis: Axis, span: (nat, nat), curve: Curve) {
    curve.axis != axis || Bounds(curve).1 < span.0 || span.1 < Bounds(curve).0
  }

  lemma ClearingSpares(render: Render, tracks: Tracks, axis: Axis, span: (nat, nat), curve: Curve)
    requires Renders(render) && Held(render, tracks, curve) && Spares(axis, span, curve)
    ensures Held(render, Cleared(tracks, axis, span), curve)
  {
    DrawnFills(render, curve);
    forall i | 0 <= i < |Drawn(render, curve)|
      ensures Drawn(render, curve)[i] in Track(Cleared(tracks, axis, span), curve.axis)
    {
      if curve.axis == axis { ClearSpanKeeps(Track(tracks, axis), span.0, span.1, Drawn(render, curve)[i]); }
    }
  }

  lemma RedrawingSpares(render: Render, tracks: Tracks, axis: Axis, samples: seq<Point>, curve: Curve)
    requires Renders(render) && Held(render, tracks, curve)
    requires Spares(axis, SpanOfSamples(samples), curve)
    ensures Held(render, Redrawn(tracks, axis, samples), curve)
  {
    ClearingSpares(render, tracks, axis, SpanOfSamples(samples), curve);
  }

  lemma RedrawingHolds(render: Render, tracks: Tracks, curve: Curve)
    requires Renders(render) && CurveOk(render, curve)
    ensures Held(render, Redrawn(tracks, curve.axis, Drawn(render, curve)), curve)
  {
  }

  // ----- Removing and rewriting a curve -------------------------------------------------------------------

  function WithoutId(curves: seq<Curve>, id: string): seq<Curve> {
    if curves == [] then []
    else WithoutId(Front(curves), id) + (if Last(curves).id == id then [] else [Last(curves)])
  }

  function FindId(curves: seq<Curve>, id: string): Option<Curve> {
    if curves == [] then None else if curves[0].id == id then Some(curves[0]) else FindId(curves[1..], id)
  }

  /** A curve goes, and the samples in its bounds with it. */
  function Removed(w: Work, curve: Curve): Work {
    Work(Cleared(w.tracks, curve.axis, Bounds(curve)), WithoutId(w.curves, curve.id))
  }

  /** The samples without those of the curve of that name. */
  function WithoutOld(w: Work, id: string): Tracks {
    var found := FindId(w.curves, id);
    if found.Some? then Cleared(w.tracks, found.value.axis, Bounds(found.value)) else w.tracks
  }

  /** A curve is replaced by new points, and its samples by those that the points draw. */
  function Rewritten(
    w: Work, render: Render, id: string, axis: Axis, order: int, points: seq<CurvePoint>): Result<Work>
  {
    var drawn := render(points, order);
    if drawn.Err? then Err(drawn.reason)
    else Ok(Work(Redrawn(WithoutOld(w, id), axis, drawn.value.1),
                 WithoutId(w.curves, id) + [Curve(id, axis, order, drawn.value.0)]))
  }

  lemma {:induction false} FoundCurve(curves: seq<Curve>, id: string)
    ensures FindId(curves, id).Some? ==> FindId(curves, id).value in curves && FindId(curves, id).value.id == id
    ensures FindId(curves, id).None? ==> forall i :: 0 <= i < |curves| ==> curves[i].id != id
  {
    if curves != [] && curves[0].id != id {
      FoundCurve(curves[1..], id);
    }
  }

  lemma {:induction false} WithoutIdKeeps(curves: seq<Curve>, id: string, curve: Curve)
    ensures curve in WithoutId(curves, id) <==> curve in curves && curve.id != id
  {
    if curves != [] {
      WithoutIdKeeps(Front(curves), id, curve);
      FrontAndLast(curves);
    }
  }

  lemma {:induction false} WithoutIdStructure(render: Render, curves: seq<Curve>, id: string)
    requires Structure(render, curves)
    ensures Structure(render, WithoutId(curves, id))
  {
    if curves != [] {
      var shorter, last := WithoutId(Front(curves), id), Last(curves);
      WithoutIdStructure(render, Front(curves), id);
      forall i | 0 <= i < |shorter| ensures shorter[i].id != last.id && Apart(shorter[i], last) {
        WithoutIdKeeps(Front(curves), id, shorter[i]);
        assert shorter[i] in shorter;
        var j :| 0 <= j < |curves| - 1 && curves[j] == shorter[i];
      }
    }
  }

  lemma OthersApart(render: Render, curves: seq<Curve>, a: Curve, b: Curve)
    requires Structure(render, curves) && a in curves && b in curves && a.id != b.id
    ensures Apart(a, b) && Apart(b, a)
  {
    var i :| 0 <= i < |curves| && curves[i] == a;
    var j :| 0 <= j < |curves| && curves[j] == b;
  }

  /** Removing a curve leaves the others as they are. */
  lemma RemovingKeeps(render: Render, w: Work, curve: Curve)
    requires Renders(render) && WorkOk(render, w) && curve in w.curves
    ensures WorkOk(render, Removed(w, curve))
  {
    var shorter := WithoutId(w.curves, curve.id);
    WithoutIdStructure(render, w.curves, curve.id);
    forall i | 0 <= i < |shorter| ensures Held(render, Removed(w, curve).tracks, shorter[i]) {
      OtherHeld(render, w, curve, shorter[i]);
    }
  }

  lemma OtherHeld(render: Render, w: Work, curve: Curve, other: Curve)
    requires Renders(render) && WorkOk(render, w) && curve in w.curves && other in WithoutId(w.curves, curve.id)
    ensures Held(render, Cleared(w.tracks, curve.axis, Bounds(curve)), other)
  {
    WithoutIdKeeps(w.curves, curve.id, other);
    OthersApart(render, w.curves, curve, other);
    var j :| 0 <= j < |w.curves| && w.curves[j] == other;
    assert Held(render, w.tracks, w.curves[j]);
    ClearingSpares(render, w.tracks, curve.axis, Bounds(curve), other);
  }

  lemma WithoutOldHeld(render: Render, w: Work, id: string, other: Curve)
    requires Renders(render) && WorkOk(render, w) && other in WithoutId(w.curves, id)
    ensures Held(render, WithoutOld(w, id), other)
  {
    FoundCurve(w.curves, id);
    if FindId(w.curves, id).Some? {
      OtherHeld(render, w, FindId(w.curves, id).value, other);
    } else {
      WithoutIdKeeps(w.curves, id, other);
      var j :| 0 <= j < |w.curves| && w.curves[j] == other;
      assert Held(render, w.tracks, w.curves[j]);
    }
  }

  /** No other curve of the axis is in the way of what the points draw. */
  ghost predicate Free(
    w: Work, render: Render, id: string, axis: Axis, order: int, points: seq<CurvePoint>)
  {
    render(points, order).Ok? ==>
      forall i :: 0 <= i < |w.curves| && w.curves[i].id != id ==>
        Spares(axis, SpanOfSamples(render(points, order).value.1), w.curves[i])
  }

  /** Rewriting a curve keeps samples and curves in step. */
  lemma RewritingKeeps(render: Render, w: Work, id: string, axis: Axis, order: int, points: seq<CurvePoint>)
    requires Renders(render) && WorkOk(render, w) && Free(w, render, id, axis, order, points)
    requires Rewritten(w, render, id, axis, order, points).Ok?
    ensures WorkOk(render, Rewritten(w, render, id, axis, order, points).value)
  {
    var (stored, samples) := render(points, order).value;
    var curve := Curve(id, axis, order, stored);
    var others := WithoutId(w.curves, id);
    assert RendersWell(render, points, order);
    NewCurve(render, points, order, id, axis);
    WithoutIdStructure(render, w.curves, id);
    forall i | 0 <= i < |others|
      ensures Held(render, Redrawn(WithoutOld(w, id), axis, samples), others[i])
      ensures others[i].id != id && Apart(others[i], curve)
    {
      assert others[i] in others;
      WithoutIdKeeps(w.curves, id, others[i]);
      WithoutOldHeld(render, w, id, others[i]);
      var j :| 0 <= j < |w.curves| && w.curves[j] == others[i];
      assert Spares(axis, SpanOfSamples(samples), w.curves[j]);
      RedrawingSpares(render, WithoutOld(w, id), axis, samples, others[i]);
    }
    RedrawingHolds(render, WithoutOld(w, id), curve);
  }

  /** What is stored draws what was drawn. */
  lemma NewCurve(render: Render, points: seq<CurvePoint>, order: int, id: string, axis: Axis)
    requires Renders(render) && render(points, order).Ok?
    ensures var (stored, samples) := render(points, order).value;
            var curve := Curve(id, axis, order, stored);
            && CurveOk(render, curve) && Drawn(render, curve) == samples
            && Bounds(curve) == SpanOfSamples(samples)
  {
    var stored := render(points, order).value.0;
    assert RendersWell(render, points, order);
    BoundsOfSpaced(stored);
  }
}

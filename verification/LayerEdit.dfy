/** The edits of a layer, as what each does to the samples and the curves, and the proof
    that every one of them keeps the two in step. */
module LayerEdit {
  import opened MotionTypes
  import opened Sorting
  import opened Timeline
  import opened CurveEngine
  import opened EditState
  import opened EditFrames

  const MaxEditFrames: nat := 500_000
  const MaxTimeScale: real := 100.0

  // ----- Small pieces --------------------------------------------------------------------------------

  /** Without repetitions, in order of first appearance. */
  function Unique(ids: seq<Axis>): (r: seq<Axis>)
    ensures forall id :: id in r <==> id in ids
    ensures forall i, j :: 0 <= i < j < |r| ==> r[i] != r[j]
  {
    if ids == [] then []
    else
      FrontAndLast(ids);
      if Last(ids) in Unique(Front(ids)) then Unique(Front(ids)) else Unique(Front(ids)) + [Last(ids)]
  }

  function CurvesOn(curves: seq<Curve>, axis: Axis): seq<Curve> {
    if curves == [] then []
    else CurvesOn(Front(curves), axis) + (if Last(curves).axis == axis then [Last(curves)] else [])
  }

  lemma {:induction false} CurvesOnAxis(curves: seq<Curve>, axis: Axis, curve: Curve)
    ensures curve in CurvesOn(curves, axis) <==> curve in curves && curve.axis == axis
  {
    if curves != [] {
      CurvesOnAxis(Front(curves), axis, curve);
      FrontAndLast(curves);
    }
  }

  /** The points of a curve inside, or outside, a span. */
  function PointsInside(points: seq<CurvePoint>, start: nat, end: nat, inside: bool): seq<CurvePoint> {
    if points == [] then []
    else PointsInside(Front(points), start, end, inside)
         + (if InSpan(Last(points).tick, start, end) == inside then [Last(points)] else [])
  }

  lemma {:induction false} PointsInsideAre(points: seq<CurvePoint>, start: nat, end: nat, inside: bool, p: CurvePoint)
    ensures p in PointsInside(points, start, end, inside) <==> p in points && InSpan(p.tick, start, end) == inside
  {
    if points != [] {
      PointsInsideAre(Front(points), start, end, inside, p);
      FrontAndLast(points);
    }
  }

  lemma {:induction false} PointsInsideSpaced(points: seq<CurvePoint>, start: nat, end: nat, inside: bool)
    requires Spaced(points)
    ensures Spaced(PointsInside(points, start, end, inside))
    ensures PointsInside(points, start, end, inside) != [] ==>
              Last(PointsInside(points, start, end, inside)).tick <= Last(points).tick
  {
    if points != [] {
      PointsInsideSpaced(Front(points), start, end, inside);
    }
  }

  predicate UniqueIds(curves: seq<Curve>) {
    forall i, j :: 0 <= i < j < |curves| ==> curves[i].id != curves[j].id
  }

  predicate NoOverlaps(curves: seq<Curve>) {
    forall i, j :: 0 <= i < j < |curves| ==> Apart(curves[i], curves[j])
  }

  // ----- Recalculating from the points ------------------------------------------------------------------

  function Chosen(curves: seq<Curve>, ids: set<string>): seq<Curve> {
    if curves == [] then []
    else Chosen(Front(curves), ids) + (if ids == {} || Last(curves).id in ids then [Last(curves)] else [])
  }

  lemma {:induction false} ChosenAre(curves: seq<Curve>, ids: set<string>, curve: Curve)
    ensures curve in Chosen(curves, ids) <==> curve in curves && (ids == {} || curve.id in ids)
  {
    if curves != [] {
      ChosenAre(Front(curves), ids, curve);
      FrontAndLast(curves);
    }
  }

  function RedrawAll(render: Render, tracks: Tracks, chosen: seq<Curve>): Result<Tracks> {
    if chosen == [] then Ok(tracks)
    else
      var before := RedrawAll(render, tracks, Front(chosen));
      var drawn := render(Last(chosen).points, Last(chosen).order);
      if before.Err? then before
      else if drawn.Err? then Err(drawn.reason)
      else Ok(Redrawn(before.value, Last(chosen).axis, drawn.value.1))
  }

  function Stored(render: Render, curve: Curve): Curve {
    var drawn := render(curve.points, curve.order);
    if drawn.Ok? then curve.(points := drawn.value.0) else curve
  }

  function StoredAll(render: Render, curves: seq<Curve>, ids: set<string>): (r: seq<Curve>)
    ensures |r| == |curves|
    ensures forall i :: 0 <= i < |curves| ==>
              r[i] == if ids == {} || curves[i].id in ids then Stored(render, curves[i]) else curves[i]
  {
    seq(|curves|, i requires 0 <= i < |curves| =>
      if ids == {} || curves[i].id in ids then Stored(render, curves[i]) else curves[i])
  }

  function Resolved(w: Work, render: Render, ids: set<string>): Result<Work> {
    var chosen := Chosen(w.curves, ids);
    var tracks := RedrawAll(render, w.tracks, chosen);
    if chosen == [] then Err("no curve to resolve")
    else if tracks.Err? then Err(tracks.reason)
    else Ok(Work(tracks.value, StoredAll(render, w.curves, ids)))
  }

  /** Redrawing one curve holds it, and leaves every other one held. */
  lemma RedrawnCurve(render: Render, tracks: Tracks, curve: Curve, other: Curve)
    requires Renders(render) && CurveOk(render, curve)
    requires other == curve || (Held(render, tracks, other) && Apart(curve, other))
    ensures Held(render, Redrawn(tracks, curve.axis, Drawn(render, curve)), other)
  {
    DrawnFills(render, curve);
    if other == curve {
      RedrawingHolds(render, tracks, curve);
    } else {
      RedrawingSpares(render, tracks, curve.axis, Drawn(render, curve), other);
    }
  }

  ghost predicate Among(chosen: seq<Curve>, curves: seq<Curve>) {
    forall i :: 0 <= i < |chosen| ==> chosen[i] in curves
  }

  lemma {:induction false} RedrawAllHolds(render: Render, tracks: Tracks, curves: seq<Curve>, chosen: seq<Curve>, curve: Curve)
    requires Renders(render) && Structure(render, curves) && Among(chosen, curves) && curve in curves
    requires RedrawAll(render, tracks, chosen).Ok?
    requires curve in chosen || Held(render, tracks, curve)
    ensures Held(render, RedrawAll(render, tracks, chosen).value, curve)
  {
    if chosen != [] {
      var last := Last(chosen);
      FrontAndLast(chosen);
      InStructure(render, curves, last, curve);
      if curve != last {
        RedrawAllHolds(render, tracks, curves, Front(chosen), curve);
      }
      RedrawnCurve(render, RedrawAll(render, tracks, Front(chosen)).value, last, curve);
    }
  }

  lemma InStructure(render: Render, curves: seq<Curve>, a: Curve, b: Curve)
    requires Structure(render, curves) && a in curves && b in curves
    ensures CurveOk(render, a) && CurveOk(render, b) && (a != b ==> Apart(a, b))
  {}

  /** Storing the points that were drawn changes nothing that is drawn. */
  lemma StoredSame(render: Render, curve: Curve)
    requires Renders(render) && CurveOk(render, curve)
    ensures var stored := Stored(render, curve);
            && stored.id == curve.id && stored.axis == curve.axis && Bounds(stored) == Bounds(curve)
            && CurveOk(render, stored) && Drawn(render, stored) == Drawn(render, curve)
  {
    NewCurve(render, curve.points, curve.order, curve.id, curve.axis);
    DrawnFills(render, curve);
  }

  lemma StoredAllOk(render: Render, tracks: Tracks, curves: seq<Curve>, ids: set<string>)
    requires Renders(render) && Structure(render, curves) && AllHeld(render, tracks, curves)
    ensures WorkOk(render, Work(tracks, StoredAll(render, curves, ids)))
  {
    var stored := StoredAll(render, curves, ids);
    forall i | 0 <= i < |curves|
      ensures stored[i].id == curves[i].id && stored[i].axis == curves[i].axis && Bounds(stored[i]) == Bounds(curves[i])
      ensures Held(render, tracks, stored[i])
    {
      StoredSame(render, curves[i]);
      assert Held(render, tracks, curves[i]);
    }
  }

  /** Recalculating brings the chosen curves into step and keeps the others there; with
      all of them chosen, any layer is repaired. */
  lemma ResolvingKeeps(w: Work, render: Render, ids: set<string>)
    requires Renders(render) && Structure(render, w.curves) && Resolved(w, render, ids).Ok?
    requires forall i :: 0 <= i < |w.curves| ==>
               ids == {} || w.curves[i].id in ids || Held(render, w.tracks, w.curves[i])
    ensures WorkOk(render, Resolved(w, render, ids).value)
  {
    var chosen := Chosen(w.curves, ids);
    var tracks := RedrawAll(render, w.tracks, chosen).value;
    forall i | 0 <= i < |chosen| ensures chosen[i] in w.curves {
      ChosenAre(w.curves, ids, chosen[i]);
      assert chosen[i] in chosen;
    }
    forall i | 0 <= i < |w.curves| ensures Held(render, tracks, w.curves[i]) {
      ChosenAre(w.curves, ids, w.curves[i]);
      RedrawAllHolds(render, w.tracks, w.curves, chosen, w.curves[i]);
    }
    StoredAllOk(render, tracks, w.curves, ids);
  }

  // ----- Axes -----------------------------------------------------------------------------------------

  /** A constant from one tick to another. */
  function Constant(start: nat, end: nat, value: real): (r: seq<Point>)
    requires start <= end
    ensures |r| == end - start + 1
    ensures forall i :: 0 <= i < |r| ==> r[i] == Point(start + i, value)
  {
    seq(end - start + 1, i requires 0 <= i => Point(start + i, value))
  }

  /** A new axis gets a constant for as long as the layer lasts, two ticks at least. */
  function AxisAdded(w: Work, ids: seq<Axis>, initial: real, first: Option<nat>, last: Option<nat>): Result<Work> {
    var start := if first.Some? then first.value else 0;
    var end := if last.Some? && last.value >= start + 1 then last.value else start + 1;
    if |Unique(ids)| != 1 then Err("choose one axis")
    else if Unique(ids)[0] in w.tracks then Err("the axis is there already")
    else Ok(Work(w.tracks[Unique(ids)[0] := Constant(start, end, initial)], w.curves))
  }

  /** Names for new curves. */
  type Names = nat -> string

  ghost predicate Fresh(names: Names, curves: seq<Curve>) {
    && (forall i: nat, j: nat :: i != j ==> names(i) != names(j))
    && (forall i: nat, j :: 0 <= j < |curves| ==> names(i) != curves[j].id)
  }

  function Copies(curves: seq<Curve>, target: Axis, names: Names): (r: seq<Curve>)
    ensures |r| == |curves|
    ensures forall i :: 0 <= i < |r| ==> r[i] == curves[i].(id := names(i), axis := target)
  {
    seq(|curves|, i requires 0 <= i < |curves| => curves[i].(id := names(i), axis := target))
  }

  function AxisCopied(w: Work, source: Axis, ids: seq<Axis>, names: Names): Result<Work> {
    if source !in w.tracks then Err("the axis is not in the layer")
    else if |Unique(ids)| != 1 then Err("choose one axis")
    else if Unique(ids)[0] == source then Err("the axes are the same")
    else if Unique(ids)[0] in w.tracks then Err("the axis is there already")
    else Ok(Work(w.tracks[Unique(ids)[0] := w.tracks[source]],
                 w.curves + Copies(CurvesOn(w.curves, source), Unique(ids)[0], names)))
  }

  function OtherCurves(curves: seq<Curve>, axes: seq<Axis>): seq<Curve> {
    if curves == [] then []
    else OtherCurves(Front(curves), axes) + (if Last(curves).axis in axes then [] else [Last(curves)])
  }

  function AxesDeleted(w: Work, ids: seq<Axis>): Result<Work> {
    if Unique(ids) == [] then Err("choose an axis")
    else if exists id :: id in ids && id !in w.tracks then Err("some axis is not in the layer")
    else Ok(Work(w.tracks - (set id | id in ids), OtherCurves(w.curves, ids)))
  }

  lemma HeldNeedsTrack(render: Render, tracks: Tracks, curve: Curve)
    requires Renders(render) && Held(render, tracks, curve)
    ensures curve.axis in tracks
  {
    DrawnFills(render, curve);
    assert Drawn(render, curve)[0] in Track(tracks, curve.axis);
  }

  lemma AddingKeeps(w: Work, render: Render, axis: Axis, points: seq<Point>)
    requires Renders(render) && WorkOk(render, w) && axis !in w.tracks
    ensures WorkOk(render, Work(w.tracks[axis := points], w.curves))
  {}

  lemma {:induction false} CurvesOnStructure(render: Render, curves: seq<Curve>, axis: Axis)
    requires Structure(render, curves)
    ensures Structure(render, CurvesOn(curves, axis))
  {
    if curves != [] {
      var shorter, last := CurvesOn(Front(curves), axis), Last(curves);
      CurvesOnStructure(render, Front(curves), axis);
      forall i | 0 <= i < |shorter| ensures shorter[i].id != last.id && Apart(shorter[i], last) {
        assert shorter[i] in shorter;
        CurvesOnAxis(Front(curves), axis, shorter[i]);
        var j :| 0 <= j < |curves| - 1 && curves[j] == shorter[i];
      }
    }
  }

  /** One list of curves after another, none of which meets any of the first. */
  lemma JoinedOk(render: Render, tracks: Tracks, a: seq<Curve>, b: seq<Curve>)
    requires WorkOk(render, Work(tracks, a)) && WorkOk(render, Work(tracks, b))
    requires forall i, j :: 0 <= i < |a| && 0 <= j < |b| ==> a[i].id != b[j].id && Apart(a[i], b[j])
    ensures WorkOk(render, Work(tracks, a + b))
  {}

  lemma CopiesHeld(render: Render, tracks: Tracks, curves: seq<Curve>, source: Axis, target: Axis, names: Names)
    requires Structure(render, curves) && AllHeld(render, tracks, curves)
    requires forall i :: 0 <= i < |curves| ==> curves[i].axis == source
    requires forall i: nat, j: nat :: i != j ==> names(i) != names(j)
    requires source in tracks && target in tracks && tracks[target] == tracks[source]
    ensures WorkOk(render, Work(tracks, Copies(curves, target, names)))
  {
    var copies := Copies(curves, target, names);
    forall i | 0 <= i < |curves| ensures Held(render, tracks, copies[i]) {
      assert Held(render, tracks, curves[i]);
      assert Drawn(render, copies[i]) == Drawn(render, curves[i]);
    }
    forall i, j | 0 <= i < j < |curves| ensures copies[i].id != copies[j].id && Apart(copies[i], copies[j]) {
      assert Apart(curves[i], curves[j]);
    }
  }

  lemma CopyingKeeps(w: Work, render: Render, source: Axis, ids: seq<Axis>, names: Names)
    requires Renders(render) && WorkOk(render, w) && Fresh(names, w.curves)
    requires AxisCopied(w, source, ids, names).Ok?
    ensures WorkOk(render, AxisCopied(w, source, ids, names).value)
  {
    var target := Unique(ids)[0];
    var tracks, sources := w.tracks[target := w.tracks[source]], CurvesOn(w.curves, source);
    AddingKeeps(w, render, target, w.tracks[source]);
    CurvesOnStructure(render, w.curves, source);
    forall i | 0 <= i < |sources| ensures sources[i].axis == source && Held(render, tracks, sources[i]) {
      assert sources[i] in sources;
      CurvesOnAxis(w.curves, source, sources[i]);
      var j :| 0 <= j < |w.curves| && w.curves[j] == sources[i];
      assert Held(render, tracks, w.curves[j]);
    }
    CopiesHeld(render, tracks, sources, source, target, names);
    forall i | 0 <= i < |w.curves| ensures w.curves[i].axis != target {
      assert Held(render, w.tracks, w.curves[i]);
      HeldNeedsTrack(render, w.tracks, w.curves[i]);
    }
    JoinedOk(render, tracks, w.curves, Copies(sources, target, names));
  }

  lemma {:induction false} OtherCurvesAre(curves: seq<Curve>, axes: seq<Axis>, curve: Curve)
    ensures curve in OtherCurves(curves, axes) <==> curve in curves && curve.axis !in axes
  {
    if curves != [] {
      OtherCurvesAre(Front(curves), axes, curve);
      FrontAndLast(curves);
    }
  }

  lemma {:induction false} OtherCurvesStructure(render: Render, curves: seq<Curve>, axes: seq<Axis>)
    requires Structure(render, curves)
    ensures Structure(render, OtherCurves(curves, axes))
  {
    if curves != [] {
      var shorter, last := OtherCurves(Front(curves), axes), Last(curves);
      OtherCurvesStructure(render, Front(curves), axes);
      forall i | 0 <= i < |shorter| ensures shorter[i].id != last.id && Apart(shorter[i], last) {
        assert shorter[i] in shorter;
        OtherCurvesAre(Front(curves), axes, shorter[i]);
        var j :| 0 <= j < |curves| - 1 && curves[j] == shorter[i];
      }
    }
  }

  /** Curves that stay, on axes whose samples stay. */
  lemma StayingHeld(w: Work, render: Render, axes: seq<Axis>, tracks: Tracks)
    requires WorkOk(render, w)
    requires forall axis :: axis !in axes ==> Track(tracks, axis) == Track(w.tracks, axis)
    ensures WorkOk(render, Work(tracks, OtherCurves(w.curves, axes)))
  {
    var others := OtherCurves(w.curves, axes);
    OtherCurvesStructure(render, w.curves, axes);
    forall i | 0 <= i < |others| ensures Held(render, tracks, others[i]) {
      assert others[i] in others;
      OtherCurvesAre(w.curves, axes, others[i]);
      var j :| 0 <= j < |w.curves| && w.curves[j] == others[i];
      assert Held(render, w.tracks, w.curves[j]);
    }
  }

  lemma DeletingKeeps(w: Work, render: Render, ids: seq<Axis>)
    requires WorkOk(render, w) && AxesDeleted(w, ids).Ok?
    ensures WorkOk(render, AxesDeleted(w, ids).value)
  {
    StayingHeld(w, render, ids, w.tracks - (set id | id in ids));
  }

  // ----- Setting a curve --------------------------------------------------------------------------------

  /** Another curve of the axis is in the way. */
  predicate InTheWay(curves: seq<Curve>, axis: Axis, id: string, span: (nat, nat)) {
    exists i :: 0 <= i < |curves| && curves[i].id != id && !Spares(axis, span, curves[i])
  }

  function CurveSet(
    w: Work, render: Render, ids: seq<Axis>, id: string, order: int, points: seq<CurvePoint>): Result<Work>
  {
    var drawn := render(points, order);
    if |Unique(ids)| != 1 then Err("choose one axis")
    else if drawn.Err? then Err(drawn.reason)
    else if InTheWay(w.curves, Unique(ids)[0], id, SpanOfSamples(drawn.value.1)) then Err("curves overlap")
    else Rewritten(w, render, id, Unique(ids)[0], order, points)
  }

  lemma SettingKeeps(
    w: Work, render: Render, ids: seq<Axis>, id: string, order: int, points: seq<CurvePoint>)
    requires Renders(render) && WorkOk(render, w) && CurveSet(w, render, ids, id, order, points).Ok?
    ensures WorkOk(render, CurveSet(w, render, ids, id, order, points).value)
  {
    RewritingKeeps(render, w, id, Unique(ids)[0], order, points);
  }

  /** A fitted curve takes the place of everything on its axis. */
  function CurveFitted(
    w: Work, render: Render, axis: Axis, id: string, order: int, points: seq<CurvePoint>): Result<Work>
  {
    var drawn := render(points, order);
    if drawn.Err? then Err(drawn.reason)
    else
      var curves := OtherCurves(w.curves, [axis]) + [Curve(id, axis, order, drawn.value.0)];
      if !NoOverlaps(curves) then Err("curves overlap")
      else Ok(Work(w.tracks[axis := drawn.value.1], curves))
  }

  lemma FittingKeeps(w: Work, render: Render, axis: Axis, id: string, order: int, points: seq<CurvePoint>)
    requires Renders(render) && WorkOk(render, w) && CurveFitted(w, render, axis, id, order, points).Ok?
    requires UniqueIds(CurveFitted(w, render, axis, id, order, points).value.curves)
    ensures WorkOk(render, CurveFitted(w, render, axis, id, order, points).value)
  {
    var (stored, samples) := render(points, order).value;
    var tracks, others := w.tracks[axis := samples], OtherCurves(w.curves, [axis]);
    var curves := others + [Curve(id, axis, order, stored)];
    StayingHeld(w, render, [axis], tracks);
    NewCurve(render, points, order, id, axis);
    assert curves[|others|] == Curve(id, axis, order, stored);
    assert forall i :: 0 <= i < |others| ==> curves[i] == others[i];
    JoinedOk(render, tracks, others, [Curve(id, axis, order, stored)]);
  }
}

/** The one curve that gathering makes of the curves of an axis, and what it draws. */
module JoinedCurve {
  import opened MotionTypes
  import opened Sorting
  import opened Timeline
  import opened CurveEngine
  import opened EditState
  import opened EditFrames
  import opened LayerEdit
  import opened RangeEdit
  import opened EditEffects
  import opened EditKnots
  import opened GatherCurves

  /** The curves of an axis, in time order. */
  function Pieces(curves: seq<Curve>, axis: Axis): seq<Curve> { Sort(CurvesOn(curves, axis), StartLeq()) }

  function JoinedPoints(pieces: seq<Curve>): seq<CurvePoint> { Sort(AllPoints(pieces), TickLeq()) }

  /** The points of all pieces, in a curve of the order of the largest. */
  function Joined(render: Render, curves: seq<Curve>, axis: Axis): Result<Curve>
    requires CurvesOn(curves, axis) != []
  {
    var pieces := Pieces(curves, axis);
    var drawn := render(JoinedPoints(pieces), Largest(pieces).order);
    if drawn.Err? then Err(drawn.reason) else Ok(Curve(pieces[0].id, axis, Largest(pieces).order, drawn.value.0))
  }

  // ----- Pieces follow each other -----------------------------------------------------------------------

  ghost predicate Follow(pieces: seq<Curve>) {
    && (forall i :: 0 <= i < |pieces| ==> |pieces[i].points| >= 2 && Spaced(pieces[i].points))
    && (forall i, j :: 0 <= i < j < |pieces| ==> Bounds(pieces[i]).1 < Bounds(pieces[j]).0)
  }

  lemma StartLeqIsTotal()
    ensures TotalOrder(StartLeq())
  {
  }

  lemma {:induction false} SortOnce(curves: seq<Curve>, i: nat, j: nat)
    requires forall i, j :: 0 <= i < j < |curves| ==> curves[i].id != curves[j].id
    requires i < j < |curves|
    ensures Sort(curves, StartLeq())[i] != Sort(curves, StartLeq())[j]
  {
    var sorted := Sort(curves, StartLeq());
    if sorted[i] == sorted[j] {
      var c := sorted[i];
      SortMultiset(curves, StartLeq());
      TwiceThere(sorted, i, j);
      OnceThere(curves, c);
      assert false;
    }
  }

  lemma TwiceThere(curves: seq<Curve>, i: nat, j: nat)
    requires i < j < |curves| && curves[i] == curves[j]
    ensures multiset(curves)[curves[i]] >= 2
  {
    assert curves == curves[..j] + [curves[j]] + curves[j + 1..];
    assert curves[..j][i] == curves[i];
    assert curves[i] in curves[..j];
  }

  lemma {:induction false} OnceThere(curves: seq<Curve>, curve: Curve)
    requires forall i, j :: 0 <= i < j < |curves| ==> curves[i].id != curves[j].id
    ensures multiset(curves)[curve] <= 1
  {
    if curves != [] {
      FrontAndLast(curves);
      assert curves == Front(curves) + [Last(curves)];
      OnceThere(Front(curves), curve);
      if Last(curves) == curve {
        assert curve !in Front(curves) by {
          forall i | 0 <= i < |curves| - 1 ensures Front(curves)[i] != curve { assert Front(curves)[i].id != Last(curves).id; }
        }
      }
    }
  }

  lemma PiecesFollow(render: Render, curves: seq<Curve>, axis: Axis)
    requires Structure(render, curves)
    ensures Follow(Pieces(curves, axis))
  {
    var on, pieces := CurvesOn(curves, axis), Pieces(curves, axis);
    CurvesOnStructure(render, curves, axis);
    StartLeqIsTotal();
    SortOrdered(on, StartLeq());
    forall i | 0 <= i < |pieces| ensures CurveOk(render, pieces[i]) && pieces[i].axis == axis && pieces[i] in on {
      assert pieces[i] in pieces;
      CurvesOnAxis(curves, axis, pieces[i]);
      InStructure(render, curves, pieces[i], pieces[i]);
    }
    forall i, j | 0 <= i < j < |pieces| ensures Bounds(pieces[i]).1 < Bounds(pieces[j]).0 {
      SortOnce(on, i, j);
      InStructure(render, on, pieces[i], pieces[j]);
      assert StartLeq()(pieces[i], pieces[j]);
      BoundsOfSpaced(pieces[i].points);
      BoundsOfSpaced(pieces[j].points);
      SpacedIsOrdered(pieces[j].points, 0, |pieces[j].points| - 1);
    }
  }

  // ----- Their points, one after the other ----------------------------------------------------------------

  /** Where the points of a piece start. */
  function Offset(pieces: seq<Curve>, i: nat): nat
    requires i <= |pieces|
  {
    |AllPoints(pieces[..i])|
  }

  lemma FrontJoin(a: seq<Curve>, b: seq<Curve>)
    requires b != []
    ensures a + b != [] && Front(a + b) == a + Front(b) && Last(a + b) == Last(b)
  {
  }

  lemma PointsJoin(a: seq<CurvePoint>, b: seq<CurvePoint>, c: seq<CurvePoint>)
    ensures (a + b) + c == a + (b + c)
  {
  }

  lemma {:induction false} AllPointsJoin(a: seq<Curve>, b: seq<Curve>)
    ensures AllPoints(a + b) == AllPoints(a) + AllPoints(b)
  {
    if b == [] {
      assert a + b == a;
    } else {
      FrontJoin(a, b);
      AllPointsJoin(a, Front(b));
      PointsJoin(AllPoints(a), AllPoints(Front(b)), Last(b).points);
    }
  }

  lemma OnePiece(curve: Curve)
    ensures AllPoints([curve]) == curve.points
  {
    assert Front([curve]) == [];
  }

  lemma OffsetStep(pieces: seq<Curve>, i: nat)
    requires i < |pieces|
    ensures AllPoints(pieces[..i + 1]) == AllPoints(pieces[..i]) + pieces[i].points
  {
    assert pieces[..i + 1] == pieces[..i] + [pieces[i]];
    AllPointsJoin(pieces[..i], [pieces[i]]);
    OnePiece(pieces[i]);
  }

  lemma PrefixPoints(pieces: seq<Curve>, i: nat)
    requires i <= |pieces|
    ensures AllPoints(pieces) == AllPoints(pieces[..i]) + AllPoints(pieces[i..])
  {
    assert pieces == pieces[..i] + pieces[i..];
    AllPointsJoin(pieces[..i], pieces[i..]);
  }

  lemma SpacedJoin(a: seq<CurvePoint>, b: seq<CurvePoint>)
    requires Spaced(a) && Spaced(b) && (a != [] && b != [] ==> Last(a).tick < b[0].tick)
    ensures Spaced(a + b)
  {
  }

  lemma FollowFront(pieces: seq<Curve>)
    requires Follow(pieces) && |pieces| >= 2
    ensures Follow(Front(pieces)) && Last(Last(Front(pieces)).points).tick < Last(pieces).points[0].tick
  {
    var previous := pieces[|pieces| - 2];
    BoundsOfSpaced(previous.points);
    BoundsOfSpaced(Last(pieces).points);
    assert Bounds(previous).1 < Bounds(pieces[|pieces| - 1]).0;
  }

  lemma {:induction false} AllPointsSpaced(pieces: seq<Curve>)
    requires Follow(pieces)
    ensures Spaced(AllPoints(pieces))
    ensures pieces != [] ==>
              && |AllPoints(pieces)| >= 2 && AllPoints(pieces)[0] == pieces[0].points[0]
              && Last(AllPoints(pieces)) == Last(Last(pieces).points)
  {
    if |pieces| >= 2 {
      FollowFront(pieces);
      AllPointsSpaced(Front(pieces));
      SpacedJoin(AllPoints(Front(pieces)), Last(pieces).points);
    } else if pieces != [] {
      assert pieces == [pieces[0]];
      OnePiece(pieces[0]);
    }
  }

  /** Nothing is left to sort. */
  lemma JoinedIsAll(pieces: seq<Curve>)
    requires Follow(pieces)
    ensures JoinedPoints(pieces) == AllPoints(pieces)
  {
    AllPointsSpaced(pieces);
    SpacedIsSorted(AllPoints(pieces));
  }

  // ----- Gathering makes that curve -------------------------------------------------------------------------

  /** The axis has that curve alone, and its samples; outside its span, what was there. */
  ghost predicate AxisJoined(render: Render, w: Work, after: Work, axis: Axis) {
    && CurvesOn(w.curves, axis) != [] && Joined(render, w.curves, axis).Ok?
    && var curve := Joined(render, w.curves, axis).value;
       && CurveOk(render, curve) && CurvesOn(after.curves, axis) == [curve]
       && forall p :: p in Track(after.tracks, axis) <==>
            || p in Drawn(render, curve)
            || (p in Track(w.tracks, axis) && !InSpan(p.tick, Bounds(curve).0, Bounds(curve).1))
  }

  lemma {:induction false} RemovedOthersKeep(w: Work, curves: seq<Curve>, id: string, axis: Axis, start: nat, end: nat, p: Point)
    requires forall i :: 0 <= i < |curves| ==> start <= Bounds(curves[i]).0 && Bounds(curves[i]).1 <= end
    requires !InSpan(p.tick, start, end)
    ensures p in Track(RemovedOthers(w, curves, id).tracks, axis) <==> p in Track(w.tracks, axis)
  {
    if curves != [] {
      var before := RemovedOthers(w, Front(curves), id);
      RemovedOthersKeep(w, Front(curves), id, axis, start, end, p);
      if Last(curves).id != id && Last(curves).axis == axis {
        ClearSpanKeeps(Track(before.tracks, axis), Bounds(Last(curves)).0, Bounds(Last(curves)).1, p);
      }
    }
  }

  lemma PiecesThere(curves: seq<Curve>, axis: Axis)
    requires CurvesOn(curves, axis) != []
    ensures Pieces(curves, axis) != []
  {
  }

  lemma JoinedDraws(render: Render, curves: seq<Curve>, axis: Axis)
    requires Renders(render) && Structure(render, curves) && CurvesOn(curves, axis) != [] && Joined(render, curves, axis).Ok?
    ensures var curve, points := Joined(render, curves, axis).value, AllPoints(Pieces(curves, axis));
            && Follow(Pieces(curves, axis)) && Spaced(points) && |points| >= 2
            && render(points, curve.order).Ok? && curve.points == render(points, curve.order).value.0
            && CurveOk(render, curve) && Drawn(render, curve) == render(points, curve.order).value.1
            && Bounds(curve) == SpanOfSamples(Drawn(render, curve))
            && Bounds(curve) == (points[0].tick, Last(points).tick)
  {
    var pieces := Pieces(curves, axis);
    var points := AllPoints(pieces);
    PiecesFollow(render, curves, axis);
    JoinedIsAll(pieces);
    AllPointsSpaced(pieces);
    NewCurve(render, points, Largest(pieces).order, pieces[0].id, axis);
    assert RendersWell(render, points, Largest(pieces).order);
  }

  lemma JoinedBounds(render: Render, curves: seq<Curve>, axis: Axis, i: nat)
    requires Renders(render) && Structure(render, curves) && CurvesOn(curves, axis) != [] && Joined(render, curves, axis).Ok?
    requires i < |Pieces(curves, axis)|
    ensures var curve, piece := Joined(render, curves, axis).value, Pieces(curves, axis)[i];
            && Bounds(curve).0 <= Bounds(piece).0 && Bounds(piece).1 <= Bounds(curve).1
            && (i == 0 ==> Bounds(curve).0 == Bounds(piece).0)
            && (i == |Pieces(curves, axis)| - 1 ==> Bounds(curve).1 == Bounds(piece).1)
  {
    var pieces := Pieces(curves, axis);
    JoinedDraws(render, curves, axis);
    AllPointsSpaced(pieces);
    BoundsOfSpaced(pieces[0].points);
    BoundsOfSpaced(Last(pieces).points);
    PieceInOrder(pieces[0]);
    PieceInOrder(Last(pieces));
  }

  lemma PieceInOrder(curve: Curve)
    requires |curve.points| >= 2 && Spaced(curve.points)
    ensures Bounds(curve).0 < Bounds(curve).1
  {
    BoundsOfSpaced(curve.points);
    SpacedIsOrdered(curve.points, 0, |curve.points| - 1);
  }

  lemma PieceNamed(curves: seq<Curve>, axis: Axis)
    requires CurvesOn(curves, axis) != []
    ensures Named(curves, Pieces(curves, axis)[0].id, axis)
  {
    FirstPieceNamed(Work(map[], curves), axis);
  }

  /** What gathering leaves of an axis outside the span. */
  lemma OutsideStays(w: Work, render: Render, axis: Axis, id: string, start: nat, end: nat, p: Point)
    requires Structure(render, w.curves) && Named(w.curves, id, axis) && !InSpan(p.tick, start, end)
    requires forall i :: 0 <= i < |CurvesOn(w.curves, axis)| ==>
               start <= Bounds(CurvesOn(w.curves, axis)[i]).0 && Bounds(CurvesOn(w.curves, axis)[i]).1 <= end
    ensures var left := RemovedOthers(w, CurvesOn(w.curves, axis), id);
            p in Track(WithoutOld(left, id), axis) <==> p in Track(w.tracks, axis)
  {
    var on := CurvesOn(w.curves, axis);
    var left := RemovedOthers(w, on, id);
    RemovedOthersKeep(w, on, id, axis, start, end, p);
    NamedOnItsAxis(w, render, axis, id);
    FoundCurve(left.curves, id);
    if FindId(left.curves, id).Some? {
      var found := FindId(left.curves, id).value;
      RemovedOthersAre(w, on, id, found);
      CurvesOnAxis(w.curves, axis, found);
      var i :| 0 <= i < |on| && on[i] == found;
      ClearSpanKeeps(Track(left.tracks, axis), Bounds(found).0, Bounds(found).1, p);
    }
  }

  lemma WithinJoined(render: Render, curves: seq<Curve>, axis: Axis, i: nat)
    requires Renders(render) && Structure(render, curves) && i < |CurvesOn(curves, axis)|
    requires Joined(render, curves, axis).Ok?
    ensures var curve := Joined(render, curves, axis).value;
            Bounds(curve).0 <= Bounds(CurvesOn(curves, axis)[i]).0 && Bounds(CurvesOn(curves, axis)[i]).1 <= Bounds(curve).1
  {
    var pieces := Pieces(curves, axis);
    assert CurvesOn(curves, axis)[i] in pieces;
    var k :| 0 <= k < |pieces| && pieces[k] == CurvesOn(curves, axis)[i];
    JoinedBounds(render, curves, axis, k);
  }

  /** Of the samples of the axis, those outside the new span are left. */
  lemma JoinedTrack(w: Work, render: Render, axis: Axis, p: Point)
    requires Renders(render) && Structure(render, w.curves) && |CurvesOn(w.curves, axis)| >= 2
    requires Joined(render, w.curves, axis).Ok?
    ensures var curve, id := Joined(render, w.curves, axis).value, Pieces(w.curves, axis)[0].id;
            var tracks := WithoutOld(RemovedOthers(w, CurvesOn(w.curves, axis), id), id);
            p in ClearSpan(Track(tracks, axis), Bounds(curve).0, Bounds(curve).1) <==>
            p in Track(w.tracks, axis) && !InSpan(p.tick, Bounds(curve).0, Bounds(curve).1)
  {
    var curve, id := Joined(render, w.curves, axis).value, Pieces(w.curves, axis)[0].id;
    PieceNamed(w.curves, axis);
    forall i | 0 <= i < |CurvesOn(w.curves, axis)|
      ensures Bounds(curve).0 <= Bounds(CurvesOn(w.curves, axis)[i]).0 && Bounds(CurvesOn(w.curves, axis)[i]).1 <= Bounds(curve).1
    {
      WithinJoined(render, w.curves, axis, i);
    }
    ClearSpanKeeps(
      Track(WithoutOld(RemovedOthers(w, CurvesOn(w.curves, axis), id), id), axis), Bounds(curve).0, Bounds(curve).1, p);
    if !InSpan(p.tick, Bounds(curve).0, Bounds(curve).1) {
      OutsideStays(w, render, axis, id, Bounds(curve).0, Bounds(curve).1, p);
    }
  }

  /** What gathering does on an axis with several curves, spelled out. */
  lemma GatheredIs(w: Work, render: Render, axis: Axis)
    requires Renders(render) && Structure(render, w.curves) && Gathered(w, render, axis).Ok? && |CurvesOn(w.curves, axis)| >= 2
    ensures Joined(render, w.curves, axis).Ok?
    ensures var curve, id := Joined(render, w.curves, axis).value, Pieces(w.curves, axis)[0].id;
            var left := RemovedOthers(w, CurvesOn(w.curves, axis), id);
            && CurveOk(render, curve) && curve.id == id && curve.axis == axis
            && Gathered(w, render, axis).value ==
               Work(Redrawn(WithoutOld(left, id), axis, Drawn(render, curve)), WithoutId(left.curves, id) + [curve])
  {
    PiecesFollow(render, w.curves, axis);
    JoinedDraws(render, w.curves, axis);
    JoinedIsAll(Pieces(w.curves, axis));
  }

  lemma GatheringIsJoining(w: Work, render: Render, axis: Axis)
    requires Renders(render) && Structure(render, w.curves) && Gathered(w, render, axis).Ok? && |CurvesOn(w.curves, axis)| >= 2
    ensures AxisJoined(render, w, Gathered(w, render, axis).value, axis)
  {
    GatheredIs(w, render, axis);
    var curve, id := Joined(render, w.curves, axis).value, Pieces(w.curves, axis)[0].id;
    JoinedDraws(render, w.curves, axis);
    OnlyCurve(w, axis, id, curve);
    var tracks := WithoutOld(RemovedOthers(w, CurvesOn(w.curves, axis), id), id);
    RedrawnTracks(render, tracks, axis, curve);
    forall p
      ensures p in ClearSpan(Track(tracks, axis), Bounds(curve).0, Bounds(curve).1) <==>
              p in Track(w.tracks, axis) && !InSpan(p.tick, Bounds(curve).0, Bounds(curve).1)
    {
      JoinedTrack(w, render, axis, p);
    }
  }

  lemma RedrawnTracks(render: Render, tracks: Tracks, axis: Axis, curve: Curve)
    requires CurveOk(render, curve) && Bounds(curve) == SpanOfSamples(Drawn(render, curve))
    ensures Track(Redrawn(tracks, axis, Drawn(render, curve)), axis) ==
            ClearSpan(Track(tracks, axis), Bounds(curve).0, Bounds(curve).1) + Drawn(render, curve)
  {
  }

  lemma SameJoined(render: Render, a: Work, b: Work, after: Work, axis: Axis)
    requires SameOn(a, b, axis) && AxisJoined(render, b, after, axis)
    ensures AxisJoined(render, a, after, axis)
  {
  }

  lemma StillJoined(render: Render, w: Work, a: Work, b: Work, axis: Axis)
    requires AxisJoined(render, w, a, axis) && SameOn(a, b, axis)
    ensures AxisJoined(render, w, b, axis)
  {
  }

  /** Gathering all axes joins the curves of each that has several. */
  lemma {:induction false} GatheringJoinsEvery(w: Work, render: Render, axes: seq<Axis>, b: Axis)
    requires Renders(render) && Structure(render, w.curves) && GatheredAll(w, render, axes).Ok? && Distinct(axes)
    requires b in axes && |CurvesOn(w.curves, b)| >= 2
    ensures AxisJoined(render, w, GatheredAll(w, render, axes).value, b)
  {
    var before := GatheredAll(w, render, Front(axes)).value;
    var after := GatheredAll(w, render, axes).value;
    FrontAndLast(axes);
    GatheringEvery(w, render, Front(axes), b, Point(0, 0.0));
    if b == Last(axes) {
      GatheringIsJoining(before, render, b);
      SameJoined(render, w, before, after, b);
    } else {
      GatheringJoinsEvery(w, render, Front(axes), b);
      GatheringOne(before, render, Last(axes), b);
      StillJoined(render, w, before, after, b);
    }
  }
}

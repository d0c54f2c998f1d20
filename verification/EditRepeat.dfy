/** Recalculating a layer that is in step: it always succeeds, and nothing moves. */
module EditRepeat {
  import opened MotionTypes
  import opened Sorting
  import opened Timeline
  import opened CurveEngine
  import opened EditState
  import opened EditFrames
  import opened LayerEdit
  import opened RangeEdit
  import opened EditLayer

  /** The same samples, each once, in whatever order. */
  ghost predicate SameSamples(a: Tracks, b: Tracks) {
    && a.Keys == b.Keys && Clean(a) && Clean(b)
    && forall axis, p :: p in Track(a, axis) <==> p in Track(b, axis)
  }

  lemma {:induction false} ClearSpanNoDoubles(points: seq<Point>, start: nat, end: nat)
    requires NoDoubles(points)
    ensures NoDoubles(ClearSpan(points, start, end))
  {
    if points != [] {
      var shorter, last := ClearSpan(Front(points), start, end), Last(points);
      ClearSpanNoDoubles(Front(points), start, end);
      forall i | 0 <= i < |shorter| ensures shorter[i].tick != last.tick {
        ClearSpanKeeps(Front(points), start, end, shorter[i]);
        assert shorter[i] in shorter;
        var j :| 0 <= j < |points| - 1 && points[j] == shorter[i];
      }
    }
  }

  /** A track that already has the samples of a curve is only put in another order. */
  lemma RedrawnTrack(track: seq<Point>, samples: seq<Point>, start: nat, end: nat)
    requires NoDoubles(track) && Fills(samples, start, end)
    requires forall i :: 0 <= i < |samples| ==> samples[i] in track
    ensures NoDoubles(ClearSpan(track, start, end) + samples)
    ensures forall p :: p in ClearSpan(track, start, end) + samples <==> p in track
  {
    var rest := ClearSpan(track, start, end);
    ClearSpanNoDoubles(track, start, end);
    forall i | 0 <= i < |rest| ensures !InSpan(rest[i].tick, start, end) {
      ClearSpanKeeps(track, start, end, rest[i]);
    }
    forall p ensures p in rest + samples <==> p in track {
      ClearSpanKeeps(track, start, end, p);
      if p in track && InSpan(p.tick, start, end) {
        var q := samples[p.tick - start];
        OnlyPoint(track, p);
        OnlyPoint(track, q);
      }
    }
  }

  lemma RedrawnSame(render: Render, tracks: Tracks, curve: Curve)
    requires Renders(render) && Clean(tracks) && Held(render, tracks, curve)
    ensures SameSamples(Redrawn(tracks, curve.axis, Drawn(render, curve)), tracks)
  {
    DrawnFills(render, curve);
    assert Drawn(render, curve)[0] in Track(tracks, curve.axis);
    RedrawnTrack(Track(tracks, curve.axis), Drawn(render, curve), Bounds(curve).0, Bounds(curve).1);
  }

  lemma {:induction false} RedrawAllSame(render: Render, tracks: Tracks, curves: seq<Curve>, chosen: seq<Curve>)
    requires Renders(render) && Clean(tracks) && AllHeld(render, tracks, curves) && Among(chosen, curves)
    ensures RedrawAll(render, tracks, chosen).Ok?
    ensures SameSamples(RedrawAll(render, tracks, chosen).value, tracks)
  {
    if chosen != [] {
      RedrawAllSame(render, tracks, curves, Front(chosen));
      var before := RedrawAll(render, tracks, Front(chosen)).value;
      assert chosen[|chosen| - 1] in curves;
      var i :| 0 <= i < |curves| && curves[i] == Last(chosen);
      assert Held(render, tracks, curves[i]);
      assert Held(render, before, curves[i]);
      RedrawnSame(render, before, curves[i]);
    }
  }

  lemma SameValue(a: Tracks, b: Tracks, axis: Axis, tick: nat)
    requires SameSamples(a, b)
    ensures Value(a, axis, tick) == Value(b, axis, tick)
  {
    FoundPoint(Track(a, axis), tick);
    FoundPoint(Track(b, axis), tick);
    if Value(a, axis, tick).Some? {
      OnlyPoint(Track(b, axis), Point(tick, Value(a, axis, tick).value));
    }
  }

  lemma {:induction false} SameAxesSameCounts(a: seq<Curve>, b: seq<Curve>, axis: Axis)
    requires |a| == |b| && forall i :: 0 <= i < |a| ==> a[i].axis == b[i].axis
    ensures |CurvesOn(a, axis)| == |CurvesOn(b, axis)|
  {
    if a != [] {
      SameAxesSameCounts(Front(a), Front(b), axis);
    }
  }

  /** Storing again gathers nothing that was not to be gathered. */
  lemma StoredStaysOnePerAxis(render: Render, curves: seq<Curve>, ids: set<string>)
    requires OnePerAxis(curves)
    ensures !Gatherable(StoredAll(render, curves, ids))
  {
    forall axis ensures |CurvesOn(StoredAll(render, curves, ids), axis)| <= 1 {
      SameAxesSameCounts(StoredAll(render, curves, ids), curves, axis);
    }
  }

  lemma TracksLookup(frames: seq<Frame>, axis: Axis, tick: nat)
    ensures Value(AxisTracks(frames), axis, tick) == FirstAt(frames, axis, tick)
  {
    SeriesLookup(frames, axis, tick);
    if axis !in AxesOf(frames) { FirstAtNeedsAxis(frames, axis, tick); }
  }

  lemma ChosenSome(curves: seq<Curve>, ids: set<string>)
    ensures Chosen(curves, ids) != [] <==> exists curve :: curve in curves && (ids == {} || curve.id in ids)
  {
    forall curve ensures curve in Chosen(curves, ids) <==> curve in curves && (ids == {} || curve.id in ids) {
      ChosenAre(curves, ids, curve);
    }
    if Chosen(curves, ids) != [] { assert Chosen(curves, ids)[0] in Chosen(curves, ids); }
  }

  /** In step, one curve an axis, one sample a tick. */
  ghost predicate Settled(render: Render, layer: Layer) {
    LayerOk(render, layer) && OnePerAxis(layer.curves) && Clean(AxisTracks(layer.frames))
  }

  lemma ResolvedRests(layer: Layer, ids: set<string>, render: Render)
    requires Renders(render) && Settled(render, layer) && Chosen(layer.curves, ids) != []
    ensures Resolved(WorkOf(layer), render, ids).Ok?
    ensures SameSamples(Resolved(WorkOf(layer), render, ids).value.tracks, AxisTracks(layer.frames))
  {
    var chosen := Chosen(layer.curves, ids);
    forall i | 0 <= i < |chosen| ensures chosen[i] in layer.curves {
      ChosenAre(layer.curves, ids, chosen[i]);
      assert chosen[i] in chosen;
    }
    TakingApart(render, layer.frames, layer.curves);
    RedrawAllSame(render, AxisTracks(layer.frames), layer.curves, chosen);
  }

  /** Recalculating curves of a settled layer succeeds whenever one is chosen, and changes
      no value. */
  lemma ResolvingRests(layer: Layer, ids: set<string>, render: Render, names: Names)
    requires Renders(render) && Settled(render, layer)
    ensures Edited(layer, Resolve(true, ids), render, names).Ok? <==>
            exists curve :: curve in layer.curves && (ids == {} || curve.id in ids)
    ensures Edited(layer, Resolve(true, ids), render, names).Ok? ==>
              forall axis, tick ::
                FirstAt(Edited(layer, Resolve(true, ids), render, names).value.frames, axis, tick) ==
                FirstAt(layer.frames, axis, tick)
  {
    ChosenSome(layer.curves, ids);
    if Chosen(layer.curves, ids) != [] {
      ResolvedRests(layer, ids, render);
      StoredStaysOnePerAxis(render, layer.curves, ids);
      var tracks := Resolved(WorkOf(layer), render, ids).value.tracks;
      forall axis, tick ensures FirstAt(FramesOf(tracks).value, axis, tick) == FirstAt(layer.frames, axis, tick) {
        TracksLookup(layer.frames, axis, tick);
        SameValue(tracks, AxisTracks(layer.frames), axis, tick);
        FramesLookup(tracks, axis, tick);
      }
    }
  }
}

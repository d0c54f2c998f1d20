/** Between frames and tracks: what an edit takes apart, and puts together again. */
module EditFrames {
  import opened MotionTypes
  import opened Sorting
  import opened Timeline
  import opened CurveEngine
  import opened EditState

  function AxisTracks(frames: seq<Frame>): Tracks {
    map axis | axis in AxesOf(frames) :: Series(frames, axis)
  }

  function Value(tracks: Tracks, axis: Axis, tick: nat): Option<real> {
    FirstPointAt(Track(tracks, axis), tick)
  }

  function TicksOf(tracks: Tracks): set<nat> {
    set axis, p | axis in tracks && p in tracks[axis] :: p.tick
  }

  function ValuesAt(tracks: Tracks, tick: nat): map<Axis, real> {
    map axis | axis in tracks && Value(tracks, axis, tick).Some? :: Value(tracks, axis, tick).value
  }

  function TickFrames(tracks: Tracks, ticks: seq<nat>): (r: seq<Frame>)
    ensures |r| == |ticks|
    ensures forall i :: 0 <= i < |ticks| ==> r[i] == Frame(ticks[i], ValuesAt(tracks, ticks[i]))
  {
    seq(|ticks|, i requires 0 <= i < |ticks| => Frame(ticks[i], ValuesAt(tracks, ticks[i])))
  }

  predicate Clean(tracks: Tracks) {
    forall axis :: axis in tracks ==> NoDoubles(tracks[axis])
  }

  /** One frame for every tick with a value; two values for one axis at one tick are an
      error. */
  function FramesOf(tracks: Tracks): Result<seq<Frame>> {
    if Clean(tracks) then Ok(TickFrames(tracks, SortedSet(TicksOf(tracks)))) else Err("data overlaps")
  }

  // ----- Looking values up --------------------------------------------------------------------------

  lemma {:induction false} TickFramesLookup(tracks: Tracks, ticks: seq<nat>, axis: Axis, tick: nat)
    ensures FirstAt(TickFrames(tracks, ticks), axis, tick) ==
            if tick in ticks then Value(tracks, axis, tick) else None
  {
    if ticks != [] {
      assert TickFrames(tracks, ticks)[1..] == TickFrames(tracks, ticks[1..]);
      TickFramesLookup(tracks, ticks[1..], axis, tick);
      if ticks[0] == tick && Value(tracks, axis, tick).None? && tick !in ticks[1..] {
        assert FirstAt(TickFrames(tracks, ticks[1..]), axis, tick) == None;
      }
    }
  }

  lemma {:induction false} FoundPoint(points: seq<Point>, tick: nat)
    ensures FirstPointAt(points, tick).Some? ==> Point(tick, FirstPointAt(points, tick).value) in points
    ensures FirstPointAt(points, tick).None? ==> forall i :: 0 <= i < |points| ==> points[i].tick != tick
  {
    if points != [] {
      FoundPoint(points[1..], tick);
    }
  }

  /** Frames give back the values of the tracks. */
  lemma FramesLookup(tracks: Tracks, axis: Axis, tick: nat)
    requires Clean(tracks)
    ensures FirstAt(FramesOf(tracks).value, axis, tick) == Value(tracks, axis, tick)
  {
    TickFramesLookup(tracks, SortedSet(TicksOf(tracks)), axis, tick);
    FoundPoint(Track(tracks, axis), tick);
  }

  /** With one value a tick, a sample in a track is the value found there. */
  lemma {:induction false} OnlyPoint(points: seq<Point>, p: Point)
    requires NoDoubles(points) && p in points
    ensures FirstPointAt(points, p.tick) == Some(p.value)
  {
    var k :| 0 <= k < |points| && points[k] == p;
    FirstPointAtIndex(points, p.tick, k);
  }

  // ----- Putting frames together ----------------------------------------------------------------------

  type ByTime = map<nat, map<Axis, real>>

  function Cell(byTime: ByTime, tick: nat, axis: Axis): Option<real> {
    if tick in byTime && axis in byTime[tick] then Some(byTime[tick][axis]) else None
  }

  /** The table holds the values of the tracks, and nothing else. */
  ghost predicate Tabulates(byTime: ByTime, tracks: Tracks) {
    && (forall tick, axis :: Cell(byTime, tick, axis) == Value(tracks, axis, tick))
    && (forall tick :: tick in byTime ==> byTime[tick] != map[])
  }

  function WithCell(byTime: ByTime, tick: nat, axis: Axis, value: real): ByTime {
    byTime[tick := (if tick in byTime then byTime[tick] else map[])[axis := value]]
  }

  lemma OneMoreCell(byTime: ByTime, tracks: Tracks, axis: Axis, p: Point)
    requires Tabulates(byTime, tracks) && Cell(byTime, p.tick, axis).None?
    ensures Tabulates(WithCell(byTime, p.tick, axis, p.value), tracks[axis := Track(tracks, axis) + [p]])
  {
    var longer := tracks[axis := Track(tracks, axis) + [p]];
    var table := WithCell(byTime, p.tick, axis, p.value);
    forall tick, a ensures Cell(table, tick, a) == Value(longer, a, tick) {
      assert Cell(byTime, tick, a) == Value(tracks, a, tick);
      if a == axis { FirstPointAtSnoc(Track(tracks, axis), p, tick); }
    }
    assert axis in table[p.tick];
  }

  method TabulateAxis(byTime: ByTime, ghost tracks: Tracks, axis: Axis, points: seq<Point>)
    returns (r: Option<ByTime>)
    requires Tabulates(byTime, tracks) && axis !in tracks
    ensures r.Some? <==> NoDoubles(points)
    ensures r.Some? ==> Tabulates(r.value, tracks[axis := points])
  {
    var table := byTime;
    EmptyTrack(byTime, tracks, axis);
    for j := 0 to |points|
      invariant NoDoubles(points[..j]) && Tabulates(table, tracks[axis := points[..j]])
    {
      var p := points[j];
      ghost var done := tracks[axis := points[..j]];
      assert Cell(table, p.tick, axis) == Value(done, axis, p.tick);
      FoundPoint(points[..j], p.tick);
      if Cell(table, p.tick, axis).Some? {
        var i :| 0 <= i < j && points[i] == Point(p.tick, Cell(table, p.tick, axis).value);
        return None;
      }
      OneMoreCell(table, done, axis, p);
      assert points[..j + 1] == points[..j] + [p];
      assert done[axis := Track(done, axis) + [p]] == tracks[axis := points[..j + 1]];
      table := WithCell(table, p.tick, axis, p.value);
    }
    assert points[..|points|] == points;
    return Some(table);
  }

  lemma EmptyTrack(byTime: ByTime, tracks: Tracks, axis: Axis)
    requires Tabulates(byTime, tracks) && axis !in tracks
    ensures Tabulates(byTime, tracks[axis := []])
  {}

  lemma TabulatedFrames(byTime: ByTime, tracks: Tracks)
    requires Tabulates(byTime, tracks) && Clean(tracks)
    ensures byTime.Keys == TicksOf(tracks)
  {
    forall tick | tick in byTime ensures tick in TicksOf(tracks) {
      SameRow(byTime, tracks, tick);
    }
    forall tick | tick in TicksOf(tracks) ensures tick in byTime {
      var axis, p :| axis in tracks && p in tracks[axis] && p.tick == tick;
      OnlyPoint(tracks[axis], p);
      assert Cell(byTime, tick, axis) == Value(tracks, axis, tick);
    }
  }

  lemma SameRow(byTime: ByTime, tracks: Tracks, tick: nat)
    requires Tabulates(byTime, tracks) && tick in byTime
    ensures tick in TicksOf(tracks) && byTime[tick] == ValuesAt(tracks, tick)
  {
    forall axis ensures axis in byTime[tick] <==> axis in ValuesAt(tracks, tick) {
      assert Cell(byTime, tick, axis) == Value(tracks, axis, tick);
    }
    forall axis | axis in byTime[tick] ensures byTime[tick][axis] == ValuesAt(tracks, tick)[axis] {
      assert Cell(byTime, tick, axis) == Value(tracks, axis, tick);
    }
    var axis :| axis in byTime[tick];
    assert Cell(byTime, tick, axis) == Value(tracks, axis, tick);
    FoundPoint(Track(tracks, axis), tick);
  }

  /** The tracks of the first `i` axes. */
  ghost predicate FirstTracks(done: Tracks, tracks: Tracks, axes: seq<nat>, i: nat) {
    && i <= |axes| && (forall axis :: axis in done <==> axis in axes[..i])
    && (forall axis :: axis in done ==> axis in tracks && done[axis] == tracks[axis])
  }

  lemma OneMoreTrack(done: Tracks, tracks: Tracks, axes: seq<nat>, i: nat)
    requires FirstTracks(done, tracks, axes, i) && i < |axes| && axes[i] in tracks
    ensures FirstTracks(done[axes[i] := tracks[axes[i]]], tracks, axes, i + 1)
  {}

  lemma AllTracks(done: Tracks, tracks: Tracks, axes: seq<nat>)
    requires FirstTracks(done, tracks, axes, |axes|) && forall axis :: axis in axes <==> axis in tracks
    ensures done == tracks
  {}

  method Tabulate(tracks: Tracks) returns (r: Option<ByTime>)
    ensures r.Some? <==> Clean(tracks)
    ensures r.Some? ==> Tabulates(r.value, tracks)
  {
    var axes := SortedSet(tracks.Keys);
    var byTime: ByTime := map[];
    ghost var done: Tracks := map[];
    for i := 0 to |axes|
      invariant FirstTracks(done, tracks, axes, i) && Clean(done) && Tabulates(byTime, done)
    {
      var axis := axes[i];
      assert axis in axes && axis !in axes[..i];
      var next := TabulateAxis(byTime, done, axis, tracks[axis]);
      if next.None? {
        return None;
      }
      byTime := next.value;
      OneMoreTrack(done, tracks, axes, i);
      done := done[axis := tracks[axis]];
    }
    AllTracks(done, tracks, axes);
    return Some(byTime);
  }

  lemma OneMoreTick(byTime: ByTime, tracks: Tracks, ticks: seq<nat>, k: nat)
    requires Tabulates(byTime, tracks) && k < |ticks| && ticks[k] in byTime
    ensures TickFrames(tracks, ticks[..k + 1]) ==
            TickFrames(tracks, ticks[..k]) + [Frame(ticks[k], byTime[ticks[k]])]
  {
    SameRow(byTime, tracks, ticks[k]);
    var longer, shorter := TickFrames(tracks, ticks[..k + 1]), TickFrames(tracks, ticks[..k]);
    assert longer[k] == Frame(ticks[k], byTime[ticks[k]]);
    forall i | 0 <= i < k ensures longer[i] == shorter[i] {}
  }

  /** The rows of the table, in time order. */
  method ListFrames(byTime: ByTime, ghost tracks: Tracks) returns (frames: seq<Frame>)
    requires Tabulates(byTime, tracks)
    ensures frames == TickFrames(tracks, SortedSet(byTime.Keys))
  {
    var ticks := SortedSet(byTime.Keys);
    frames := [];
    for k := 0 to |ticks|
      invariant frames == TickFrames(tracks, ticks[..k])
    {
      assert ticks[k] in ticks;
      OneMoreTick(byTime, tracks, ticks, k);
      frames := frames + [Frame(ticks[k], byTime[ticks[k]])];
    }
    assert ticks[..|ticks|] == ticks;
  }

  method BuildFrames(tracks: Tracks) returns (r: Result<seq<Frame>>)
    ensures r.Ok? <==> Clean(tracks)
    ensures r.Ok? ==> r == FramesOf(tracks)
  {
    var byTime := Tabulate(tracks);
    if byTime.None? {
      return Err("data overlaps");
    }
    TabulatedFrames(byTime.value, tracks);
    var frames := ListFrames(byTime.value, tracks);
    return Ok(frames);
  }

  // ----- A layer in step with its curves ---------------------------------------------------------------

  /** The frames have exactly the samples that drawing the curve gives. */
  ghost predicate InStep(render: Render, frames: seq<Frame>, curve: Curve) {
    && CurveOk(render, curve)
    && forall i :: 0 <= i < |Drawn(render, curve)| ==>
         FirstAt(frames, curve.axis, Drawn(render, curve)[i].tick) == Some(Drawn(render, curve)[i].value)
  }

  ghost predicate Consistent(render: Render, frames: seq<Frame>, curves: seq<Curve>) {
    Structure(render, curves) && forall i :: 0 <= i < |curves| ==> InStep(render, frames, curves[i])
  }

  lemma InStepIsHeld(render: Render, frames: seq<Frame>, curve: Curve)
    requires InStep(render, frames, curve)
    ensures Held(render, AxisTracks(frames), curve)
  {
    forall i | 0 <= i < |Drawn(render, curve)|
      ensures Drawn(render, curve)[i] in Track(AxisTracks(frames), curve.axis)
    {
      var p := Drawn(render, curve)[i];
      SeriesLookup(frames, curve.axis, p.tick);
      FoundPoint(Series(frames, curve.axis), p.tick);
      if curve.axis !in AxesOf(frames) { FirstAtNeedsAxis(frames, curve.axis, p.tick); }
    }
  }

  /** An edit starts in step, */
  lemma TakingApart(render: Render, frames: seq<Frame>, curves: seq<Curve>)
    requires Consistent(render, frames, curves)
    ensures WorkOk(render, Work(AxisTracks(frames), curves))
  {
    forall i | 0 <= i < |curves| ensures Held(render, AxisTracks(frames), curves[i]) {
      InStepIsHeld(render, frames, curves[i]);
    }
  }

  /** and ends in step, when no two samples overlap. */
  lemma PuttingTogether(render: Render, w: Work)
    requires WorkOk(render, w) && FramesOf(w.tracks).Ok?
    ensures Consistent(render, FramesOf(w.tracks).value, w.curves)
  {
    forall i | 0 <= i < |w.curves| ensures InStep(render, FramesOf(w.tracks).value, w.curves[i]) {
      HeldIsInStep(render, w.tracks, w.curves[i]);
    }
  }

  lemma HeldIsInStep(render: Render, tracks: Tracks, curve: Curve)
    requires Held(render, tracks, curve) && Clean(tracks)
    ensures InStep(render, FramesOf(tracks).value, curve)
  {
    forall i | 0 <= i < |Drawn(render, curve)|
      ensures FirstAt(FramesOf(tracks).value, curve.axis, Drawn(render, curve)[i].tick) ==
              Some(Drawn(render, curve)[i].value)
    {
      FramesLookup(tracks, curve.axis, Drawn(render, curve)[i].tick);
      OnlyPoint(Track(tracks, curve.axis), Drawn(render, curve)[i]);
    }
  }
}

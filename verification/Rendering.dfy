/** Composition of the enabled layers into one motion: what every axis does at every
    tick, and the frames that are sent to the motors. */
module Rendering {
  import opened MotionTypes
  import opened Sorting
  import opened Timeline
  import opened LayerConflicts

  // ----- The meaning of a set of layers ------------------------------------------------

  /** What the layers record: the last layer with a value wins. */
  function SupplyAt(layers: seq<Layer>, axis: Axis, tick: nat): Option<real> {
    if layers == [] then None
    else if FirstAt(Last(layers).frames, axis, tick).Some? then FirstAt(Last(layers).frames, axis, tick)
    else SupplyAt(Front(layers), axis, tick)
  }

  function SupplyOf(layers: seq<Layer>, axis: Axis): nat -> Option<real> {
    (tick: nat) => SupplyAt(layers, axis, tick)
  }

  ghost predicate IsFirst(supply: nat -> Option<real>, first: nat) {
    supply(first).Some? && forall tick: nat :: tick < first ==> supply(tick).None?
  }

  /** The position of one axis at a tick: the recorded value; before the first one,
      the configured initial value or else that first value; otherwise the position
      of the tick before, starting from zero. */
  ghost function Motion(supply: nat -> Option<real>, initial: Option<real>, tick: nat): real {
    if tick == 0 then 0.0
    else if supply(tick).Some? then supply(tick).value
    else if first: nat :| IsFirst(supply, first) && tick < first then
      (if initial.Some? then initial.value else supply(first).value)
    else Motion(supply, initial, tick - 1)
  }

  lemma {:induction false} MotionBeforeFirst(supply: nat -> Option<real>, initial: Option<real>, tick: nat, first: nat)
    requires 0 < tick < first && IsFirst(supply, first)
    ensures Motion(supply, initial, tick) == if initial.Some? then initial.value else supply(first).value
  {}

  lemma MotionHolds(supply: nat -> Option<real>, initial: Option<real>, tick: nat)
    requires tick > 0 && supply(tick).None?
    requires forall first: nat :: IsFirst(supply, first) ==> first <= tick
    ensures Motion(supply, initial, tick) == Motion(supply, initial, tick - 1)
  {}

  // ----- What the program computes ---------------------------------------------------------

  function RenderTracks(layers: seq<Layer>): (r: seq<map<Axis, seq<Segment>>>)
    ensures |r| == |layers|
    ensures forall i :: 0 <= i < |layers| ==> r[i] == LayerSegments(layers[i].frames, None)
  {
    seq(|layers|, i requires 0 <= i < |layers| => LayerSegments(layers[i].frames, None))
  }

  function Supplied(tracks: seq<map<Axis, seq<Segment>>>, axis: Axis, tick: nat): Option<real> {
    if tracks == [] then None
    else if Supply(Last(tracks), axis, tick).Some? then Supply(Last(tracks), axis, tick)
    else Supplied(Front(tracks), axis, tick)
  }

  /** The earlier of two points; the one already held wins a tie. */
  function Earlier(current: Option<Point>, candidate: Point): Option<Point> {
    if current.None? || candidate.tick < current.value.tick then Some(candidate) else current
  }

  function EarliestStart(current: Option<Point>, segments: seq<Segment>): Option<Point> {
    if segments == [] then current
    else if Last(segments) == [] then EarliestStart(current, Front(segments))
    else Earlier(EarliestStart(current, Front(segments)), Last(segments)[0])
  }

  function TrackFor(track: map<Axis, seq<Segment>>, axis: Axis): seq<Segment> {
    if axis in track then track[axis] else []
  }

  function FirstPoint(tracks: seq<map<Axis, seq<Segment>>>, axis: Axis): Option<Point> {
    if tracks == [] then None
    else EarliestStart(FirstPoint(Front(tracks), axis), TrackFor(Last(tracks), axis))
  }

  function InitialOf(manual: map<Axis, real>, axis: Axis): Option<real> {
    if axis in manual then Some(manual[axis]) else None
  }

  function RenderedAt(tracks: seq<map<Axis, seq<Segment>>>, manual: map<Axis, real>, axis: Axis, tick: nat): real {
    if tick == 0 then 0.0
    else
      var first := FirstPoint(tracks, axis);
      if Supplied(tracks, axis, tick).Some? then Supplied(tracks, axis, tick).value
      else if first.Some? && tick < first.value.tick then
        (if axis in manual then manual[axis] else first.value.value)
      else RenderedAt(tracks, manual, axis, tick - 1)
  }

  function LastTick(frames: seq<Frame>): nat {
    if frames == [] then 0 else Max(LastTick(Front(frames)), Last(frames).tick)
  }

  function Duration(layers: seq<Layer>): nat {
    if layers == [] then 0 else Max(Duration(Front(layers)), LastTick(Last(layers).frames))
  }

  function SampleCount(layers: seq<Layer>): nat { Max(1, Duration(Enabled(layers))) }

  function ProjectAxes(layers: seq<Layer>): set<Axis> {
    set layer, axis | layer in Enabled(layers) && axis in AxesOf(layer.frames) :: axis
  }

  /** The requested axes, or every axis of the enabled layers when none are named. */
  function Selected(layers: seq<Layer>, motionIds: set<Axis>): set<Axis> {
    if motionIds != {} then motionIds else ProjectAxes(layers)
  }

  /** The frame that rendering produces at a tick. */
  function RenderedFrame(
    tracks: seq<map<Axis, seq<Segment>>>, manual: map<Axis, real>, axes: set<Axis>, tick: nat): Frame
  {
    Frame(tick, map axis | axis in axes :: RenderedAt(tracks, manual, axis, tick))
  }

  function Rendered(layers: seq<Layer>, motionIds: set<Axis>, manual: map<Axis, real>): (r: Result<seq<Frame>>) {
    var axes := Selected(layers, motionIds);
    var tracks := RenderTracks(Enabled(layers));
    if axes == {} then Ok([])
    else if ProjectConflicts(layers, None) != [] then Err("layer conflict")
    else Ok(RenderedFrames(tracks, manual, axes, SampleCount(layers)))
  }

  // ----- The loops -----------------------------------------------------------------------------

  method FindFirstPoint(tracks: seq<map<Axis, seq<Segment>>>, axis: Axis) returns (current: Option<Point>)
    ensures current == FirstPoint(tracks, axis)
  {
    current := None;
    for i := 0 to |tracks|
      invariant current == FirstPoint(tracks[..i], axis)
    {
      var segments := TrackFor(tracks[i], axis);
      ghost var before := current;
      for j := 0 to |segments|
        invariant current == EarliestStart(before, segments[..j])
      {
        assert Front(segments[..j + 1]) == segments[..j];
        if segments[j] != [] {
          var candidate := segments[j][0];
          if current.None? || candidate.tick < current.value.tick {
            current := Some(candidate);
          }
        }
      }
      assert segments[..|segments|] == segments;
      assert Front(tracks[..i + 1]) == tracks[..i];
    }
    assert tracks[..|tracks|] == tracks;
  }

  method FindSupply(tracks: seq<map<Axis, seq<Segment>>>, axis: Axis, tick: nat) returns (value: Option<real>)
    ensures value == Supplied(tracks, axis, tick)
  {
    value := None;
    for i := 0 to |tracks|
      invariant value == Supplied(tracks[..i], axis, tick)
    {
      var candidate := Supply(tracks[i], axis, tick);
      if candidate.Some? {
        value := candidate;
      }
      assert Front(tracks[..i + 1]) == tracks[..i];
    }
    assert tracks[..|tracks|] == tracks;
  }

  /** The position of one axis at one tick, from its position a tick before. */
  method AxisValue(
    tracks: seq<map<Axis, seq<Segment>>>, first: Option<Point>, manual: map<Axis, real>,
    axis: Axis, tick: nat, before: real)
    returns (position: real)
    requires first == FirstPoint(tracks, axis)
    requires tick > 0 && before == RenderedAt(tracks, manual, axis, tick - 1)
    ensures position == RenderedAt(tracks, manual, axis, tick)
  {
    var value := FindSupply(tracks, axis, tick);
    if value.None? && first.Some? && tick < first.value.tick {
      value := Some(if axis in manual then manual[axis] else first.value.value);
    }
    if value.None? {
      value := Some(before);
    }
    return value.value;
  }

  /** One pass of the inner loop: every selected axis at one tick. */
  method RenderTick(
    tracks: seq<map<Axis, seq<Segment>>>, firsts: map<Axis, Option<Point>>, manual: map<Axis, real>,
    axes: seq<Axis>, ghost selected: set<Axis>, tick: nat, before: map<Axis, real>)
    returns (values: map<Axis, real>)
    requires forall axis :: axis in axes <==> axis in selected
    requires forall axis :: axis in axes ==> axis in firsts && firsts[axis] == FirstPoint(tracks, axis)
    requires tick > 0 && before == RenderedFrame(tracks, manual, selected, tick - 1).values
    ensures values == RenderedFrame(tracks, manual, selected, tick).values
  {
    values := map[];
    ghost var done: set<Axis> := {};
    for i := 0 to |axes|
      invariant forall axis :: axis in done <==> axis in axes[..i]
      invariant values == RenderedFrame(tracks, manual, done, tick).values
    {
      var axis := axes[i];
      assert axis in axes && axes[..i + 1] == axes[..i] + [axis];
      var value := AxisValue(tracks, firsts[axis], manual, axis, tick, before[axis]);
      values := values[axis := value];
      OneMoreAxis(tracks, manual, done, axis, tick);
      done := done + {axis};
    }
    assert axes[..|axes|] == axes && done == selected;
  }

  lemma OneMoreAxis(
    tracks: seq<map<Axis, seq<Segment>>>, manual: map<Axis, real>, axes: set<Axis>, axis: Axis, tick: nat)
    ensures RenderedFrame(tracks, manual, axes + {axis}, tick).values ==
            RenderedFrame(tracks, manual, axes, tick).values[axis := RenderedAt(tracks, manual, axis, tick)]
  {}

  method FindFirstPoints(tracks: seq<map<Axis, seq<Segment>>>, axes: seq<Axis>)
    returns (firsts: map<Axis, Option<Point>>)
    ensures forall axis :: axis in axes ==> axis in firsts && firsts[axis] == FirstPoint(tracks, axis)
  {
    firsts := map[];
    for i := 0 to |axes|
      invariant forall axis :: axis in axes[..i] ==> axis in firsts && firsts[axis] == FirstPoint(tracks, axis)
    {
      var first := FindFirstPoint(tracks, axes[i]);
      firsts := firsts[axes[i] := first];
      assert axes[..i + 1] == axes[..i] + [axes[i]];
    }
    assert axes[..|axes|] == axes;
  }

  function RenderedFrames(
    tracks: seq<map<Axis, seq<Segment>>>, manual: map<Axis, real>, axes: set<Axis>, count: nat): (r: seq<Frame>)
    ensures |r| == count
    ensures forall i :: 0 <= i < count ==> r[i] == RenderedFrame(tracks, manual, axes, i + 1)
  {
    seq(count, i requires i >= 0 => RenderedFrame(tracks, manual, axes, i + 1))
  }

  lemma OneMoreFrame(
    tracks: seq<map<Axis, seq<Segment>>>, manual: map<Axis, real>, axes: set<Axis>, count: nat)
    ensures RenderedFrames(tracks, manual, axes, count + 1) ==
            RenderedFrames(tracks, manual, axes, count)
            + [Frame(count + 1, RenderedFrame(tracks, manual, axes, count + 1).values)]
  {}

  /** The outer loop: tick by tick, remembering the last value of every axis. */
  method RenderFrames(
    tracks: seq<map<Axis, seq<Segment>>>, manual: map<Axis, real>, selected: set<Axis>, count: nat)
    returns (frames: seq<Frame>)
    ensures frames == RenderedFrames(tracks, manual, selected, count)
  {
    var axes := SortedSet(selected);
    var firsts := FindFirstPoints(tracks, axes);
    var lastValues := map axis | axis in selected :: 0.0;
    frames := [];
    for index := 0 to count
      invariant frames == RenderedFrames(tracks, manual, selected, index)
      invariant lastValues == RenderedFrame(tracks, manual, selected, index).values
    {
      lastValues := RenderTick(tracks, firsts, manual, axes, selected, index + 1, lastValues);
      frames := frames + [Frame(index + 1, lastValues)];
      OneMoreFrame(tracks, manual, selected, index);
    }
  }

  method RenderProject(layers: seq<Layer>, motionIds: set<Axis>, manual: map<Axis, real>)
    returns (r: Result<seq<Frame>>)
    ensures r == Rendered(layers, motionIds, manual)
  {
    var selected := Selected(layers, motionIds);
    if selected == {} {
      return Ok([]);
    }
    var conflicts := ListConflicts(layers, None);
    if conflicts != [] {
      return Err("layer conflict");
    }
    var frames := RenderFrames(RenderTracks(Enabled(layers)), manual, selected, SampleCount(layers));
    return Ok(frames);
  }

  // ----- The program computes the meaning ---------------------------------------------------

  lemma FrontTracks(layers: seq<Layer>)
    requires layers != []
    ensures Front(RenderTracks(layers)) == RenderTracks(Front(layers))
    ensures Last(RenderTracks(layers)) == LayerSegments(Last(layers).frames, None)
  {}

  lemma {:induction false} SuppliedIsSupply(layers: seq<Layer>, axis: Axis, tick: nat)
    ensures Supplied(RenderTracks(layers), axis, tick) == SupplyAt(layers, axis, tick)
  {
    if layers != [] {
      FrontTracks(layers);
      SuppliedIsSupply(Front(layers), axis, tick);
      SupplyIsLookup(Last(layers).frames, axis, tick);
    }
  }

  /** Only the first segment of a series can start it. */
  lemma {:induction false} SeriesStart(points: seq<Point>)
    requires Ordered(points, PointLeq()) && points != []
    ensures StartsWith(Segments(points), points[0])
  {
    if |points| > 1 {
      SeriesStart(Front(points));
      assert PointLeq()(points[0], Last(points));
      GrowKeepsStart(Segments(Front(points)), Last(points), points[0]);
    }
  }

  ghost predicate StartsWith(segments: seq<Segment>, start: Point)
    requires AllNonEmpty(segments)
  {
    && segments != [] && segments[0][0] == start
    && forall i :: 0 <= i < |segments| ==> start.tick <= segments[i][0].tick
  }

  lemma GrowKeepsStart(before: seq<Segment>, point: Point, start: Point)
    requires AllNonEmpty(before) && StartsWith(before, start) && start.tick <= point.tick
    ensures StartsWith(Grow(before, point), start)
  {}

  lemma {:induction false} EarliestIsFirstStart(current: Option<Point>, segments: seq<Segment>, start: Point)
    requires AllNonEmpty(segments) && StartsWith(segments, start)
    ensures EarliestStart(current, segments) == Earlier(current, start)
  {
    if |segments| > 1 {
      EarliestIsFirstStart(current, Front(segments), start);
    } else {
      assert Front(segments) == [];
    }
  }

  /** The first recorded tick of one layer. */
  lemma LayerStart(current: Option<Point>, layer: Layer, axis: Axis) returns (start: Option<Point>)
    ensures EarliestStart(current, TrackFor(LayerSegments(layer.frames, None), axis)) ==
            if start.Some? then Earlier(current, start.value) else current
    ensures start.Some? ==>
              && FirstAt(layer.frames, axis, start.value.tick) == Some(start.value.value)
              && forall tick: nat :: tick < start.value.tick ==> FirstAt(layer.frames, axis, tick).None?
    ensures start.None? ==> forall tick: nat :: FirstAt(layer.frames, axis, tick).None?
  {
    var series := Series(layer.frames, axis);
    SeriesIsOrdered(layer.frames, axis);
    if axis in AxesOf(layer.frames) && series != [] {
      start := Some(series[0]);
      SeriesStart(series);
      EarliestIsFirstStart(current, Segments(series), series[0]);
      SeriesLookup(layer.frames, axis, series[0].tick);
      forall tick: nat | tick < series[0].tick ensures FirstAt(layer.frames, axis, tick).None? {
        SeriesLookup(layer.frames, axis, tick);
        FirstPointAtMissing(series, tick);
      }
    } else {
      start := None;
      forall tick: nat ensures FirstAt(layer.frames, axis, tick).None? {
        SupplyIsLookup(layer.frames, axis, tick);
      }
    }
  }

  lemma {:induction false} SomeLayerSupplies(layers: seq<Layer>, axis: Axis, tick: nat)
    ensures SupplyAt(layers, axis, tick).Some? <==>
            exists i :: 0 <= i < |layers| && FirstAt(layers[i].frames, axis, tick).Some?
    ensures SupplyAt(layers, axis, tick).Some? ==>
              exists i :: 0 <= i < |layers| && FirstAt(layers[i].frames, axis, tick) == SupplyAt(layers, axis, tick)
  {
    if layers != [] {
      SomeLayerSupplies(Front(layers), axis, tick);
    }
  }

  ghost predicate StartOf(first: Option<Point>, layers: seq<Layer>, axis: Axis) {
    && (first.Some? ==>
          && SupplyAt(layers, axis, first.value.tick) == Some(first.value.value)
          && forall tick: nat :: tick < first.value.tick ==> SupplyAt(layers, axis, tick).None?)
    && (first.None? ==> forall tick: nat :: SupplyAt(layers, axis, tick).None?)
  }

  /** Two disjoint layers cannot start at the same tick. */
  lemma StartsDiffer(layers: seq<Layer>, axis: Axis, tick: nat)
    requires Disjoint(layers) && layers != []
    requires FirstAt(Last(layers).frames, axis, tick).Some?
    ensures SupplyAt(Front(layers), axis, tick).None?
  {
    SomeLayerSupplies(Front(layers), axis, tick);
    forall i | 0 <= i < |layers| - 1 ensures FirstAt(Front(layers)[i].frames, axis, tick).None? {
      assert NeverClash(layers[i], layers[|layers| - 1], axis);
      assert !Clash(layers[i], Last(layers), axis, tick);
    }
  }

  lemma {:induction false} FirstPointIsFirst(layers: seq<Layer>, axis: Axis)
    requires Disjoint(layers)
    ensures StartOf(FirstPoint(RenderTracks(layers), axis), layers, axis)
  {
    if layers != [] {
      var front := Front(layers);
      FrontTracks(layers);
      FirstPointIsFirst(front, axis);
      var start := LayerStart(FirstPoint(RenderTracks(front), axis), Last(layers), axis);
      if start.Some? {
        StartsDiffer(layers, axis, start.value.tick);
      }
    }
  }

  /** One step of the motion, told by the first recorded point. */
  lemma MotionStep(supply: nat -> Option<real>, initial: Option<real>, tick: nat, first: Option<Point>)
    requires tick > 0 && supply(tick).None?
    requires first.Some? ==> IsFirst(supply, first.value.tick) && supply(first.value.tick) == Some(first.value.value)
    requires first.None? ==> forall t: nat :: supply(t).None?
    ensures Motion(supply, initial, tick) ==
            if first.Some? && tick < first.value.tick
            then (if initial.Some? then initial.value else first.value.value)
            else Motion(supply, initial, tick - 1)
  {}

  /** What is rendered is the motion that the layers mean. */
  lemma {:induction false} RenderedIsMotion(layers: seq<Layer>, manual: map<Axis, real>, axis: Axis, tick: nat)
    requires Disjoint(layers)
    ensures RenderedAt(RenderTracks(layers), manual, axis, tick) ==
            Motion(SupplyOf(layers, axis), InitialOf(manual, axis), tick)
  {
    if tick > 0 {
      SuppliedIsSupply(layers, axis, tick);
      FirstPointIsFirst(layers, axis);
      RenderedIsMotion(layers, manual, axis, tick - 1);
      if SupplyAt(layers, axis, tick).None? {
        MotionStep(SupplyOf(layers, axis), InitialOf(manual, axis), tick, FirstPoint(RenderTracks(layers), axis));
      }
    }
  }

  // ----- Only what is recorded matters, not the order of the layers -----------------------------

  lemma {:induction false} MotionDependsOnSupply(
    a: nat -> Option<real>, b: nat -> Option<real>, initial: Option<real>, tick: nat)
    requires forall t: nat :: a(t) == b(t)
    ensures Motion(a, initial, tick) == Motion(b, initial, tick)
  {
    if tick > 0 {
      MotionDependsOnSupply(a, b, initial, tick - 1);
      forall first: nat ensures IsFirst(a, first) <==> IsFirst(b, first) {}
      if first: nat :| IsFirst(a, first) && tick < first {
        if a(tick).None? {
          MotionBeforeFirst(a, initial, tick, first);
          MotionBeforeFirst(b, initial, tick, first);
        }
      } else if a(tick).None? {
        MotionHolds(a, initial, tick);
        MotionHolds(b, initial, tick);
      }
    }
  }

  /** Among disjoint layers, any layer with a value is the one that supplies it. */
  lemma SupplierIsUnique(layers: seq<Layer>, axis: Axis, tick: nat, i: nat)
    requires Disjoint(layers) && i < |layers| && FirstAt(layers[i].frames, axis, tick).Some?
    ensures SupplyAt(layers, axis, tick) == FirstAt(layers[i].frames, axis, tick)
  {
    SomeLayerSupplies(layers, axis, tick);
    var j :| 0 <= j < |layers| && FirstAt(layers[j].frames, axis, tick) == SupplyAt(layers, axis, tick);
    if i < j {
      assert NeverClash(layers[i], layers[j], axis) && Clash(layers[i], layers[j], axis, tick);
      assert false;
    } else if j < i {
      assert NeverClash(layers[j], layers[i], axis) && Clash(layers[j], layers[i], axis, tick);
      assert false;
    }
  }

  lemma {:induction false} TwoPlaces<T>(s: seq<T>, x: T)
    requires multiset(s)[x] >= 2
    ensures exists i, j :: 0 <= i < j < |s| && s[i] == x && s[j] == x
  {
    var front, last := Front(s), Last(s);
    assert s == front + [last];
    if last == x {
      assert x in multiset(front);
      var i :| 0 <= i < |front| && front[i] == x;
      assert s[i] == x && s[|front|] == x;
    } else {
      TwoPlaces(front, x);
      var i, j :| 0 <= i < j < |front| && front[i] == x && front[j] == x;
      assert s[i] == x && s[j] == x;
    }
  }

  lemma CountedTwice<T>(s: seq<T>, i: nat, j: nat)
    requires i < j < |s| && s[i] == s[j]
    ensures multiset(s)[s[i]] >= 2
  {
    assert s == s[..i] + [s[i]] + s[i + 1..j] + [s[j]] + s[j + 1..];
  }

  lemma PermutedIsDisjoint(a: seq<Layer>, b: seq<Layer>)
    requires multiset(a) == multiset(b) && Disjoint(a)
    ensures Disjoint(b)
  {
    forall i, j, axis | 0 <= i < j < |b| ensures NeverClash(b[i], b[j], axis) {
      if b[i] == b[j] {
        CountedTwice(b, i, j);
        TwoPlaces(a, b[i]);
        var m, n :| 0 <= m < n < |a| && a[m] == b[i] && a[n] == b[i];
        assert NeverClash(a[m], a[n], axis);
      } else {
        assert b[i] in multiset(b) && b[j] in multiset(b);
        var m :| 0 <= m < |a| && a[m] == b[i];
        var n :| 0 <= n < |a| && a[n] == b[j];
        NeverClashIsSymmetric(a, m, n, axis);
      }
    }
  }

  lemma NeverClashIsSymmetric(a: seq<Layer>, m: nat, n: nat, axis: Axis)
    requires Disjoint(a) && m < |a| && n < |a| && m != n
    ensures NeverClash(a[m], a[n], axis)
  {
    if n < m {
      assert NeverClash(a[n], a[m], axis);
      forall tick ensures !Clash(a[m], a[n], axis, tick) {
        assert !Clash(a[n], a[m], axis, tick);
      }
    }
  }

  lemma PermutedSupply(a: seq<Layer>, b: seq<Layer>, axis: Axis, tick: nat)
    requires multiset(a) == multiset(b) && Disjoint(a) && Disjoint(b)
    requires SupplyAt(a, axis, tick).Some?
    ensures SupplyAt(a, axis, tick) == SupplyAt(b, axis, tick)
  {
    SomeLayerSupplies(a, axis, tick);
    var i :| 0 <= i < |a| && FirstAt(a[i].frames, axis, tick).Some?;
    assert a[i] in multiset(a);
    var j :| 0 <= j < |b| && b[j] == a[i];
    SupplierIsUnique(a, axis, tick, i);
    SupplierIsUnique(b, axis, tick, j);
  }

  lemma {:induction false} DurationBound(layers: seq<Layer>)
    ensures forall i :: 0 <= i < |layers| ==> LastTick(layers[i].frames) <= Duration(layers)
    ensures Duration(layers) == 0 || exists i :: 0 <= i < |layers| && LastTick(layers[i].frames) == Duration(layers)
  {
    if layers != [] {
      DurationBound(Front(layers));
    }
  }

  lemma PermutedDuration(a: seq<Layer>, b: seq<Layer>)
    requires multiset(a) == multiset(b)
    ensures Duration(a) <= Duration(b)
  {
    DurationBound(a);
    DurationBound(b);
    if Duration(a) > 0 {
      var i :| 0 <= i < |a| && LastTick(a[i].frames) == Duration(a);
      assert a[i] in multiset(a);
      var j :| 0 <= j < |b| && b[j] == a[i];
    }
  }

  lemma PermutedRenders(
    p: seq<Layer>, q: seq<Layer>, manual: map<Axis, real>, axis: Axis, tick: nat)
    requires multiset(p) == multiset(q) && Disjoint(p) && Disjoint(q)
    ensures RenderedAt(RenderTracks(p), manual, axis, tick) == RenderedAt(RenderTracks(q), manual, axis, tick)
  {
    RenderedIsMotion(p, manual, axis, tick);
    RenderedIsMotion(q, manual, axis, tick);
    forall t: nat ensures SupplyOf(p, axis)(t) == SupplyOf(q, axis)(t) {
      if SupplyAt(p, axis, t).Some? { PermutedSupply(p, q, axis, t); }
      if SupplyAt(q, axis, t).Some? { PermutedSupply(q, p, axis, t); }
    }
    MotionDependsOnSupply(SupplyOf(p, axis), SupplyOf(q, axis), InitialOf(manual, axis), tick);
  }

  lemma SameFrames(
    a: seq<map<Axis, seq<Segment>>>, b: seq<map<Axis, seq<Segment>>>, manual: map<Axis, real>,
    axes: set<Axis>, count: nat)
    requires forall axis, tick :: axis in axes ==>
               RenderedAt(a, manual, axis, tick) == RenderedAt(b, manual, axis, tick)
    ensures RenderedFrames(a, manual, axes, count) == RenderedFrames(b, manual, axes, count)
  {
    forall tick: nat ensures RenderedFrame(a, manual, axes, tick) == RenderedFrame(b, manual, axes, tick) {
      var x, y := RenderedFrame(a, manual, axes, tick).values, RenderedFrame(b, manual, axes, tick).values;
      assert x.Keys == y.Keys && forall axis :: axis in x ==> x[axis] == y[axis];
    }
  }

  lemma PermutedAxes(a: seq<Layer>, b: seq<Layer>)
    requires multiset(Enabled(a)) == multiset(Enabled(b))
    ensures ProjectAxes(a) == ProjectAxes(b)
  {
    assert forall layer :: layer in Enabled(a) <==> layer in multiset(Enabled(a));
    assert forall layer :: layer in Enabled(b) <==> layer in multiset(Enabled(b));
  }

  /** For a project without conflicts, rendering does not depend on the order of the
      layers. */
  lemma RenderingIgnoresOrder(a: seq<Layer>, b: seq<Layer>, motionIds: set<Axis>, manual: map<Axis, real>)
    requires multiset(Enabled(a)) == multiset(Enabled(b)) && ProjectConflicts(a, None) == []
    ensures ProjectConflicts(b, None) == []
    ensures Rendered(a, motionIds, manual) == Rendered(b, motionIds, manual)
  {
    var p, q := Enabled(a), Enabled(b);
    NoConflictsMeansConflictFree(a);
    PermutedIsDisjoint(p, q);
    NoConflictsMeansConflictFree(b);
    PermutedDuration(p, q);
    PermutedDuration(q, p);
    PermutedAxes(a, b);
    forall axis, tick
      ensures RenderedAt(RenderTracks(p), manual, axis, tick) == RenderedAt(RenderTracks(q), manual, axis, tick)
    {
      PermutedRenders(p, q, manual, axis, tick);
    }
    SameFrames(RenderTracks(p), RenderTracks(q), manual, Selected(a, motionIds), SampleCount(a));
  }
}

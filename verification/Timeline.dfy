/** Layer composition: how sampled layers become segments, when two layers
    conflict, what every axis does at every tick, and which stretches of time
    playback owns. */
module Timeline {
  import opened MotionTypes
  import opened Sorting

  datatype Point = Point(tick: nat, value: real)

  type Segment = seq<Point>

  type Span = (nat, nat)

  // ----- Looking up a recorded value -------------------------------------------

  /** The value that a layer's frames record for an axis at a tick: the reference
      that everything below is measured against. */
  function FirstAt(frames: seq<Frame>, axis: Axis, tick: nat): Option<real> {
    if frames == [] then None
    else if frames[0].tick == tick && axis in frames[0].values then Some(frames[0].values[axis])
    else FirstAt(frames[1..], axis, tick)
  }

  function AxesOf(frames: seq<Frame>): set<Axis> {
    set frame, axis | frame in frames && axis in frame.values.Keys :: axis
  }

  lemma {:induction false} FirstAtNeedsAxis(frames: seq<Frame>, axis: Axis, tick: nat)
    requires axis !in AxesOf(frames)
    ensures FirstAt(frames, axis, tick) == None
  {
    if frames != [] {
      assert frames[0] in frames && forall frame :: frame in frames[1..] ==> frame in frames;
      FirstAtNeedsAxis(frames[1..], axis, tick);
    }
  }

  lemma {:induction false} FirstAtSome(frames: seq<Frame>, axis: Axis, tick: nat)
    ensures FirstAt(frames, axis, tick).Some? <==>
            exists frame :: frame in frames && frame.tick == tick && axis in frame.values
  {
    if frames != [] {
      assert frames == [frames[0]] + frames[1..];
      FirstAtSome(frames[1..], axis, tick);
      if frames[0].tick == tick && axis in frames[0].values {
        assert frames[0] in frames;
      }
    }
  }

  // ----- One axis of a layer -----------------------------------------------------

  function AxisPoints(frames: seq<Frame>, axis: Axis): seq<Point> {
    if frames == [] then []
    else (if axis in frames[0].values then [Point(frames[0].tick, frames[0].values[axis])] else [])
         + AxisPoints(frames[1..], axis)
  }

  function PointLeq(): (Point, Point) -> bool { (a: Point, b: Point) => a.tick <= b.tick }

  /** The samples of one axis in time order. */
  function Series(frames: seq<Frame>, axis: Axis): seq<Point> {
    Sort(AxisPoints(frames, axis), PointLeq())
  }

  function FirstPointAt(points: seq<Point>, tick: nat): Option<real> {
    if points == [] then None
    else if points[0].tick == tick then Some(points[0].value)
    else FirstPointAt(points[1..], tick)
  }

  lemma {:induction false} InsertLookup(x: Point, s: seq<Point>, tick: nat)
    ensures FirstPointAt(Insert(x, s, PointLeq()), tick) ==
            if x.tick == tick then Some(x.value) else FirstPointAt(s, tick)
  {
    if s != [] && !PointLeq()(x, s[0]) {
      InsertLookup(x, s[1..], tick);
      assert Insert(x, s, PointLeq())[1..] == Insert(x, s[1..], PointLeq());
    } else {
      assert ([x] + s)[1..] == s;
    }
  }

  lemma {:induction false} SortLookup(s: seq<Point>, tick: nat)
    ensures FirstPointAt(Sort(s, PointLeq()), tick) == FirstPointAt(s, tick)
  {
    if s != [] {
      SortLookup(s[1..], tick);
      InsertLookup(s[0], Sort(s[1..], PointLeq()), tick);
    }
  }

  lemma {:induction false} SeriesLookup(frames: seq<Frame>, axis: Axis, tick: nat)
    ensures FirstPointAt(Series(frames, axis), tick) == FirstAt(frames, axis, tick)
  {
    SortLookup(AxisPoints(frames, axis), tick);
    AxisPointsLookup(frames, axis, tick);
  }

  lemma {:induction false} AxisPointsLookup(frames: seq<Frame>, axis: Axis, tick: nat)
    ensures FirstPointAt(AxisPoints(frames, axis), tick) == FirstAt(frames, axis, tick)
  {
    if frames != [] {
      AxisPointsLookup(frames[1..], axis, tick);
      if axis in frames[0].values {
        assert AxisPoints(frames, axis)[1..] == AxisPoints(frames[1..], axis);
      } else {
        assert AxisPoints(frames, axis) == AxisPoints(frames[1..], axis);
      }
    }
  }

  lemma {:induction false} FirstPointAtAppend(a: seq<Point>, b: seq<Point>, tick: nat)
    ensures FirstPointAt(a + b, tick) ==
            if FirstPointAt(a, tick).Some? then FirstPointAt(a, tick) else FirstPointAt(b, tick)
  {
    if a == [] {
      assert a + b == b;
    } else {
      assert (a + b)[1..] == a[1..] + b;
      FirstPointAtAppend(a[1..], b, tick);
    }
  }

  lemma {:induction false} FirstPointAtIndex(points: seq<Point>, tick: nat, k: nat)
    requires k < |points| && points[k].tick == tick
    requires forall i :: 0 <= i < k ==> points[i].tick != tick
    ensures FirstPointAt(points, tick) == Some(points[k].value)
  {
    if k > 0 {
      FirstPointAtIndex(points[1..], tick, k - 1);
    }
  }

  lemma {:induction false} FirstPointAtMissing(points: seq<Point>, tick: nat)
    requires forall i :: 0 <= i < |points| ==> points[i].tick != tick
    ensures FirstPointAt(points, tick) == None
  {
    if points != [] {
      FirstPointAtMissing(points[1..], tick);
    }
  }

  /** No two samples at one tick. */
  predicate NoDoubles(points: seq<Point>) {
    forall i, j :: 0 <= i < j < |points| ==> points[i].tick != points[j].tick
  }

  lemma {:induction false} InsertNoDoubles(x: Point, points: seq<Point>)
    requires NoDoubles(points) && forall i :: 0 <= i < |points| ==> points[i].tick != x.tick
    ensures NoDoubles(Insert(x, points, PointLeq()))
  {
    if points != [] && !PointLeq()(x, points[0]) {
      InsertNoDoubles(x, points[1..]);
      InsertKeeps(x, points[1..], PointLeq());
      var rest := Insert(x, points[1..], PointLeq());
      forall k | 0 <= k < |rest| ensures rest[k].tick != points[0].tick {
        assert rest[k] in rest;
      }
    }
  }

  lemma {:induction false} SortNoDoubles(points: seq<Point>)
    requires NoDoubles(points)
    ensures NoDoubles(Sort(points, PointLeq()))
  {
    if points != [] {
      SortNoDoubles(points[1..]);
      var rest := Sort(points[1..], PointLeq());
      forall i | 0 <= i < |rest| ensures rest[i].tick != points[0].tick {
        assert rest[i] in rest && rest[i] in points[1..];
      }
      InsertNoDoubles(points[0], rest);
    }
  }

  // ----- Segments --------------------------------------------------------------------

  function Last<T>(s: seq<T>): T
    requires s != []
  {
    s[|s| - 1]
  }

  function Front<T>(s: seq<T>): seq<T>
    requires s != []
  {
    s[..|s| - 1]
  }

  lemma FrontAndLast<T>(s: seq<T>)
    requires s != []
    ensures s == Front(s) + [Last(s)]
  {
  }

  /** One more sample: it continues the last segment unless one and a half periods
      or more have passed since that segment's last sample. */
  function Grow(before: seq<Segment>, point: Point): (r: seq<Segment>)
    requires AllNonEmpty(before)
    ensures AllNonEmpty(r) && r != [] && Last(Last(r)) == point
  {
    if before == [] || point.tick - Last(Last(before)).tick > 1 then before + [[point]]
    else Front(before) + [Last(before) + [point]]
  }

  predicate AllNonEmpty(segments: seq<Segment>) {
    forall i :: 0 <= i < |segments| ==> segments[i] != []
  }

  /** A series cut wherever one and a half periods or more pass without a sample. */
  function Segments(points: seq<Point>): (r: seq<Segment>)
    ensures AllNonEmpty(r)
    ensures if points == [] then r == [] else r != [] && Last(Last(r)) == Last(points)
  {
    if points == [] then [] else Grow(Segments(Front(points)), Last(points))
  }

  method SeriesSegments(points: seq<Point>) returns (segments: seq<Segment>)
    ensures segments == Segments(points)
  {
    segments := [];
    var current: Segment := [];
    for i := 0 to |points|
      invariant current == [] <==> i == 0
      invariant segments + (if current == [] then [] else [current]) == Segments(points[..i])
    {
      assert Front(points[..i + 1]) == points[..i];
      assert Segments(points[..i + 1]) == Grow(Segments(points[..i]), points[i]);
      ghost var before := segments + [current];
      assert Front(before) == segments && Last(before) == current && [] + [points[i]] == [points[i]];
      if current != [] && points[i].tick - Last(current).tick > 1 {
        segments := segments + [current];
        current := [];
      }
      current := current + [points[i]];
    }
    assert points[..|points|] == points;
    if current != [] {
      segments := segments + [current];
    }
  }

  /** Each sample comes at most one tick after the one before it. */
  ghost predicate Dense(segment: Segment) {
    forall i :: 0 < i < |segment| ==>
      segment[i - 1].tick <= segment[i].tick <= segment[i - 1].tick + 1
  }

  ghost predicate AllDense(segments: seq<Segment>) {
    forall i :: 0 <= i < |segments| ==> Dense(segments[i])
  }

  lemma {:induction false} SegmentsAreDense(points: seq<Point>)
    requires Ordered(points, PointLeq())
    ensures AllDense(Segments(points))
  {
    if |points| > 0 {
      SegmentsAreDense(Front(points));
      if |points| > 1 {
        assert PointLeq()(points[|points| - 2], points[|points| - 1]);
        GrowKeepsDense(Segments(Front(points)), Last(points));
      }
    }
  }

  lemma GrowKeepsDense(before: seq<Segment>, point: Point)
    requires AllNonEmpty(before) && AllDense(before)
    requires before != [] && Last(Last(before)).tick <= point.tick
    ensures AllDense(Grow(before, point))
  {
    assert Dense([point]);
    if point.tick - Last(Last(before)).tick <= 1 {
      OneMoreIsDense(Last(before), point);
    }
  }

  lemma OneMoreIsDense(segment: Segment, point: Point)
    requires Dense(segment) && segment != [] && Last(segment).tick <= point.tick <= Last(segment).tick + 1
    ensures Dense(segment + [point])
  {
  }

  lemma DenseIsOrdered(segment: Segment, i: nat, j: nat)
    requires Dense(segment) && i <= j < |segment|
    ensures segment[i].tick <= segment[j].tick
    decreases j - i
  {
    if i < j { DenseIsOrdered(segment, i, j - 1); }
  }

  /** The first index whose sample is not before `tick`, as `bisect_left` finds it. */
  function BisectLeft(points: Segment, tick: nat): (k: nat)
    ensures k <= |points|
    ensures forall i :: 0 <= i < k ==> points[i].tick < tick
    ensures k < |points| ==> tick <= points[k].tick
  {
    if points == [] || tick <= points[0].tick then 0 else 1 + BisectLeft(points[1..], tick)
  }

  /** Interpolates inside one segment; nothing outside it. */
  function Sample(points: Segment, tick: nat): Option<real> {
    if points == [] then None
    else if tick < points[0].tick || tick > points[|points| - 1].tick then None
    else
      var index := BisectLeft(points, tick);
      if index == 0 then (if tick >= points[0].tick then Some(points[0].value) else None)
      else if index >= |points| then Some(points[|points| - 1].value)
      else
        var before, after := points[index - 1], points[index];
        var span := after.tick - before.tick;
        if span <= 0 then Some(after.value)
        else
          var ratio := (tick - before.tick) as real / span as real;
          Some(before.value + (after.value - before.value) * ratio)
  }

  function SampleSegments(segments: seq<Segment>, tick: nat): Option<real> {
    if segments == [] then None
    else if Sample(segments[0], tick).Some? then Sample(segments[0], tick)
    else SampleSegments(segments[1..], tick)
  }

  /** On the grid, interpolation never happens: sampling is looking up. */
  lemma SampleIsLookup(segment: Segment, tick: nat)
    requires Dense(segment) && segment != []
    ensures Sample(segment, tick) == FirstPointAt(segment, tick)
  {
    var last := |segment| - 1;
    forall i | 0 <= i <= last ensures segment[0].tick <= segment[i].tick <= segment[last].tick {
      DenseIsOrdered(segment, 0, i);
      DenseIsOrdered(segment, i, last);
    }
    if tick < segment[0].tick || tick > segment[last].tick {
      FirstPointAtMissing(segment, tick);
    } else {
      var k := BisectLeft(segment, tick);
      assert k <= last;
      assert k > 0 ==> segment[k - 1].tick <= segment[k].tick <= segment[k - 1].tick + 1;
      FirstPointAtIndex(segment, tick, k);
      if k > 0 {
        assert segment[k].tick - segment[k - 1].tick == 1 && tick - segment[k - 1].tick == 1;
        UnitRatio(segment[k - 1].value, segment[k].value);
      }
    }
  }

  lemma UnitRatio(a: real, b: real)
    ensures a + (b - a) * (1.0 / 1.0) == b
  {
    assert 1.0 / 1.0 == 1.0;
  }

  lemma {:induction false} SampleSegmentsAppend(a: seq<Segment>, last: Segment, tick: nat)
    ensures SampleSegments(a + [last], tick) ==
            if SampleSegments(a, tick).Some? then SampleSegments(a, tick) else Sample(last, tick)
  {
    if a == [] {
      assert a + [last] == [last] && [last][1..] == [];
    } else {
      assert (a + [last])[1..] == a[1..] + [last];
      SampleSegmentsAppend(a[1..], last, tick);
    }
  }

  lemma FirstPointAtSnoc(points: seq<Point>, last: Point, tick: nat)
    ensures FirstPointAt(points + [last], tick) ==
            if FirstPointAt(points, tick).Some? then FirstPointAt(points, tick)
            else if last.tick == tick then Some(last.value) else None
  {
    FirstPointAtAppend(points, [last], tick);
    assert [last][1..] == [];
  }

  lemma GrowLookup(before: seq<Segment>, point: Point, tick: nat)
    requires AllNonEmpty(before) && AllDense(before)
    requires before != [] ==> Last(Last(before)).tick <= point.tick
    ensures SampleSegments(Grow(before, point), tick) ==
            if SampleSegments(before, tick).Some? then SampleSegments(before, tick)
            else if point.tick == tick then Some(point.value) else None
  {
    if before == [] || point.tick - Last(Last(before)).tick > 1 {
      SampleSegmentsAppend(before, [point], tick);
      SampleIsLookup([point], tick);
      FirstPointAtSnoc([], point, tick);
      assert [] + [point] == [point];
    } else {
      GrowKeepsDense(before, point);
      var first, last, longer := Front(before), Last(before), Last(before) + [point];
      assert before == first + [last] && Last(Grow(before, point)) == longer;
      SampleSegmentsAppend(first, last, tick);
      SampleSegmentsAppend(first, longer, tick);
      SampleIsLookup(last, tick);
      SampleIsLookup(longer, tick);
      FirstPointAtSnoc(last, point, tick);
    }
  }

  lemma {:induction false} SegmentsLookup(points: seq<Point>, tick: nat)
    requires Ordered(points, PointLeq())
    ensures SampleSegments(Segments(points), tick) == FirstPointAt(points, tick)
  {
    if |points| > 0 {
      SegmentsLookup(Front(points), tick);
      SegmentsAreDense(Front(points));
      assert points == Front(points) + [Last(points)];
      FirstPointAtSnoc(Front(points), Last(points), tick);
      assert |points| > 1 ==> PointLeq()(points[|points| - 2], points[|points| - 1]);
      GrowLookup(Segments(Front(points)), Last(points), tick);
    }
  }

  // ----- A layer ------------------------------------------------------------------------

  /** The segments of every axis of a layer, or of the selected ones. */
  function LayerSegments(frames: seq<Frame>, selected: Option<set<Axis>>): map<Axis, seq<Segment>> {
    map axis | axis in AxesOf(frames) && (selected.None? || axis in selected.value) ::
      Segments(Series(frames, axis))
  }

  function Supply(tracks: map<Axis, seq<Segment>>, axis: Axis, tick: nat): Option<real> {
    if axis in tracks then SampleSegments(tracks[axis], tick) else None
  }

  lemma SeriesIsOrdered(frames: seq<Frame>, axis: Axis)
    ensures Ordered(Series(frames, axis), PointLeq())
  {
    SortOrdered(AxisPoints(frames, axis), PointLeq());
  }

  lemma SupplyIsLookup(frames: seq<Frame>, axis: Axis, tick: nat)
    ensures Supply(LayerSegments(frames, None), axis, tick) == FirstAt(frames, axis, tick)
  {
    if axis in AxesOf(frames) {
      SeriesIsOrdered(frames, axis);
      SegmentsLookup(Series(frames, axis), tick);
      SeriesLookup(frames, axis, tick);
    } else {
      FirstAtNeedsAxis(frames, axis, tick);
    }
  }

  function Enabled(layers: seq<Layer>): (r: seq<Layer>)
    ensures forall layer :: layer in r <==> layer in layers && layer.enabled
  {
    if layers == [] then []
    else (if layers[0].enabled then [layers[0]] else []) + Enabled(layers[1..])
  }
}

/** What the list of conflicts says: exactly the ticks that two layers share, each stretch as
    long as it is. */
module ConflictTicks {
  import opened MotionTypes
  import opened Sorting
  import opened Timeline
  import opened LayerConflicts

  // ----- What is on the list --------------------------------------------------------------------------

  lemma {:induction false} InConcat<T(!new)>(xs: seq<T>, report: T -> seq<Conflict>, c: Conflict)
    ensures c in Concat(xs, report) <==> exists k :: 0 <= k < |xs| && c in report(xs[k])
  {
    if xs != [] {
      InConcat(Front(xs), report, c);
      if k :| 0 <= k < |xs| && c in report(xs[k]) { assert k < |xs| - 1 ==> Front(xs)[k] == xs[k]; }
    }
  }

  ghost predicate InPair(enabled: seq<Tracks>, report: Tracks -> Tracks -> seq<Conflict>, i: nat, j: nat, c: Conflict) {
    i < j < |enabled| && c in report(enabled[i])(enabled[j])
  }

  lemma {:induction false} InRows(enabled: seq<Tracks>, count: nat, report: Tracks -> Tracks -> seq<Conflict>, c: Conflict)
    requires count <= |enabled|
    ensures c in Rows(enabled, count, report) <==> exists i: nat, j: nat :: i < count && InPair(enabled, report, i, j, c)
  {
    if count > 0 {
      var rest := enabled[count..];
      InRows(enabled, count - 1, report, c);
      InConcat(rest, report(enabled[count - 1]), c);
      if k :| 0 <= k < |rest| && c in report(enabled[count - 1])(rest[k]) {
        assert InPair(enabled, report, count - 1, count + k, c);
      }
      if i: nat, j: nat :| i < count && InPair(enabled, report, i, j, c) {
        if i == count - 1 { assert rest[j - count] == enabled[j]; }
      }
    }
  }

  /** A conflict of two segments of an axis. */
  ghost predicate OfSegments(a: Tracks, b: Tracks, axis: Axis, first: Segment, second: Segment, c: Conflict) {
    && first != [] && second != [] && c == Conflict(axis, c.start, c.end, a.id, a.name, b.id, b.name)
    && c.start <= c.end && c.start == Max(first[0].tick, second[0].tick) && c.end == Min(Last(first).tick, Last(second).tick)
  }

  lemma InOnePair(a: Tracks, b: Tracks, axis: Axis, first: Segment, second: Segment, c: Conflict)
    ensures c in OnePair(a, b, axis, first, second) <==> OfSegments(a, b, axis, first, second, c)
  {
  }

  ghost predicate OfTracks(
    a: Tracks, b: Tracks, axis: Axis, firsts: seq<Segment>, seconds: seq<Segment>, j: nat, k: nat, c: Conflict)
  {
    j < |firsts| && k < |seconds| && OfSegments(a, b, axis, firsts[j], seconds[k], c)
  }

  lemma InAxis(a: Tracks, b: Tracks, axis: Axis, firsts: seq<Segment>, seconds: seq<Segment>, c: Conflict)
    ensures c in Concat(firsts, SegmentReport(a, b, axis, seconds)) <==>
            exists j: nat, k: nat :: OfTracks(a, b, axis, firsts, seconds, j, k, c)
  {
    InConcat(firsts, SegmentReport(a, b, axis, seconds), c);
    if j :| 0 <= j < |firsts| && c in SegmentReport(a, b, axis, seconds)(firsts[j]) {
      InConcat(seconds, OnePairOf(a, b, axis, firsts[j]), c);
      var k :| 0 <= k < |seconds| && c in OnePairOf(a, b, axis, firsts[j])(seconds[k]);
      InOnePair(a, b, axis, firsts[j], seconds[k], c);
      assert OfTracks(a, b, axis, firsts, seconds, j, k, c);
    }
    if j: nat, k: nat :| OfTracks(a, b, axis, firsts, seconds, j, k, c) {
      InConcat(seconds, OnePairOf(a, b, axis, firsts[j]), c);
      InOnePair(a, b, axis, firsts[j], seconds[k], c);
      assert c in OnePairOf(a, b, axis, firsts[j])(seconds[k]);
      assert c in SegmentReport(a, b, axis, seconds)(firsts[j]);
    }
  }

  lemma SharedAxes(a: Tracks, b: Tracks, axis: Axis)
    ensures axis in SortedSet(a.tracks.Keys * b.tracks.Keys) <==> axis in a.tracks && axis in b.tracks
  {
  }

  lemma InAxes(a: Tracks, b: Tracks, c: Conflict)
    ensures c in PairReport(a)(b) <==>
            exists axis :: axis in a.tracks && axis in b.tracks && c in AxisReport(a, b)(axis)
  {
    InSomeAxis(SortedSet(a.tracks.Keys * b.tracks.Keys), AxisReport(a, b), c);
    forall axis
      ensures axis in SortedSet(a.tracks.Keys * b.tracks.Keys) <==> axis in a.tracks && axis in b.tracks
    {
      SharedAxes(a, b, axis);
    }
  }

  lemma InSomeAxis(axes: seq<Axis>, report: Axis -> seq<Conflict>, c: Conflict)
    ensures c in Concat(axes, report) <==> exists axis :: axis in axes && c in report(axis)
  {
    InConcat(axes, report, c);
    if axis :| axis in axes && c in report(axis) {
      var k :| 0 <= k < |axes| && axes[k] == axis;
    }
  }

  // ----- Segments are as long as they can be ------------------------------------------------------------

  /** One segment after the other, with a tick between them that has no sample. */
  ghost predicate Parted(segments: seq<Segment>) {
    && AllDense(segments) && AllNonEmpty(segments)
    && forall j, k :: 0 <= j < k < |segments| ==> Last(segments[j]).tick + 1 < segments[k][0].tick
  }

  lemma PartedOrder(segments: seq<Segment>, j: nat)
    requires Parted(segments) && j < |segments|
    ensures segments[j][0].tick <= Last(segments[j]).tick
  {
    DenseIsOrdered(segments[j], 0, |segments[j]| - 1);
  }

  lemma GrowParts(before: seq<Segment>, point: Point)
    requires Parted(before) && (before != [] ==> Last(Last(before)).tick <= point.tick)
    ensures Parted(Grow(before, point))
  {
    if before != [] {
      GrowKeepsDense(before, point);
      var last := |before| - 1;
      PartedOrder(before, last);
      forall j | 0 <= j < last ensures Last(before[j]).tick + 1 < before[last][0].tick {}
    } else {
      assert Dense([point]);
    }
  }

  lemma {:induction false} SegmentsParted(points: seq<Point>)
    requires Ordered(points, PointLeq())
    ensures Parted(Segments(points))
  {
    if points != [] {
      SegmentsParted(Front(points));
      if |points| > 1 { assert PointLeq()(points[|points| - 2], points[|points| - 1]); }
      GrowParts(Segments(Front(points)), Last(points));
    }
  }

  lemma SampledWithin(segment: Segment, tick: nat)
    requires Dense(segment) && segment != []
    ensures Sample(segment, tick).Some? <==> segment[0].tick <= tick <= Last(segment).tick
  {
  }

  /** A tick is sampled exactly if it lies in a segment. */
  lemma TrackSamples(segments: seq<Segment>, tick: nat)
    requires Parted(segments)
    ensures SampleSegments(segments, tick).Some? <==> exists j :: 0 <= j < |segments| && Holds(segments[j], tick)
  {
    SomeSegment(segments, tick);
    forall j | 0 <= j < |segments| ensures Sample(segments[j], tick).Some? <==> Holds(segments[j], tick) {
      SampledWithin(segments[j], tick);
    }
  }

  ghost predicate Holds(segment: Segment, tick: int) {
    segment != [] && segment[0].tick <= tick <= Last(segment).tick
  }

  lemma NothingBeside(segments: seq<Segment>, j: nat, tick: nat)
    requires Parted(segments) && j < |segments|
    requires tick == Last(segments[j]).tick + 1 || tick + 1 == segments[j][0].tick
    ensures SampleSegments(segments, tick).None?
  {
    TrackSamples(segments, tick);
    forall k | 0 <= k < |segments| ensures !Holds(segments[k], tick) {
      PartedOrder(segments, k);
      PartedOrder(segments, j);
      if k < j { assert Last(segments[k]).tick + 1 < segments[j][0].tick; }
      if k > j { assert Last(segments[j]).tick + 1 < segments[k][0].tick; }
    }
  }

  // ----- What the list says ---------------------------------------------------------------------------------

  /** The two layers share every tick of the stretch, and neither the one before nor the one
      after. */
  ghost predicate IsConflict(a: Layer, b: Layer, c: Conflict) {
    && c == Conflict(c.axis, c.start, c.end, a.id, a.name, b.id, b.name) && c.start <= c.end
    && (forall tick :: c.start <= tick <= c.end ==> Clash(a, b, c.axis, tick))
    && (c.start > 0 ==> !Clash(a, b, c.axis, c.start - 1)) && !Clash(a, b, c.axis, c.end + 1)
  }

  ghost predicate TrackIs(segments: seq<Segment>, layer: Layer, axis: Axis) {
    Parted(segments) && forall tick :: SampleSegments(segments, tick) == FirstAt(layer.frames, axis, tick)
  }

  lemma TrackOfAxis(layer: Layer, axis: Axis)
    requires axis in AxesOf(layer.frames)
    ensures TrackIs(LayerSegments(layer.frames, None)[axis], layer, axis)
  {
    LayerTrack(layer, axis);
    SeriesIsOrdered(layer.frames, axis);
    SegmentsParted(Series(layer.frames, axis));
  }

  lemma HeldIsSampled(segments: seq<Segment>, layer: Layer, axis: Axis, j: nat, tick: nat)
    requires TrackIs(segments, layer, axis) && j < |segments| && Holds(segments[j], tick)
    ensures FirstAt(layer.frames, axis, tick).Some?
  {
    TrackSamples(segments, tick);
  }

  lemma BesideIsFree(segments: seq<Segment>, layer: Layer, axis: Axis, j: nat, tick: nat)
    requires TrackIs(segments, layer, axis) && j < |segments|
    requires tick == Last(segments[j]).tick + 1 || tick + 1 == segments[j][0].tick
    ensures FirstAt(layer.frames, axis, tick).None?
  {
    NothingBeside(segments, j, tick);
  }

  lemma SegmentsConflict(
    a: Layer, b: Layer, left: Tracks, right: Tracks, axis: Axis, firsts: seq<Segment>, seconds: seq<Segment>,
    j: nat, k: nat, c: Conflict)
    requires TrackIs(firsts, a, axis) && TrackIs(seconds, b, axis) && OfTracks(left, right, axis, firsts, seconds, j, k, c)
    requires left.id == a.id && left.name == a.name && right.id == b.id && right.name == b.name
    ensures IsConflict(a, b, c) && c.axis == axis
  {
    forall tick | c.start <= tick <= c.end ensures Clash(a, b, axis, tick) {
      HeldIsSampled(firsts, a, axis, j, tick);
      HeldIsSampled(seconds, b, axis, k, tick);
    }
    FreeBefore(a, b, axis, firsts, seconds, j, k, c.start);
    FreeAfter(a, b, axis, firsts, seconds, j, k, c.end);
  }

  lemma FreeBefore(
    a: Layer, b: Layer, axis: Axis, firsts: seq<Segment>, seconds: seq<Segment>, j: nat, k: nat, start: nat)
    requires TrackIs(firsts, a, axis) && TrackIs(seconds, b, axis) && j < |firsts| && k < |seconds|
    requires start == Max(firsts[j][0].tick, seconds[k][0].tick)
    ensures start > 0 ==> !Clash(a, b, axis, start - 1)
  {
    if start > 0 {
      if start == firsts[j][0].tick { BesideIsFree(firsts, a, axis, j, start - 1); }
      else { BesideIsFree(seconds, b, axis, k, start - 1); }
    }
  }

  lemma FreeAfter(
    a: Layer, b: Layer, axis: Axis, firsts: seq<Segment>, seconds: seq<Segment>, j: nat, k: nat, end: nat)
    requires TrackIs(firsts, a, axis) && TrackIs(seconds, b, axis) && j < |firsts| && k < |seconds|
    requires end == Min(Last(firsts[j]).tick, Last(seconds[k]).tick)
    ensures !Clash(a, b, axis, end + 1)
  {
    if end == Last(firsts[j]).tick { BesideIsFree(firsts, a, axis, j, end + 1); }
    else { BesideIsFree(seconds, b, axis, k, end + 1); }
  }

  ghost predicate Over(c: Conflict, axis: Axis, tick: nat) { c.axis == axis && c.start <= tick <= c.end }

  lemma HoldingSegment(segments: seq<Segment>, layer: Layer, axis: Axis, tick: nat) returns (j: nat)
    requires TrackIs(segments, layer, axis) && FirstAt(layer.frames, axis, tick).Some?
    ensures j < |segments| && Holds(segments[j], tick)
  {
    TrackSamples(segments, tick);
    j :| j < |segments| && Holds(segments[j], tick);
  }

  lemma SharedSegments(
    a: Layer, b: Layer, left: Tracks, right: Tracks, axis: Axis, firsts: seq<Segment>, seconds: seq<Segment>, tick: nat)
    returns (c: Conflict, j: nat, k: nat)
    requires TrackIs(firsts, a, axis) && TrackIs(seconds, b, axis) && Clash(a, b, axis, tick)
    ensures OfTracks(left, right, axis, firsts, seconds, j, k, c) && Over(c, axis, tick)
  {
    j := HoldingSegment(firsts, a, axis, tick);
    k := HoldingSegment(seconds, b, axis, tick);
    c := Conflict(axis, Max(firsts[j][0].tick, seconds[k][0].tick), Min(Last(firsts[j]).tick, Last(seconds[k]).tick),
      left.id, left.name, right.id, right.name);
  }

  function TracksFor(layer: Layer): Tracks { Tracks(layer.id, layer.name, LayerSegments(layer.frames, None)) }

  lemma PairTells(a: Layer, b: Layer, c: Conflict)
    requires c in PairReport(TracksFor(a))(TracksFor(b))
    ensures IsConflict(a, b, c)
  {
    var left, right := TracksFor(a), TracksFor(b);
    InAxes(left, right, c);
    var axis :| axis in left.tracks && axis in right.tracks && c in AxisReport(left, right)(axis);
    TrackOfAxis(a, axis);
    TrackOfAxis(b, axis);
    AxisTells(a, b, left, right, axis, left.tracks[axis], right.tracks[axis], c);
  }

  lemma AxisTells(
    a: Layer, b: Layer, left: Tracks, right: Tracks, axis: Axis, firsts: seq<Segment>, seconds: seq<Segment>, c: Conflict)
    requires TrackIs(firsts, a, axis) && TrackIs(seconds, b, axis)
    requires c in Concat(firsts, SegmentReport(left, right, axis, seconds))
    requires left.id == a.id && left.name == a.name && right.id == b.id && right.name == b.name
    ensures IsConflict(a, b, c)
  {
    InAxis(left, right, axis, firsts, seconds, c);
    var j: nat, k: nat :| OfTracks(left, right, axis, firsts, seconds, j, k, c);
    SegmentsConflict(a, b, left, right, axis, firsts, seconds, j, k, c);
  }

  lemma PairLists(a: Layer, b: Layer, axis: Axis, tick: nat) returns (c: Conflict)
    requires Clash(a, b, axis, tick)
    ensures c in PairReport(TracksFor(a))(TracksFor(b)) && Over(c, axis, tick)
  {
    var left, right := TracksFor(a), TracksFor(b);
    if axis !in AxesOf(a.frames) { FirstAtNeedsAxis(a.frames, axis, tick); }
    if axis !in AxesOf(b.frames) { FirstAtNeedsAxis(b.frames, axis, tick); }
    TrackOfAxis(a, axis);
    TrackOfAxis(b, axis);
    var j, k;
    c, j, k := SharedSegments(a, b, left, right, axis, left.tracks[axis], right.tracks[axis], tick);
    InAxis(left, right, axis, left.tracks[axis], right.tracks[axis], c);
    assert c in AxisReport(left, right)(axis);
    InAxes(left, right, c);
  }

  lemma TracksAre(layers: seq<Layer>, i: nat)
    requires i < |Enabled(layers)|
    ensures TracksOf(layers, None)[i] == TracksFor(Enabled(layers)[i])
  {
  }

  /** Every conflict on the list is one of two enabled layers, */
  lemma ListedIsConflict(layers: seq<Layer>, c: Conflict) returns (i: nat, j: nat)
    requires c in ProjectConflicts(layers, None)
    ensures i < j < |Enabled(layers)| && IsConflict(Enabled(layers)[i], Enabled(layers)[j], c)
  {
    var tracks := TracksOf(layers, None);
    InRows(tracks, |tracks|, PairReports(), c);
    i, j :| i < |tracks| && InPair(tracks, PairReports(), i, j, c);
    TracksAre(layers, i);
    TracksAre(layers, j);
    PairTells(Enabled(layers)[i], Enabled(layers)[j], c);
  }

  /** and every tick that two enabled layers share is in one that names them. */
  lemma SharedIsListed(layers: seq<Layer>, i: nat, j: nat, axis: Axis, tick: nat) returns (c: Conflict)
    requires i < j < |Enabled(layers)| && Clash(Enabled(layers)[i], Enabled(layers)[j], axis, tick)
    ensures c in ProjectConflicts(layers, None) && Over(c, axis, tick)
    ensures IsConflict(Enabled(layers)[i], Enabled(layers)[j], c)
  {
    var tracks := TracksOf(layers, None);
    TracksAre(layers, i);
    TracksAre(layers, j);
    c := PairLists(Enabled(layers)[i], Enabled(layers)[j], axis, tick);
    PairTells(Enabled(layers)[i], Enabled(layers)[j], c);
    assert InPair(tracks, PairReports(), i, j, c);
    InRows(tracks, |tracks|, PairReports(), c);
  }
}

/** When two enabled layers drive the same axis at the same time. */
module LayerConflicts {
  import opened MotionTypes
  import opened Sorting
  import opened Timeline

  datatype Conflict = Conflict(
    axis: Axis, start: nat, end: nat,
    firstId: string, firstName: string, secondId: string, secondName: string)

  /** One enabled layer, cut into segments. */
  datatype Tracks = Tracks(id: string, name: string, tracks: map<Axis, seq<Segment>>)

  function TracksOf(layers: seq<Layer>, selected: Option<set<Axis>>): (r: seq<Tracks>)
    ensures |r| == |Enabled(layers)|
  {
    var enabled := Enabled(layers);
    seq(|enabled|, i requires 0 <= i < |enabled| =>
      Tracks(enabled[i].id, enabled[i].name, LayerSegments(enabled[i].frames, selected)))
  }

  // ----- What the nested loops list, in their order --------------------------------

  function Min(a: nat, b: nat): nat { if a < b then a else b }

  function Max(a: nat, b: nat): nat { if a < b then b else a }

  function OnePair(a: Tracks, b: Tracks, axis: Axis, first: Segment, second: Segment): seq<Conflict>
  {
    if first == [] || second == [] then [] else
    var start := Max(first[0].tick, second[0].tick);
    var end := Min(Last(first).tick, Last(second).tick);
    if start > end then [] else [Conflict(axis, start, end, a.id, a.name, b.id, b.name)]
  }

  /** One loop: the reports of every element, in order. */
  function Concat<T(!new)>(xs: seq<T>, report: T -> seq<Conflict>): seq<Conflict> {
    if xs == [] then [] else Concat(Front(xs), report) + report(Last(xs))
  }

  function OnePairOf(a: Tracks, b: Tracks, axis: Axis, first: Segment): Segment -> seq<Conflict> {
    (second: Segment) => OnePair(a, b, axis, first, second)
  }

  function SegmentReport(a: Tracks, b: Tracks, axis: Axis, seconds: seq<Segment>): Segment -> seq<Conflict> {
    (first: Segment) => Concat(seconds, OnePairOf(a, b, axis, first))
  }

  function TrackOf(a: Tracks, axis: Axis): seq<Segment> {
    if axis in a.tracks then a.tracks[axis] else []
  }

  function AxisReport(a: Tracks, b: Tracks): Axis -> seq<Conflict> {
    (axis: Axis) => Concat(TrackOf(a, axis), SegmentReport(a, b, axis, TrackOf(b, axis)))
  }

  function PairReport(a: Tracks): Tracks -> seq<Conflict> {
    (b: Tracks) => Concat(SortedSet(a.tracks.Keys * b.tracks.Keys), AxisReport(a, b))
  }

  /** The reports of the first `count` layers, each with the ones after it. */
  function Rows(enabled: seq<Tracks>, count: nat, report: Tracks -> Tracks -> seq<Conflict>): seq<Conflict>
    requires count <= |enabled|
  {
    if count == 0 then []
    else Rows(enabled, count - 1, report) + Concat(enabled[count..], report(enabled[count - 1]))
  }

  function PairReports(): Tracks -> Tracks -> seq<Conflict> { (a: Tracks) => PairReport(a) }

  /** `layer_conflicts(project, motion_ids=selected)`. */
  function ProjectConflicts(layers: seq<Layer>, selected: Option<set<Axis>>): seq<Conflict> {
    var enabled := TracksOf(layers, selected);
    Rows(enabled, |enabled|, PairReports())
  }

  // ----- The loops ----------------------------------------------------------------------

  lemma ConcatStep<T(!new)>(xs: seq<T>, k: nat, report: T -> seq<Conflict>)
    requires k < |xs|
    ensures Concat(xs[..k + 1], report) == Concat(xs[..k], report) + report(xs[k])
  {
    assert Front(xs[..k + 1]) == xs[..k];
  }

  method AxisConflicts(a: Tracks, b: Tracks, axis: Axis) returns (conflicts: seq<Conflict>)
    ensures conflicts == AxisReport(a, b)(axis)
  {
    conflicts := [];
    var firsts, seconds := TrackOf(a, axis), TrackOf(b, axis);
    for j := 0 to |firsts|
      invariant conflicts == Concat(firsts[..j], SegmentReport(a, b, axis, seconds))
    {
      ghost var outer := conflicts;
      for k := 0 to |seconds|
        invariant conflicts == outer + Concat(seconds[..k], OnePairOf(a, b, axis, firsts[j]))
      {
        conflicts := conflicts + OnePair(a, b, axis, firsts[j], seconds[k]);
        ConcatStep(seconds, k, OnePairOf(a, b, axis, firsts[j]));
      }
      assert seconds[..|seconds|] == seconds;
      ConcatStep(firsts, j, SegmentReport(a, b, axis, seconds));
    }
    assert firsts[..|firsts|] == firsts;
  }

  method PairConflicts(a: Tracks, b: Tracks) returns (conflicts: seq<Conflict>)
    ensures conflicts == PairReport(a)(b)
  {
    conflicts := [];
    var axes := SortedSet(a.tracks.Keys * b.tracks.Keys);
    for i := 0 to |axes|
      invariant conflicts == Concat(axes[..i], AxisReport(a, b))
    {
      var found := AxisConflicts(a, b, axes[i]);
      conflicts := conflicts + found;
      ConcatStep(axes, i, AxisReport(a, b));
    }
    assert axes[..|axes|] == axes;
  }

  method ConflictsWith(a: Tracks, rest: seq<Tracks>) returns (conflicts: seq<Conflict>)
    ensures conflicts == Concat(rest, PairReport(a))
  {
    conflicts := [];
    for right := 0 to |rest|
      invariant conflicts == Concat(rest[..right], PairReport(a))
    {
      var pair := PairConflicts(a, rest[right]);
      conflicts := conflicts + pair;
      ConcatStep(rest, right, PairReport(a));
    }
    assert rest[..|rest|] == rest;
  }

  method ListConflicts(layers: seq<Layer>, selected: Option<set<Axis>>) returns (conflicts: seq<Conflict>)
    ensures conflicts == ProjectConflicts(layers, selected)
  {
    var enabled := TracksOf(layers, selected);
    conflicts := [];
    for left := 0 to |enabled|
      invariant conflicts == Rows(enabled, left, PairReports())
    {
      var found := ConflictsWith(enabled[left], enabled[left + 1..]);
      conflicts := conflicts + found;
    }
  }

  // ----- What it means to be free of conflicts -------------------------------------------

  /** No axis has a value from two of the layers at the same tick. */
  ghost predicate Disjoint(layers: seq<Layer>) {
    forall i, j, axis :: 0 <= i < j < |layers| ==> NeverClash(layers[i], layers[j], axis)
  }

  ghost predicate ConflictFree(layers: seq<Layer>) { Disjoint(Enabled(layers)) }

  ghost predicate NeverClash(a: Layer, b: Layer, axis: Axis) {
    forall tick :: !Clash(a, b, axis, tick)
  }

  predicate Clash(a: Layer, b: Layer, axis: Axis, tick: nat) {
    FirstAt(a.frames, axis, tick).Some? && FirstAt(b.frames, axis, tick).Some?
  }

  lemma {:induction false} SomeSegment(segments: seq<Segment>, tick: nat)
    ensures SampleSegments(segments, tick).Some? <==>
            exists k :: 0 <= k < |segments| && Sample(segments[k], tick).Some?
  {
    if segments != [] {
      SomeSegment(segments[1..], tick);
      assert segments == [segments[0]] + segments[1..];
      if exists k :: 0 <= k < |segments| && Sample(segments[k], tick).Some? {
        var k :| 0 <= k < |segments| && Sample(segments[k], tick).Some?;
        assert k > 0 ==> segments[1..][k - 1] == segments[k];
      }
    }
  }

  lemma {:induction false} ConcatEmpty<T(!new)>(xs: seq<T>, report: T -> seq<Conflict>)
    ensures Concat(xs, report) == [] <==> forall k :: 0 <= k < |xs| ==> report(xs[k]) == []
  {
    if xs != [] {
      ConcatEmpty(Front(xs), report);
    }
  }

  lemma SegmentsEmpty(a: Tracks, b: Tracks, axis: Axis, firsts: seq<Segment>, seconds: seq<Segment>)
    ensures Concat(firsts, SegmentReport(a, b, axis, seconds)) == [] <==>
            forall j, k :: 0 <= j < |firsts| && 0 <= k < |seconds| ==>
              OnePair(a, b, axis, firsts[j], seconds[k]) == []
  {
    ConcatEmpty(firsts, SegmentReport(a, b, axis, seconds));
    forall j | 0 <= j < |firsts|
      ensures SegmentReport(a, b, axis, seconds)(firsts[j]) == [] <==>
              forall k :: 0 <= k < |seconds| ==> OnePair(a, b, axis, firsts[j], seconds[k]) == []
    {
      ConcatEmpty(seconds, OnePairOf(a, b, axis, firsts[j]));
      assert forall k :: 0 <= k < |seconds| ==>
          OnePairOf(a, b, axis, firsts[j])(seconds[k]) == OnePair(a, b, axis, firsts[j], seconds[k]);
    }
  }

  ghost predicate BothSample(firsts: seq<Segment>, seconds: seq<Segment>, tick: nat) {
    SampleSegments(firsts, tick).Some? && SampleSegments(seconds, tick).Some?
  }

  /** Two tracks of one axis conflict exactly when they share a tick. */
  lemma AxisConflict(a: Tracks, b: Tracks, axis: Axis, firsts: seq<Segment>, seconds: seq<Segment>)
    requires AllDense(firsts) && AllDense(seconds)
    ensures Concat(firsts, SegmentReport(a, b, axis, seconds)) == [] <==>
            forall tick :: !BothSample(firsts, seconds, tick)
  {
    SegmentsEmpty(a, b, axis, firsts, seconds);
    if Concat(firsts, SegmentReport(a, b, axis, seconds)) == [] {
      forall tick ensures !BothSample(firsts, seconds, tick) {
        if BothSample(firsts, seconds, tick) {
          SomeSegment(firsts, tick);
          SomeSegment(seconds, tick);
          var j :| 0 <= j < |firsts| && Sample(firsts[j], tick).Some?;
          var k :| 0 <= k < |seconds| && Sample(seconds[k], tick).Some?;
          NoPairNoTick(a, b, axis, firsts[j], seconds[k], tick);
        }
      }
    } else {
      var j, k :| 0 <= j < |firsts| && 0 <= k < |seconds| && OnePair(a, b, axis, firsts[j], seconds[k]) != [];
      var tick := SharedTick(a, b, axis, firsts[j], seconds[k]);
      SomeSegment(firsts, tick);
      SomeSegment(seconds, tick);
      assert BothSample(firsts, seconds, tick);
    }
  }

  lemma NoPairNoTick(a: Tracks, b: Tracks, axis: Axis, first: Segment, second: Segment, tick: nat)
    requires Sample(first, tick).Some? && Sample(second, tick).Some?
    ensures OnePair(a, b, axis, first, second) != []
  {}

  lemma SharedTick(a: Tracks, b: Tracks, axis: Axis, first: Segment, second: Segment) returns (tick: nat)
    requires OnePair(a, b, axis, first, second) != []
    ensures Sample(first, tick).Some? && Sample(second, tick).Some?
  {
    tick := Max(first[0].tick, second[0].tick);
  }

  ghost predicate RowEmpty(enabled: seq<Tracks>, i: nat, report: Tracks -> seq<Conflict>) {
    forall j :: i < j < |enabled| ==> report(enabled[j]) == []
  }

  lemma {:induction false} RowsEmpty(enabled: seq<Tracks>, count: nat, report: Tracks -> Tracks -> seq<Conflict>)
    requires count <= |enabled|
    ensures Rows(enabled, count, report) == [] <==>
            forall i :: 0 <= i < count ==> RowEmpty(enabled, i, report(enabled[i]))
  {
    if count > 0 {
      RowsEmpty(enabled, count - 1, report);
      var rest := enabled[count..];
      ConcatEmpty(rest, report(enabled[count - 1]));
      assert forall j :: count - 1 < j < |enabled| ==> enabled[j] == rest[j - count];
    }
  }

  ghost predicate TrackOfLayer(segments: seq<Segment>, layer: Layer, axis: Axis) {
    && AllDense(segments)
    && forall tick :: SampleSegments(segments, tick) == FirstAt(layer.frames, axis, tick)
  }

  lemma LayerTrack(layer: Layer, axis: Axis)
    requires axis in AxesOf(layer.frames)
    ensures TrackOfLayer(LayerSegments(layer.frames, None)[axis], layer, axis)
  {
    SeriesIsOrdered(layer.frames, axis);
    SegmentsAreDense(Series(layer.frames, axis));
    forall tick
      ensures SampleSegments(LayerSegments(layer.frames, None)[axis], tick) == FirstAt(layer.frames, axis, tick)
    {
      SupplyIsLookup(layer.frames, axis, tick);
    }
  }

  lemma AxisMeaning(
    a: Layer, b: Layer, axis: Axis, left: Tracks, right: Tracks, firsts: seq<Segment>, seconds: seq<Segment>)
    requires TrackOfLayer(firsts, a, axis) && TrackOfLayer(seconds, b, axis)
    ensures Concat(firsts, SegmentReport(left, right, axis, seconds)) == [] <==> NeverClash(a, b, axis)
  {
    AxisConflict(left, right, axis, firsts, seconds);
    forall tick ensures Clash(a, b, axis, tick) <==> BothSample(firsts, seconds, tick) {}
    if Concat(firsts, SegmentReport(left, right, axis, seconds)) != [] {
      var tick :| BothSample(firsts, seconds, tick);
      assert Clash(a, b, axis, tick);
    }
  }

  lemma {:induction false} ConcatOverAxes(axes: seq<Axis>, report: Axis -> seq<Conflict>)
    ensures Concat(axes, report) == [] <==> forall axis :: axis in axes ==> report(axis) == []
  {
    ConcatEmpty(axes, report);
  }

  /** One pair of layers. */
  lemma PairMeaning(a: Layer, b: Layer, left: Tracks, right: Tracks)
    requires left == Tracks(a.id, a.name, LayerSegments(a.frames, None))
    requires right == Tracks(b.id, b.name, LayerSegments(b.frames, None))
    ensures PairReport(left)(right) == [] <==> forall axis :: NeverClash(a, b, axis)
  {
    var axes := SortedSet(left.tracks.Keys * right.tracks.Keys);
    ConcatOverAxes(axes, AxisReport(left, right));
    forall axis
      ensures axis in axes ==> (AxisReport(left, right)(axis) == [] <==> NeverClash(a, b, axis))
      ensures axis !in axes ==> NeverClash(a, b, axis)
    {
      if axis in axes {
        LayerTrack(a, axis);
        LayerTrack(b, axis);
        AxisMeaning(a, b, axis, left, right, left.tracks[axis], right.tracks[axis]);
      } else {
        MissingAxisNeverClashes(a, b, axis);
      }
    }
  }

  lemma MissingAxisNeverClashes(a: Layer, b: Layer, axis: Axis)
    requires axis !in AxesOf(a.frames) || axis !in AxesOf(b.frames)
    ensures NeverClash(a, b, axis)
  {
    forall tick ensures !Clash(a, b, axis, tick) {
      SupplyIsLookup(a.frames, axis, tick);
      SupplyIsLookup(b.frames, axis, tick);
    }
  }

  lemma LayerRow(layers: seq<Layer>, i: nat)
    requires i < |Enabled(layers)|
    ensures RowEmpty(TracksOf(layers, None), i, PairReport(TracksOf(layers, None)[i])) <==>
            forall j, axis :: i < j < |Enabled(layers)| ==> NeverClash(Enabled(layers)[i], Enabled(layers)[j], axis)
  {
    var enabled, tracks := Enabled(layers), TracksOf(layers, None);
    forall j | i < j < |enabled|
      ensures PairReport(tracks[i])(tracks[j]) == [] <==> forall axis :: NeverClash(enabled[i], enabled[j], axis)
    {
      PairMeaning(enabled[i], enabled[j], tracks[i], tracks[j]);
    }
  }

  /** The report is empty exactly when no tick of any axis is supplied twice. */
  lemma NoConflictsMeansConflictFree(layers: seq<Layer>)
    ensures ProjectConflicts(layers, None) == [] <==> ConflictFree(layers)
  {
    var tracks := TracksOf(layers, None);
    RowsEmpty(tracks, |tracks|, PairReports());
    forall i | 0 <= i < |tracks|
      ensures RowEmpty(tracks, i, PairReports()(tracks[i])) <==>
              forall j, axis :: i < j < |tracks| ==> NeverClash(Enabled(layers)[i], Enabled(layers)[j], axis)
    {
      LayerRow(layers, i);
    }
  }
}

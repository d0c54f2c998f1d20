/** Which stretches of time playback owns on each axis, decided once and asked
    through a single test. */
module Ownership {
  import opened MotionTypes
  import opened Sorting
  import opened Timeline
  import opened LayerConflicts
  import opened Rendering

  /** Both ends of a span belong to it. */
  predicate Inside(span: Span, tick: nat) { span.0 <= tick <= span.1 }

  /** The single ownership test. */
  predicate OwnedAt(spans: seq<Span>, tick: nat) {
    exists i :: 0 <= i < |spans| && Inside(spans[i], tick)
  }

  ghost predicate Proper(spans: seq<Span>) {
    forall i :: 0 <= i < |spans| ==> spans[i].0 <= spans[i].1
  }

  /** In time order, with at least one free tick between neighbours. */
  ghost predicate Separated(spans: seq<Span>) {
    && Proper(spans)
    && forall i, j :: 0 <= i < j < |spans| ==> spans[i].1 + 1 < spans[j].0
  }

  function SpanLeq(): (Span, Span) -> bool {
    (a: Span, b: Span) => a.0 < b.0 || (a.0 == b.0 && a.1 <= b.1)
  }

  /** Sorting does not change what is covered. */
  lemma SortedCoversTheSame(spans: seq<Span>, tick: nat)
    ensures OwnedAt(Sort(spans, SpanLeq()), tick) <==> OwnedAt(spans, tick)
  {
    var sorted := Sort(spans, SpanLeq());
    if i :| 0 <= i < |sorted| && Inside(sorted[i], tick) {
      assert sorted[i] in sorted;
      var j :| 0 <= j < |spans| && spans[j] == sorted[i];
      assert Inside(spans[j], tick);
    }
    if i :| 0 <= i < |spans| && Inside(spans[i], tick) {
      assert spans[i] in spans;
      var j :| 0 <= j < |sorted| && sorted[j] == spans[i];
      assert Inside(sorted[j], tick);
    }
  }

  /** What one step of the merge does to the spans built so far. */
  function MergeStep(merged: seq<Span>, span: Span): seq<Span> {
    if merged != [] && span.0 <= Last(merged).1 + 1
    then Front(merged) + [(Last(merged).0, Max(Last(merged).1, span.1))]
    else merged + [span]
  }

  lemma OwnedAtSnoc(spans: seq<Span>, span: Span, tick: nat)
    ensures OwnedAt(spans + [span], tick) <==> OwnedAt(spans, tick) || Inside(span, tick)
  {
    var longer := spans + [span];
    if i :| 0 <= i < |spans| && Inside(spans[i], tick) { assert Inside(longer[i], tick); }
    if Inside(span, tick) { assert Inside(longer[|spans|], tick); }
  }

  lemma MergeStepIsRight(merged: seq<Span>, span: Span)
    requires Separated(merged) && span.0 <= span.1
    requires merged != [] ==> Last(merged).0 <= span.0
    ensures Separated(MergeStep(merged, span)) && Last(MergeStep(merged, span)).0 <= span.0
    ensures forall tick :: OwnedAt(MergeStep(merged, span), tick) <==> OwnedAt(merged, tick) || Inside(span, tick)
  {
    forall tick ensures OwnedAt(MergeStep(merged, span), tick) <==> OwnedAt(merged, tick) || Inside(span, tick) {
      OwnedAtSnoc(merged, span, tick);
      if merged != [] && span.0 <= Last(merged).1 + 1 {
        assert merged == Front(merged) + [Last(merged)];
        OwnedAtSnoc(Front(merged), Last(merged), tick);
        OwnedAtSnoc(Front(merged), (Last(merged).0, Max(Last(merged).1, span.1)), tick);
      }
    }
  }

  ghost predicate CoverTheSame(a: seq<Span>, b: seq<Span>) {
    forall tick :: OwnedAt(a, tick) <==> OwnedAt(b, tick)
  }

  lemma MergeStepCovers(merged: seq<Span>, sorted: seq<Span>, i: nat)
    requires i < |sorted| && CoverTheSame(merged, sorted[..i])
    requires Separated(merged) && Proper(sorted)
    requires merged != [] ==> Last(merged).0 <= sorted[i].0
    ensures CoverTheSame(MergeStep(merged, sorted[i]), sorted[..i + 1])
  {
    MergeStepIsRight(merged, sorted[i]);
    forall tick ensures OwnedAt(MergeStep(merged, sorted[i]), tick) <==> OwnedAt(sorted[..i + 1], tick) {
      assert sorted[..i + 1] == sorted[..i] + [sorted[i]];
      OwnedAtSnoc(sorted[..i], sorted[i], tick);
    }
  }

  lemma SortedSpans(spans: seq<Span>)
    requires Proper(spans)
    ensures Proper(Sort(spans, SpanLeq())) && CoverTheSame(Sort(spans, SpanLeq()), spans)
    ensures forall i :: 0 < i < |spans| ==> Sort(spans, SpanLeq())[i - 1].0 <= Sort(spans, SpanLeq())[i].0
  {
    var sorted := Sort(spans, SpanLeq());
    SortOrdered(spans, SpanLeq());
    forall i | 0 <= i < |sorted| ensures sorted[i].0 <= sorted[i].1 {
      assert sorted[i] in sorted;
    }
    forall i | 0 < i < |spans| ensures sorted[i - 1].0 <= sorted[i].0 {
      assert SpanLeq()(sorted[i - 1], sorted[i]);
    }
    forall tick ensures OwnedAt(sorted, tick) <==> OwnedAt(spans, tick) {
      SortedCoversTheSame(spans, tick);
    }
  }

  /** Joins spans that overlap or touch: the same ticks, in separated spans. */
  method MergeRanges(spans: seq<Span>) returns (merged: seq<Span>)
    requires Proper(spans)
    ensures Separated(merged) && CoverTheSame(merged, spans)
  {
    var sorted := Sort(spans, SpanLeq());
    SortedSpans(spans);
    merged := [];
    for i := 0 to |sorted|
      invariant Separated(merged) && CoverTheSame(merged, sorted[..i])
      invariant merged != [] ==> i > 0 && Last(merged).0 <= sorted[i - 1].0
    {
      MergeStepIsRight(merged, sorted[i]);
      MergeStepCovers(merged, sorted, i);
      if merged != [] && sorted[i].0 <= merged[|merged| - 1].1 + 1 {
        merged := merged[..|merged| - 1] + [(merged[|merged| - 1].0, Max(merged[|merged| - 1].1, sorted[i].1))];
      } else {
        merged := merged + [sorted[i]];
      }
    }
    assert sorted[..|sorted|] == sorted;
  }

  // ----- Playback's spans ---------------------------------------------------------------

  /** A layer owns an axis from its first value to its last one, gaps included. */
  ghost predicate LayerOwns(layer: Layer, axis: Axis, tick: nat) {
    exists start: nat, end: nat :: start <= tick <= end && Spans(layer, axis, start, end)
  }

  ghost predicate Spans(layer: Layer, axis: Axis, start: nat, end: nat) {
    FirstAt(layer.frames, axis, start).Some? && FirstAt(layer.frames, axis, end).Some?
  }

  ghost predicate Owns(layers: seq<Layer>, axis: Axis, tick: nat) {
    exists i :: 0 <= i < |layers| && LayerOwns(layers[i], axis, tick)
  }

  lemma {:induction false} AxisHasPoints(frames: seq<Frame>, axis: Axis)
    ensures AxisPoints(frames, axis) != [] <==> axis in AxesOf(frames)
  {
    if frames != [] {
      AxisHasPoints(frames[1..], axis);
      assert frames == [frames[0]] + frames[1..];
    }
  }

  /** The first and last sample of a layer's series bound everything it supplies. */
  lemma SeriesBounds(layer: Layer, axis: Axis)
    requires axis in AxesOf(layer.frames)
    ensures var s := Series(layer.frames, axis);
            && s != [] && s[0].tick <= Last(s).tick
            && Spans(layer, axis, s[0].tick, Last(s).tick)
            && forall tick: nat :: FirstAt(layer.frames, axis, tick).Some? ==> s[0].tick <= tick <= Last(s).tick
  {
    var s := Series(layer.frames, axis);
    AxisHasPoints(layer.frames, axis);
    SeriesIsOrdered(layer.frames, axis);
    forall i, j | 0 <= i < j < |s| ensures s[i].tick <= s[j].tick {
      assert PointLeq()(s[i], s[j]);
    }
    forall k | 0 <= k < |s| ensures FirstAt(layer.frames, axis, s[k].tick).Some? {
      SeriesLookup(layer.frames, axis, s[k].tick);
      if FirstPointAt(s, s[k].tick).None? { PresentPoint(s, k); }
    }
    forall tick: nat | FirstAt(layer.frames, axis, tick).Some? ensures s[0].tick <= tick <= Last(s).tick {
      SeriesLookup(layer.frames, axis, tick);
      if !(s[0].tick <= tick <= Last(s).tick) { FirstPointAtMissing(s, tick); }
    }
  }

  lemma {:induction false} PresentPoint(points: seq<Point>, k: nat)
    requires k < |points|
    ensures FirstPointAt(points, points[k].tick).Some?
  {
    if k > 0 { PresentPoint(points[1..], k - 1); }
  }

  /** One layer's span on one axis is exactly what it owns there. */
  lemma SpanIsOwned(layer: Layer, axis: Axis, tick: nat)
    requires axis in AxesOf(layer.frames)
    ensures var s := Series(layer.frames, axis);
            s != [] && (Inside((s[0].tick, Last(s).tick), tick) <==> LayerOwns(layer, axis, tick))
  {
    SeriesBounds(layer, axis);
    var s := Series(layer.frames, axis);
    if start: nat, end: nat :| start <= tick <= end && Spans(layer, axis, start, end) {
      assert s[0].tick <= start && end <= Last(s).tick;
    }
  }

  lemma AbsentOwnsNothing(layer: Layer, axis: Axis, tick: nat)
    requires axis !in AxesOf(layer.frames)
    ensures !LayerOwns(layer, axis, tick)
  {
    forall t: nat ensures FirstAt(layer.frames, axis, t).None? {
      FirstAtNeedsAxis(layer.frames, axis, t);
    }
  }

  method AxisRanges(layers: seq<Layer>, axis: Axis) returns (ranges: seq<Span>)
    ensures Proper(ranges)
    ensures forall tick :: OwnedAt(ranges, tick) <==> Owns(layers, axis, tick)
  {
    ranges := [];
    for i := 0 to |layers|
      invariant Proper(ranges)
      invariant forall tick :: OwnedAt(ranges, tick) <==> Owns(layers[..i], axis, tick)
    {
      ghost var before := ranges;
      if axis in AxesOf(layers[i].frames) {
        SeriesBounds(layers[i], axis);
        var points := Series(layers[i].frames, axis);
        ranges := ranges + [(points[0].tick, points[|points| - 1].tick)];
      }
      forall tick ensures OwnedAt(ranges, tick) <==> Owns(layers[..i + 1], axis, tick) {
        OwnsSnoc(layers, i, axis, tick);
        if axis in AxesOf(layers[i].frames) {
          SpanIsOwned(layers[i], axis, tick);
          OwnedAtSnoc(before, ranges[|before|], tick);
        } else {
          AbsentOwnsNothing(layers[i], axis, tick);
        }
      }
    }
    assert layers[..|layers|] == layers;
  }

  lemma OwnsSnoc(layers: seq<Layer>, i: nat, axis: Axis, tick: nat)
    requires i < |layers|
    ensures Owns(layers[..i + 1], axis, tick) <==> Owns(layers[..i], axis, tick) || LayerOwns(layers[i], axis, tick)
  {}

  type Table = map<Axis, seq<Span>>

  /** What the table handed to playback, recording and MIDI means. */
  ghost predicate IsOwnership(table: Table, layers: seq<Layer>) {
    && table.Keys == ProjectAxes(layers)
    && forall axis :: axis in table ==>
         Separated(table[axis]) && forall tick :: OwnedAt(table[axis], tick) <==> Owns(Enabled(layers), axis, tick)
  }

  method PlaybackOwnership(layers: seq<Layer>) returns (table: Table)
    ensures IsOwnership(table, layers)
  {
    table := map[];
    var axes := SortedSet(ProjectAxes(layers));
    for i := 0 to |axes|
      invariant table.Keys == set axis | axis in axes[..i]
      invariant forall axis :: axis in table ==>
        Separated(table[axis]) && forall tick :: OwnedAt(table[axis], tick) <==> Owns(Enabled(layers), axis, tick)
    {
      var ranges := AxisRanges(Enabled(layers), axes[i]);
      var merged := MergeRanges(ranges);
      table := table[axes[i] := merged];
      assert axes[..i + 1] == axes[..i] + [axes[i]];
    }
    assert axes[..|axes|] == axes;
  }

  /** The spans of an axis, none when the table does not name it. */
  function SpansOf(table: Table, axis: Axis): seq<Span> {
    if axis in table then table[axis] else []
  }

  /** An axis that the table does not name is never owned, so the table as a whole
      answers for every axis. */
  lemma TableAnswers(table: Table, layers: seq<Layer>, axis: Axis, tick: nat)
    requires IsOwnership(table, layers)
    ensures OwnedAt(SpansOf(table, axis), tick) <==> Owns(Enabled(layers), axis, tick)
  {
    if axis !in table {
      forall i | 0 <= i < |Enabled(layers)| ensures !LayerOwns(Enabled(layers)[i], axis, tick) {
        assert Enabled(layers)[i] in Enabled(layers);
        AbsentOwnsNothing(Enabled(layers)[i], axis, tick);
      }
    }
  }

  // ----- Spans and recorded values --------------------------------------------------------

  lemma OwnedWhereSupplied(layers: seq<Layer>, axis: Axis, tick: nat)
    requires SupplyAt(layers, axis, tick).Some?
    ensures Owns(layers, axis, tick)
  {
    SomeLayerSupplies(layers, axis, tick);
    var i :| 0 <= i < |layers| && FirstAt(layers[i].frames, axis, tick).Some?;
    assert Spans(layers[i], axis, tick, tick);
    assert LayerOwns(layers[i], axis, tick);
  }

  /** The start of the span that makes an axis owned at `tick`. */
  lemma OwnedSince(layers: seq<Layer>, axis: Axis, tick: nat) returns (start: nat)
    requires Owns(layers, axis, tick)
    ensures start <= tick && SupplyAt(layers, axis, start).Some?
    ensures forall t: nat :: start <= t <= tick ==> Owns(layers, axis, t)
  {
    var i :| 0 <= i < |layers| && LayerOwns(layers[i], axis, tick);
    var first: nat, end: nat :| first <= tick <= end && Spans(layers[i], axis, first, end);
    SomeLayerSupplies(layers, axis, first);
    forall t: nat | first <= t <= tick ensures Owns(layers, axis, t) {
      assert LayerOwns(layers[i], axis, t);
    }
    start := first;
  }
}

/** Read-only checks of a layer: whether its frames are what its curves draw, whether its
    values are in range, and whether the frames could be drawn again from the curves. */
module LayerValidation {
  import opened MotionTypes
  import opened Sorting
  import opened Timeline
  import opened CurveEngine
  import opened EditState
  import opened EditFrames
  import opened EditWorkbench
  import opened ChordSelection

  // ----- The values of the frames ----------------------------------------------------------------------

  /** The table of values: a later frame overwrites an earlier one. */
  function LastAt(frames: seq<Frame>, axis: Axis, tick: nat): Option<real> {
    if frames == [] then None
    else if Last(frames).tick == tick && axis in Last(frames).values then Some(Last(frames).values[axis])
    else LastAt(Front(frames), axis, tick)
  }

  type Table = map<(nat, Axis), real>

  function Entry(table: Table, axis: Axis, tick: nat): Option<real> {
    if (tick, axis) in table then Some(table[(tick, axis)]) else None
  }

  ghost predicate TableOf(table: Table, frames: seq<Frame>) {
    forall axis, tick :: Entry(table, axis, tick) == LastAt(frames, axis, tick)
  }

  method FrameTable(frames: seq<Frame>) returns (table: Table)
    ensures TableOf(table, frames)
  {
    table := map[];
    for i := 0 to |frames|
      invariant TableOf(table, frames[..i])
    {
      assert Front(frames[..i + 1]) == frames[..i];
      ghost var before := table;
      var frame := frames[i];
      table := table + map axis | axis in frame.values :: (frame.tick, axis) := frame.values[axis];
      OneMoreFrame(before, table, frames[..i], frame);
      assert frames[..i + 1] == frames[..i] + [frame];
    }
    assert frames[..|frames|] == frames;
  }

  lemma OneMoreFrame(before: Table, table: Table, frames: seq<Frame>, frame: Frame)
    requires TableOf(before, frames)
    requires table == before + map axis | axis in frame.values :: (frame.tick, axis) := frame.values[axis]
    ensures TableOf(table, frames + [frame])
  {
    assert Front(frames + [frame]) == frames;
    forall axis, tick ensures Entry(table, axis, tick) == LastAt(frames + [frame], axis, tick) {
      assert Entry(before, axis, tick) == LastAt(frames, axis, tick);
    }
  }

  // ----- Do the frames agree with a curve? ---------------------------------------------------------------

  datatype FirstMismatch = FirstMismatch(tick: nat, expected: real, actual: Option<real>)

  /** What has been found so far: how many samples differ, whether one is missing, the
      largest difference of the others, and the first one. */
  datatype Tally = Tally(count: nat, missing: bool, largest: real, first: Option<FirstMismatch>)

  function Fine(actual: Option<real>, expected: real, tolerance: real): bool {
    actual.Some? && Abs(actual.value - expected) <= tolerance
  }

  function Counted(tally: Tally, sample: Point, actual: Option<real>, tolerance: real): Tally {
    if Fine(actual, sample.value, tolerance) then tally
    else
      var delta := if actual.Some? then Abs(actual.value - sample.value) else 0.0;
      Tally(tally.count + 1, tally.missing || actual.None?,
            if delta > tally.largest then delta else tally.largest,
            if tally.first.Some? then tally.first else Some(FirstMismatch(sample.tick, sample.value, actual)))
  }

  function TallyOf(frames: seq<Frame>, axis: Axis, samples: seq<Point>, tolerance: real): Tally {
    if samples == [] then Tally(0, false, 0.0, None)
    else
      Counted(TallyOf(frames, axis, Front(samples), tolerance), Last(samples),
              LastAt(frames, axis, Last(samples).tick), tolerance)
  }

  method CountMismatches(table: Table, ghost frames: seq<Frame>, axis: Axis, samples: seq<Point>, tolerance: real)
    returns (tally: Tally)
    requires TableOf(table, frames)
    ensures tally == TallyOf(frames, axis, samples, tolerance)
  {
    tally := Tally(0, false, 0.0, None);
    for i := 0 to |samples|
      invariant tally == TallyOf(frames, axis, samples[..i], tolerance)
    {
      assert Front(samples[..i + 1]) == samples[..i];
      assert Entry(table, axis, samples[i].tick) == LastAt(frames, axis, samples[i].tick);
      tally := Counted(tally, samples[i], Entry(table, axis, samples[i].tick), tolerance);
    }
    assert samples[..|samples|] == samples;
  }

  ghost predicate Agrees(frames: seq<Frame>, axis: Axis, sample: Point, tolerance: real) {
    Fine(LastAt(frames, axis, sample.tick), sample.value, tolerance)
  }

  /** Nothing is counted exactly when every sample agrees, and the first mismatch is the
      first sample that does not. */
  ghost predicate CountTrue(frames: seq<Frame>, axis: Axis, samples: seq<Point>, tolerance: real, tally: Tally) {
    && (tally.count == 0 <==> forall i :: 0 <= i < |samples| ==> Agrees(frames, axis, samples[i], tolerance))
    && (tally.count == 0 <==> tally.first.None?)
    && (tally.first.Some? ==> FirstOf(frames, axis, samples, tolerance, tally.first.value))
  }

  /** Something is missing exactly when some sample has no value, and no difference is
      larger than the largest one, or than the tolerance. */
  ghost predicate SizeTrue(frames: seq<Frame>, axis: Axis, samples: seq<Point>, tolerance: real, tally: Tally) {
    && (tally.missing <==> exists i :: 0 <= i < |samples| && LastAt(frames, axis, samples[i].tick).None?)
    && forall i :: 0 <= i < |samples| ==>
         LastAt(frames, axis, samples[i].tick).Some? ==>
           Abs(LastAt(frames, axis, samples[i].tick).value - samples[i].value) <= Bigger(tally.largest, tolerance)
  }

  function Bigger(a: real, b: real): real { if a < b then b else a }

  /** The tally tells what it is meant to. */
  lemma {:induction false} TallyTells(frames: seq<Frame>, axis: Axis, samples: seq<Point>, tolerance: real)
    requires tolerance >= 0.0
    ensures CountTrue(frames, axis, samples, tolerance, TallyOf(frames, axis, samples, tolerance))
    ensures SizeTrue(frames, axis, samples, tolerance, TallyOf(frames, axis, samples, tolerance))
  {
    if samples != [] {
      TallyTells(frames, axis, Front(samples), tolerance);
      CountStep(frames, axis, samples, tolerance);
      SizeStep(frames, axis, samples, tolerance);
    }
  }

  ghost predicate FirstOf(frames: seq<Frame>, axis: Axis, samples: seq<Point>, tolerance: real, first: FirstMismatch) {
    exists k :: 0 <= k < |samples| && IsFirstAt(frames, axis, samples, tolerance, first, k)
  }

  ghost predicate IsFirstAt(
    frames: seq<Frame>, axis: Axis, samples: seq<Point>, tolerance: real, first: FirstMismatch, k: nat)
  {
    && k < |samples|
    && first == FirstMismatch(samples[k].tick, samples[k].value, LastAt(frames, axis, samples[k].tick))
    && !Agrees(frames, axis, samples[k], tolerance)
    && forall i :: 0 <= i < k ==> Agrees(frames, axis, samples[i], tolerance)
  }

  lemma CountStep(frames: seq<Frame>, axis: Axis, samples: seq<Point>, tolerance: real)
    requires samples != []
    requires CountTrue(frames, axis, Front(samples), tolerance, TallyOf(frames, axis, Front(samples), tolerance))
    ensures CountTrue(frames, axis, samples, tolerance, TallyOf(frames, axis, samples, tolerance))
  {
    var k := |samples| - 1;
    var before := TallyOf(frames, axis, Front(samples), tolerance);
    assert forall i :: 0 <= i < k ==> Front(samples)[i] == samples[i];
    if before.first.Some? {
      FirstStays(frames, axis, samples, tolerance, before.first.value);
    } else if !Agrees(frames, axis, samples[k], tolerance) {
      FirstFound(frames, axis, samples, tolerance);
    }
  }

  lemma SizeStep(frames: seq<Frame>, axis: Axis, samples: seq<Point>, tolerance: real)
    requires samples != []
    requires SizeTrue(frames, axis, Front(samples), tolerance, TallyOf(frames, axis, Front(samples), tolerance))
    ensures SizeTrue(frames, axis, samples, tolerance, TallyOf(frames, axis, samples, tolerance))
  {
    assert forall i :: 0 <= i < |samples| - 1 ==> Front(samples)[i] == samples[i];
  }

  lemma FirstStays(frames: seq<Frame>, axis: Axis, samples: seq<Point>, tolerance: real, first: FirstMismatch)
    requires samples != [] && FirstOf(frames, axis, Front(samples), tolerance, first)
    ensures FirstOf(frames, axis, samples, tolerance, first)
  {
    var j :| 0 <= j < |samples| - 1 && IsFirstAt(frames, axis, Front(samples), tolerance, first, j);
    assert forall i :: 0 <= i <= j ==> Front(samples)[i] == samples[i];
    assert IsFirstAt(frames, axis, samples, tolerance, first, j);
  }

  lemma FirstFound(frames: seq<Frame>, axis: Axis, samples: seq<Point>, tolerance: real)
    requires samples != [] && !Agrees(frames, axis, Last(samples), tolerance)
    requires forall i :: 0 <= i < |samples| - 1 ==> Agrees(frames, axis, samples[i], tolerance)
    ensures var last := Last(samples);
            FirstOf(frames, axis, samples, tolerance,
                    FirstMismatch(last.tick, last.value, LastAt(frames, axis, last.tick)))
  {
    var last := Last(samples);
    var first := FirstMismatch(last.tick, last.value, LastAt(frames, axis, last.tick));
    assert IsFirstAt(frames, axis, samples, tolerance, first, |samples| - 1);
  }

  // ----- The mismatches of a layer -----------------------------------------------------------------------

  datatype Mismatch = Mismatch(curveId: string, axis: Axis, start: nat, end: nat, tally: Tally)

  function CurveMismatch(render: Render, frames: seq<Frame>, curve: Curve, tolerance: real): Result<seq<Mismatch>> {
    var drawn := render(curve.points, curve.order);
    if drawn.Err? then Err(drawn.reason)
    else
      var (stored, samples) := drawn.value;
      var tally := TallyOf(frames, curve.axis, samples, tolerance);
      if tally.count == 0 || stored == [] then Ok([])
      else Ok([Mismatch(curve.id, curve.axis, stored[0].tick, Last(stored).tick, tally)])
  }

  function Mismatches(render: Render, frames: seq<Frame>, curves: seq<Curve>, tolerance: real): Result<seq<Mismatch>> {
    if curves == [] then Ok([])
    else
      var before := Mismatches(render, frames, Front(curves), tolerance);
      var last := CurveMismatch(render, frames, Last(curves), tolerance);
      if before.Err? then before else if last.Err? then last else Ok(before.value + last.value)
  }

  /** `point_curve_frame_mismatches`. */
  method ListMismatches(frames: seq<Frame>, curves: seq<Curve>, tolerance: real, ghost render: Render)
    returns (r: Result<seq<Mismatch>>)
    requires Engine(render) && Renders(render)
    ensures r.Ok? <==> Mismatches(render, frames, curves, tolerance).Ok?
    ensures r.Ok? ==> r == Mismatches(render, frames, curves, tolerance)
  {
    var table := FrameTable(frames);
    var issues := [];
    for i := 0 to |curves|
      invariant Mismatches(render, frames, curves[..i], tolerance) == Ok(issues)
    {
      assert Front(curves[..i + 1]) == curves[..i];
      var drawn := Draw(curves[i].points, curves[i].order, render);
      if drawn.Err? {
        MismatchesFail(render, frames, curves, i + 1, tolerance);
        return Err(drawn.reason);
      }
      var (stored, samples) := drawn.value;
      assert RendersWell(render, curves[i].points, curves[i].order);
      var tally := CountMismatches(table, frames, curves[i].axis, samples, tolerance);
      assert issues + [] == issues;
      if tally.count != 0 {
        issues := issues + [Mismatch(curves[i].id, curves[i].axis, stored[0].tick, Last(stored).tick, tally)];
      }
    }
    assert curves[..|curves|] == curves;
    return Ok(issues);
  }

  lemma {:induction false} MismatchesFail(render: Render, frames: seq<Frame>, curves: seq<Curve>, k: nat, tolerance: real)
    requires k <= |curves| && Mismatches(render, frames, curves[..k], tolerance).Err?
    ensures Mismatches(render, frames, curves, tolerance).Err?
    decreases |curves|
  {
    if k < |curves| {
      assert Front(curves)[..k] == curves[..k];
      MismatchesFail(render, frames, Front(curves), k, tolerance);
    } else {
      assert curves[..k] == curves;
    }
  }

  /** The frames agree with a curve everywhere. */
  ghost predicate Matches(render: Render, frames: seq<Frame>, curve: Curve, tolerance: real) {
    render(curve.points, curve.order).Ok? &&
    forall i :: 0 <= i < |render(curve.points, curve.order).value.1| ==>
      Agrees(frames, curve.axis, render(curve.points, curve.order).value.1[i], tolerance)
  }

  /** No mismatch is listed exactly when the frames agree with every curve. */
  lemma {:induction false} NoMismatchMeansMatch(
    render: Render, frames: seq<Frame>, curves: seq<Curve>, tolerance: real)
    requires Renders(render) && tolerance >= 0.0
    ensures Mismatches(render, frames, curves, tolerance) == Ok([]) <==>
            forall i :: 0 <= i < |curves| ==> Matches(render, frames, curves[i], tolerance)
  {
    if curves != [] {
      var front, last := Front(curves), Last(curves);
      NoMismatchMeansMatch(render, frames, front, tolerance);
      OneCurveMatches(render, frames, last, tolerance);
      var before, one := Mismatches(render, frames, front, tolerance), CurveMismatch(render, frames, last, tolerance);
      assert before.Ok? && one.Ok? ==> (before.value + one.value == [] <==> before.value == [] && one.value == []);
      assert forall i :: 0 <= i < |front| ==> front[i] == curves[i];
    }
  }

  lemma OneCurveMatches(render: Render, frames: seq<Frame>, curve: Curve, tolerance: real)
    requires Renders(render) && tolerance >= 0.0
    ensures CurveMismatch(render, frames, curve, tolerance) == Ok([]) <==> Matches(render, frames, curve, tolerance)
  {
    if render(curve.points, curve.order).Ok? {
      assert RendersWell(render, curve.points, curve.order);
      TallyTells(frames, curve.axis, render(curve.points, curve.order).value.1, tolerance);
    }
  }

  // ----- Ranges ---------------------------------------------------------------------------------------------

  datatype RangeIssue = RangeIssue(axis: Axis, tick: nat, value: real, lower: real, upper: real)

  function Lower(limits: (real, real)): real { if limits.0 <= limits.1 then limits.0 else limits.1 }

  function Upper(limits: (real, real)): real { if limits.0 <= limits.1 then limits.1 else limits.0 }

  function IssueFor(axis: Axis, tick: nat, value: real, ranges: map<Axis, (real, real)>): seq<RangeIssue> {
    if axis !in ranges || Lower(ranges[axis]) <= value <= Upper(ranges[axis]) then []
    else [RangeIssue(axis, tick, value, Lower(ranges[axis]), Upper(ranges[axis]))]
  }

  function AxisIssues(frame: Frame, axes: seq<Axis>, ranges: map<Axis, (real, real)>): seq<RangeIssue> {
    if axes == [] then []
    else AxisIssues(frame, Front(axes), ranges)
         + (if Last(axes) in frame.values then IssueFor(Last(axes), frame.tick, frame.values[Last(axes)], ranges) else [])
  }

  function RangeIssues(frames: seq<Frame>, ranges: map<Axis, (real, real)>): seq<RangeIssue> {
    if frames == [] then []
    else RangeIssues(Front(frames), ranges) + AxisIssues(Last(frames), SortedSet(Last(frames).values.Keys), ranges)
  }

  method AxisIssue(axis: Axis, tick: nat, value: real, ranges: map<Axis, (real, real)>)
    returns (issue: seq<RangeIssue>)
    ensures issue == IssueFor(axis, tick, value, ranges)
  {
    issue := [];
    if axis in ranges {
      var lower, upper := Lower(ranges[axis]), Upper(ranges[axis]);
      if value < lower || value > upper {
        issue := [RangeIssue(axis, tick, value, lower, upper)];
      }
    }
  }

  method FrameIssues(frame: Frame, ranges: map<Axis, (real, real)>) returns (issues: seq<RangeIssue>)
    ensures issues == AxisIssues(frame, SortedSet(frame.values.Keys), ranges)
  {
    var axes := SortedSet(frame.values.Keys);
    issues := [];
    for i := 0 to |axes|
      invariant issues == AxisIssues(frame, axes[..i], ranges)
    {
      assert axes[i] in axes;
      var issue := AxisIssue(axes[i], frame.tick, frame.values[axes[i]], ranges);
      OneMoreAxis(frame, axes, i, ranges);
      issues := issues + issue;
    }
    assert axes[..|axes|] == axes;
  }

  lemma OneMoreAxis(frame: Frame, axes: seq<Axis>, i: nat, ranges: map<Axis, (real, real)>)
    requires i < |axes| && axes[i] in frame.values
    ensures AxisIssues(frame, axes[..i + 1], ranges) ==
            AxisIssues(frame, axes[..i], ranges) + IssueFor(axes[i], frame.tick, frame.values[axes[i]], ranges)
  {
    assert Front(axes[..i + 1]) == axes[..i];
  }

  /** `validate_ranges`. */
  method ValidateRanges(frames: seq<Frame>, ranges: map<Axis, (real, real)>) returns (issues: seq<RangeIssue>)
    ensures issues == RangeIssues(frames, ranges)
  {
    issues := [];
    for i := 0 to |frames|
      invariant issues == RangeIssues(frames[..i], ranges)
    {
      assert Front(frames[..i + 1]) == frames[..i];
      var more := FrameIssues(frames[i], ranges);
      issues := issues + more;
    }
    assert frames[..|frames|] == frames;
  }

  ghost predicate InRange(frame: Frame, ranges: map<Axis, (real, real)>) {
    forall axis :: axis in frame.values && axis in ranges ==>
      Lower(ranges[axis]) <= frame.values[axis] <= Upper(ranges[axis])
  }

  lemma {:induction false} NoAxisIssue(frame: Frame, axes: seq<Axis>, ranges: map<Axis, (real, real)>)
    ensures AxisIssues(frame, axes, ranges) == [] <==>
            forall axis :: axis in axes && axis in frame.values ==>
              IssueFor(axis, frame.tick, frame.values[axis], ranges) == []
  {
    if axes != [] {
      NoAxisIssue(frame, Front(axes), ranges);
      FrontAndLast(axes);
      assert Last(axes) in axes;
    }
  }

  lemma FrameInRange(frame: Frame, ranges: map<Axis, (real, real)>)
    ensures AxisIssues(frame, SortedSet(frame.values.Keys), ranges) == [] <==> InRange(frame, ranges)
  {
    NoAxisIssue(frame, SortedSet(frame.values.Keys), ranges);
    if InRange(frame, ranges) {
      forall axis | axis in frame.values ensures IssueFor(axis, frame.tick, frame.values[axis], ranges) == [] {}
    }
    if AxisIssues(frame, SortedSet(frame.values.Keys), ranges) == [] {
      forall axis | axis in frame.values && axis in ranges
        ensures Lower(ranges[axis]) <= frame.values[axis] <= Upper(ranges[axis])
      {
        assert IssueFor(axis, frame.tick, frame.values[axis], ranges) == [];
      }
    }
  }

  /** Nothing is reported exactly when every value is within the limits of its axis. */
  lemma {:induction false} NoIssueMeansInRange(frames: seq<Frame>, ranges: map<Axis, (real, real)>)
    ensures RangeIssues(frames, ranges) == [] <==> forall frame :: frame in frames ==> InRange(frame, ranges)
  {
    if frames != [] {
      NoIssueMeansInRange(Front(frames), ranges);
      FrameInRange(Last(frames), ranges);
      FrontAndLast(frames);
    }
  }
}

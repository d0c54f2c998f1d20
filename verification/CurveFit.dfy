/** Fitting a curve to a recording: chords first, then the real curve, then taking out what
    is not needed and moving values within the tolerance. */
module CurveFit {
  import opened MotionTypes
  import opened Sorting
  import opened Timeline
  import opened CurveEngine
  import opened ChordSelection
  import opened FitErrors
  import opened SliceCheck
  import opened Pruning

  // ----- Selections as lists -----------------------------------------------------------------------

  lemma SelectionKeeps(ordered: seq<Point>, selected: set<nat>)
    requires Selection(selected, |ordered|)
    ensures Keeps(ordered, SortedSet(selected)) && |SortedSet(selected)| == |selected|
  {
    var kept := SortedSet(selected);
    SortedSetSize(selected);
    assert 0 in kept && |ordered| - 1 in kept;
    var i :| 0 <= i < |kept| && kept[i] == 0;
    var j :| 0 <= j < |kept| && kept[j] == |ordered| - 1;
    assert kept[0] in kept && kept[|kept| - 1] in kept;
  }

  function Below(n: nat): (s: set<nat>)
    ensures |s| == n && forall k: nat :: k in s <==> k < n
  {
    if n == 0 then {} else Below(n - 1) + {n - 1}
  }

  lemma {:induction false} SubsetSize(part: set<nat>, whole: set<nat>)
    requires part <= whole
    ensures |part| <= |whole|
  {
    if x :| x in part {
      SubsetSize(part - {x}, whole - {x});
    }
  }

  lemma AllOfThem(part: set<nat>, whole: set<nat>)
    requires part <= whole && |part| >= |whole|
    ensures part == whole
  {
    if x :| x in whole && x !in part {
      SubsetSize(part, whole - {x});
    }
  }

  /** With every sample selected the curve hits them all. */
  lemma EverySampleHits(ordered: seq<Point>, mode: TangentMode, selected: set<nat>, shape: Shape)
    requires Recording(ordered) && Selection(selected, |ordered|) && |selected| >= |ordered| && PassesThrough(shape)
    ensures |SortedSet(selected)| >= 2
    ensures Fits(ordered, PointsAt(ordered, mode, SortedSet(selected)), shape, 0.0)
  {
    SelectionKeeps(ordered, selected);
    AllOfThem(selected, Below(|ordered|));
    var kept := SortedSet(selected);
    forall k | 0 <= k < |ordered| ensures Miss(ordered, PointsAt(ordered, mode, kept), shape, k) <= 0.0 {
      assert k in kept;
      var i :| 0 <= i < |kept| && kept[i] == k;
      KeptIsHit(ordered, mode, kept, shape, i);
    }
  }

  // ----- The second pass -----------------------------------------------------------------------------

  /** Every gap that has a sample above the tolerance has its worst one picked. */
  ghost predicate PickedWorst(selected: set<nat>, errors: seq<real>, tolerance: real, picked: seq<nat>) {
    && (forall i :: 0 <= i < |picked| ==>
          picked[i] !in selected && picked[i] < |errors| && errors[picked[i]] > tolerance)
    && (forall left: nat, k: nat, right: nat :: Gap(selected, left, right) && left < k < right < |errors| ==>
          Outdone(errors, tolerance, picked, left, k, right))
  }

  ghost predicate Outdone(
    errors: seq<real>, tolerance: real, picked: seq<nat>, left: nat, k: nat, right: nat)
  {
    k < right < |errors| && errors[k] > tolerance ==>
      exists i :: 0 <= i < |picked| && left < picked[i] < right && errors[k] <= errors[picked[i]]
  }

  /** The worst sample of one gap, if any is above the tolerance. */
  method WorstOfGap(errors: seq<real>, tolerance: real, left: nat, right: nat) returns (candidate: Option<nat>)
    requires left < right < |errors|
    ensures candidate.Some? ==> left < candidate.value < right && errors[candidate.value] > tolerance
    ensures candidate.Some? ==> forall k :: left < k < right ==> errors[k] <= errors[candidate.value]
    ensures candidate.None? ==> forall k :: left < k < right ==> errors[k] <= tolerance
  {
    candidate := None;
    var worst := tolerance;
    for k := left + 1 to right
      invariant candidate.None? ==> worst == tolerance
      invariant candidate.Some? ==> left < candidate.value < k && errors[candidate.value] == worst > tolerance
      invariant forall i :: left < i < k ==> errors[i] <= worst
    {
      if errors[k] > worst {
        candidate, worst := Some(k), errors[k];
      }
    }
  }

  /** Every gap that has a sample above the tolerance gets its worst one picked. */
  method WorstPerGap(selected: set<nat>, errors: seq<real>, tolerance: real) returns (picked: seq<nat>)
    requires Selection(selected, |errors|)
    ensures PickedWorst(selected, errors, tolerance, picked)
  {
    var indices := SortedSet(selected);
    picked := [];
    for i := 0 to |indices| - 1
      invariant PickedSoFar(selected, errors, tolerance, picked, indices, i)
    {
      assert indices[i] in selected && indices[i + 1] in selected;
      AdjacentGap(selected, indices, i);
      var candidate := WorstOfGap(errors, tolerance, indices[i], indices[i + 1]);
      ghost var before := picked;
      if candidate.Some? {
        picked := picked + [candidate.value];
      }
      OneMoreGap(selected, errors, tolerance, before, picked, indices, i);
    }
    forall left: nat, k: nat, right: nat | Gap(selected, left, right) && left < k < right < |errors|
      ensures Outdone(errors, tolerance, picked, left, k, right)
    {
      SortedGap(selected, indices, left, right);
      assert Pair(indices, |indices| - 1, left, right);
    }
  }

  ghost predicate PickedSoFar(
    selected: set<nat>, errors: seq<real>, tolerance: real, picked: seq<nat>, indices: seq<nat>, n: nat)
  {
    && (forall i :: 0 <= i < |picked| ==>
          picked[i] !in selected && picked[i] < |errors| && errors[picked[i]] > tolerance)
    && (forall left: nat, k: nat, right: nat :: Pair(indices, n, left, right) && left < k < right < |errors| ==>
          Outdone(errors, tolerance, picked, left, k, right))
  }

  lemma OneMoreGap(
    selected: set<nat>, errors: seq<real>, tolerance: real, before: seq<nat>, picked: seq<nat>,
    indices: seq<nat>, n: nat)
    requires PickedSoFar(selected, errors, tolerance, before, indices, n)
    requires Increasing(indices) && n < |indices| - 1 && indices[n + 1] < |errors|
    requires Gap(selected, indices[n], indices[n + 1])
    requires picked == before || exists c: nat :: picked == before + [c]
    requires picked == before ==> forall k :: indices[n] < k < indices[n + 1] ==> errors[k] <= tolerance
    requires picked != before ==>
               && indices[n] < Last(picked) < indices[n + 1] && errors[Last(picked)] > tolerance
               && forall k :: indices[n] < k < indices[n + 1] ==> errors[k] <= errors[Last(picked)]
    ensures PickedSoFar(selected, errors, tolerance, picked, indices, n + 1)
  {
    assert forall i :: 0 <= i < |before| ==> picked[i] == before[i];
    forall left: nat, k: nat, right: nat | Pair(indices, n + 1, left, right) && left < k < right < |errors|
      ensures Outdone(errors, tolerance, picked, left, k, right)
    {
      OnePair(indices, n, left, right);
      if Pair(indices, n, left, right) {
        assert Outdone(errors, tolerance, before, left, k, right);
        if errors[k] > tolerance {
          var i :| 0 <= i < |before| && left < before[i] < right && errors[k] <= errors[before[i]];
          assert picked[i] == before[i];
        }
      } else if errors[k] > tolerance {
        assert picked[|picked| - 1] == Last(picked);
      }
    }
  }

  /** The errors of the curve through a selection. */
  ghost predicate ErrorsOf(context: FitContext, selected: set<nat>, errors: seq<real>) {
    && |errors| == |context.ordered| && |SortedSet(selected)| >= 2
    && forall k :: 0 <= k < |errors| ==>
         errors[k] == Miss(context.ordered, PointsAt(context.ordered, context.Mode(), SortedSet(selected)), context.shape, k)
  }

  method SelectionErrors(context: FitContext, selected: set<nat>) returns (errors: seq<real>)
    requires context.Valid() && Selection(selected, |context.ordered|)
    ensures ErrorsOf(context, selected, errors)
  {
    SelectionKeeps(context.ordered, selected);
    var points := PointsAt(context.ordered, context.Mode(), SortedSet(selected));
    KeptCovers(context.ordered, context.Mode(), SortedSet(selected));
    errors := CurveErrors(context.ordered, points, context.order, context.shape);
  }

  /** While some sample is missed, something is picked. */
  lemma SomethingPicked(context: FitContext, selected: set<nat>, errors: seq<real>, picked: seq<nat>)
    requires context.Valid() && Selection(selected, |context.ordered|) && context.tolerance >= 0.0
    requires ErrorsOf(context, selected, errors) && PickedWorst(selected, errors, context.tolerance, picked)
    requires Largest(errors) > context.tolerance
    ensures picked != []
  {
    var kept := SortedSet(selected);
    SelectionKeeps(context.ordered, selected);
    LargestIsLargest(errors);
    var k: nat :| k < |errors| && errors[k] == Largest(errors);
    if k in selected {
      var i :| 0 <= i < |kept| && kept[i] == k;
      KeptIsHit(context.ordered, context.Mode(), kept, context.shape, i);
    }
    var left, right := GapAround(selected, k, |errors|);
    assert Outdone(errors, context.tolerance, picked, left, k, right);
  }

  lemma GapAround(selected: set<nat>, k: nat, n: nat) returns (left: nat, right: nat)
    requires Selection(selected, n) && k < n && k !in selected
    ensures Gap(selected, left, right) && left < k < right < n
  {
    left := k - 1;
    while left !in selected
      invariant left < k && forall i :: left < i <= k ==> i !in selected
      decreases left
    {
      left := left - 1;
    }
    right := k + 1;
    while right !in selected
      invariant k < right < n && forall i :: left < i < right ==> i !in selected
      decreases n - right
    {
      right := right + 1;
    }
  }

  /** Adds the picked samples, as far as there is room. */
  method AddPicked(selected: set<nat>, picked: seq<nat>, room: nat, ghost n: nat) returns (larger: set<nat>)
    requires Selection(selected, n) && |selected| < room && picked != []
    requires forall i :: 0 <= i < |picked| ==> picked[i] !in selected && picked[i] < n
    ensures Selection(larger, n) && selected <= larger && |selected| < |larger| <= room
  {
    larger := selected;
    for i := 0 to |picked|
      invariant Selection(larger, n) && selected <= larger && |larger| <= room
      invariant if i == 0 then larger == selected else selected + {picked[0]} <= larger
    {
      if |larger| >= room {
        SubsetSize(selected + {picked[0]}, larger);
        return;
      }
      larger := larger + {picked[i]};
    }
    SubsetSize(selected + {picked[0]}, larger);
  }

  /** The curve through the selection is within the tolerance. */
  ghost predicate FitsAll(context: FitContext, selected: set<nat>) {
    |SortedSet(selected)| >= 2 &&
    Fits(context.ordered, PointsAt(context.ordered, context.Mode(), SortedSet(selected)), context.shape, context.tolerance)
  }

  lemma ErrorsTell(context: FitContext, selected: set<nat>, errors: seq<real>)
    requires context.Valid() && ErrorsOf(context, selected, errors)
    ensures Largest(errors) <= context.tolerance <==> FitsAll(context, selected)
  {
    LargestTells(context.ordered, PointsAt(context.ordered, context.Mode(), SortedSet(selected)), context.shape,
      context.tolerance, errors);
  }

  /** The second pass: as long as the real curve misses some sample, every bad gap gets
      one more point.  It ends within the tolerance, or with the limit used up. */
  method FillBadGaps(context: FitContext, start: set<nat>) returns (selected: set<nat>, errors: seq<real>)
    requires context.Valid() && Selection(start, |context.ordered|) && context.tolerance > 0.0
    requires |start| <= context.limit
    ensures Selection(selected, |context.ordered|) && start <= selected && |selected| <= context.limit
    ensures ErrorsOf(context, selected, errors)
    ensures Largest(errors) <= context.tolerance || |selected| >= context.limit
    ensures |SortedSet(start)| >= 2 && (FitsAll(context, start) ==> selected == start)
  {
    SelectionKeeps(context.ordered, start);
    selected := start;
    errors := SelectionErrors(context, selected);
    ErrorsTell(context, start, errors);
    var n := |context.ordered|;
    var room := if context.limit < n then context.limit else n;
    while Largest(errors) > context.tolerance && |selected| < room
      invariant Selection(selected, n) && start <= selected && |selected| <= context.limit
      invariant ErrorsOf(context, selected, errors)
      invariant FitsAll(context, start) ==> selected == start && Largest(errors) <= context.tolerance
      decreases room - |selected|
    {
      var picked := WorstPerGap(selected, errors, context.tolerance);
      // With nothing picked the program would stop here; that never happens.
      SomethingPicked(context, selected, errors, picked);
      selected := AddPicked(selected, picked, room, n);
      errors := SelectionErrors(context, selected);
    }
    if |selected| >= n {
      NothingMissed(context, selected, errors);
    }
  }

  lemma NothingMissed(context: FitContext, selected: set<nat>, errors: seq<real>)
    requires context.Valid() && Selection(selected, |context.ordered|) && |selected| >= |context.ordered|
    requires ErrorsOf(context, selected, errors)
    ensures Largest(errors) <= 0.0
  {
    var kept := SortedSet(selected);
    EverySampleHits(context.ordered, context.Mode(), selected, context.shape);
    LargestTells(context.ordered, PointsAt(context.ordered, context.Mode(), kept), context.shape, 0.0, errors);
  }

  // ----- Values that may move --------------------------------------------------------------------------

  const FreeValueTries: nat := 8

  /** What the tuning proposes for the values around a point that was taken out: values
      that it found to be within the tolerance, or nothing.  Where they come from does not
      matter; they are checked before they are used. */
  type Proposal = (seq<nat>, seq<real>, nat, nat) -> Option<seq<real>>

  ghost predicate Proposes(propose: Proposal) {
    forall times, values, slot, attempt :: ProposesFor(propose, times, values, slot, attempt)
  }

  ghost predicate ProposesFor(propose: Proposal, times: seq<nat>, values: seq<real>, slot: nat, attempt: nat) {
    propose(times, values, slot, attempt).Some? ==> |propose(times, values, slot, attempt).value| == |values|
  }

  function FreePoints(times: seq<nat>, values: seq<real>, mode: TangentMode): (r: seq<CurvePoint>)
    requires |times| == |values|
    ensures |r| == |times|
    ensures forall i :: 0 <= i < |r| ==> r[i] == PlainPoint(times[i], values[i], mode)
  {
    seq(|times|, i requires 0 <= i < |times| => PlainPoint(times[i], values[i], mode))
  }

  /** Times in order, from the first to the last of the recording. */
  ghost predicate Spans(ordered: seq<Point>, times: seq<nat>) {
    && Increasing(times) && |times| >= 2 && |ordered| >= 2
    && times[0] == ordered[0].tick && times[|times| - 1] == ordered[|ordered| - 1].tick
  }

  lemma SpansCovers(ordered: seq<Point>, times: seq<nat>, values: seq<real>, mode: TangentMode)
    requires Spans(ordered, times) && |times| == |values|
    ensures Covers(ordered, FreePoints(times, values, mode))
  {}

  /** How far a value is from the line between its neighbours. */
  function FreeCost(times: seq<nat>, values: seq<real>, slot: nat): real
    requires |times| == |values| && 0 < slot < |times| - 1
  {
    var span := (times[slot + 1] as int - times[slot - 1] as int) as real;
    var ratio := if span > 0.0 then (times[slot] as int - times[slot - 1] as int) as real / span else 0.0;
    Abs(values[slot] - (values[slot - 1] + (values[slot + 1] - values[slot - 1]) * ratio))
  }

  function FreeCosts(times: seq<nat>, values: seq<real>): (r: seq<Cost>)
    requires |times| == |values| && |times| > 2
    ensures |r| == |times| - 2
    ensures forall i :: 0 <= i < |r| ==> r[i].1 == i + 1
  {
    seq(|times| - 2, i requires 0 <= i < |times| - 2 => (FreeCost(times, values, i + 1), i + 1))
  }

  /** Tries the cheapest points; the first whose place the tuning can make up for goes. */
  method FreeOne(context: FitContext, times: seq<nat>, values: seq<real>, propose: Proposal)
    returns (r: Option<(seq<nat>, seq<real>)>)
    requires context.Valid() && Spans(context.ordered, times) && |times| == |values| && |times| > 3
    requires Proposes(propose)
    modifies context`attempts
    ensures context.attempts <= old(context.attempts)
    ensures r.Some? ==>
              && Spans(context.ordered, r.value.0) && |r.value.0| == |r.value.1| && |r.value.0| == |times| - 1
  {
    var ranked := Sort(FreeCosts(times, values), CostLeq());
    var tries := if |ranked| < FreeValueTries then |ranked| else FreeValueTries;
    for k := 0 to tries
      invariant context.attempts <= old(context.attempts)
    {
      if context.attempts == 0 {
        return None;
      }
      context.attempts := context.attempts - 1;
      var slot := RankedSlot(times, values, ranked, k);
      var trialTimes, trialValues := times[..slot] + times[slot + 1..], values[..slot] + values[slot + 1..];
      var tuned := propose(trialTimes, trialValues, slot, context.attempts);
      assert ProposesFor(propose, trialTimes, trialValues, slot, context.attempts);
      if tuned.Some? {
        return Some((trialTimes, tuned.value));
      }
    }
    return None;
  }

  method RankedSlot(times: seq<nat>, values: seq<real>, ranked: seq<Cost>, k: nat) returns (slot: nat)
    requires |times| == |values| && |times| > 2
    requires ranked == Sort(FreeCosts(times, values), CostLeq()) && k < |ranked|
    ensures 0 < slot < |times| - 1
  {
    var costs := FreeCosts(times, values);
    assert ranked[k] in ranked && ranked[k] in costs;
    ghost var i :| 0 <= i < |costs| && costs[i] == ranked[k];
    slot := ranked[k].1;
  }

  method FreeValuePass(context: FitContext, kept: seq<nat>, propose: Proposal)
    returns (times: seq<nat>, values: seq<real>)
    requires context.Valid() && Keeps(context.ordered, kept) && Proposes(propose)
    modifies context`attempts
    ensures Spans(context.ordered, times) && |times| == |values| && |times| <= |kept|
    ensures |times| < |kept| ==> |times| >= 3
    ensures context.attempts <= old(context.attempts)
  {
    KeptInRange(context.ordered, kept);
    times := seq(|kept|, i requires 0 <= i < |kept| => context.ordered[kept[i]].tick);
    values := seq(|kept|, i requires 0 <= i < |kept| => context.ordered[kept[i]].value);
    while |times| > 3 && context.attempts > 0
      invariant Spans(context.ordered, times) && |times| == |values| && |times| <= |kept|
      invariant |times| < |kept| ==> |times| >= 3
      invariant context.attempts <= old(context.attempts)
      decreases |times|
    {
      var next := FreeOne(context, times, values, propose);
      if next.None? {
        return;
      }
      times, values := next.value.0, next.value.1;
    }
  }

  // ----- The whole fit ------------------------------------------------------------------------------------

  const MaximumPoints: int := 5000

  function PointLimit(maximum: int): nat {
    if maximum < 3 then 3 else if maximum > MaximumPoints then MaximumPoints else maximum
  }

  datatype Report = Report(initialCount: nat, count: nat, sampleCount: nat, maximumError: real, limitReached: bool)

  /** The report tells the truth about the curve, and the curve is good or the limit is
      used up. */
  ghost predicate GoodFit(
    ordered: seq<Point>, order: int, tolerance: real, limit: nat, points: seq<CurvePoint>, report: Report)
  {
    && Covers(ordered, points) && |points| <= limit && report.count == |points|
    && Fits(ordered, points, RawShape(order), report.maximumError)
    && (exists k :: 0 <= k < |ordered| && Miss(ordered, points, RawShape(order), k) == report.maximumError)
    && (report.limitReached <==> |points| >= limit && report.maximumError > tolerance)
    && (report.maximumError <= tolerance || report.limitReached)
    && (report.maximumError <= tolerance ==> IsPruned(ordered, order, tolerance, limit, points))
    && (GoodStart(ordered, order, tolerance) ==> report.maximumError <= tolerance)
  }

  /** The points are those of a selection of samples that was pruned, or fewer. */
  ghost predicate IsPruned(ordered: seq<Point>, order: int, tolerance: real, limit: nat, points: seq<CurvePoint>) {
    |ordered| >= 2 &&
    exists selected, kept ::
      && Pruned(ordered, FitMode(order), RawShape(order), tolerance, limit, Attempts(|ordered|), selected,
           kept, points)
      && (GoodStart(ordered, order, tolerance) ==> selected == StartOf(|ordered|))
  }

  /** The three samples that a straight fit starts with are enough. */
  ghost predicate GoodStart(ordered: seq<Point>, order: int, tolerance: real) {
    && StraightStart(ordered, order, tolerance)
    && Fitting(ordered, FitMode(order), RawShape(order), tolerance, SortedSet(StartOf(|ordered|)))
  }

  /** Sorted, a recording rises from tick to tick. */
  lemma SortRecording(samples: seq<Point>)
    requires NoDoubles(samples) && |samples| >= 2
    ensures Recording(Sort(samples, PointLeq()))
  {
    SortNoDoubles(samples);
    SortOrdered(samples, PointLeq());
    var ordered := Sort(samples, PointLeq());
    forall i, j | 0 <= i < j < |ordered| ensures ordered[i].tick < ordered[j].tick {
      assert PointLeq()(ordered[i], ordered[j]);
    }
  }

  /** What is known of a curve once it has been measured. */
  ghost predicate Measured(ordered: seq<Point>, points: seq<CurvePoint>, shape: Shape, errors: seq<real>) {
    && Recording(ordered) && Covers(ordered, points) && |errors| == |ordered|
    && forall k :: 0 <= k < |ordered| ==> errors[k] == Miss(ordered, points, shape, k)
  }

  /** The points of a pruned selection, or at least three that are fewer. */
  ghost predicate Leaner(ordered: seq<Point>, mode: TangentMode, kept: seq<nat>, points: seq<CurvePoint>) {
    points == PointsAt(ordered, mode, kept) || 3 <= |points| < |kept|
  }

  /** The freed curve if it is shorter and still within the tolerance when drawn as a whole,
      or else the curve through the samples that were kept. */
  method Measure(context: FitContext, indices: seq<nat>, times: seq<nat>, values: seq<real>)
    returns (points: seq<CurvePoint>, errors: seq<real>)
    requires context.Valid() && context.IsFitting(indices) && Spans(context.ordered, times) && |times| == |values|
    requires |times| < |indices| ==> |times| >= 3
    ensures Measured(context.ordered, points, context.shape, errors) && Largest(errors) <= context.tolerance
    ensures Leaner(context.ordered, context.Mode(), indices, points)
  {
    if |times| < |indices| {
      points := FreePoints(times, values, context.Mode());
      SpansCovers(context.ordered, times, values, context.Mode());
      errors := CurveErrors(context.ordered, points, context.order, context.shape);
      if Largest(errors) <= context.tolerance {
        return;
      }
    }
    points := PointsAt(context.ordered, context.Mode(), indices);
    KeptCovers(context.ordered, context.Mode(), indices);
    errors := CurveErrors(context.ordered, points, context.order, context.shape);
    LargestTells(context.ordered, points, context.shape, context.tolerance, errors);
  }

  /** Prunes a fitting selection and frees its values.  With attempts left, or enough to begin
      with, no inner point of what was kept can be taken out. */
  method Improve(context: FitContext, selected: seq<nat>, propose: Proposal)
    returns (points: seq<CurvePoint>, errors: seq<real>, ghost kept: seq<nat>)
    requires context.Valid() && context.IsFitting(selected) && Proposes(propose)
    modifies context`attempts
    ensures Measured(context.ordered, points, context.shape, errors) && Largest(errors) <= context.tolerance
    ensures context.IsFitting(kept) && Thinner(kept, selected) && Leaner(context.ordered, context.Mode(), kept, points)
    ensures context.attempts > 0 || old(context.attempts) > PruneTries(|selected|) ==>
              OneMinimal(context.ordered, context.Mode(), context.shape, context.tolerance, kept)
    ensures Rigid(context.ordered, context.Mode(), context.shape, context.tolerance, selected) ==> kept == selected
  {
    var indices := context.PruneRedundant(selected);
    var times, values := FreeValuePass(context, indices, propose);
    points, errors := Measure(context, indices, times, values);
    kept := indices;
  }

  /** A selection that was within the tolerance, what pruning kept of it, and the points that
      are returned: those kept, or fewer. */
  ghost predicate Pruned(
    ordered: seq<Point>, mode: TangentMode, shape: Shape, tolerance: real, limit: nat, attempts: nat,
    selected: set<nat>, kept: seq<nat>, points: seq<CurvePoint>)
  {
    && Selection(selected, |ordered|) && StartOf(|ordered|) <= selected && |selected| <= limit
    && Fitting(ordered, mode, shape, tolerance, SortedSet(selected))
    && Fitting(ordered, mode, shape, tolerance, kept) && Thinner(kept, SortedSet(selected))
    && Leaner(ordered, mode, kept, points)
    && (attempts > PruneTries(|selected|) ==> OneMinimal(ordered, mode, shape, tolerance, kept))
    && (Rigid(ordered, mode, shape, tolerance, SortedSet(selected)) ==> kept == SortedSet(selected))
  }

  /** The first two stages: chords, then the curve that is really drawn. */
  method Choose(context: FitContext) returns (selected: set<nat>, errors: seq<real>, initial: nat)
    requires context.Valid() && context.tolerance > 0.0 && context.limit >= 3
    ensures Selection(selected, |context.ordered|) && StartOf(|context.ordered|) <= selected
    ensures |selected| <= context.limit && ErrorsOf(context, selected, errors)
    ensures Largest(errors) <= context.tolerance || |selected| >= context.limit
    ensures StartsWell(context) ==> selected == StartOf(|context.ordered|) && Largest(errors) <= context.tolerance
  {
    var n := |context.ordered|;
    var threshold := if context.order == 1 then context.tolerance else 2.0 * context.tolerance;
    ChordErrorsAreErrors(context.ordered);
    var start, run := SelectByChords(ChordErrors(context.ordered), n, threshold, context.limit);
    if StraightStart(context.ordered, context.order, context.tolerance) {
      StartStays(ChordErrors(context.ordered), threshold, run);
    }
    initial := |start|;
    selected, errors := FillBadGaps(context, start);
    ErrorsTell(context, selected, errors);
  }

  /** The samples that a straight fit starts with are enough. */
  ghost predicate StartsWell(context: FitContext) {
    && StraightStart(context.ordered, context.order, context.tolerance)
    && FitsAll(context, StartOf(|context.ordered|))
  }

  lemma ChosenMeasured(context: FitContext, selected: set<nat>, errors: seq<real>)
    requires context.Valid() && Selection(selected, |context.ordered|) && ErrorsOf(context, selected, errors)
    ensures |SortedSet(selected)| == |selected|
    ensures Measured(context.ordered, PointsAt(context.ordered, context.Mode(), SortedSet(selected)), context.shape, errors)
  {
    SelectionKeeps(context.ordered, selected);
    KeptCovers(context.ordered, context.Mode(), SortedSet(selected));
  }

  /** Pruned, and as far as can be, unless the attempts were used up. */
  ghost predicate PrunedIn(context: FitContext, attempts: nat, selected: set<nat>, kept: seq<nat>, points: seq<CurvePoint>)
    reads context`attempts
  {
    && Pruned(context.ordered, context.Mode(), context.shape, context.tolerance, context.limit, attempts, selected, kept,
         points)
    && (context.attempts > 0 ==> OneMinimal(context.ordered, context.Mode(), context.shape, context.tolerance, kept))
  }

  /** Once a selection is within the tolerance it is pruned. */
  method Refine(context: FitContext, selected: set<nat>, propose: Proposal)
    returns (points: seq<CurvePoint>, errors: seq<real>, ghost kept: seq<nat>)
    requires context.Valid() && Proposes(propose) && Selection(selected, |context.ordered|)
    requires StartOf(|context.ordered|) <= selected && |selected| <= context.limit && FitsAll(context, selected)
    modifies context`attempts
    ensures Measured(context.ordered, points, context.shape, errors) && Largest(errors) <= context.tolerance
    ensures PrunedIn(context, old(context.attempts), selected, kept, points)
  {
    SelectionKeeps(context.ordered, selected);
    points, errors, kept := Improve(context, SortedSet(selected), propose);
  }

  /** All stages: at most `limit` points; within the tolerance, or with all of them.  Within
      the tolerance, a selection was pruned: unless the attempts were used up, no single inner
      point of what was kept of it can be taken out. */
  method FitPoints(context: FitContext, propose: Proposal)
    returns (points: seq<CurvePoint>, errors: seq<real>, initial: nat, ghost selected: set<nat>, ghost kept: seq<nat>)
    requires context.Valid() && context.tolerance > 0.0 && context.limit >= 3 && Proposes(propose)
    modifies context`attempts
    ensures Measured(context.ordered, points, context.shape, errors) && |points| <= context.limit
    ensures Largest(errors) <= context.tolerance || |points| >= context.limit
    ensures Largest(errors) <= context.tolerance ==>
              PrunedIn(context, old(context.attempts), selected, kept, points)
    ensures StartsWell(context) ==> selected == StartOf(|context.ordered|) && Largest(errors) <= context.tolerance
  {
    var chosen;
    chosen, errors, initial := Choose(context);
    selected, kept := chosen, SortedSet(chosen);
    ChosenMeasured(context, chosen, errors);
    points := PointsAt(context.ordered, context.Mode(), SortedSet(chosen));
    if Largest(errors) <= context.tolerance {
      ErrorsTell(context, chosen, errors);
      points, errors, kept := Refine(context, chosen, propose);
    }
  }

  /** No sample is further than the tolerance from the chords that the selection starts with. */
  ghost predicate StraightStart(ordered: seq<Point>, order: int, tolerance: real) {
    order == 1 && |ordered| >= 2 && NoWorse(ChordErrors(ordered), StartOf(|ordered|), tolerance)
  }

  lemma StartStays(error: ErrorOf, threshold: real, run: seq<set<nat>>)
    requires NaiveRun(error, threshold, run) && NoWorse(error, run[0], threshold)
    ensures |run| == 1
  {
  }

  /** Fits a curve of the given order to a recording.  The curve keeps the first and last
      time and has no more points than allowed; every sample is within the tolerance of it,
      or else the report says that the limit was reached. */
  method ApproximateMotionPoints(
    samples: seq<Point>, tolerance: real, maximum: int, order: int, propose: Proposal)
    returns (r: Result<(seq<CurvePoint>, Report)>)
    requires NoDoubles(samples) && Proposes(propose)
    ensures r.Ok? <==> |samples| >= 2 && tolerance > 0.0 && IsOrder(order)
    ensures r.Ok? ==>
              && GoodFit(Sort(samples, PointLeq()), order, tolerance, PointLimit(maximum), r.value.0, r.value.1)
              && r.value.1.sampleCount == |samples|
  {
    if |samples| < 2 {
      return Err("a fit needs two samples");
    }
    if tolerance <= 0.0 {
      return Err("the tolerance must be positive");
    }
    if !IsOrder(order) {
      return Err("order must be 1, 3 or 5");
    }
    var ordered := Sort(samples, PointLeq());
    SortRecording(samples);
    var steps := NumberSteps(ordered);
    var context := new FitContext(ordered, tolerance, order, PointLimit(maximum), steps);
    ghost var selected, kept;
    var points, errors, initial;
    points, errors, initial, selected, kept := FitPoints(context, propose);
    var limitReached := |points| >= PointLimit(maximum) && Largest(errors) > tolerance;
    var report := Report(initial, |points|, |samples|, Largest(errors), limitReached);
    TrueReport(ordered, order, tolerance, PointLimit(maximum), points, errors, report, selected, kept);
    return Ok((points, report));
  }

  /** The attempts cannot be used up: there are more than pruning so many points can take. */
  predicate EnoughAttempts(samples: nat, limit: nat)
    requires samples > 0
  {
    Attempts(samples) > PruneTries(Smaller(limit, samples))
  }

  function Smaller(a: nat, b: nat): nat { if a < b then a else b }

  lemma {:induction false} FewerTries(less: nat, more: nat)
    requires less <= more
    ensures PruneTries(less) <= PruneTries(more)
  {
    if less < more {
      FewerTries(less, more - 1);
    }
  }

  lemma SelectionSize(selected: set<nat>, n: nat)
    requires Selection(selected, n)
    ensures |selected| <= n
  {
    SubsetSize(selected, Below(n));
  }

  lemma PrunedOf(ordered: seq<Point>, order: int, tolerance: real, limit: nat, points: seq<CurvePoint>, report: Report)
    returns (selected: set<nat>, kept: seq<nat>)
    requires GoodFit(ordered, order, tolerance, limit, points, report) && report.maximumError <= tolerance
    ensures Pruned(ordered, FitMode(order), RawShape(order), tolerance, limit, Attempts(|ordered|), selected, kept, points)
    ensures GoodStart(ordered, order, tolerance) ==> selected == StartOf(|ordered|)
  {
    selected, kept :|
      && Pruned(ordered, FitMode(order), RawShape(order), tolerance, limit, Attempts(|ordered|), selected, kept, points)
      && (GoodStart(ordered, order, tolerance) ==> selected == StartOf(|ordered|));
  }

  /** Within the tolerance and with enough attempts, there are no more points than in a
      selection of samples within the tolerance of which no inner one can be taken out. */
  lemma NothingToSpare(
    ordered: seq<Point>, order: int, tolerance: real, limit: nat, points: seq<CurvePoint>, report: Report)
    requires GoodFit(ordered, order, tolerance, limit, points, report) && report.maximumError <= tolerance
    requires EnoughAttempts(|ordered|, limit)
    ensures exists kept ::
              && Fitting(ordered, FitMode(order), RawShape(order), tolerance, kept) && |points| <= |kept| <= limit
              && OneMinimal(ordered, FitMode(order), RawShape(order), tolerance, kept)
  {
    var selected, kept := PrunedOf(ordered, order, tolerance, limit, points, report);
    SelectionSize(selected, |ordered|);
    SelectionKeeps(ordered, selected);
    FewerTries(|selected|, Smaller(limit, |ordered|));
    assert Leaner(ordered, FitMode(order), kept, points);
  }

  lemma TrueReport(
    ordered: seq<Point>, order: int, tolerance: real, limit: nat, points: seq<CurvePoint>, errors: seq<real>,
    report: Report, selected: set<nat>, kept: seq<nat>)
    requires Measured(ordered, points, RawShape(order), errors) && |points| <= limit
    requires Largest(errors) <= tolerance || |points| >= limit
    requires report.maximumError == Largest(errors) && report.count == |points|
    requires report.limitReached == (|points| >= limit && Largest(errors) > tolerance)
    requires Largest(errors) <= tolerance ==>
               Pruned(ordered, FitMode(order), RawShape(order), tolerance, limit, Attempts(|ordered|),
                 selected, kept, points)
    requires GoodStart(ordered, order, tolerance) ==> selected == StartOf(|ordered|) && Largest(errors) <= tolerance
    ensures GoodFit(ordered, order, tolerance, limit, points, report)
  {
    LargestIsLargest(errors);
    var k :| 0 <= k < |errors| && errors[k] == Largest(errors);
    assert Miss(ordered, points, RawShape(order), k) == report.maximumError;
  }
}

/** After some points are dropped, only the neighbourhood of the places where they were is
    drawn and checked.  The answer is the one that checking everything would give. */
module SliceCheck {
  import opened MotionTypes
  import opened Sorting
  import opened Timeline
  import opened LayerConflicts
  import opened CurveEngine
  import opened ChordSelection
  import opened FitErrors
  import opened Ownership

  /** How many points on either side of a dropped one are looked at, and how many more
      are drawn so that the ends of the slice do not matter. */
  const AffectedNeighbours: nat := 3
  const SliceMargin: nat := 4

  // ----- Dropping points -------------------------------------------------------------------------

  function Drop(kept: seq<nat>, dropping: set<nat>): (r: seq<nat>) {
    if kept == [] then []
    else if Last(kept) in dropping then Drop(Front(kept), dropping)
    else Drop(Front(kept), dropping) + [Last(kept)]
  }

  /** Where in the shorter list something was dropped, once for every dropped point. */
  function Slots(kept: seq<nat>, dropping: set<nat>): seq<nat> {
    if kept == [] then []
    else if Last(kept) in dropping then Slots(Front(kept), dropping) + [|Drop(Front(kept), dropping)|]
    else Slots(Front(kept), dropping)
  }

  /** The loop that splits the kept points into the trial and the places left empty. */
  method SplitKept(kept: seq<nat>, dropping: set<nat>) returns (trial: seq<nat>, slots: seq<nat>)
    ensures trial == Drop(kept, dropping) && slots == Slots(kept, dropping)
  {
    trial, slots := [], [];
    for i := 0 to |kept|
      invariant trial == Drop(kept[..i], dropping) && slots == Slots(kept[..i], dropping)
    {
      assert Front(kept[..i + 1]) == kept[..i];
      if kept[i] in dropping {
        slots := slots + [|trial|];
      } else {
        trial := trial + [kept[i]];
      }
    }
    assert kept[..|kept|] == kept;
  }

  lemma {:induction false} DropKeepsOrder(kept: seq<nat>, dropping: set<nat>)
    requires Increasing(kept)
    ensures Increasing(Drop(kept, dropping))
    ensures forall x :: x in Drop(kept, dropping) <==> x in kept && x !in dropping
  {
    if kept != [] {
      DropKeepsOrder(Front(kept), dropping);
      assert kept == Front(kept) + [Last(kept)];
      var shorter := Drop(Front(kept), dropping);
      forall i | 0 <= i < |shorter| ensures shorter[i] < Last(kept) {
        assert shorter[i] in Front(kept);
      }
    }
  }

  /** Two points of the shorter list between which nothing was dropped stood side by side
      before. */
  lemma {:induction false} SideBySide(kept: seq<nat>, dropping: set<nat>, slot: nat) returns (i: nat)
    requires 0 < slot < |Drop(kept, dropping)| && slot !in Slots(kept, dropping)
    ensures i + 1 < |kept|
    ensures kept[i] == Drop(kept, dropping)[slot - 1] && kept[i + 1] == Drop(kept, dropping)[slot]
  {
    var front := Front(kept);
    if slot < |Drop(front, dropping)| {
      i := SideBySide(front, dropping, slot);
    } else {
      // The last point is the one at the slot, and the one before it was not dropped.
      i := |front| - 1;
      assert Last(front) in dropping ==> slot in Slots(front, dropping);
    }
  }

  lemma {:induction false} DropEnds(kept: seq<nat>, dropping: set<nat>)
    requires kept != [] && kept[0] !in dropping && Last(kept) !in dropping
    ensures var trial := Drop(kept, dropping); trial != [] && trial[0] == kept[0] && Last(trial) == Last(kept)
  {
    if |kept| > 1 {
      DropStart(Front(kept), dropping);
    } else {
      assert Drop(Front(kept), dropping) == [];
    }
  }

  lemma {:induction false} DropStart(kept: seq<nat>, dropping: set<nat>)
    requires kept != [] && kept[0] !in dropping
    ensures Drop(kept, dropping) != [] && Drop(kept, dropping)[0] == kept[0]
  {
    if |kept| > 1 {
      DropStart(Front(kept), dropping);
    } else {
      assert Drop(Front(kept), dropping) == [];
    }
  }

  /** A slot lies between two points that are kept. */
  lemma {:induction false} SlotsInside(kept: seq<nat>, dropping: set<nat>)
    requires kept != [] && kept[0] !in dropping
    ensures forall s :: s in Slots(kept, dropping) ==> 0 < s <= |Drop(kept, dropping)|
    ensures Last(kept) !in dropping ==> forall s :: s in Slots(kept, dropping) ==> s < |Drop(kept, dropping)|
  {
    if |kept| > 1 {
      SlotsInside(Front(kept), dropping);
      DropStart(Front(kept), dropping);
    } else {
      assert Slots(Front(kept), dropping) == [];
    }
  }

  // ----- Windows -------------------------------------------------------------------------------------

  /** The points around one slot whose curve may have changed. */
  function SpanOf(length: nat, slot: nat): Span
    requires length > 0
  {
    (if slot < AffectedNeighbours then 0 else slot - AffectedNeighbours,
     Min(length - 1, slot + AffectedNeighbours - 1))
  }

  function SpansFor(length: nat, slots: seq<nat>): (r: seq<Span>)
    requires length > 0
    ensures |r| == |slots|
    ensures forall i :: 0 <= i < |slots| ==> r[i] == SpanOf(length, slots[i])
  {
    seq(|slots|, i requires 0 <= i < |slots| => SpanOf(length, slots[i]))
  }

  ghost predicate InnerSlots(length: nat, slots: seq<nat>) {
    forall i :: 0 <= i < |slots| ==> 0 < slots[i] < length
  }

  /** The joined windows of all slots. */
  ghost predicate Windows(windows: seq<Span>, length: nat, slots: seq<nat>) {
    && length > 0 && Separated(windows) && CoverTheSame(windows, SpansFor(length, slots))
  }

  method ChangedSlots(length: nat, slots: seq<nat>) returns (windows: seq<Span>)
    requires length > 0 && InnerSlots(length, slots)
    ensures Windows(windows, length, slots)
  {
    windows := MergeRanges(SpansFor(length, slots));
  }

  lemma SameSpan(windows: seq<Span>, i: nat, j: nat, a: nat, b: nat)
    requires Separated(windows) && i < |windows| && j < |windows|
    requires Inside(windows[i], a) && Inside(windows[j], b) && a <= b <= a + 1
    ensures i == j
  {
  }

  /** Ticks that are owned without a break lie in one of the separated spans. */
  lemma {:induction false} OneWindow(windows: seq<Span>, a: nat, b: nat) returns (i: nat)
    requires Separated(windows) && a <= b && forall t :: a <= t <= b ==> OwnedAt(windows, t)
    ensures i < |windows| && windows[i].0 <= a && b <= windows[i].1
    decreases b - a
  {
    assert OwnedAt(windows, b);
    if a == b {
      i :| i < |windows| && Inside(windows[i], b);
    } else {
      i := OneWindow(windows, a, b - 1);
      var j :| 0 <= j < |windows| && Inside(windows[j], b);
      SameSpan(windows, i, j, b - 1, b);
    }
  }

  /** The window that holds everything around one slot. */
  lemma SlotWindow(windows: seq<Span>, length: nat, slots: seq<nat>, s: nat) returns (i: nat)
    requires Windows(windows, length, slots) && InnerSlots(length, slots) && s < |slots|
    ensures i < |windows|
    ensures windows[i].0 <= SpanOf(length, slots[s]).0 && SpanOf(length, slots[s]).1 <= windows[i].1
  {
    var span, spans := SpanOf(length, slots[s]), SpansFor(length, slots);
    forall t | span.0 <= t <= span.1 ensures OwnedAt(windows, t) {
      assert Inside(spans[s], t);
      assert OwnedAt(spans, t);
    }
    i := OneWindow(windows, span.0, span.1);
  }

  /** Every window has at least two points, all of them there. */
  lemma WindowInside(windows: seq<Span>, length: nat, slots: seq<nat>, w: nat)
    requires Windows(windows, length, slots) && InnerSlots(length, slots) && w < |windows|
    ensures windows[w].0 < windows[w].1 < length
  {
    var spans := SpansFor(length, slots);
    assert Inside(windows[w], windows[w].0) && Inside(windows[w], windows[w].1);
    assert OwnedAt(windows, windows[w].0) && OwnedAt(windows, windows[w].1);
    var s :| 0 <= s < |spans| && Inside(spans[s], windows[w].0);
    var e :| 0 <= e < |spans| && Inside(spans[e], windows[w].1);
    var i := SlotWindow(windows, length, slots, s);
    SameSpan(windows, i, w, windows[w].0, windows[w].0);
  }

  // ----- A slice draws what the whole curve draws ------------------------------------------------------

  /** The segment that holds a tick, among the points from `low` to `high`. */
  lemma {:induction false} Holding(points: seq<CurvePoint>, low: nat, high: nat, tick: nat) returns (j: nat)
    requires low < high < |points| && points[low].tick <= tick <= points[high].tick
    ensures low <= j < high && points[j].tick <= tick <= points[j + 1].tick
    decreases high - low
  {
    if low + 1 == high || tick <= points[low + 1].tick {
      j := low;
    } else {
      j := Holding(points, low + 1, high, tick);
    }
  }

  /** The first and last point that are drawn for a window. */
  function SliceLow(window: Span): nat { if window.0 < SliceMargin then 0 else window.0 - SliceMargin }

  function SliceHigh(window: Span, length: nat): nat
    requires length > 0
  {
    Min(length - 1, window.1 + SliceMargin)
  }

  function Piece(points: seq<CurvePoint>, window: Span): seq<CurvePoint>
    requires window.0 < window.1 < |points|
  {
    points[SliceLow(window)..SliceHigh(window, |points|) + 1]
  }

  lemma PieceSpaced(points: seq<CurvePoint>, window: Span)
    requires Spaced(points) && window.0 < window.1 < |points|
    ensures Spaced(Piece(points, window)) && |Piece(points, window)| >= 2
  {
  }

  lemma PieceAround(points: seq<CurvePoint>, window: Span, j: nat)
    requires window.0 < window.1 < |points| && window.0 <= j < window.1
    ensures SameAround(points, j, Piece(points, window), j - SliceLow(window))
  {
  }

  /** Inside the window, the ends of the slice do not show. */
  lemma PieceDrawsTheSame(points: seq<CurvePoint>, shape: Shape, window: Span, tick: nat)
    requires PassesThrough(shape) && Spaced(points) && window.0 < window.1 < |points|
    requires points[window.0].tick <= tick <= points[window.1].tick
    ensures |Piece(points, window)| >= 2
    ensures CurveAt(Piece(points, window), shape, tick) == CurveAt(points, shape, tick)
  {
    var j := Holding(points, window.0, window.1, tick);
    PieceSpaced(points, window);
    PieceAround(points, window, j);
    SameAroundSameCurve(points, j, Piece(points, window), j - SliceLow(window), shape, tick);
  }

  // ----- Away from the slots nothing changes -----------------------------------------------------------

  /** The points of a fit before and after some are dropped. */
  ghost predicate Dropped(ordered: seq<Point>, kept: seq<nat>, dropping: set<nat>) {
    && Recording(ordered) && Keeps(ordered, kept)
    && 0 !in dropping && |ordered| - 1 !in dropping
  }

  lemma DroppedKeeps(ordered: seq<Point>, kept: seq<nat>, dropping: set<nat>)
    requires Dropped(ordered, kept, dropping)
    ensures Keeps(ordered, Drop(kept, dropping))
    ensures InnerSlots(|Drop(kept, dropping)|, Slots(kept, dropping))
  {
    var trial := Drop(kept, dropping);
    DropKeepsOrder(kept, dropping);
    DropEnds(kept, dropping);
    SlotsInside(kept, dropping);
    forall i | 0 <= i < |Slots(kept, dropping)| ensures 0 < Slots(kept, dropping)[i] < |trial| {
      assert Slots(kept, dropping)[i] in Slots(kept, dropping);
    }
  }

  lemma SameIndex(kept: seq<nat>, i: nat, j: nat)
    requires Increasing(kept) && i < |kept| && j < |kept| && kept[i] == kept[j]
    ensures i == j
  {
  }

  /** Where nothing was dropped near a segment, the same four points surround it. */
  lemma SameSurroundings(ordered: seq<Point>, kept: seq<nat>, dropping: set<nat>, j: nat) returns (i: nat)
    requires Dropped(ordered, kept, dropping) && j + 1 < |Drop(kept, dropping)|
    requires forall s :: j <= s <= j + 2 ==> s !in Slots(kept, dropping)
    ensures var trial := Drop(kept, dropping);
            && i + 1 < |kept| && kept[i] == trial[j] && kept[i + 1] == trial[j + 1]
            && (if j == 0 then i == 0 else i > 0 && kept[i - 1] == trial[j - 1])
            && (if j + 2 == |trial| then i + 2 == |kept| else i + 2 < |kept| && kept[i + 2] == trial[j + 2])
  {
    var trial := Drop(kept, dropping);
    DropEnds(kept, dropping);
    i := SideBySide(kept, dropping, j + 1);
    if j > 0 {
      var before := SideBySide(kept, dropping, j);
      SameIndex(kept, before + 1, i);
    } else {
      SameIndex(kept, 0, i);
    }
    if j + 2 < |trial| {
      var after := SideBySide(kept, dropping, j + 2);
      SameIndex(kept, after, i + 1);
    } else {
      SameIndex(kept, |kept| - 1, i + 1);
    }
  }

  lemma SameIndicesSamePoints(
    ordered: seq<Point>, mode: TangentMode, trial: seq<nat>, j: nat, kept: seq<nat>, i: nat)
    requires j + 1 < |trial| && i + 1 < |kept| && kept[i] == trial[j] && kept[i + 1] == trial[j + 1]
    requires if j == 0 then i == 0 else i > 0 && kept[i - 1] == trial[j - 1]
    requires if j + 2 == |trial| then i + 2 == |kept| else i + 2 < |kept| && kept[i + 2] == trial[j + 2]
    ensures SameAround(PointsAt(ordered, mode, trial), j, PointsAt(ordered, mode, kept), i)
  {
  }

  lemma Untouched(
    ordered: seq<Point>, mode: TangentMode, shape: Shape, kept: seq<nat>, dropping: set<nat>, j: nat, tick: nat)
    requires PassesThrough(shape) && Dropped(ordered, kept, dropping) && j + 1 < |Drop(kept, dropping)|
    requires forall s :: j <= s <= j + 2 ==> s !in Slots(kept, dropping)
    requires var trial := PointsAt(ordered, mode, Drop(kept, dropping));
             trial[j].tick <= tick <= trial[j + 1].tick
    ensures CurveAt(PointsAt(ordered, mode, Drop(kept, dropping)), shape, tick) ==
            CurveAt(PointsAt(ordered, mode, kept), shape, tick)
  {
    var trial := Drop(kept, dropping);
    var after, before := PointsAt(ordered, mode, trial), PointsAt(ordered, mode, kept);
    DroppedKeeps(ordered, kept, dropping);
    KeptCovers(ordered, mode, trial);
    KeptCovers(ordered, mode, kept);
    var i := SameSurroundings(ordered, kept, dropping, j);
    SameIndicesSamePoints(ordered, mode, trial, j, kept, i);
    SameAroundSameCurve(after, j, before, i, shape, tick);
  }

  // ----- Checking --------------------------------------------------------------------------------------

  /** The number of the sample at a tick. */
  ghost predicate StepsOf(steps: map<nat, nat>, ordered: seq<Point>) {
    && (forall t :: t in steps ==> steps[t] < |ordered| && ordered[steps[t]].tick == t)
    && (forall k :: 0 <= k < |ordered| ==> ordered[k].tick in steps)
  }

  method NumberSteps(ordered: seq<Point>) returns (steps: map<nat, nat>)
    ensures StepsOf(steps, ordered)
  {
    steps := map[];
    for k := 0 to |ordered|
      invariant forall t :: t in steps ==> steps[t] < |ordered| && ordered[steps[t]].tick == t
      invariant forall i :: 0 <= i < k ==> ordered[i].tick in steps
    {
      steps := steps[ordered[k].tick := k];
    }
  }

  /** Every sample between two ticks is close enough to the curve. */
  ghost predicate FitsBetween(
    ordered: seq<Point>, points: seq<CurvePoint>, shape: Shape, tolerance: real, from: nat, to: nat)
    requires |points| >= 2
  {
    forall k :: 0 <= k < |ordered| && from <= ordered[k].tick <= to ==> Miss(ordered, points, shape, k) <= tolerance
  }

  /** As far as the samples before a tick go. */
  ghost predicate CheckedTo(
    ordered: seq<Point>, points: seq<CurvePoint>, shape: Shape, tolerance: real, from: nat, to: nat, end: nat)
    requires |points| >= 2
  {
    forall k :: 0 <= k < |ordered| && from <= ordered[k].tick <= to && ordered[k].tick < end ==>
      Miss(ordered, points, shape, k) <= tolerance
  }

  lemma OneMoreChecked(
    ordered: seq<Point>, points: seq<CurvePoint>, shape: Shape, tolerance: real, from: nat, to: nat, end: nat)
    requires |points| >= 2 && CheckedTo(ordered, points, shape, tolerance, from, to, end)
    requires forall k :: 0 <= k < |ordered| && ordered[k].tick == end && from <= end <= to ==>
               Miss(ordered, points, shape, k) <= tolerance
    ensures CheckedTo(ordered, points, shape, tolerance, from, to, end + 1)
  {
  }

  /** Draws a piece of the curve and checks the samples in its window. */
  method CheckWindow(
    ordered: seq<Point>, steps: map<nat, nat>, piece: seq<CurvePoint>, order: int, ghost shape: Shape,
    tolerance: real, from: nat, to: nat)
    returns (ok: bool)
    requires Recording(ordered) && StepsOf(steps, ordered) && Draws(shape, order)
    requires Spaced(piece) && |piece| >= 2 && piece[0].tick <= from && to <= piece[|piece| - 1].tick
    ensures ok <==> FitsBetween(ordered, piece, shape, tolerance, from, to)
  {
    var rendered := DrawCurve(piece, order, shape);
    ghost var start := piece[0].tick;
    for i := 0 to |rendered|
      invariant CheckedTo(ordered, piece, shape, tolerance, from, to, start + i)
    {
      var sample := rendered[i];
      if from <= sample.tick <= to && sample.tick in steps {
        var step := steps[sample.tick];
        OnlyStep(ordered, step);
        if Abs(ordered[step].value - sample.value) > tolerance {
          assert Miss(ordered, piece, shape, step) > tolerance;
          return false;
        }
      }
      OneMoreChecked(ordered, piece, shape, tolerance, from, to, start + i);
    }
    return true;
  }

  lemma OnlyStep(ordered: seq<Point>, step: nat)
    requires Recording(ordered) && step < |ordered|
    ensures forall k :: 0 <= k < |ordered| && ordered[k].tick == ordered[step].tick ==> k == step
  {
  }

  ghost predicate PieceFits(
    ordered: seq<Point>, points: seq<CurvePoint>, shape: Shape, tolerance: real, window: Span)
  {
    && window.0 < window.1 < |points| && |Piece(points, window)| >= 2
    && FitsBetween(ordered, Piece(points, window), shape, tolerance, points[window.0].tick, points[window.1].tick)
  }

  ghost predicate PiecesFit(
    ordered: seq<Point>, points: seq<CurvePoint>, shape: Shape, tolerance: real, windows: seq<Span>)
  {
    forall w :: 0 <= w < |windows| ==> PieceFits(ordered, points, shape, tolerance, windows[w])
  }

  method CheckPiece(
    ordered: seq<Point>, steps: map<nat, nat>, points: seq<CurvePoint>, order: int, ghost shape: Shape,
    tolerance: real, window: Span)
    returns (ok: bool)
    requires Recording(ordered) && StepsOf(steps, ordered) && Draws(shape, order)
    requires Spaced(points) && window.0 < window.1 < |points|
    ensures ok <==> PieceFits(ordered, points, shape, tolerance, window)
  {
    var piece := Piece(points, window);
    PieceSpaced(points, window);
    WindowInPiece(points, window);
    ok := CheckWindow(ordered, steps, piece, order, shape, tolerance, points[window.0].tick, points[window.1].tick);
  }

  /** The check of the slices alone. */
  method WithinSlices(
    ordered: seq<Point>, steps: map<nat, nat>, points: seq<CurvePoint>, order: int, ghost shape: Shape,
    tolerance: real, slots: seq<nat>)
    returns (ok: bool, ghost windows: seq<Span>)
    requires Recording(ordered) && StepsOf(steps, ordered) && Draws(shape, order)
    requires Spaced(points) && |points| >= 2 && InnerSlots(|points|, slots)
    ensures Windows(windows, |points|, slots)
    ensures ok <==> PiecesFit(ordered, points, shape, tolerance, windows)
  {
    var spans := ChangedSlots(|points|, slots);
    windows := spans;
    for w := 0 to |spans|
      invariant PiecesFit(ordered, points, shape, tolerance, windows[..w])
    {
      WindowInside(windows, |points|, slots, w);
      var fits := CheckPiece(ordered, steps, points, order, shape, tolerance, spans[w]);
      if !fits {
        assert !PieceFits(ordered, points, shape, tolerance, windows[w]);
        return false, windows;
      }
    }
    return true, windows;
  }

  lemma WindowInPiece(points: seq<CurvePoint>, window: Span)
    requires Spaced(points) && window.0 < window.1 < |points|
    ensures var piece := Piece(points, window);
            |piece| >= 2 && piece[0].tick <= points[window.0].tick && points[window.1].tick <= piece[|piece| - 1].tick
  {
    var low, high := SliceLow(window), SliceHigh(window, |points|);
    if low < window.0 { SpacedIsOrdered(points, low, window.0); }
    if window.1 < high { SpacedIsOrdered(points, window.1, high); }
  }

  // ----- The slices tell all -------------------------------------------------------------------------------

  /** A sample that a window shows. */
  lemma ShownSample(
    ordered: seq<Point>, points: seq<CurvePoint>, shape: Shape, tolerance: real, window: Span, j: nat, k: nat)
    requires PassesThrough(shape) && Spaced(points) && PieceFits(ordered, points, shape, tolerance, window)
    requires window.0 <= j < window.1 && k < |ordered|
    requires points[j].tick <= ordered[k].tick <= points[j + 1].tick
    ensures Miss(ordered, points, shape, k) <= tolerance
  {
    if window.0 < j { SpacedIsOrdered(points, window.0, j); }
    if j + 1 < window.1 { SpacedIsOrdered(points, j + 1, window.1); }
    PieceDrawsTheSame(points, shape, window, ordered[k].tick);
    assert Miss(ordered, Piece(points, window), shape, k) <= tolerance;
  }

  lemma SlotCovers(windows: seq<Span>, length: nat, slots: seq<nat>, s: nat, j: nat) returns (w: nat)
    requires Windows(windows, length, slots) && InnerSlots(length, slots) && s < |slots|
    requires j <= slots[s] <= j + 2 && j + 1 < length
    ensures w < |windows| && windows[w].0 <= j < windows[w].1
  {
    w := SlotWindow(windows, length, slots, s);
  }

  /** The segment of the trial that holds a sample. */
  lemma HoldingSample(ordered: seq<Point>, points: seq<CurvePoint>, k: nat) returns (j: nat)
    requires Recording(ordered) && Covers(ordered, points) && k < |ordered|
    ensures j + 1 < |points| && points[j].tick <= ordered[k].tick <= points[j + 1].tick
  {
    SampleInside(ordered, points, k);
    j := Holding(points, 0, |points| - 1, ordered[k].tick);
  }

  /** One sample: either a window shows it, or its curve is what it was. */
  lemma SampleTells(
    ordered: seq<Point>, mode: TangentMode, shape: Shape, kept: seq<nat>, dropping: set<nat>, tolerance: real,
    windows: seq<Span>, k: nat)
    requires PassesThrough(shape) && Dropped(ordered, kept, dropping) && k < |ordered|
    requires Windows(windows, |Drop(kept, dropping)|, Slots(kept, dropping))
    requires Fits(ordered, PointsAt(ordered, mode, kept), shape, tolerance)
    requires Covers(ordered, PointsAt(ordered, mode, Drop(kept, dropping)))
    requires PiecesFit(ordered, PointsAt(ordered, mode, Drop(kept, dropping)), shape, tolerance, windows)
    ensures Miss(ordered, PointsAt(ordered, mode, Drop(kept, dropping)), shape, k) <= tolerance
  {
    var trial, slots := Drop(kept, dropping), Slots(kept, dropping);
    var points := PointsAt(ordered, mode, trial);
    DroppedKeeps(ordered, kept, dropping);
    var j := HoldingSample(ordered, points, k);
    if s :| 0 <= s < |slots| && j <= slots[s] <= j + 2 {
      var w := SlotCovers(windows, |trial|, slots, s, j);
      ShownSample(ordered, points, shape, tolerance, windows[w], j, k);
    } else {
      Untouched(ordered, mode, shape, kept, dropping, j, ordered[k].tick);
      assert Miss(ordered, PointsAt(ordered, mode, kept), shape, k) <= tolerance;
    }
  }

  /** Checking the slices gives the answer of checking the whole curve, provided that the
      curve was within the tolerance before. */
  lemma SlicesTellAll(
    ordered: seq<Point>, mode: TangentMode, shape: Shape, kept: seq<nat>, dropping: set<nat>, tolerance: real,
    windows: seq<Span>)
    requires PassesThrough(shape) && Dropped(ordered, kept, dropping)
    requires Windows(windows, |Drop(kept, dropping)|, Slots(kept, dropping))
    requires Fits(ordered, PointsAt(ordered, mode, kept), shape, tolerance)
    ensures Covers(ordered, PointsAt(ordered, mode, Drop(kept, dropping)))
    ensures PiecesFit(ordered, PointsAt(ordered, mode, Drop(kept, dropping)), shape, tolerance, windows)
            <==> Fits(ordered, PointsAt(ordered, mode, Drop(kept, dropping)), shape, tolerance)
  {
    var points := PointsAt(ordered, mode, Drop(kept, dropping));
    DroppedKeeps(ordered, kept, dropping);
    KeptCovers(ordered, mode, Drop(kept, dropping));
    if PiecesFit(ordered, points, shape, tolerance, windows) {
      forall k | 0 <= k < |ordered| ensures Miss(ordered, points, shape, k) <= tolerance {
        SampleTells(ordered, mode, shape, kept, dropping, tolerance, windows, k);
      }
    }
    if Fits(ordered, points, shape, tolerance) {
      forall w | 0 <= w < |windows| ensures PieceFits(ordered, points, shape, tolerance, windows[w]) {
        WindowInside(windows, |points|, Slots(kept, dropping), w);
        FittingPiece(ordered, points, shape, tolerance, windows[w]);
      }
    }
  }

  lemma FittingPiece(ordered: seq<Point>, points: seq<CurvePoint>, shape: Shape, tolerance: real, window: Span)
    requires PassesThrough(shape) && Spaced(points) && window.0 < window.1 < |points|
    requires Fits(ordered, points, shape, tolerance)
    ensures PieceFits(ordered, points, shape, tolerance, window)
  {
    PieceSpaced(points, window);
    forall k | 0 <= k < |ordered| && points[window.0].tick <= ordered[k].tick <= points[window.1].tick
      ensures Miss(ordered, Piece(points, window), shape, k) <= tolerance
    {
      PieceDrawsTheSame(points, shape, window, ordered[k].tick);
      assert Miss(ordered, points, shape, k) <= tolerance;
    }
  }
}

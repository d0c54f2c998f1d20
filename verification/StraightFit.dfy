/** The fit of straight curves: when two points are enough. */
module StraightFit {
  import opened MotionTypes
  import opened Sorting
  import opened Timeline
  import opened CurveEngine
  import opened CurveShapes
  import opened ChordSelection
  import opened FitErrors
  import opened SliceCheck
  import opened Pruning
  import opened CurveFit

  // ----- A straight curve misses what its chords miss -----------------------------------------------

  lemma RawStraight(before: Option<Point>, first: CurvePoint, second: CurvePoint, after: Option<Point>, tick: nat)
    requires first.tick < second.tick && first.tick <= tick <= second.tick
    ensures RawShape(1)(before, first, second, after, tick) ==
            first.value + (second.value - first.value) *
            ((tick as int - first.tick as int) as real / (second.tick as int - first.tick as int) as real)
  {
    var p := PreparePoint(before, first, Some(Knot(second)), 1);
    var q := PreparePoint(Some(Knot(first)), second, after, 1);
    var part, span := (tick as int - first.tick as int) as real, (second.tick as int - first.tick as int) as real;
    Fraction(part, span);
    assert Knot(p) == Knot(first) && Knot(q) == Knot(second);
    assert Ratio(p, q, tick) == part / span;
    LineThere(first.value, second.value, Ratio(p, q, tick), part / span);
  }

  lemma LineThere(a: real, b: real, x: real, y: real)
    requires x == y
    ensures a + (b - a) * x == a + (b - a) * y
  {
  }

  lemma KeptSamples(ordered: seq<Point>, kept: seq<nat>, i: nat)
    requires Recording(ordered) && Keeps(ordered, kept) && i + 1 < |kept|
    ensures kept[i] < kept[i + 1] < |ordered| && ordered[kept[i]].tick < ordered[kept[i + 1]].tick
  {
    KeptInRange(ordered, kept);
  }

  lemma KeptSegment(ordered: seq<Point>, kept: seq<nat>, shape: Shape, i: nat, k: nat)
    requires Recording(ordered) && Keeps(ordered, kept) && i + 1 < |kept| && kept[i] <= k <= kept[i + 1]
    requires PassesThrough(shape)
    ensures k < |ordered| && kept[i + 1] < |ordered|
    ensures var points := PointsAt(ordered, Linear, kept);
            CurveAt(points, shape, ordered[k].tick) == SampleAt(points, shape, i, ordered[k].tick)
  {
    KeptInRange(ordered, kept);
    KeptSamples(ordered, kept, i);
    KeptSpaced(ordered, Linear, kept);
    CurveIsLocal(PointsAt(ordered, Linear, kept), shape, i, ordered[k].tick);
  }

  /** The chord of a segment, at a sample. */
  function ChordValue(ordered: seq<Point>, k: nat, left: nat, right: nat): real
    requires k < |ordered| && left < |ordered| && right < |ordered| && ordered[left].tick < ordered[right].tick
  {
    ordered[left].value + (ordered[right].value - ordered[left].value) *
      ((ordered[k].tick as int - ordered[left].tick as int) as real /
       (ordered[right].tick as int - ordered[left].tick as int) as real)
  }

  lemma SampleIsChord(ordered: seq<Point>, kept: seq<nat>, i: nat, k: nat)
    requires Recording(ordered) && Keeps(ordered, kept) && i + 1 < |kept| && kept[i] <= k <= kept[i + 1] < |ordered|
    requires ordered[kept[i]].tick < ordered[kept[i + 1]].tick
    ensures SampleAt(PointsAt(ordered, Linear, kept), RawShape(1), i, ordered[k].tick) ==
            ChordValue(ordered, k, kept[i], kept[i + 1])
  {
    var points := PointsAt(ordered, Linear, kept);
    RawStraight(At(points, i - 1), points[i], points[i + 1], At(points, i + 2), ordered[k].tick);
  }

  lemma StraightMiss(ordered: seq<Point>, kept: seq<nat>, i: nat, k: nat)
    requires Recording(ordered) && Keeps(ordered, kept) && i + 1 < |kept| && kept[i] <= k <= kept[i + 1]
    ensures k < |ordered| && kept[i + 1] < |ordered|
    ensures Miss(ordered, PointsAt(ordered, Linear, kept), RawShape(1), k) == ChordErrors(ordered)(k, kept[i], kept[i + 1])
  {
    KeptInRange(ordered, kept);
    KeptSamples(ordered, kept, i);
    RawShapePassesThrough(1);
    KeptSegment(ordered, kept, RawShape(1), i, k);
    SampleIsChord(ordered, kept, i, k);
    ChordIs(ordered, k, kept[i], kept[i + 1]);
  }

  lemma ChordIs(ordered: seq<Point>, k: nat, left: nat, right: nat)
    requires k < |ordered| && left < |ordered| && right < |ordered| && ordered[left].tick < ordered[right].tick
    ensures ChordErrors(ordered)(k, left, right) == Abs(ordered[k].value - ChordValue(ordered, k, left, right))
  {
  }

  /** The chords between samples that follow each other in a list. */
  ghost predicate ChordsFit(ordered: seq<Point>, kept: seq<nat>, tolerance: real) {
    forall i: nat :: i + 1 < |kept| ==> ChordFits(ChordErrors(ordered), kept[i], kept[i + 1], tolerance)
  }

  ghost predicate ChordFits(error: ErrorOf, left: nat, right: nat, tolerance: real) {
    forall k: nat :: left < k < right ==> error(k, left, right) <= tolerance
  }

  lemma StraightFits(ordered: seq<Point>, kept: seq<nat>, tolerance: real)
    requires Recording(ordered) && Keeps(ordered, kept) && tolerance >= 0.0
    ensures Fitting(ordered, Linear, RawShape(1), tolerance, kept) <==> ChordsFit(ordered, kept, tolerance)
  {
    if Fitting(ordered, Linear, RawShape(1), tolerance, kept) {
      forall i: nat | i + 1 < |kept| ensures ChordFits(ChordErrors(ordered), kept[i], kept[i + 1], tolerance) {
        var error, left, right := ChordErrors(ordered), kept[i], kept[i + 1];
        forall k: nat | left < k < right ensures error(k, left, right) <= tolerance {
          StraightMiss(ordered, kept, i, k);
        }
      }
    } else if ChordsFit(ordered, kept, tolerance) {
      forall k | 0 <= k < |ordered| ensures Miss(ordered, PointsAt(ordered, Linear, kept), RawShape(1), k) <= tolerance {
        ChordOfSample(ordered, kept, k, tolerance);
      }
    }
  }

  lemma ChordOfSample(ordered: seq<Point>, kept: seq<nat>, k: nat, tolerance: real)
    requires Recording(ordered) && Keeps(ordered, kept) && tolerance >= 0.0 && k < |ordered|
    requires ChordsFit(ordered, kept, tolerance)
    ensures Miss(ordered, PointsAt(ordered, Linear, kept), RawShape(1), k) <= tolerance
  {
    var i := PlaceOf(kept, k, |kept| - 1);
    if kept[i] == k {
      RawShapePassesThrough(1);
      KeptIsHit(ordered, Linear, kept, RawShape(1), i);
    } else {
      StraightMiss(ordered, kept, i, k);
      assert ChordFits(ChordErrors(ordered), kept[i], kept[i + 1], tolerance);
    }
  }

  /** The last place whose number is not larger. */
  lemma {:induction false} PlaceOf(kept: seq<nat>, k: nat, end: nat) returns (i: nat)
    requires Increasing(kept) && end < |kept| && kept[0] <= k <= kept[|kept| - 1]
    requires end + 1 < |kept| ==> k < kept[end + 1]
    ensures i < |kept| && kept[i] <= k && (i + 1 < |kept| ==> k < kept[i + 1])
  {
    if kept[end] <= k { i := end; } else { i := PlaceOf(kept, k, end - 1); }
  }

  /** The chords between samples of a list. */
  ghost predicate AllFit(error: ErrorOf, kept: seq<nat>, tolerance: real) {
    forall i: nat :: i + 1 < |kept| ==> ChordFits(error, kept[i], kept[i + 1], tolerance)
  }

  lemma SelectedChords(error: ErrorOf, selected: set<nat>, n: nat, tolerance: real)
    requires Selection(selected, n)
    ensures NoWorse(error, selected, tolerance) <==> AllFit(error, SortedSet(selected), tolerance)
  {
    var kept := SortedSet(selected);
    if NoWorse(error, selected, tolerance) {
      forall i: nat | i + 1 < |kept| ensures ChordFits(error, kept[i], kept[i + 1], tolerance) {
        AdjacentGap(selected, kept, i);
      }
    } else {
      var left: nat, k: nat, right: nat :| Gap(selected, left, right) && left < k < right && error(k, left, right) > tolerance;
      SortedGap(selected, kept, left, right);
      var i: nat :| i < |kept| && Adjacent(kept, i, left, right);
      assert !ChordFits(error, kept[i], kept[i + 1], tolerance);
    }
  }

  lemma SelectionFits(ordered: seq<Point>, selected: set<nat>, tolerance: real)
    requires Recording(ordered) && Selection(selected, |ordered|) && tolerance >= 0.0
    ensures Fitting(ordered, Linear, RawShape(1), tolerance, SortedSet(selected)) <==>
            NoWorse(ChordErrors(ordered), selected, tolerance)
  {
    SelectionKeeps(ordered, selected);
    SelectedChords(ChordErrors(ordered), selected, |ordered|, tolerance);
    StraightFits(ordered, SortedSet(selected), tolerance);
  }

  // ----- When two points are enough --------------------------------------------------------------------

  /** The recording is within the tolerance of its own chord. */
  ghost predicate NearChord(ordered: seq<Point>, tolerance: real) {
    |ordered| >= 2 && AllFit(ChordErrors(ordered), [0, |ordered| - 1], tolerance)
  }

  /** It is within the tolerance of the chords to and from its middle sample. */
  ghost predicate NearHalves(ordered: seq<Point>, tolerance: real) {
    |ordered| >= 2 && NoWorse(ChordErrors(ordered), StartOf(|ordered|), tolerance)
  }

  lemma {:induction false} ThreeKept(n: nat, kept: seq<nat>)
    requires n >= 2 && Increasing(kept) && 2 <= |kept| <= 3 && kept[0] == 0 && kept[|kept| - 1] == n - 1
    ensures |kept| == 3 ==> Without(kept, 1) == [0, n - 1]
    ensures |kept| == 2 ==> kept == [0, n - 1]
  {
  }

  lemma StartTries(n: nat)
    requires n >= 2
    ensures |StartOf(n)| <= 3 && PruneTries(|StartOf(n)|) < Attempts(n)
  {
    StartSize(n);
    assert PruneTries(3) == PruneTries(2) + 3;
  }

  /** A straight fit of a recording that is within the tolerance of its chord and of the chords
      to and from its middle sample has exactly two points; and only a recording within the
      tolerance of its chord is fitted by two. */
  lemma TwoPoints(ordered: seq<Point>, tolerance: real, limit: nat, points: seq<CurvePoint>, report: Report)
    requires Recording(ordered) && tolerance > 0.0 && GoodFit(ordered, 1, tolerance, limit, points, report)
    ensures NearChord(ordered, tolerance) && NearHalves(ordered, tolerance) ==>
              |points| == 2 && report.maximumError <= tolerance
    ensures |points| == 2 && report.maximumError <= tolerance ==> NearChord(ordered, tolerance)
  {
    HalvesAreStart(ordered, tolerance);
    if report.maximumError <= tolerance {
      var selected, kept := PrunedOf(ordered, 1, tolerance, limit, points, report);
      TwoKept(ordered, tolerance, limit, selected, kept, points);
    }
  }

  lemma HalvesAreStart(ordered: seq<Point>, tolerance: real)
    requires Recording(ordered) && tolerance > 0.0
    ensures GoodStart(ordered, 1, tolerance) <==> NearHalves(ordered, tolerance)
  {
    StartSize(|ordered|);
    SelectionFits(ordered, StartOf(|ordered|), tolerance);
  }

  /** Of three samples, the one between the ends is not needed. */
  lemma MiddleGoes(ordered: seq<Point>, tolerance: real, kept: seq<nat>)
    requires Recording(ordered) && tolerance > 0.0 && Keeps(ordered, kept) && |kept| == 3
    requires NearChord(ordered, tolerance)
    ensures !OneMinimal(ordered, Linear, RawShape(1), tolerance, kept)
  {
    StraightFits(ordered, [0, |ordered| - 1], tolerance);
    ThreeKept(|ordered|, kept);
    assert FittingWithout(ordered, Linear, RawShape(1), tolerance, kept, 1);
  }

  lemma TwoKept(
    ordered: seq<Point>, tolerance: real, limit: nat, selected: set<nat>, kept: seq<nat>, points: seq<CurvePoint>)
    requires Recording(ordered) && tolerance > 0.0
    requires Pruned(ordered, Linear, RawShape(1), tolerance, limit, Attempts(|ordered|), selected, kept, points)
    ensures NearChord(ordered, tolerance) && selected == StartOf(|ordered|) ==> |points| == 2
    ensures |points| == 2 ==> NearChord(ordered, tolerance)
  {
    SelectionKeeps(ordered, selected);
    StartTries(|ordered|);
    if |kept| == 2 {
      ThreeKept(|ordered|, kept);
      StraightFits(ordered, kept, tolerance);
    } else if |kept| == 3 && NearChord(ordered, tolerance) {
      MiddleGoes(ordered, tolerance, kept);
    }
  }

  // ----- Being near its chord is not enough ----------------------------------------------------------------

  /** Down, up, and back: within 1.0 of the chord. */
  function Zigzag(): seq<Point> { [Point(0, 0.0), Point(1, -1.0), Point(2, 1.0), Point(3, 0.0)] }

  lemma ZigzagErrors()
    ensures var error := ChordErrors(Zigzag());
            && error(1, 0, 3) == 1.0 && error(2, 0, 3) == 1.0
            && error(1, 0, 2) == 1.5 && error(2, 1, 3) == 1.5
  {
  }

  lemma ZigzagIsNear()
    ensures Recording(Zigzag()) && NearChord(Zigzag(), 1.0)
  {
    ZigzagErrors();
    var error := ChordErrors(Zigzag());
    forall k: nat | 0 < k < 3 ensures error(k, 0, 3) <= 1.0 { assert k == 1 || k == 2; }
  }

  ghost predicate ZigzagFits(kept: seq<nat>) { Fitting(Zigzag(), Linear, RawShape(1), 1.0, kept) }

  lemma ZigzagNeeds()
    ensures !ZigzagFits([0, 2, 3]) && !ZigzagFits([0, 1, 3])
  {
    ZigzagErrors();
    ChordTooFar([0, 2, 3], 0, 1);
    ChordTooFar([0, 1, 3], 1, 2);
  }

  lemma ChordTooFar(kept: seq<nat>, i: nat, k: nat)
    requires Keeps(Zigzag(), kept) && i + 1 < |kept| && kept[i] < k < kept[i + 1]
    requires ChordErrors(Zigzag())(k, kept[i], kept[i + 1]) > 1.0
    ensures !ZigzagFits(kept)
  {
    StraightFits(Zigzag(), kept, 1.0);
    assert !ChordFits(ChordErrors(Zigzag()), kept[i], kept[i + 1], 1.0);
  }

  /** Only all four samples will do. */
  lemma ZigzagSelection(selected: set<nat>)
    requires Selection(selected, 4) && StartOf(4) <= selected && ZigzagFits(SortedSet(selected))
    ensures SortedSet(selected) == [0, 1, 2, 3]
  {
    ZigzagNeeds();
    if 1 in selected {
      assert forall x :: x in selected <==> x in [0, 1, 2, 3];
      IncreasingIsUnique(SortedSet(selected), [0, 1, 2, 3]);
    } else {
      assert forall x :: x in selected <==> x in [0, 2, 3];
      IncreasingIsUnique(SortedSet(selected), [0, 2, 3]);
    }
  }

  lemma DropInner(dropping: set<nat>)
    requires Scattered([0, 1, 2, 3], dropping)
    ensures Drop([0, 1, 2, 3], dropping) == (if 1 in dropping then [0, 2, 3] else [0, 1, 3])
  {
    var kept := [0, 1, 2, 3];
    assert kept[0 + 1] == 1 && kept[1 + 1] == 2;
    assert !(kept[1] in dropping && kept[1 + 1] in dropping);
    if 1 in dropping {
      assert dropping == {1};
      DropOne(kept, 1);
    } else {
      assert dropping == {2};
      DropOne(kept, 2);
    }
  }

  lemma ZigzagIsRigid()
    ensures Rigid(Zigzag(), Linear, RawShape(1), 1.0, [0, 1, 2, 3])
  {
    ZigzagNeeds();
    forall dropping | Scattered([0, 1, 2, 3], dropping) ensures !ZigzagFits(Drop([0, 1, 2, 3], dropping)) {
      DropInner(dropping);
    }
  }

  /** Though this recording is within the tolerance of its chord, a straight fit of it that is
      within the tolerance has three points or more. */
  lemma ChordIsNotEnough(limit: nat, points: seq<CurvePoint>, report: Report)
    requires GoodFit(Zigzag(), 1, 1.0, limit, points, report) && report.maximumError <= 1.0
    ensures NearChord(Zigzag(), 1.0) && |points| >= 3
  {
    ZigzagIsNear();
    var selected, kept := PrunedOf(Zigzag(), 1, 1.0, limit, points, report);
    ZigzagSelection(selected);
    ZigzagIsRigid();
    assert Leaner(Zigzag(), Linear, kept, points);
  }
}

/** Stretches that no curve covers: which get a curve when layers are merged, and that nothing
    else does. */
module FilledGaps {
  import opened MotionTypes
  import opened Sorting
  import opened Timeline
  import ChordSelection
  import opened CurveEngine
  import opened EditState
  import opened LayerEdit
  import opened RangeEdit
  import opened LayerValidation
  import opened CurveMerging
  import opened MergedCurves
  import opened MergeSuccess

  // ----- Uncovered stretches ------------------------------------------------------------------------

  ghost predicate Rises(samples: seq<Point>) {
    forall i, j :: 0 <= i < j < |samples| ==> samples[i].tick < samples[j].tick
  }

  /** No curve covers these samples, the last one not included. */
  ghost predicate Open(samples: seq<Point>, curves: seq<Curve>, axis: Axis, i: nat, end: nat) {
    i <= end <= |samples| && forall k :: i <= k < end ==> !CoveredAt(curves, axis, samples[k].tick)
  }

  ghost predicate Begins(samples: seq<Point>, curves: seq<Curve>, axis: Axis, i: nat) {
    i <= |samples| && (i > 0 ==> CoveredAt(curves, axis, samples[i - 1].tick))
  }

  /** Two successive samples or more, from `i` to `j`, that no curve covers, and no more of
      them on either side. */
  ghost predicate Stretch(samples: seq<Point>, curves: seq<Curve>, axis: Axis, i: nat, j: nat) {
    && i < j < |samples| && Open(samples, curves, axis, i, j + 1) && Begins(samples, curves, axis, i)
    && (j + 1 < |samples| ==> CoveredAt(curves, axis, samples[j + 1].tick))
  }

  /** Such a stretch among the first `n` samples, with the covered one after it. */
  ghost predicate Ended(samples: seq<Point>, curves: seq<Curve>, axis: Axis, n: nat, i: nat, j: nat) {
    && i < j && j + 1 < n <= |samples| && Open(samples, curves, axis, i, j + 1) && Begins(samples, curves, axis, i)
    && CoveredAt(curves, axis, samples[j + 1].tick)
  }

  ghost predicate EndedIs(samples: seq<Point>, curves: seq<Curve>, axis: Axis, n: nat, gap: seq<Point>) {
    exists i: nat, j: nat :: Ended(samples, curves, axis, n, i, j) && gap == samples[i..j + 1]
  }

  /** Where the run that is going on began. */
  ghost predicate GoingOn(samples: seq<Point>, curves: seq<Curve>, axis: Axis, n: nat, c: nat, current: seq<Point>) {
    c <= n <= |samples| && Open(samples, curves, axis, c, n) && Begins(samples, curves, axis, c) && current == samples[c..n]
  }

  lemma BeganThere(samples: seq<Point>, curves: seq<Curve>, axis: Axis, n: nat, c: nat, i: nat)
    requires Open(samples, curves, axis, c, n) && Begins(samples, curves, axis, c)
    requires Open(samples, curves, axis, i, n) && Begins(samples, curves, axis, i) && c < n && i < n
    ensures i == c
  {
  }

  lemma OneMoreEnded(
    samples: seq<Point>, curves: seq<Curve>, axis: Axis, n: nat, c: nat, current: seq<Point>, gap: seq<Point>)
    requires n < |samples| && GoingOn(samples, curves, axis, n, c, current)
    ensures EndedIs(samples, curves, axis, n + 1, gap) <==>
            || EndedIs(samples, curves, axis, n, gap)
            || (CoveredAt(curves, axis, samples[n].tick) && |current| >= 2 && gap == current)
  {
    if EndedIs(samples, curves, axis, n, gap) {
      var i: nat, j: nat :| Ended(samples, curves, axis, n, i, j) && gap == samples[i..j + 1];
      assert Ended(samples, curves, axis, n + 1, i, j);
    }
    if CoveredAt(curves, axis, samples[n].tick) && |current| >= 2 {
      assert Ended(samples, curves, axis, n + 1, c, n - 1);
    }
    if EndedIs(samples, curves, axis, n + 1, gap) {
      var i: nat, j: nat :| Ended(samples, curves, axis, n + 1, i, j) && gap == samples[i..j + 1];
      if j + 1 == n {
        BeganThere(samples, curves, axis, n, c, i);
      } else {
        assert Ended(samples, curves, axis, n, i, j);
      }
    }
  }

  lemma GoesOn(samples: seq<Point>, curves: seq<Curve>, axis: Axis, n: nat, c: nat, current: seq<Point>)
    requires n < |samples| && GoingOn(samples, curves, axis, n, c, current)
    ensures if CoveredAt(curves, axis, samples[n].tick) then GoingOn(samples, curves, axis, n + 1, n + 1, [])
            else GoingOn(samples, curves, axis, n + 1, c, current + [samples[n]])
  {
  }

  lemma {:induction false} RunGoesOn(samples: seq<Point>, curves: seq<Curve>, axis: Axis, n: nat) returns (c: nat)
    requires n <= |samples|
    ensures GoingOn(samples, curves, axis, n, c, RunsOf(samples[..n], curves, axis).current)
  {
    if n == 0 {
      c := 0;
    } else {
      assert Front(samples[..n]) == samples[..n - 1] && Last(samples[..n]) == samples[n - 1];
      c := RunGoesOn(samples, curves, axis, n - 1);
      GoesOn(samples, curves, axis, n - 1, c, RunsOf(samples[..n - 1], curves, axis).current);
      if CoveredAt(curves, axis, samples[n - 1].tick) { c := n; }
    }
  }

  lemma {:induction false} RunsAre(samples: seq<Point>, curves: seq<Curve>, axis: Axis, n: nat, gap: seq<Point>)
    requires n <= |samples|
    ensures gap in RunsOf(samples[..n], curves, axis).gaps <==> EndedIs(samples, curves, axis, n, gap)
  {
    if n > 0 {
      var before := RunsOf(samples[..n - 1], curves, axis);
      assert Front(samples[..n]) == samples[..n - 1] && Last(samples[..n]) == samples[n - 1];
      RunsAre(samples, curves, axis, n - 1, gap);
      var c := RunGoesOn(samples, curves, axis, n - 1);
      OneMoreEnded(samples, curves, axis, n - 1, c, before.current, gap);
    }
  }

  ghost predicate StretchIs(samples: seq<Point>, curves: seq<Curve>, axis: Axis, gap: seq<Point>) {
    exists i: nat, j: nat :: Stretch(samples, curves, axis, i, j) && gap == samples[i..j + 1]
  }

  /** The gaps are exactly those stretches. */
  lemma GapsAre(samples: seq<Point>, curves: seq<Curve>, axis: Axis, gap: seq<Point>)
    ensures gap in UncoveredGaps(samples, curves, axis) <==> StretchIs(samples, curves, axis, gap)
  {
    var n := |samples|;
    assert samples[..n] == samples;
    var c := RunGoesOn(samples, curves, axis, n);
    RunsAre(samples, curves, axis, n, gap);
    var runs := RunsOf(samples, curves, axis);
    if StretchIs(samples, curves, axis, gap) {
      var i: nat, j: nat :| Stretch(samples, curves, axis, i, j) && gap == samples[i..j + 1];
      if j + 1 < n {
        assert Ended(samples, curves, axis, n, i, j);
      } else {
        BeganThere(samples, curves, axis, n, c, i);
      }
    }
    if gap in runs.gaps {
      var i: nat, j: nat :| Ended(samples, curves, axis, n, i, j) && gap == samples[i..j + 1];
      assert Stretch(samples, curves, axis, i, j);
    }
    if |runs.current| >= 2 {
      assert Stretch(samples, curves, axis, c, n - 1);
    }
  }

  /** Each gap comes before the next. */
  ghost predicate InTurn(gaps: seq<seq<Point>>) {
    && (forall a :: 0 <= a < |gaps| ==> |gaps[a]| >= 2 && Rises(gaps[a]))
    && forall a, b :: 0 <= a < b < |gaps| ==> Last(gaps[a]).tick < gaps[b][0].tick
  }

  lemma EndedBefore(samples: seq<Point>, curves: seq<Curve>, axis: Axis, n: nat, c: nat, current: seq<Point>, gap: seq<Point>)
    requires Rises(samples) && GoingOn(samples, curves, axis, n, c, current) && c < n && EndedIs(samples, curves, axis, n, gap)
    ensures |gap| >= 2 && Last(gap).tick < current[0].tick
  {
    var i: nat, j: nat :| Ended(samples, curves, axis, n, i, j) && gap == samples[i..j + 1];
    assert j + 1 < c;
  }

  lemma RisesWithin(samples: seq<Point>, i: nat, end: nat)
    requires Rises(samples) && i <= end <= |samples|
    ensures Rises(samples[i..end])
  {
  }

  lemma InTurnSnoc(gaps: seq<seq<Point>>, gap: seq<Point>)
    requires InTurn(gaps) && |gap| >= 2 && Rises(gap)
    requires forall g :: g in gaps ==> |g| >= 2 && Last(g).tick < gap[0].tick
    ensures InTurn(gaps + [gap])
  {
    forall a | 0 <= a < |gaps| ensures Last(gaps[a]).tick < gap[0].tick { assert gaps[a] in gaps; }
  }

  lemma ClosedInTurn(samples: seq<Point>, curves: seq<Curve>, axis: Axis, n: nat, c: nat, runs: Runs)
    requires Rises(samples) && GoingOn(samples, curves, axis, n, c, runs.current) && InTurn(runs.gaps)
    requires forall gap :: gap in runs.gaps ==> EndedIs(samples, curves, axis, n, gap)
    ensures InTurn(Closed(runs))
  {
    if |runs.current| >= 2 {
      forall gap | gap in runs.gaps ensures |gap| >= 2 && Last(gap).tick < runs.current[0].tick {
        EndedBefore(samples, curves, axis, n, c, runs.current, gap);
      }
      RisesWithin(samples, c, n);
      InTurnSnoc(runs.gaps, runs.current);
    }
  }

  lemma {:induction false} RunsInTurn(samples: seq<Point>, curves: seq<Curve>, axis: Axis, n: nat)
    requires Rises(samples) && n <= |samples|
    ensures InTurn(RunsOf(samples[..n], curves, axis).gaps)
  {
    if n > 0 {
      assert Front(samples[..n]) == samples[..n - 1] && Last(samples[..n]) == samples[n - 1];
      RunsInTurn(samples, curves, axis, n - 1);
      var c := RunGoesOn(samples, curves, axis, n - 1);
      var before := RunsOf(samples[..n - 1], curves, axis);
      forall gap ensures gap in before.gaps <==> EndedIs(samples, curves, axis, n - 1, gap) {
        RunsAre(samples, curves, axis, n - 1, gap);
      }
      ClosedInTurn(samples, curves, axis, n - 1, c, before);
    }
  }

  lemma GapsInTurn(samples: seq<Point>, curves: seq<Curve>, axis: Axis)
    requires Rises(samples)
    ensures InTurn(UncoveredGaps(samples, curves, axis))
  {
    assert samples[..|samples|] == samples;
    RunsInTurn(samples, curves, axis, |samples|);
    var c := RunGoesOn(samples, curves, axis, |samples|);
    forall gap ensures gap in RunsOf(samples, curves, axis).gaps <==> EndedIs(samples, curves, axis, |samples|, gap) {
      RunsAre(samples, curves, axis, |samples|, gap);
    }
    ClosedInTurn(samples, curves, axis, |samples|, c, RunsOf(samples, curves, axis));
  }

  // ----- The straight curve through a stretch ---------------------------------------------------------

  /** The ends of the stretch, and where its value changes. */
  ghost predicate IsCorner(samples: seq<Point>, i: nat, j: nat, k: nat) {
    && i <= k <= j < |samples|
    && (k == i || k == j || ChordSelection.Abs(samples[k].value - samples[k - 1].value) > 0.000000001)
  }

  ghost predicate CornerIs(samples: seq<Point>, i: nat, j: nat, p: Point) {
    exists k: nat :: IsCorner(samples, i, j, k) && samples[k] == p
  }

  /** A straight curve of the axis through these points, and no others. */
  ghost predicate Through(curve: Curve, axis: Axis, samples: seq<Point>, i: nat, j: nat) {
    && curve.axis == axis && curve.order == 1 && Spaced(curve.points)
    && (forall p :: p in curve.points ==> p == Straight(Knot(p)))
    && forall p :: p in KnotSet(curve.points) <==> CornerIs(samples, i, j, p)
  }

  ghost predicate TurnIs(gap: seq<Point>, k: nat, p: Point) {
    exists m: nat :: m < k <= |gap| && Turns(gap, m) && gap[m] == p
  }

  lemma OneMoreTurn(gap: seq<Point>, k: nat, p: Point)
    requires k < |gap|
    ensures TurnIs(gap, k + 1, p) <==> TurnIs(gap, k, p) || (Turns(gap, k) && gap[k] == p)
  {
    if TurnIs(gap, k, p) {
      var m: nat :| m < k && Turns(gap, m) && gap[m] == p;
      assert m < k + 1 && Turns(gap, m);
    }
  }

  lemma {:induction false} CornersBefore(gap: seq<Point>, k: nat)
    requires Rises(gap) && k <= |gap|
    ensures Corners(gap, k) != [] ==> k > 0 && Last(Corners(gap, k)).tick <= gap[k - 1].tick
  {
    if k > 0 {
      CornersBefore(gap, k - 1);
    }
  }

  lemma CornersStep(gap: seq<Point>, k: nat, p: Point)
    requires Rises(gap) && k < |gap|
    ensures p in Corners(gap, k + 1) <==> p in Corners(gap, k) || (Turns(gap, k) && gap[k] == p)
  {
    CornersBefore(gap, k);
    var before := Corners(gap, k);
    assert Corners(gap, k + 1) == if Turns(gap, k) then before + [gap[k]] else before;
  }

  lemma {:induction false} CornersAre(gap: seq<Point>, k: nat, p: Point)
    requires Rises(gap) && k <= |gap|
    ensures p in Corners(gap, k) <==> TurnIs(gap, k, p)
  {
    if k > 0 {
      CornersAre(gap, k - 1, p);
      CornersStep(gap, k - 1, p);
      OneMoreTurn(gap, k - 1, p);
    }
  }

  lemma TurnIsCorner(samples: seq<Point>, i: nat, j: nat, p: Point)
    requires i < j < |samples|
    ensures TurnIs(samples[i..j + 1], j + 1 - i, p) <==> CornerIs(samples, i, j, p)
  {
    var gap := samples[i..j + 1];
    if TurnIs(gap, |gap|, p) {
      var m: nat :| m < |gap| && Turns(gap, m) && gap[m] == p;
      assert IsCorner(samples, i, j, i + m) && samples[i + m] == p;
    }
    if CornerIs(samples, i, j, p) {
      var k: nat :| IsCorner(samples, i, j, k) && samples[k] == p;
      assert Turns(gap, k - i) && gap[k - i] == p;
    }
  }

  lemma KnotsOfStraight(corners: seq<Point>)
    ensures forall p :: p in KnotSet(StraightPoints(corners)) <==> p in corners
    ensures forall p :: p in StraightPoints(corners) ==> p == Straight(Knot(p))
  {
    var points := StraightPoints(corners);
    forall k | 0 <= k < |corners| ensures Knot(points[k]) == corners[k] {}
    forall p | p in corners ensures p in KnotSet(points) {
      var k :| 0 <= k < |corners| && corners[k] == p;
      assert points[k] in points;
    }
  }

  /** The straight curve is made, whatever its name. */
  lemma PieceIsThrough(axis: Axis, samples: seq<Point>, i: nat, j: nat, id: string)
    requires Rises(samples) && i < j < |samples|
    ensures var piece := CurveFromSamples(axis, samples[i..j + 1], id);
            piece.Some? && Through(piece.value, axis, samples, i, j)
  {
    var gap := samples[i..j + 1];
    var corners := Corners(gap, |gap|);
    RisesWithin(samples, i, j + 1);
    forall p ensures p in corners <==> CornerIs(samples, i, j, p) {
      CornersAre(gap, |gap|, p);
      TurnIsCorner(samples, i, j, p);
    }
    assert IsCorner(samples, i, j, i) && IsCorner(samples, i, j, j);
    assert samples[i] in corners && samples[j] in corners;
    CornersRise(gap, |gap|);
    KnotsOfStraight(corners);
  }

  /** There is only one, but for its name. */
  lemma OnlyOneThrough(a: Curve, b: Curve, axis: Axis, samples: seq<Point>, i: nat, j: nat)
    requires Through(a, axis, samples, i, j) && Through(b, axis, samples, i, j)
    ensures a == b.(id := a.id)
  {
    assert KnotSet(a.points) == KnotSet(b.points);
    SamePoints(a.points, b.points);
  }

  ghost predicate Plain(points: seq<CurvePoint>) { forall p :: p in points ==> p == Straight(Knot(p)) }

  lemma {:induction false} SpacedIsIncreasing(points: seq<CurvePoint>, i: nat, j: nat)
    requires Spaced(points) && i < j < |points|
    ensures points[i].tick < points[j].tick
  {
    SpacedIsOrdered(points, i, j);
  }

  lemma FirstKnot(a: seq<CurvePoint>, b: seq<CurvePoint>)
    requires Spaced(a) && Spaced(b) && a != [] && KnotSet(a) == KnotSet(b)
    ensures b != [] && b[0].tick <= a[0].tick
  {
    assert a[0] in a && Knot(a[0]) in KnotSet(b);
    var p :| p in b && Knot(p) == Knot(a[0]);
    var k :| 0 <= k < |b| && b[k] == p;
    if k > 0 { SpacedIsIncreasing(b, 0, k); }
  }

  lemma KnotsOfTail(points: seq<CurvePoint>)
    requires Spaced(points) && points != []
    ensures Spaced(points[1..]) && KnotSet(points[1..]) == KnotSet(points) - {Knot(points[0])}
  {
    forall k | k in KnotSet(points[1..]) ensures k in KnotSet(points) && k != Knot(points[0]) {
      var p :| p in points[1..] && Knot(p) == k;
      var m :| 0 <= m < |points| - 1 && points[1..][m] == p;
      SpacedIsIncreasing(points, 0, m + 1);
    }
    forall k | k in KnotSet(points) && k != Knot(points[0]) ensures k in KnotSet(points[1..]) {
      var p :| p in points && Knot(p) == k;
      var m :| 0 <= m < |points| && points[m] == p;
      assert points[1..][m - 1] == p;
    }
  }

  lemma {:induction false} SamePoints(a: seq<CurvePoint>, b: seq<CurvePoint>)
    requires Spaced(a) && Spaced(b) && Plain(a) && Plain(b) && KnotSet(a) == KnotSet(b)
    ensures a == b
  {
    if a != [] {
      FirstKnot(a, b);
      FirstKnot(b, a);
      SameFirst(a, b);
      KnotsOfTail(a);
      KnotsOfTail(b);
      SamePoints(a[1..], b[1..]);
      assert a == [a[0]] + a[1..] && b == [b[0]] + b[1..];
    } else if b != [] {
      FirstKnot(b, a);
    }
  }

  lemma SameFirst(a: seq<CurvePoint>, b: seq<CurvePoint>)
    requires Spaced(a) && Spaced(b) && Plain(a) && Plain(b) && KnotSet(a) == KnotSet(b)
    requires a != [] && b != [] && a[0].tick == b[0].tick
    ensures a[0] == b[0]
  {
    assert a[0] in a && b[0] in b && Knot(a[0]) in KnotSet(b);
    var p :| p in b && Knot(p) == Knot(a[0]);
    var k :| 0 <= k < |b| && b[k] == p;
    if k > 0 { SpacedIsIncreasing(b, 0, k); }
  }

  // ----- The curves for the gaps ---------------------------------------------------------------------------

  /** The first and last time of the straight curve are those of the stretch. */
  lemma ThroughSpans(curve: Curve, axis: Axis, samples: seq<Point>, i: nat, j: nat)
    requires Rises(samples) && i < j < |samples| && Through(curve, axis, samples, i, j)
    ensures |curve.points| >= 2 && curve.points[0].tick == samples[i].tick && Last(curve.points).tick == samples[j].tick
    ensures Bounds(curve) == (samples[i].tick, samples[j].tick)
  {
    assert IsCorner(samples, i, j, i) && IsCorner(samples, i, j, j);
    assert CornerIs(samples, i, j, samples[i]) && CornerIs(samples, i, j, samples[j]);
    EndKnots(curve, axis, samples, i, j);
    BoundsOfSpaced(curve.points);
  }

  lemma KnotWithin(curve: Curve, axis: Axis, samples: seq<Point>, i: nat, j: nat, m: nat)
    requires Rises(samples) && i < j < |samples| && Through(curve, axis, samples, i, j) && m < |curve.points|
    ensures samples[i].tick <= curve.points[m].tick <= samples[j].tick
  {
    assert curve.points[m] in curve.points && Knot(curve.points[m]) in KnotSet(curve.points);
    var k: nat :| IsCorner(samples, i, j, k) && samples[k] == Knot(curve.points[m]);
  }

  lemma PlaceOfKnot(points: seq<CurvePoint>, k: Point) returns (m: nat)
    requires k in KnotSet(points)
    ensures m < |points| && Knot(points[m]) == k
  {
    var p :| p in points && Knot(p) == k;
    m :| m < |points| && points[m] == p;
  }

  lemma EndKnots(curve: Curve, axis: Axis, samples: seq<Point>, i: nat, j: nat)
    requires Rises(samples) && i < j < |samples| && Through(curve, axis, samples, i, j)
    requires samples[i] in KnotSet(curve.points) && samples[j] in KnotSet(curve.points)
    ensures |curve.points| >= 2 && curve.points[0].tick == samples[i].tick && Last(curve.points).tick == samples[j].tick
  {
    var a := PlaceOfKnot(curve.points, samples[i]);
    var b := PlaceOfKnot(curve.points, samples[j]);
    var last := |curve.points| - 1;
    KnotWithin(curve, axis, samples, i, j, 0);
    KnotWithin(curve, axis, samples, i, j, last);
    if a > 0 { SpacedIsIncreasing(curve.points, 0, a); }
    if b < last { SpacedIsIncreasing(curve.points, b, last); }
  }

  /** The frames have what the straight curve through the stretch draws. */
  ghost predicate Fillable(render: Render, frames: seq<Frame>, samples: seq<Point>, axis: Axis, i: nat, j: nat) {
    exists c :: Through(c, axis, samples, i, j) && Matches(render, frames, c, MatchTolerance)
  }

  lemma MatchesWhateverName(render: Render, frames: seq<Frame>, a: Curve, b: Curve)
    requires a == b.(id := a.id)
    ensures Matches(render, frames, a, MatchTolerance) <==> Matches(render, frames, b, MatchTolerance)
  {
  }

  /** The filler of a stretch: the straight curve if the frames have what it draws. */
  lemma FillerIs(render: Render, frames: seq<Frame>, axis: Axis, samples: seq<Point>, i: nat, j: nat, id: string)
    requires Renders(render) && Rises(samples) && i < j < |samples|
    ensures var filler := Filler(render, frames, axis, samples[i..j + 1], id);
            && |filler| <= 1 && (filler != [] <==> Fillable(render, frames, samples, axis, i, j))
            && (filler != [] ==>
                  Through(filler[0], axis, samples, i, j) && Matches(render, frames, filler[0], MatchTolerance))
  {
    var piece := CurveFromSamples(axis, samples[i..j + 1], id);
    PieceIsThrough(axis, samples, i, j, id);
    NoMismatchMeansMatch(render, frames, [piece.value], MatchTolerance);
    assert Matches(render, frames, [piece.value][0], MatchTolerance) <==> Matches(render, frames, piece.value, MatchTolerance);
    if c :| Through(c, axis, samples, i, j) && Matches(render, frames, c, MatchTolerance) {
      OnlyOneThrough(c, piece.value, axis, samples, i, j);
      MatchesWhateverName(render, frames, c, piece.value);
    }
  }

  // ----- All fillers ------------------------------------------------------------------------------------------

  lemma {:induction false} FillersFrom(fill: GapFiller, gaps: seq<seq<Point>>, names: Names, from: nat, d: Curve)
    requires d in Fillers(fill, gaps, names, from)
    ensures exists a, id :: 0 <= a < |gaps| && d in fill(gaps[a], id)
  {
    var before := Fillers(fill, Front(gaps), names, from);
    if d in before {
      FillersFrom(fill, Front(gaps), names, from, d);
      var a, id :| 0 <= a < |gaps| - 1 && d in fill(Front(gaps)[a], id);
      assert d in fill(gaps[a], id);
    } else {
      assert d in fill(gaps[|gaps| - 1], names(from + |before|));
    }
  }

  ghost predicate AllIn(some: seq<Curve>, all: seq<Curve>) { forall d :: d in some ==> d in all }

  lemma {:induction false} FillersTo(fill: GapFiller, gaps: seq<seq<Point>>, names: Names, from: nat, a: nat)
    returns (id: string)
    requires a < |gaps|
    ensures AllIn(fill(gaps[a], id), Fillers(fill, gaps, names, from))
  {
    if a < |gaps| - 1 {
      id := FillersTo(fill, Front(gaps), names, from, a);
    } else {
      id := names(from + |Fillers(fill, Front(gaps), names, from)|);
    }
  }

  /** A filler spans its gap, and there is at most one. */
  ghost predicate Spanning(fill: GapFiller, axis: Axis, gap: seq<Point>) {
    |gap| >= 2 && forall id :: SpanningAs(fill, axis, gap, id)
  }

  ghost predicate SpanningAs(fill: GapFiller, axis: Axis, gap: seq<Point>, id: string)
    requires |gap| >= 2
  {
    |fill(gap, id)| <= 1 &&
    forall d :: d in fill(gap, id) ==> d.axis == axis && Bounds(d) == (gap[0].tick, Last(gap).tick)
  }

  lemma {:induction false} FillersApart(fill: GapFiller, axis: Axis, gaps: seq<seq<Point>>, names: Names, from: nat)
    requires InTurn(gaps) && forall a :: 0 <= a < |gaps| ==> Spanning(fill, axis, gaps[a])
    ensures NoOverlaps(Fillers(fill, gaps, names, from))
  {
    if gaps != [] {
      var before := Fillers(fill, Front(gaps), names, from);
      var id := names(from + |before|);
      var more := fill(Last(gaps), id);
      assert Spanning(fill, axis, gaps[|gaps| - 1]) && SpanningAs(fill, axis, Last(gaps), id);
      FillersApart(fill, axis, Front(gaps), names, from);
      forall k, m | 0 <= k < |before| && 0 <= m < |more| ensures Apart(before[k], more[m]) {
        assert before[k] in before && more[m] in more;
        FillersFrom(fill, Front(gaps), names, from, before[k]);
        var a, other :| 0 <= a < |gaps| - 1 && before[k] in fill(Front(gaps)[a], other);
        assert Spanning(fill, axis, gaps[a]) && SpanningAs(fill, axis, gaps[a], other);
      }
    }
  }

  /** The samples of the axis in the frames. */
  lemma SeriesRises(frames: seq<Frame>, axis: Axis)
    requires DistinctTicks(frames)
    ensures Rises(Series(frames, axis))
  {
    var points := Series(frames, axis);
    DistinctNoDoubles(frames, axis);
    SortNoDoubles(AxisPoints(frames, axis));
    SeriesIsOrdered(frames, axis);
    forall i, j | 0 <= i < j < |points| ensures points[i].tick < points[j].tick {
      assert PointLeq()(points[i], points[j]);
    }
  }

  /** A stretch of the axis that gets a curve: it has a curve already, and the frames have what
      the straight curve through the stretch draws. */
  ghost predicate Filled(render: Render, frames: seq<Frame>, curves: seq<Curve>, axis: Axis, i: nat, j: nat) {
    && HasCurve(curves, axis) && Stretch(Series(frames, axis), curves, axis, i, j)
    && Fillable(render, frames, Series(frames, axis), axis, i, j)
  }

  /** The curve of such a stretch. */
  ghost predicate FillsStretch(render: Render, frames: seq<Frame>, curves: seq<Curve>, d: Curve, i: nat, j: nat) {
    Filled(render, frames, curves, d.axis, i, j) && Through(d, d.axis, Series(frames, d.axis), i, j)
  }

  lemma StretchIndex(samples: seq<Point>, curves: seq<Curve>, axis: Axis, i: nat, j: nat) returns (a: nat)
    requires Stretch(samples, curves, axis, i, j)
    ensures a < |UncoveredGaps(samples, curves, axis)| && UncoveredGaps(samples, curves, axis)[a] == samples[i..j + 1]
  {
    assert StretchIs(samples, curves, axis, samples[i..j + 1]);
    GapsAre(samples, curves, axis, samples[i..j + 1]);
    a :| a < |UncoveredGaps(samples, curves, axis)| && UncoveredGaps(samples, curves, axis)[a] == samples[i..j + 1];
  }

  lemma GapStretch(samples: seq<Point>, curves: seq<Curve>, axis: Axis, a: nat) returns (i: nat, j: nat)
    requires a < |UncoveredGaps(samples, curves, axis)|
    ensures Stretch(samples, curves, axis, i, j) && UncoveredGaps(samples, curves, axis)[a] == samples[i..j + 1]
  {
    GapsAre(samples, curves, axis, UncoveredGaps(samples, curves, axis)[a]);
    i, j :| Stretch(samples, curves, axis, i, j) && UncoveredGaps(samples, curves, axis)[a] == samples[i..j + 1];
  }

  lemma AxisFillersSpan(render: Render, frames: seq<Frame>, curves: seq<Curve>, axis: Axis, a: nat)
    requires Renders(render) && DistinctTicks(frames) && a < |UncoveredGaps(Series(frames, axis), curves, axis)|
    ensures Spanning(GapFillerFor(render, frames, axis), axis, UncoveredGaps(Series(frames, axis), curves, axis)[a])
  {
    var samples := Series(frames, axis);
    SeriesRises(frames, axis);
    var i, j := GapStretch(samples, curves, axis, a);
    var fill, gap := GapFillerFor(render, frames, axis), samples[i..j + 1];
    forall id ensures SpanningAs(fill, axis, gap, id) {
      FillerIs(render, frames, axis, samples, i, j, id);
      var filler := Filler(render, frames, axis, samples[i..j + 1], id);
      if filler != [] { ThroughSpans(filler[0], axis, samples, i, j); }
    }
  }

  lemma AxisFillersApart(render: Render, frames: seq<Frame>, curves: seq<Curve>, axis: Axis, names: Names, from: nat)
    requires Renders(render) && DistinctTicks(frames)
    ensures NoOverlaps(AxisFillers(render, frames, curves, axis, names, from))
  {
    var samples := Series(frames, axis);
    var gaps := UncoveredGaps(samples, curves, axis);
    SeriesRises(frames, axis);
    GapsInTurn(samples, curves, axis);
    forall a | 0 <= a < |gaps| ensures Spanning(GapFillerFor(render, frames, axis), axis, gaps[a]) {
      AxisFillersSpan(render, frames, curves, axis, a);
    }
    FillersApart(GapFillerFor(render, frames, axis), axis, gaps, names, from);
  }

  /** Every filler of an axis fills a stretch, */
  lemma AxisFillersFrom(
    render: Render, frames: seq<Frame>, curves: seq<Curve>, axis: Axis, names: Names, from: nat, d: Curve)
    requires Renders(render) && DistinctTicks(frames) && d in AxisFillers(render, frames, curves, axis, names, from)
    ensures d.axis == axis && exists i: nat, j: nat :: FillsStretch(render, frames, curves, d, i, j)
  {
    var samples := Series(frames, axis);
    var gaps, fill := UncoveredGaps(samples, curves, axis), GapFillerFor(render, frames, axis);
    SeriesRises(frames, axis);
    FillersFrom(fill, gaps, names, from, d);
    var a, id :| 0 <= a < |gaps| && d in fill(gaps[a], id);
    var i, j := GapStretch(samples, curves, axis, a);
    FillerIs(render, frames, axis, samples, i, j, id);
    assert d == Filler(render, frames, axis, samples[i..j + 1], id)[0];
    assert FillsStretch(render, frames, curves, d, i, j);
  }

  /** and every stretch that can be filled has a filler. */
  lemma AxisFillersTo(
    render: Render, frames: seq<Frame>, curves: seq<Curve>, axis: Axis, names: Names, from: nat, i: nat, j: nat)
    returns (d: Curve)
    requires Renders(render) && DistinctTicks(frames) && Filled(render, frames, curves, axis, i, j)
    ensures d in AxisFillers(render, frames, curves, axis, names, from) && Through(d, axis, Series(frames, axis), i, j)
  {
    var samples := Series(frames, axis);
    var gaps, fill := UncoveredGaps(samples, curves, axis), GapFillerFor(render, frames, axis);
    SeriesRises(frames, axis);
    var a := StretchIndex(samples, curves, axis, i, j);
    var id := FillersTo(fill, gaps, names, from, a);
    FillerIs(render, frames, axis, samples, i, j, id);
    d := Filler(render, frames, axis, samples[i..j + 1], id)[0];
    assert d in fill(gaps[a], id);
  }

  // ----- All axes -----------------------------------------------------------------------------------------------

  lemma {:induction false} AllFillersFrom(fill: AxisFiller, axes: seq<Axis>, from: nat, d: Curve)
    requires d in AllFillers(fill, axes, from)
    ensures exists axis, k: nat :: axis in axes && d in fill(axis, k)
  {
    var before := AllFillers(fill, Front(axes), from);
    FrontAndLast(axes);
    if d in before {
      AllFillersFrom(fill, Front(axes), from, d);
      var axis, k: nat :| axis in Front(axes) && d in fill(axis, k);
    } else {
      assert d in fill(Last(axes), from + |before|);
    }
  }

  lemma {:induction false} AllFillersTo(fill: AxisFiller, axes: seq<Axis>, from: nat, axis: Axis) returns (k: nat)
    requires axis in axes
    ensures AllIn(fill(axis, k), AllFillers(fill, axes, from))
  {
    FrontAndLast(axes);
    if axis in Front(axes) {
      k := AllFillersTo(fill, Front(axes), from, axis);
    } else {
      k := from + |AllFillers(fill, Front(axes), from)|;
    }
  }

  ghost predicate ApartOn(fill: AxisFiller, axis: Axis, k: nat) {
    NoOverlaps(fill(axis, k)) && forall d :: d in fill(axis, k) ==> d.axis == axis
  }

  lemma {:induction false} AllFillersApart(fill: AxisFiller, axes: seq<Axis>, from: nat)
    requires (forall i, j :: 0 <= i < j < |axes| ==> axes[i] != axes[j]) && forall axis, k: nat :: ApartOn(fill, axis, k)
    ensures NoOverlaps(AllFillers(fill, axes, from))
  {
    if axes != [] {
      var before := AllFillers(fill, Front(axes), from);
      var more := fill(Last(axes), from + |before|);
      assert ApartOn(fill, Last(axes), from + |before|);
      AllFillersApart(fill, Front(axes), from);
      forall k, m | 0 <= k < |before| && 0 <= m < |more| ensures Apart(before[k], more[m]) {
        assert before[k] in before && more[m] in more;
        AllFillersFrom(fill, Front(axes), from, before[k]);
        var axis, at: nat :| axis in Front(axes) && before[k] in fill(axis, at);
        assert ApartOn(fill, axis, at);
        var place :| 0 <= place < |axes| - 1 && Front(axes)[place] == axis;
        assert axes[place] != axes[|axes| - 1];
      }
    }
  }

  lemma GapCurvesApart(render: Render, frames: seq<Frame>, curves: seq<Curve>, names: Names)
    requires Renders(render) && DistinctTicks(frames)
    ensures NoOverlaps(CurvesForGaps(render, frames, curves, names))
  {
    var fill := AxisFillerFor(render, frames, curves, names);
    forall axis, k: nat ensures ApartOn(fill, axis, k) {
      AxisFillersApart(render, frames, curves, axis, names, k);
      forall d | d in fill(axis, k) ensures d.axis == axis { AxisFillersFrom(render, frames, curves, axis, names, k, d); }
    }
    AllFillersApart(fill, SortedSet(AxesOf(frames)), |curves|);
  }

  /** The new curves are those that fill a stretch. */
  lemma GapCurvesFrom(render: Render, frames: seq<Frame>, curves: seq<Curve>, names: Names, d: Curve)
    requires Renders(render) && DistinctTicks(frames) && d in CurvesForGaps(render, frames, curves, names)
    ensures exists i: nat, j: nat :: FillsStretch(render, frames, curves, d, i, j)
  {
    var fill := AxisFillerFor(render, frames, curves, names);
    AllFillersFrom(fill, SortedSet(AxesOf(frames)), |curves|, d);
    var axis, k: nat :| axis in SortedSet(AxesOf(frames)) && d in fill(axis, k);
    AxisFillersFrom(render, frames, curves, axis, names, k, d);
  }

  lemma SeriesHasAxis(frames: seq<Frame>, axis: Axis)
    requires Series(frames, axis) != []
    ensures axis in AxesOf(frames)
  {
    var p := Series(frames, axis)[0];
    assert p in Series(frames, axis);
    PointIsFound(frames, axis, p);
    if axis !in AxesOf(frames) { FirstAtNeedsAxis(frames, axis, p.tick); }
  }

  lemma GapCurvesTo(
    render: Render, frames: seq<Frame>, curves: seq<Curve>, names: Names, axis: Axis, i: nat, j: nat)
    returns (d: Curve)
    requires Renders(render) && DistinctTicks(frames) && Filled(render, frames, curves, axis, i, j)
    ensures d in CurvesForGaps(render, frames, curves, names) && Through(d, axis, Series(frames, axis), i, j)
  {
    var fill := AxisFillerFor(render, frames, curves, names);
    SeriesHasAxis(frames, axis);
    var k := AllFillersTo(fill, SortedSet(AxesOf(frames)), |curves|, axis);
    d := AxisFillersTo(render, frames, curves, axis, names, k, i, j);
  }

  // ----- The given curves are in nobody's way ---------------------------------------------------------------------

  /** The curve covers a sample of its axis. */
  ghost predicate Touches(frames: seq<Frame>, c: Curve) {
    && |c.points| >= 2 && Spaced(c.points)
    && exists tick: nat :: CoveredBy(c, c.axis, tick) && FirstAt(frames, c.axis, tick).Some?
  }

  lemma SampleThere(frames: seq<Frame>, axis: Axis, tick: nat) returns (m: nat)
    requires FirstAt(frames, axis, tick).Some?
    ensures m < |Series(frames, axis)| && Series(frames, axis)[m].tick == tick
  {
    SeriesLookup(frames, axis, tick);
    m := FoundAt(Series(frames, axis), tick);
  }

  lemma {:induction false} FoundAt(points: seq<Point>, tick: nat) returns (m: nat)
    requires FirstPointAt(points, tick).Some?
    ensures m < |points| && points[m].tick == tick
  {
    if points[0].tick == tick {
      m := 0;
    } else {
      m := FoundAt(points[1..], tick);
      m := m + 1;
    }
  }

  lemma GivenApart(frames: seq<Frame>, curves: seq<Curve>, c: Curve, d: Curve, i: nat, j: nat)
    requires DistinctTicks(frames) && c in curves && Touches(frames, c) && c.axis == d.axis
    requires Stretch(Series(frames, d.axis), curves, d.axis, i, j) && Through(d, d.axis, Series(frames, d.axis), i, j)
    ensures Apart(c, d)
  {
    var samples := Series(frames, d.axis);
    SeriesRises(frames, d.axis);
    ThroughSpans(d, d.axis, samples, i, j);
    BoundsOfSpaced(c.points);
    var tick: nat :| CoveredBy(c, c.axis, tick) && FirstAt(frames, c.axis, tick).Some?;
    var m := SampleThere(frames, c.axis, tick);
    NotCoveredBy(curves, c, samples, d.axis, i, j, i);
    NotCoveredBy(curves, c, samples, d.axis, i, j, j);
    NotInside(curves, c, samples, d.axis, i, j, m);
  }

  lemma NotInside(curves: seq<Curve>, c: Curve, samples: seq<Point>, axis: Axis, i: nat, j: nat, m: nat)
    requires c in curves && Stretch(samples, curves, axis, i, j) && m < |samples| && CoveredBy(c, axis, samples[m].tick)
    ensures m < i || j < m
  {
    var n :| 0 <= n < |curves| && curves[n] == c;
    assert CoveredAt(curves, axis, samples[m].tick);
  }

  lemma NotCoveredBy(curves: seq<Curve>, c: Curve, samples: seq<Point>, axis: Axis, i: nat, j: nat, k: nat)
    requires c in curves && Stretch(samples, curves, axis, i, j) && i <= k <= j
    ensures !CoveredBy(c, axis, samples[k].tick)
  {
    var n :| 0 <= n < |curves| && curves[n] == c;
    assert !CoveredAt(curves, axis, samples[k].tick);
  }

  /** Curves that do not overlap, each over a sample of its axis. */
  ghost predicate WellPlaced(frames: seq<Frame>, curves: seq<Curve>) {
    NoOverlaps(curves) && forall c :: c in curves ==> Touches(frames, c)
  }

  lemma NothingInTheWay(render: Render, frames: seq<Frame>, curves: seq<Curve>, names: Names)
    requires Renders(render) && DistinctTicks(frames) && WellPlaced(frames, curves)
    ensures NoOverlaps(curves + CurvesForGaps(render, frames, curves, names))
  {
    var filled := CurvesForGaps(render, frames, curves, names);
    GapCurvesApart(render, frames, curves, names);
    forall k, m | 0 <= k < |curves| && 0 <= m < |filled| ensures Apart(curves[k], filled[m]) {
      if curves[k].axis == filled[m].axis {
        GapCurvesFrom(render, frames, curves, names, filled[m]);
        var i: nat, j: nat :| FillsStretch(render, frames, curves, filled[m], i, j);
        GivenApart(frames, curves, curves[k], filled[m], i, j);
      }
    }
  }

  // ----- What extending does --------------------------------------------------------------------------------------

  /** Every curve was given or fills a stretch, and every stretch that can be filled is filled. */
  lemma ExtendingFills(render: Render, frames: seq<Frame>, curves: seq<Curve>, names: Names)
    requires Renders(render) && DistinctTicks(frames) && WellPlaced(frames, curves)
    ensures var after := CurveMerging.Extended(render, frames, curves, names);
            && AllIn(curves, after)
            && (forall d :: d in after ==>
                  d in curves || exists i: nat, j: nat :: FillsStretch(render, frames, curves, d, i, j))
            && forall axis, i: nat, j: nat :: Filled(render, frames, curves, axis, i, j) ==>
                 FilledIn(after, Series(frames, axis), axis, i, j)
  {
    var filled := CurvesForGaps(render, frames, curves, names);
    var after := CurveMerging.Extended(render, frames, curves, names);
    NothingInTheWay(render, frames, curves, names);
    forall d | d in after ensures d in curves || exists i: nat, j: nat :: FillsStretch(render, frames, curves, d, i, j) {
      if d !in curves { GapCurvesFrom(render, frames, curves, names, d); }
    }
    forall axis, i: nat, j: nat | Filled(render, frames, curves, axis, i, j)
      ensures FilledIn(after, Series(frames, axis), axis, i, j)
    {
      var d := GapCurvesTo(render, frames, curves, names, axis, i, j);
      assert curves != [] && d in curves + filled;
    }
  }

  /** One of the curves is the straight one through the stretch. */
  ghost predicate FilledIn(curves: seq<Curve>, samples: seq<Point>, axis: Axis, i: nat, j: nat) {
    exists d :: d in curves && Through(d, axis, samples, i, j)
  }

  /** Then every tick of the stretch is covered. */
  lemma FilledCovers(curves: seq<Curve>, samples: seq<Point>, axis: Axis, i: nat, j: nat, tick: nat)
    requires Rises(samples) && i < j < |samples| && FilledIn(curves, samples, axis, i, j)
    requires samples[i].tick <= tick <= samples[j].tick
    ensures CoveredAt(curves, axis, tick)
  {
    var d :| d in curves && Through(d, axis, samples, i, j);
    ThroughSpans(d, axis, samples, i, j);
    var n :| 0 <= n < |curves| && curves[n] == d;
    assert CoveredBy(curves[n], axis, tick);
  }

  /** A tick is covered afterwards if and only if it was, or lies in a stretch of two or more
      successive uncovered samples whose straight curve draws what the frames have. */
  lemma ExtendingCovers(render: Render, frames: seq<Frame>, curves: seq<Curve>, names: Names, axis: Axis, tick: nat)
    requires Renders(render) && DistinctTicks(frames) && WellPlaced(frames, curves)
    ensures CoveredAt(CurveMerging.Extended(render, frames, curves, names), axis, tick) <==>
            CoveredAt(curves, axis, tick) || InFilled(render, frames, curves, axis, tick)
  {
    var after := CurveMerging.Extended(render, frames, curves, names);
    ExtendingFills(render, frames, curves, names);
    SeriesRises(frames, axis);
    if CoveredAt(curves, axis, tick) {
      var n :| 0 <= n < |curves| && CoveredBy(curves[n], axis, tick);
      assert curves[n] in curves;
      var m :| 0 <= m < |after| && after[m] == curves[n];
    }
    if InFilled(render, frames, curves, axis, tick) {
      var i: nat, j: nat :| FilledAround(render, frames, curves, axis, tick, i, j);
      FilledCovers(after, Series(frames, axis), axis, i, j, tick);
    }
    if CoveredAt(after, axis, tick) && !CoveredAt(curves, axis, tick) {
      CoveredFilled(render, frames, curves, after, axis, tick);
    }
  }

  ghost predicate InFilled(render: Render, frames: seq<Frame>, curves: seq<Curve>, axis: Axis, tick: nat) {
    exists i: nat, j: nat :: FilledAround(render, frames, curves, axis, tick, i, j)
  }

  ghost predicate FilledAround(
    render: Render, frames: seq<Frame>, curves: seq<Curve>, axis: Axis, tick: nat, i: nat, j: nat)
  {
    Filled(render, frames, curves, axis, i, j) && Series(frames, axis)[i].tick <= tick <= Series(frames, axis)[j].tick
  }

  lemma NotGiven(curves: seq<Curve>, d: Curve, axis: Axis, tick: nat)
    requires CoveredBy(d, axis, tick) && !CoveredAt(curves, axis, tick)
    ensures d !in curves
  {
  }

  lemma CoveredFilled(
    render: Render, frames: seq<Frame>, curves: seq<Curve>, after: seq<Curve>, axis: Axis, tick: nat)
    requires DistinctTicks(frames) && CoveredAt(after, axis, tick) && !CoveredAt(curves, axis, tick)
    requires forall d :: d in after ==>
               d in curves || exists i: nat, j: nat :: FillsStretch(render, frames, curves, d, i, j)
    ensures InFilled(render, frames, curves, axis, tick)
  {
    var n :| 0 <= n < |after| && CoveredBy(after[n], axis, tick);
    var d := after[n];
    assert d in after;
    NotGiven(curves, d, axis, tick);
    var i: nat, j: nat :| FillsStretch(render, frames, curves, d, i, j);
    SeriesRises(frames, axis);
    ThroughSpans(d, axis, Series(frames, axis), i, j);
    assert FilledAround(render, frames, curves, axis, tick, i, j);
  }
}

/** Whether curves of one axis overlap: told by neighbours in time order. */
module CurveOverlaps {
  import opened MotionTypes
  import opened Sorting
  import opened Timeline
  import opened Ownership
  import opened CurveEngine
  import opened EditState
  import opened LayerEdit
  import opened RangeEdit

  /** The spans of an axis's curves. */
  function SpansOfCurves(curves: seq<Curve>): (r: seq<(nat, nat)>)
    ensures |r| == |curves|
    ensures forall i :: 0 <= i < |curves| ==> r[i] == Bounds(curves[i])
  {
    seq(|curves|, i requires 0 <= i < |curves| => Bounds(curves[i]))
  }

  predicate Disjoint(a: (nat, nat), b: (nat, nat)) { a.1 < b.0 || b.1 < a.0 }

  predicate AllDisjoint(spans: seq<(nat, nat)>) {
    forall i, j :: 0 <= i < j < |spans| ==> Disjoint(spans[i], spans[j])
  }

  lemma {:induction false} InsertDisjoint(x: (nat, nat), spans: seq<(nat, nat)>)
    ensures AllDisjoint(Insert(x, spans, SpanLeq())) <==>
            AllDisjoint(spans) && forall i :: 0 <= i < |spans| ==> Disjoint(x, spans[i])
  {
    var r := Insert(x, spans, SpanLeq());
    if spans != [] && !SpanLeq()(x, spans[0]) {
      InsertDisjoint(x, spans[1..]);
      InsertKeeps(x, spans[1..], SpanLeq());
      ConsDisjoint(spans[0], spans[1..]);
      ConsDisjoint(spans[0], Insert(x, spans[1..], SpanLeq()));
      MembersDisjoint(spans[0], x, spans[1..], Insert(x, spans[1..], SpanLeq()));
      assert spans == [spans[0]] + spans[1..];
    } else {
      ConsDisjoint(x, spans);
    }
  }

  lemma ConsDisjoint(x: (nat, nat), spans: seq<(nat, nat)>)
    ensures AllDisjoint([x] + spans) <==> AllDisjoint(spans) && forall i :: 0 <= i < |spans| ==> Disjoint(x, spans[i])
  {
    var longer := [x] + spans;
    if AllDisjoint(longer) {
      forall i, j | 0 <= i < j < |spans| ensures Disjoint(spans[i], spans[j]) {
        assert longer[i + 1] == spans[i] && longer[j + 1] == spans[j];
      }
      forall i | 0 <= i < |spans| ensures Disjoint(x, spans[i]) {
        assert longer[0] == x && longer[i + 1] == spans[i];
      }
    }
  }

  lemma MembersDisjoint(a: (nat, nat), x: (nat, nat), spans: seq<(nat, nat)>, all: seq<(nat, nat)>)
    requires forall y :: y in all <==> y == x || y in spans
    ensures (forall i :: 0 <= i < |all| ==> Disjoint(a, all[i])) <==>
            Disjoint(a, x) && forall i :: 0 <= i < |spans| ==> Disjoint(a, spans[i])
  {
    assert forall i :: 0 <= i < |all| ==> all[i] in all;
    assert forall i :: 0 <= i < |spans| ==> spans[i] in all;
    assert x in all;
  }

  lemma {:induction false} SortDisjoint(spans: seq<(nat, nat)>)
    ensures AllDisjoint(Sort(spans, SpanLeq())) <==> AllDisjoint(spans)
  {
    if spans != [] {
      SortDisjoint(spans[1..]);
      InsertDisjoint(spans[0], Sort(spans[1..], SpanLeq()));
      SortedMembers(spans[0], spans[1..]);
      ConsDisjoint(spans[0], spans[1..]);
      assert spans == [spans[0]] + spans[1..];
    }
  }

  lemma {:induction false} SortedMembers(x: (nat, nat), spans: seq<(nat, nat)>)
    ensures var sorted := Sort(spans, SpanLeq());
            (forall i :: 0 <= i < |sorted| ==> Disjoint(x, sorted[i])) <==>
            forall i :: 0 <= i < |spans| ==> Disjoint(x, spans[i])
  {
    var sorted := Sort(spans, SpanLeq());
    if forall i :: 0 <= i < |spans| ==> Disjoint(x, spans[i]) {
      forall i | 0 <= i < |sorted| ensures Disjoint(x, sorted[i]) {
        assert sorted[i] in spans;
        var j :| 0 <= j < |spans| && spans[j] == sorted[i];
      }
    }
    if forall i :: 0 <= i < |sorted| ==> Disjoint(x, sorted[i]) {
      forall i | 0 <= i < |spans| ensures Disjoint(x, spans[i]) {
        assert spans[i] in sorted;
        var j :| 0 <= j < |sorted| && sorted[j] == spans[i];
      }
    }
  }

  /** In order, it is enough to look at neighbours. */
  method NeighboursApart(spans: seq<(nat, nat)>) returns (ok: bool)
    requires Ordered(spans, SpanLeq()) && forall i :: 0 <= i < |spans| ==> spans[i].0 <= spans[i].1
    ensures ok <==> AllDisjoint(spans)
  {
    if |spans| < 2 {
      return true;
    }
    for k := 1 to |spans|
      invariant forall i, j :: 0 <= i < j < |spans| && j < k ==> spans[i].1 < spans[j].0
    {
      if spans[k].0 <= spans[k - 1].1 {
        assert SpanLeq()(spans[k - 1], spans[k]);
        assert !Disjoint(spans[k - 1], spans[k]);
        return false;
      }
    }
    return true;
  }

  ghost predicate ApartOn(curves: seq<Curve>, axis: Axis) {
    forall i, j :: 0 <= i < j < |curves| ==>
      curves[i].axis == axis && curves[j].axis == axis ==> Disjoint(Bounds(curves[i]), Bounds(curves[j]))
  }

  lemma {:induction false} DisjointOn(curves: seq<Curve>, axis: Axis)
    ensures AllDisjoint(SpansOfCurves(CurvesOn(curves, axis))) <==> ApartOn(curves, axis)
  {
    if curves != [] {
      DisjointOn(Front(curves), axis);
      if Last(curves).axis == axis {
        OneMoreOn(curves, axis);
      } else {
        assert CurvesOn(Front(curves), axis) + [] == CurvesOn(Front(curves), axis);
        assert ApartOn(curves, axis) <==> ApartOn(Front(curves), axis);
      }
    }
  }

  ghost predicate LastApart(curves: seq<Curve>, last: Curve) {
    forall curve :: curve in curves ==> Disjoint(Bounds(curve), Bounds(last))
  }

  lemma OneMoreOn(curves: seq<Curve>, axis: Axis)
    requires curves != [] && Last(curves).axis == axis
    requires AllDisjoint(SpansOfCurves(CurvesOn(Front(curves), axis))) <==> ApartOn(Front(curves), axis)
    ensures AllDisjoint(SpansOfCurves(CurvesOn(curves, axis))) <==> ApartOn(curves, axis)
  {
    var before, last := CurvesOn(Front(curves), axis), Last(curves);
    SpansSnoc(before, last);
    ApartSnoc(curves, axis);
  }

  lemma SpansSnoc(curves: seq<Curve>, last: Curve)
    ensures AllDisjoint(SpansOfCurves(curves + [last])) <==>
            AllDisjoint(SpansOfCurves(curves)) && LastApart(curves, last)
  {
    var shorter, longer := SpansOfCurves(curves), SpansOfCurves(curves + [last]);
    assert longer[|curves|] == Bounds(last) && forall i :: 0 <= i < |curves| ==> longer[i] == shorter[i];
    if AllDisjoint(longer) {
      forall curve | curve in curves ensures Disjoint(Bounds(curve), Bounds(last)) {
        var i :| 0 <= i < |curves| && curves[i] == curve;
        assert Disjoint(longer[i], longer[|curves|]);
      }
      forall i, j | 0 <= i < j < |curves| ensures Disjoint(shorter[i], shorter[j]) {
        assert Disjoint(longer[i], longer[j]);
      }
    }
    if AllDisjoint(shorter) && LastApart(curves, last) {
      forall i, j | 0 <= i < j < |longer| ensures Disjoint(longer[i], longer[j]) {
        if j == |curves| { assert curves[i] in curves; }
      }
    }
  }

  lemma ApartSnoc(curves: seq<Curve>, axis: Axis)
    requires curves != [] && Last(curves).axis == axis
    ensures ApartOn(curves, axis) <==>
            ApartOn(Front(curves), axis) && LastApart(CurvesOn(Front(curves), axis), Last(curves))
  {
    var front, last := Front(curves), Last(curves);
    if ApartOn(curves, axis) {
      forall curve | curve in CurvesOn(front, axis) ensures Disjoint(Bounds(curve), Bounds(last)) {
        CurvesOnAxis(front, axis, curve);
        var i :| 0 <= i < |front| && front[i] == curve;
        assert curves[i] == curve && curves[|front|] == last;
      }
      assert forall i :: 0 <= i < |front| ==> front[i] == curves[i];
    }
    if LastApart(CurvesOn(front, axis), last) {
      forall i | 0 <= i < |front| && front[i].axis == axis ensures Disjoint(Bounds(front[i]), Bounds(last)) {
        CurvesOnAxis(front, axis, front[i]);
      }
    }
  }

  method AxisApart(curves: seq<Curve>, axis: Axis) returns (ok: bool)
    ensures ok <==> ApartOn(curves, axis)
  {
    var spans := SpansOfCurves(CurvesOn(curves, axis));
    var sorted := Sort(spans, SpanLeq());
    SortOrdered(spans, SpanLeq());
    SortDisjoint(spans);
    DisjointOn(curves, axis);
    forall i | 0 <= i < |sorted| ensures sorted[i].0 <= sorted[i].1 {
      assert sorted[i] in sorted && sorted[i] in spans;
      var j :| 0 <= j < |spans| && spans[j] == sorted[i];
      BoundsInOrder(CurvesOn(curves, axis)[j].points);
    }
    ok := NeighboursApart(sorted);
  }

  lemma {:induction false} BoundsInOrder(points: seq<CurvePoint>)
    ensures Lowest(points) <= Highest(points)
  {}

  /** `validate_point_curve_overlaps`: axis by axis, in time order. */
  method ValidateOverlaps(curves: seq<Curve>) returns (ok: bool)
    ensures ok <==> NoOverlaps(curves)
  {
    var axes := AxesInOrder(curves);
    for k := 0 to |axes|
      invariant forall i :: 0 <= i < k ==> ApartOn(curves, axes[i])
    {
      var apart := AxisApart(curves, axes[k]);
      if !apart {
        return false;
      }
    }
    forall i, j | 0 <= i < j < |curves| ensures Apart(curves[i], curves[j]) {
      ListedAxis(curves, i);
      var k :| 0 <= k < |axes| && axes[k] == curves[i].axis;
      assert ApartOn(curves, axes[k]);
    }
    return true;
  }

  lemma ListedAxis(curves: seq<Curve>, i: nat)
    requires i < |curves|
    ensures curves[i].axis in AxesInOrder(curves)
  {
    var axes := seq(|curves|, k requires 0 <= k < |curves| => curves[k].axis);
    assert axes[i] in axes;
  }
}

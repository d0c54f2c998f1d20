/** Merging layers with point curves: the curves of all sources are collected, stretches that
    no curve covers get curves of their own, and every axis ends with one curve. */
module CurveMerging {
  import opened MotionTypes
  import opened Sorting
  import opened Timeline
  import opened LayerConflicts
  import opened Merging
  import opened CurveEngine
  import opened EditState
  import opened LayerEdit
  import opened EditLayer
  import opened EditWorkbench
  import opened LayerValidation
  import opened CurveOverlaps
  import ChordSelection

  /** A millionth of a degree. */
  const MatchTolerance: real := 0.000001

  /** Values this close count as one. */
  const SameValue: real := 0.000000001

  // ----- Which layers may be merged -----------------------------------------------------------------

  function DrawnTicks(render: Render, curves: seq<Curve>, axis: Axis): set<nat> {
    if curves == [] then {}
    else
      var drawn := render(Last(curves).points, Last(curves).order);
      DrawnTicks(render, Front(curves), axis)
      + if drawn.Ok? && Last(curves).axis == axis then set p | p in drawn.value.1 :: p.tick else {}
  }

  function SampleTicks(frames: seq<Frame>, axis: Axis): set<nat> { set p | p in Series(frames, axis) :: p.tick }

  /** Curves draw the axis wherever it has a sample, and nowhere else. */
  predicate Whole(render: Render, layer: Layer, axis: Axis) {
    SampleTicks(layer.frames, axis) == DrawnTicks(render, layer.curves, axis)
  }

  /** Some axis is drawn by curves in one layer and not in another. */
  ghost predicate Mixed(render: Render, layers: seq<Layer>) {
    exists axis :: AxisIn(render, layers, axis, true) && AxisIn(render, layers, axis, false)
  }

  ghost predicate AxisIn(render: Render, layers: seq<Layer>, axis: Axis, whole: bool) {
    exists layer :: layer in layers && axis in AxesOf(layer.frames) && Whole(render, layer, axis) == whole
  }

  /** The frames of every layer are what its curves draw. */
  ghost predicate AllMatch(render: Render, layers: seq<Layer>) {
    forall layer :: layer in layers ==> Mismatches(render, layer.frames, layer.curves, MatchTolerance) == Ok([])
  }

  method TicksDrawn(curves: seq<Curve>, axis: Axis, ghost render: Render) returns (ticks: set<nat>)
    requires Engine(render)
    ensures ticks == DrawnTicks(render, curves, axis)
  {
    ticks := {};
    for i := 0 to |curves|
      invariant ticks == DrawnTicks(render, curves[..i], axis)
    {
      assert Front(curves[..i + 1]) == curves[..i];
      var drawn := Draw(curves[i].points, curves[i].order, render);
      if drawn.Ok? && curves[i].axis == axis {
        ticks := ticks + (set p | p in drawn.value.1 :: p.tick);
      }
    }
    assert curves[..|curves|] == curves;
  }

  /** The axes of a layer that curves draw wholly. */
  method WholeAxes(layer: Layer, ghost render: Render) returns (whole: set<Axis>)
    requires Engine(render)
    ensures forall axis :: axis in whole <==> axis in AxesOf(layer.frames) && Whole(render, layer, axis)
  {
    whole := {};
    var axes := SortedSet(AxesOf(layer.frames));
    for k := 0 to |axes|
      invariant forall axis :: axis in whole <==> axis in axes[..k] && Whole(render, layer, axis)
    {
      var ticks := TicksDrawn(layer.curves, axes[k], render);
      if SampleTicks(layer.frames, axes[k]) == ticks {
        whole := whole + {axes[k]};
      }
    }
    forall axis ensures axis in axes[..|axes|] <==> axis in AxesOf(layer.frames) {
      assert axes[..|axes|] == axes;
    }
  }

  /** An axis that is drawn in one layer must be drawn in all that have it. */
  method FindMixed(layers: seq<Layer>, ghost render: Render) returns (mixed: bool)
    requires Engine(render)
    ensures mixed <==> Mixed(render, layers)
  {
    var covered, uncovered: set<Axis> := {}, {};
    for i := 0 to |layers|
      invariant forall axis :: axis in covered <==> AxisIn(render, layers[..i], axis, true)
      invariant forall axis :: axis in uncovered <==> AxisIn(render, layers[..i], axis, false)
    {
      var whole := WholeAxes(layers[i], render);
      forall axis, w ensures AxisIn(render, layers[..i + 1], axis, w) <==>
          AxisIn(render, layers[..i], axis, w) || AxisIn(render, [layers[i]], axis, w)
      {
        OneMoreLayer(render, layers, i, axis, w);
      }
      forall axis ensures AxisIn(render, [layers[i]], axis, true) <==> axis in whole
      ensures AxisIn(render, [layers[i]], axis, false) <==> axis in AxesOf(layers[i].frames) - whole
      {
        assert layers[i] in [layers[i]];
      }
      covered, uncovered := covered + whole, uncovered + (AxesOf(layers[i].frames) - whole);
    }
    assert layers[..|layers|] == layers;
    mixed := covered * uncovered != {};
    if mixed {
      var axis :| axis in covered * uncovered;
      assert AxisIn(render, layers, axis, true) && AxisIn(render, layers, axis, false);
    }
    forall axis | AxisIn(render, layers, axis, true) && AxisIn(render, layers, axis, false) ensures mixed {
      assert axis in covered * uncovered;
    }
  }

  lemma OneMoreLayer(render: Render, layers: seq<Layer>, i: nat, axis: Axis, whole: bool)
    requires i < |layers|
    ensures AxisIn(render, layers[..i + 1], axis, whole) <==>
            AxisIn(render, layers[..i], axis, whole) || AxisIn(render, [layers[i]], axis, whole)
  {
    assert layers[..i + 1] == layers[..i] + [layers[i]];
  }

  // ----- Collecting the curves --------------------------------------------------------------------------

  function SourceCurves(layers: seq<Layer>): seq<Curve> {
    if layers == [] then [] else SourceCurves(Front(layers)) + Last(layers).curves
  }

  function IdsOf(curves: seq<Curve>): set<string> { set curve | curve in curves :: curve.id }

  function Renamed(curve: Curve, used: set<string>, name: string): Curve {
    if curve.id == "" || curve.id in used then curve.(id := name) else curve
  }

  /** Every curve keeps its name, unless it has none or an earlier one has it. */
  function Collected(curves: seq<Curve>, names: Names): (r: seq<Curve>)
    ensures |r| == |curves|
  {
    if curves == [] then []
    else
      var before := Collected(Front(curves), names);
      before + [Renamed(Last(curves), IdsOf(before), names(|curves| - 1))]
  }

  lemma CollectedFront(a: seq<Curve>, names: Names, curve: Curve)
    ensures Collected(a + [curve], names) ==
            Collected(a, names) + [Renamed(curve, IdsOf(Collected(a, names)), names(|a|))]
  {
    assert Front(a + [curve]) == a;
  }

  /** Takes over the curves of one more layer. */
  method CollectMore(before: seq<Curve>, ghost seen: seq<Curve>, more: seq<Curve>, names: Names) returns (curves: seq<Curve>)
    requires before == Collected(seen, names)
    ensures curves == Collected(seen + more, names)
  {
    curves := before;
    assert seen + more[..0] == seen;
    for j := 0 to |more|
      invariant curves == Collected(seen + more[..j], names)
    {
      CollectedFront(seen + more[..j], names, more[j]);
      assert seen + more[..j + 1] == seen + more[..j] + [more[j]];
      curves := curves + [Renamed(more[j], IdsOf(curves), names(|curves|))];
    }
    assert more[..|more|] == more;
  }

  method CollectCurves(layers: seq<Layer>, names: Names) returns (r: Result<seq<Curve>>)
    ensures r.Ok? <==> NoOverlaps(Collected(SourceCurves(layers), names))
    ensures r.Ok? ==> r.value == Collected(SourceCurves(layers), names)
  {
    var curves: seq<Curve> := [];
    for i := 0 to |layers|
      invariant curves == Collected(SourceCurves(layers[..i]), names)
    {
      assert Front(layers[..i + 1]) == layers[..i];
      curves := CollectMore(curves, SourceCurves(layers[..i]), layers[i].curves, names);
    }
    assert layers[..|layers|] == layers;
    var apart := ValidateOverlaps(curves);
    if !apart {
      return Err("curves overlap");
    }
    return Ok(curves);
  }

  // ----- Curves for what no curve covers -------------------------------------------------------------------

  predicate CoveredAt(curves: seq<Curve>, axis: Axis, tick: nat) {
    exists i :: 0 <= i < |curves| && CoveredBy(curves[i], axis, tick)
  }

  predicate CoveredBy(curve: Curve, axis: Axis, tick: nat) {
    curve.axis == axis && |curve.points| >= 2 && curve.points[0].tick <= tick <= Last(curve.points).tick
  }

  /** The runs of uncovered samples so far, and the one that is going on. */
  datatype Runs = Runs(gaps: seq<seq<Point>>, current: seq<Point>)

  function Closed(runs: Runs): seq<seq<Point>> {
    if |runs.current| >= 2 then runs.gaps + [runs.current] else runs.gaps
  }

  function RunsOf(samples: seq<Point>, curves: seq<Curve>, axis: Axis): Runs {
    if samples == [] then Runs([], [])
    else
      var before := RunsOf(Front(samples), curves, axis);
      if CoveredAt(curves, axis, Last(samples).tick) then Runs(Closed(before), [])
      else Runs(before.gaps, before.current + [Last(samples)])
  }

  function UncoveredGaps(samples: seq<Point>, curves: seq<Curve>, axis: Axis): seq<seq<Point>> {
    Closed(RunsOf(samples, curves, axis))
  }

  method FindGaps(samples: seq<Point>, curves: seq<Curve>, axis: Axis) returns (gaps: seq<seq<Point>>)
    ensures gaps == UncoveredGaps(samples, curves, axis)
  {
    gaps := [];
    var current: seq<Point> := [];
    for i := 0 to |samples|
      invariant Runs(gaps, current) == RunsOf(samples[..i], curves, axis)
    {
      assert Front(samples[..i + 1]) == samples[..i];
      if CoveredAt(curves, axis, samples[i].tick) {
        if |current| >= 2 {
          gaps := gaps + [current];
        }
        current := [];
      } else {
        current := current + [samples[i]];
      }
    }
    assert samples[..|samples|] == samples;
    if |current| >= 2 {
      gaps := gaps + [current];
    }
  }

  /** A sample where the value changes, and the first and the last one. */
  predicate Turns(samples: seq<Point>, i: nat)
    requires i < |samples|
  {
    i == 0 || i == |samples| - 1 || ChordSelection.Abs(samples[i].value - samples[i - 1].value) > SameValue
  }

  /** Of the first `k` samples, those where the value changes, a tick apart. */
  function Corners(samples: seq<Point>, k: nat): seq<Point>
    requires k <= |samples|
  {
    if k == 0 then []
    else
      var before := Corners(samples, k - 1);
      if !Turns(samples, k - 1) || (before != [] && samples[k - 1].tick <= Last(before).tick) then before
      else before + [samples[k - 1]]
  }

  function Straight(p: Point): CurvePoint {
    CurvePoint("", p.tick, p.value, Linear, Handle(None, None), Handle(None, None))
  }

  function StraightPoints(corners: seq<Point>): (r: seq<CurvePoint>)
    ensures |r| == |corners| && forall i :: 0 <= i < |r| ==> r[i] == Straight(corners[i])
  {
    seq(|corners|, i requires 0 <= i < |corners| => Straight(corners[i]))
  }

  function CurveFromSamples(axis: Axis, samples: seq<Point>, id: string): Option<Curve> {
    var corners := Corners(samples, |samples|);
    if |corners| < 2 then None else Some(Curve(id, axis, 1, StraightPoints(corners)))
  }

  /** The curve for one gap, if the frames have what it draws. */
  function Filler(render: Render, frames: seq<Frame>, axis: Axis, gap: seq<Point>, id: string): seq<Curve> {
    var piece := CurveFromSamples(axis, gap, id);
    if piece.Some? && Mismatches(render, frames, [piece.value], MatchTolerance) == Ok([]) then [piece.value] else []
  }

  type GapFiller = (seq<Point>, string) -> seq<Curve>

  function GapFillerFor(render: Render, frames: seq<Frame>, axis: Axis): GapFiller {
    (gap: seq<Point>, id: string) => Filler(render, frames, axis, gap, id)
  }

  function Fillers(fill: GapFiller, gaps: seq<seq<Point>>, names: Names, from: nat): seq<Curve> {
    if gaps == [] then []
    else
      var before := Fillers(fill, Front(gaps), names, from);
      before + fill(Last(gaps), names(from + |before|))
  }

  predicate HasCurve(curves: seq<Curve>, axis: Axis) {
    exists i :: 0 <= i < |curves| && curves[i].axis == axis && |curves[i].points| >= 2
  }

  function AxisFillers(render: Render, frames: seq<Frame>, curves: seq<Curve>, axis: Axis, names: Names, from: nat)
    : seq<Curve>
  {
    var samples := Series(frames, axis);
    if !HasCurve(curves, axis) || |samples| < 2 then []
    else Fillers(GapFillerFor(render, frames, axis), UncoveredGaps(samples, curves, axis), names, from)
  }

  type AxisFiller = (Axis, nat) -> seq<Curve>

  function AxisFillerFor(render: Render, frames: seq<Frame>, curves: seq<Curve>, names: Names): AxisFiller {
    (axis: Axis, from: nat) => AxisFillers(render, frames, curves, axis, names, from)
  }

  function AllFillers(fill: AxisFiller, axes: seq<Axis>, from: nat): seq<Curve> {
    if axes == [] then []
    else
      var before := AllFillers(fill, Front(axes), from);
      before + fill(Last(axes), from + |before|)
  }

  function CurvesForGaps(render: Render, frames: seq<Frame>, curves: seq<Curve>, names: Names): seq<Curve> {
    AllFillers(AxisFillerFor(render, frames, curves, names), SortedSet(AxesOf(frames)), |curves|)
  }

  function Extended(render: Render, frames: seq<Frame>, curves: seq<Curve>, names: Names): seq<Curve> {
    var filled := CurvesForGaps(render, frames, curves, names);
    if curves == [] || filled == [] || !NoOverlaps(curves + filled) then curves else curves + filled
  }

  ghost predicate FillsGaps(fill: GapFiller, render: Render, frames: seq<Frame>, axis: Axis) {
    forall gap, id :: FillsGap(fill, render, frames, axis, gap, id)
  }

  ghost predicate FillsGap(
    fill: GapFiller, render: Render, frames: seq<Frame>, axis: Axis, gap: seq<Point>, id: string)
  {
    fill(gap, id) == Filler(render, frames, axis, gap, id)
  }

  method FillGap(frames: seq<Frame>, axis: Axis, gap: seq<Point>, id: string, ghost render: Render, ghost fill: GapFiller)
    returns (filled: seq<Curve>)
    requires Engine(render) && Renders(render) && FillsGaps(fill, render, frames, axis)
    ensures filled == fill(gap, id)
  {
    assert FillsGap(fill, render, frames, axis, gap, id);
    filled := [];
    var piece := CurveFromSamples(axis, gap, id);
    if piece.Some? {
      var mismatches := ListMismatches(frames, [piece.value], MatchTolerance, render);
      if mismatches == Ok([]) {
        filled := [piece.value];
      }
    }
  }

  method FillGaps(
    frames: seq<Frame>, axis: Axis, gaps: seq<seq<Point>>, names: Names, from: nat, ghost render: Render,
    ghost fill: GapFiller)
    returns (filled: seq<Curve>)
    requires Engine(render) && Renders(render) && FillsGaps(fill, render, frames, axis)
    ensures filled == Fillers(fill, gaps, names, from)
  {
    filled := [];
    for i := 0 to |gaps|
      invariant filled == Fillers(fill, gaps[..i], names, from)
    {
      assert Front(gaps[..i + 1]) == gaps[..i];
      var more := FillGap(frames, axis, gaps[i], names(from + |filled|), render, fill);
      filled := filled + more;
    }
    assert gaps[..|gaps|] == gaps;
  }

  ghost predicate FillsAxes(fill: AxisFiller, render: Render, frames: seq<Frame>, curves: seq<Curve>, names: Names) {
    forall axis, from: nat :: FillsAxis(fill, render, frames, curves, names, axis, from)
  }

  ghost predicate FillsAxis(
    fill: AxisFiller, render: Render, frames: seq<Frame>, curves: seq<Curve>, names: Names, axis: Axis, from: nat)
  {
    fill(axis, from) == AxisFillers(render, frames, curves, axis, names, from)
  }

  method FillAxis(
    frames: seq<Frame>, curves: seq<Curve>, axis: Axis, names: Names, from: nat, ghost render: Render,
    ghost fillAxis: AxisFiller)
    returns (filled: seq<Curve>)
    requires Engine(render) && Renders(render) && FillsAxes(fillAxis, render, frames, curves, names)
    ensures filled == fillAxis(axis, from)
  {
    assert FillsAxis(fillAxis, render, frames, curves, names, axis, from);
    var samples := Series(frames, axis);
    if !HasCurve(curves, axis) || |samples| < 2 {
      return [];
    }
    ghost var fill := GapFillerFor(render, frames, axis);
    assert forall gap, id :: FillsGap(fill, render, frames, axis, gap, id);
    var gaps := FindGaps(samples, curves, axis);
    filled := FillGaps(frames, axis, gaps, names, from, render, fill);
  }

  method FillAxes(
    frames: seq<Frame>, curves: seq<Curve>, axes: seq<Axis>, names: Names, ghost render: Render, ghost fill: AxisFiller)
    returns (filled: seq<Curve>)
    requires Engine(render) && Renders(render) && FillsAxes(fill, render, frames, curves, names)
    ensures filled == AllFillers(fill, axes, |curves|)
  {
    filled := [];
    for k := 0 to |axes|
      invariant filled == AllFillers(fill, axes[..k], |curves|)
    {
      assert Front(axes[..k + 1]) == axes[..k];
      var more := FillAxis(frames, curves, axes[k], names, |curves| + |filled|, render, fill);
      filled := filled + more;
    }
    assert axes[..|axes|] == axes;
  }

  method ExtendCurves(frames: seq<Frame>, curves: seq<Curve>, names: Names, ghost render: Render)
    returns (r: seq<Curve>)
    requires Engine(render) && Renders(render)
    ensures r == Extended(render, frames, curves, names)
  {
    if curves == [] {
      return curves;
    }
    ghost var fill := AxisFillerFor(render, frames, curves, names);
    assert forall axis, from: nat :: FillsAxis(fill, render, frames, curves, names, axis, from);
    var filled := FillAxes(frames, curves, SortedSet(AxesOf(frames)), names, render, fill);
    var apart := ValidateOverlaps(curves + filled);
    if filled == [] || !apart {
      return curves;
    }
    return curves + filled;
  }

  // ----- The merge ---------------------------------------------------------------------------------------------

  /** The curves that the merged layer has before those of an axis become one. */
  function CurvesOfMerge(render: Render, sources: seq<Layer>, frames: seq<Frame>, names: Names): seq<Curve> {
    Extended(render, frames, Collected(SourceCurves(sources), names), names)
  }

  /** From the frames of the merge to the merged layer. */
  function WithCurves(render: Render, base: Layer, sources: seq<Layer>, names: Names): Result<Layer> {
    if !NoOverlaps(Collected(SourceCurves(sources), names)) then Err("curves overlap")
    else OneCurvePerAxis(base.(curves := CurvesOfMerge(render, sources, base.frames, names)), render)
  }

  /** The layers may be merged. */
  ghost predicate Mergeable(render: Render, layers: seq<Layer>, ids: set<string>, appendId: Option<string>) {
    && AllMatch(render, Merging.Chosen(layers, ids)) && !Mixed(render, Merging.Chosen(layers, ids))
    && Sources(layers, ids, appendId).Ok? && ProjectConflicts(Sources(layers, ids, appendId).value, None) == []
  }

  /** What merging gives: frames composed of the sources, and their curves. */
  ghost predicate IsMerged(
    render: Render, merged: Result<Layer>, sources: seq<Layer>, manual: map<Axis, real>, names: Names)
  {
    exists base :: IsMerge(base, sources, manual) && merged == WithCurves(render, base, sources, names)
  }

  method CheckMatches(layers: seq<Layer>, ghost render: Render) returns (ok: bool)
    requires Engine(render) && Renders(render)
    ensures ok <==> AllMatch(render, layers)
  {
    for i := 0 to |layers|
      invariant AllMatch(render, layers[..i])
    {
      var mismatches := ListMismatches(layers[i].frames, layers[i].curves, MatchTolerance, render);
      if mismatches != Ok([]) {
        assert layers[i] in layers;
        return false;
      }
      assert layers[..i + 1] == layers[..i] + [layers[i]];
    }
    assert layers[..|layers|] == layers;
    return true;
  }

  method AddCurves(base: Layer, sources: seq<Layer>, names: Names, ghost render: Render) returns (r: Result<Layer>)
    requires Engine(render) && Renders(render)
    ensures r.Ok? <==> WithCurves(render, base, sources, names).Ok?
    ensures r.Ok? ==> r == WithCurves(render, base, sources, names)
  {
    var collected := CollectCurves(sources, names);
    if collected.Err? {
      return Err(collected.reason);
    }
    var curves := ExtendCurves(base.frames, collected.value, names, render);
    r := GatherLayer(base.(curves := curves), render);
  }

  /** `merge_layers`. */
  method MergeLayers(
    layers: seq<Layer>, ids: set<string>, appendId: Option<string>, manual: map<Axis, real>, id: string, name: string,
    names: Names)
    returns (r: Result<Layer>)
    ensures r.Ok? ==> Mergeable(Renderer(), layers, ids, appendId)
    ensures Mergeable(Renderer(), layers, ids, appendId) ==>
              exists outcome ::
                && IsMerged(Renderer(), outcome, Sources(layers, ids, appendId).value, manual, names)
                && (r.Ok? <==> outcome.Ok?) && (r.Ok? ==> r == outcome)
  {
    ghost var render := Renderer();
    RendererIsEngine();
    CurveEngineRenders();
    var chosen := Merging.Chosen(layers, ids);
    var matching := CheckMatches(chosen, render);
    var mixed := FindMixed(chosen, render);
    if !matching || mixed {
      return Err("a layer cannot be merged");
    }
    var base := MergeFrames(layers, ids, appendId, manual, id, name);
    if base.Err? {
      return base;
    }
    r := AddCurves(base.value, Sources(layers, ids, appendId).value, names, render);
    assert IsMerged(render, WithCurves(render, base.value, Sources(layers, ids, appendId).value, names),
                    Sources(layers, ids, appendId).value, manual, names);
  }
}

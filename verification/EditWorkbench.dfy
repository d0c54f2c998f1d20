/** The edits as the program makes them: on a working copy whose samples and curves are
    changed in place. */
module EditWorkbench {
  import opened MotionTypes
  import opened Sorting
  import opened Timeline
  import opened CurveEngine
  import opened EditState
  import opened EditFrames
  import opened LayerEdit
  import opened RangeEdit
  import opened CurveTransform
  import opened CurveOverlaps
  import opened EditLayer
  import LayerConflicts

  /** `render` stands for what the curve engine does. */
  ghost predicate Engine(render: Render) {
    forall points, order :: IsRendering(render, points, order)
  }

  ghost predicate IsRendering(render: Render, points: seq<CurvePoint>, order: int) {
    render(points, order) == Rendering(points, order)
  }

  method Draw(points: seq<CurvePoint>, order: int, ghost render: Render)
    returns (r: Result<(seq<CurvePoint>, seq<Point>)>)
    requires Engine(render)
    ensures r == render(points, order)
  {
    r := RenderPointCurve(points, order);
    assert IsRendering(render, points, order);
  }

  /** A working copy.  When an edit is refused it is thrown away, so what it holds then
      does not matter. */
  class Workbench {
    var tracks: Tracks
    var curves: seq<Curve>
    ghost const render: Render

    function Now(): Work
      reads this
    {
      Work(tracks, curves)
    }

    constructor (tracks: Tracks, curves: seq<Curve>, ghost render: Render)
      ensures Now() == Work(tracks, curves) && this.render == render
    {
      this.tracks, this.curves, this.render := tracks, curves, render;
    }

    method RemoveCurve(curve: Curve)
      modifies this
      ensures Now() == Removed(old(Now()), curve)
    {
      tracks := Cleared(tracks, curve.axis, Bounds(curve));
      curves := WithoutId(curves, curve.id);
    }

    method RewriteCurve(id: string, axis: Axis, order: int, points: seq<CurvePoint>) returns (ok: bool)
      requires Engine(render)
      modifies this
      ensures ok <==> Rewritten(old(Now()), render, id, axis, order, points).Ok?
      ensures ok ==> Now() == Rewritten(old(Now()), render, id, axis, order, points).value
    {
      var drawn := Draw(points, order, render);
      if drawn.Err? {
        return false;
      }
      var previous := FindId(curves, id);
      if previous.Some? {
        tracks := Cleared(tracks, previous.value.axis, Bounds(previous.value));
      }
      tracks := Redrawn(tracks, axis, drawn.value.1);
      curves := WithoutId(curves, id) + [Curve(id, axis, order, drawn.value.0)];
      return true;
    }

    method RemoveOthers(list: seq<Curve>, id: string)
      modifies this
      ensures Now() == RemovedOthers(old(Now()), list, id)
    {
      for i := 0 to |list|
        invariant Now() == RemovedOthers(old(Now()), list[..i], id)
      {
        assert Front(list[..i + 1]) == list[..i];
        if list[i].id != id {
          RemoveCurve(list[i]);
        }
      }
      assert list[..|list|] == list;
    }

    method RewriteAxis(axis: Axis, id: string, order: int, points: seq<CurvePoint>) returns (ok: bool)
      requires Engine(render)
      modifies this
      ensures ok <==> AxisRewritten(old(Now()), render, axis, id, order, points).Ok?
      ensures ok ==> Now() == AxisRewritten(old(Now()), render, axis, id, order, points).value
    {
      RemoveOthers(CurvesOn(curves, axis), id);
      ok := RewriteCurve(id, axis, order, points);
    }

    method RedrawCurves(chosen: seq<Curve>) returns (ok: bool)
      requires Engine(render)
      modifies this`tracks
      ensures ok <==> RedrawAll(render, old(tracks), chosen).Ok?
      ensures ok ==> tracks == RedrawAll(render, old(tracks), chosen).value
    {
      for i := 0 to |chosen|
        invariant RedrawAll(render, old(tracks), chosen[..i]) == Ok(tracks)
      {
        assert Front(chosen[..i + 1]) == chosen[..i];
        var drawn := Draw(chosen[i].points, chosen[i].order, render);
        if drawn.Err? {
          RedrawFails(render, old(tracks), chosen, i + 1);
          return false;
        }
        tracks := Redrawn(tracks, chosen[i].axis, drawn.value.1);
      }
      assert chosen[..|chosen|] == chosen;
      return true;
    }

    /** Puts the points that were drawn in the place of the old ones. */
    method StoreDrawn(ids: set<string>)
      requires Engine(render)
      modifies this`curves
      ensures curves == StoredAll(render, old(curves), ids)
    {
      var stored := [];
      for i := 0 to |curves|
        invariant curves == old(curves)
        invariant stored == StoredAll(render, curves[..i], ids)
      {
        var curve := curves[i];
        if ids == {} || curve.id in ids {
          var drawn := Draw(curve.points, curve.order, render);
          if drawn.Ok? {
            curve := curve.(points := drawn.value.0);
          }
        }
        OneMoreStored(render, curves, ids, i);
        stored := stored + [curve];
      }
      assert curves[..|curves|] == curves;
      curves := stored;
    }

    method ResolveCurves(ids: set<string>) returns (ok: bool)
      requires Engine(render)
      modifies this
      ensures ok <==> Resolved(old(Now()), render, ids).Ok?
      ensures ok ==> Now() == Resolved(old(Now()), render, ids).value
    {
      var chosen := Chosen(curves, ids);
      if chosen == [] {
        return false;
      }
      ok := RedrawCurves(chosen);
      if ok {
        StoreDrawn(ids);
      }
    }

    method CopyOn(axis: Axis, start: nat, end: nat, target: nat) returns (ok: bool, changed: bool)
      requires Engine(render)
      modifies this
      ensures ok <==> CopiedOn(old(Now()), render, axis, start, end, target).Ok?
      ensures ok ==> (Now(), changed) == CopiedOn(old(Now()), render, axis, start, end, target).value
    {
      var on := CurvesOn(curves, axis);
      var taken := Sort(OwnedPoints(on, start, end, true), OwnedLeq());
      if |taken| < 2 {
        return true, false;
      }
      var moved := Moved(JustPoints(taken), taken[0].1.tick, target);
      var kept := JustPoints(OwnedPoints(on, moved[0].tick, Last(moved).tick, false));
      ok := RewriteAxis(axis, taken[0].0.id, taken[0].0.order, Sort(kept + moved, TickLeq()));
      changed := true;
    }

    method CopyPointRange(axes: seq<Axis>, start: nat, end: nat, target: nat) returns (ok: bool, changed: bool)
      requires Engine(render)
      modifies this
      ensures ok <==> RangeCopied(old(Now()), render, axes, start, end, target).Ok?
      ensures ok ==> (Now(), changed) == RangeCopied(old(Now()), render, axes, start, end, target).value
    {
      changed := false;
      for i := 0 to |axes|
        invariant RangeCopied(old(Now()), render, axes[..i], start, end, target) == Ok((Now(), changed))
      {
        assert Front(axes[..i + 1]) == axes[..i];
        var copied;
        ok, copied := CopyOn(axes[i], start, end, target);
        if !ok {
          CopyFails(old(Now()), render, axes, i + 1, start, end, target);
          return;
        }
        changed := changed || copied;
      }
      assert axes[..|axes|] == axes;
      ok := true;
    }

    method DeleteFrom(curve: Curve, axes: seq<Axis>, start: nat, end: nat) returns (ok: bool, changed: bool)
      requires Engine(render)
      modifies this
      ensures ok <==> DeletedFrom(old(Now()), render, curve, axes, start, end).Ok?
      ensures ok ==> (Now(), changed) == DeletedFrom(old(Now()), render, curve, axes, start, end).value
    {
      if curve.axis !in axes || PointsInside(curve.points, start, end, true) == [] {
        return true, false;
      }
      var rest := PointsInside(curve.points, start, end, false);
      if |rest| < 2 {
        RemoveCurve(curve);
        return true, true;
      }
      ok := RewriteCurve(curve.id, curve.axis, curve.order, rest);
      changed := true;
    }

    method DeletePointRange(axes: seq<Axis>, start: nat, end: nat) returns (ok: bool, changed: bool)
      requires Engine(render)
      modifies this
      ensures ok <==> RangeDeleted(old(Now()), render, old(curves), axes, start, end).Ok?
      ensures ok ==> (Now(), changed) == RangeDeleted(old(Now()), render, old(curves), axes, start, end).value
    {
      var list := curves;
      changed := false;
      for i := 0 to |list|
        invariant RangeDeleted(old(Now()), render, list[..i], axes, start, end) == Ok((Now(), changed))
      {
        assert Front(list[..i + 1]) == list[..i];
        var deleted;
        ok, deleted := DeleteFrom(list[i], axes, start, end);
        if !ok {
          DeleteFails(old(Now()), render, list, i + 1, axes, start, end);
          return;
        }
        changed := changed || deleted;
      }
      assert list[..|list|] == list;
      ok := true;
    }

    /** `_rewrite_curve` for a request of its own points. */
    method SetPointCurve(ids: seq<Axis>, id: string, order: int, points: seq<CurvePoint>) returns (ok: bool)
      requires Engine(render)
      modifies this
      ensures ok <==> CurveSet(old(Now()), render, ids, id, order, points).Ok?
      ensures ok ==> Now() == CurveSet(old(Now()), render, ids, id, order, points).value
    {
      if |Unique(ids)| != 1 {
        return false;
      }
      var drawn := Draw(points, order, render);
      if drawn.Err? || InTheWay(curves, Unique(ids)[0], id, SpanOfSamples(drawn.value.1)) {
        return false;
      }
      ok := RewriteCurve(id, Unique(ids)[0], order, points);
    }

    method FitAxis(axis: Axis, id: string, order: int, points: seq<CurvePoint>) returns (ok: bool)
      requires Engine(render)
      modifies this
      ensures ok <==> CurveFitted(old(Now()), render, axis, id, order, points).Ok?
      ensures ok ==> Now() == CurveFitted(old(Now()), render, axis, id, order, points).value
    {
      var drawn := Draw(points, order, render);
      if drawn.Err? {
        return false;
      }
      curves := OtherCurves(curves, [axis]) + [Curve(id, axis, order, drawn.value.0)];
      tracks := tracks[axis := drawn.value.1];
      ok := ValidateOverlaps(curves);
    }

    /** Changes the affected curves, one after the other. */
    method ChangeCurves(affected: seq<Curve>, change: Change) returns (r: Option<seq<(Curve, seq<Point>)>>)
      requires Engine(render)
      ensures r.Some? <==> ChangedAll(render, tracks, affected, change).Ok?
      ensures r.Some? ==> r.value == ChangedAll(render, tracks, affected, change).value
    {
      var changed := [];
      for i := 0 to |affected|
        invariant ChangedAll(render, tracks, affected[..i], change) == Ok(changed)
      {
        assert Front(affected[..i + 1]) == affected[..i];
        var curve := affected[i];
        var one := ChangeCurve(curve, change, TimePivot(change), ValuePivot(tracks, curve.axis, change));
        if one.None? {
          ChangeFails(render, tracks, affected, i + 1, change);
          return None;
        }
        changed := changed + [one.value];
      }
      assert affected[..|affected|] == affected;
      return Some(changed);
    }

    method ChangeCurve(curve: Curve, change: Change, timePivot: nat, valuePivot: real)
      returns (r: Option<(Curve, seq<Point>)>)
      requires Engine(render)
      ensures r.Some? <==> ChangedCurve(render, curve, change, timePivot, valuePivot).Ok?
      ensures r.Some? ==> r.value == ChangedCurve(render, curve, change, timePivot, valuePivot).value
    {
      var prepared := Draw(curve.points, curve.order, render);
      if prepared.Err? {
        return None;
      }
      var points := TransformPoints(prepared.value.0, change, timePivot, valuePivot);
      if points.None? {
        return None;
      }
      var drawn := Draw(points.value, curve.order, render);
      if drawn.Err? {
        return None;
      }
      return Some((curve.(points := drawn.value.0), drawn.value.1));
    }

    method ClearCurves(affected: seq<Curve>)
      modifies this`tracks
      ensures tracks == ClearedAll(old(tracks), affected)
    {
      for i := 0 to |affected|
        invariant tracks == ClearedAll(old(tracks), affected[..i])
      {
        assert Front(affected[..i + 1]) == affected[..i];
        tracks := Cleared(tracks, affected[i].axis, Bounds(affected[i]));
      }
      assert affected[..|affected|] == affected;
    }

    method ExtendTracks(changed: seq<(Curve, seq<Point>)>)
      modifies this`tracks
      ensures tracks == Extended(old(tracks), changed)
    {
      for i := 0 to |changed|
        invariant tracks == Extended(old(tracks), changed[..i])
      {
        assert Front(changed[..i + 1]) == changed[..i];
        var axis := changed[i].0.axis;
        tracks := tracks[axis := Track(tracks, axis) + changed[i].1];
      }
      assert changed[..|changed|] == changed;
    }

    method TransformCurves(ids: seq<Axis>, change: Change) returns (ok: bool)
      requires Engine(render)
      modifies this
      ensures ok <==> Transformed(old(Now()), render, ids, change).Ok?
      ensures ok ==> Now() == Transformed(old(Now()), render, ids, change).value
    {
      var axes := Unique(ids);
      if Refusal(Now(), axes, change).Some? {
        return false;
      }
      var affected := Affected(curves, axes, change.start, change.end);
      var changed := ChangeCurves(affected, change);
      if changed.None? {
        return false;
      }
      curves := Updated(curves, changed.value);
      ok := ValidateOverlaps(curves);
      ClearCurves(affected);
      ExtendTracks(changed.value);
    }

    method GatherCurves() returns (ok: bool)
      requires Engine(render)
      modifies this
      ensures ok <==> GatheredAll(old(Now()), render, AxesInOrder(old(curves))).Ok?
      ensures ok ==> Now() == GatheredAll(old(Now()), render, AxesInOrder(old(curves))).value
    {
      var axes := AxesInOrder(curves);
      for i := 0 to |axes|
        invariant GatheredAll(old(Now()), render, axes[..i]) == Ok(Now())
      {
        assert Front(axes[..i + 1]) == axes[..i];
        var pieces := Sort(CurvesOn(curves, axes[i]), StartLeq());
        if |pieces| >= 2 {
          ok := RewriteAxis(
            axes[i], pieces[0].id, RangeEdit.Largest(pieces).order, Sort(AllPoints(pieces), TickLeq()));
          if !ok {
            GatherFails(old(Now()), render, axes, i + 1);
            return;
          }
        }
      }
      assert axes[..|axes|] == axes;
      ok := true;
    }

    /** Dispatches one edit. */
    method ApplyEdit(edit: Edit, frames: seq<Frame>, names: Names) returns (ok: bool)
      requires Engine(render)
      modifies this
      ensures ok <==> Applied(old(Now()), frames, edit, render, names).Ok?
      ensures ok ==> Now() == Applied(old(Now()), frames, edit, render, names).value
    {
      var changed;
      match edit {
        case Resolve(byPoints, ids) =>
          if !byPoints {
            return false;
          }
          ok := ResolveCurves(ids);
        case AddAxis(ids, initial) => ok := TakeOver(AxisAdded(Now(), ids, initial, FirstFrameTick(frames), LastFrameTick(frames)));
        case CopyAxis(source, ids) => ok := TakeOver(AxisCopied(Now(), source, ids, names));
        case DeleteAxes(ids) => ok := TakeOver(AxesDeleted(Now(), ids));
        case CopyRange(ids, start, end, target) =>
          if ids == [] {
            return false;
          }
          ok, changed := CopyPointRange(Unique(ids), LayerConflicts.Min(start, end), LayerConflicts.Max(start, end), target);
          ok := ok && changed;
        case DeleteRange(ids, start, end) =>
          if ids == [] {
            return false;
          }
          ok, changed := DeletePointRange(Unique(ids), LayerConflicts.Min(start, end), LayerConflicts.Max(start, end));
          ok := ok && changed;
        case SetCurve(ids, id, order, points) => ok := SetPointCurve(ids, NameOf(id, names), order, points);
        case FitCurve(ids, id, order, fitted) =>
          if |Unique(ids)| != 1 || Unique(ids)[0] !in tracks || fitted.Err? {
            return false;
          }
          ok := FitAxis(Unique(ids)[0], NameOf(id, names), order, fitted.value);
        case Transform(ids, change) => ok := TransformCurves(ids, change);
      }
    }

    /** The edits of whole axes need no loop. */
    method TakeOver(next: Result<Work>) returns (ok: bool)
      modifies this
      ensures ok <==> next.Ok?
      ensures ok ==> Now() == next.value
    {
      if next.Err? {
        return false;
      }
      tracks, curves := next.value.tracks, next.value.curves;
      return true;
    }
  }

  lemma OneMoreStored(render: Render, curves: seq<Curve>, ids: set<string>, i: nat)
    requires i < |curves|
    ensures StoredAll(render, curves[..i + 1], ids) ==
            StoredAll(render, curves[..i], ids)
            + [if ids == {} || curves[i].id in ids then Stored(render, curves[i]) else curves[i]]
  {}

  lemma {:induction false} RedrawFails(render: Render, tracks: Tracks, chosen: seq<Curve>, k: nat)
    requires k <= |chosen| && RedrawAll(render, tracks, chosen[..k]).Err?
    ensures RedrawAll(render, tracks, chosen).Err?
    decreases |chosen|
  {
    if k < |chosen| {
      assert Front(chosen)[..k] == chosen[..k];
      RedrawFails(render, tracks, Front(chosen), k);
    } else {
      assert chosen[..k] == chosen;
    }
  }

  lemma {:induction false} CopyFails(
    w: Work, render: Render, axes: seq<Axis>, k: nat, start: nat, end: nat, target: nat)
    requires k <= |axes| && RangeCopied(w, render, axes[..k], start, end, target).Err?
    ensures RangeCopied(w, render, axes, start, end, target).Err?
    decreases |axes|
  {
    if k < |axes| {
      assert Front(axes)[..k] == axes[..k];
      CopyFails(w, render, Front(axes), k, start, end, target);
    } else {
      assert axes[..k] == axes;
    }
  }

  lemma {:induction false} DeleteFails(
    w: Work, render: Render, curves: seq<Curve>, k: nat, axes: seq<Axis>, start: nat, end: nat)
    requires k <= |curves| && RangeDeleted(w, render, curves[..k], axes, start, end).Err?
    ensures RangeDeleted(w, render, curves, axes, start, end).Err?
    decreases |curves|
  {
    if k < |curves| {
      assert Front(curves)[..k] == curves[..k];
      DeleteFails(w, render, Front(curves), k, axes, start, end);
    } else {
      assert curves[..k] == curves;
    }
  }

  lemma {:induction false} ChangeFails(render: Render, tracks: Tracks, curves: seq<Curve>, k: nat, change: Change)
    requires k <= |curves| && ChangedAll(render, tracks, curves[..k], change).Err?
    ensures ChangedAll(render, tracks, curves, change).Err?
    decreases |curves|
  {
    if k < |curves| {
      assert Front(curves)[..k] == curves[..k];
      ChangeFails(render, tracks, Front(curves), k, change);
    } else {
      assert curves[..k] == curves;
    }
  }

  lemma {:induction false} GatherFails(w: Work, render: Render, axes: seq<Axis>, k: nat)
    requires k <= |axes| && GatheredAll(w, render, axes[..k]).Err?
    ensures GatheredAll(w, render, axes).Err?
    decreases |axes|
  {
    if k < |axes| {
      assert Front(axes)[..k] == axes[..k];
      GatherFails(w, render, Front(axes), k);
    } else {
      assert axes[..k] == axes;
    }
  }

  // ----- The whole edit ----------------------------------------------------------------------------------

  method FinishLayer(layer: Layer, bench: Workbench, limited: bool) returns (r: Result<Layer>)
    ensures r.Ok? <==> Finished(layer, bench.Now(), limited).Ok?
    ensures r.Ok? ==> r == Finished(layer, bench.Now(), limited)
  {
    var frames := BuildFrames(bench.tracks);
    if frames.Err? {
      return Err(frames.reason);
    }
    if limited && |frames.value| > MaxEditFrames {
      return Err("too many frames");
    }
    if !UniqueIds(bench.curves) {
      return Err("two curves have one name");
    }
    return Ok(layer.(frames := frames.value, curves := bench.curves));
  }

  /** `one_curve_per_axis`. */
  method GatherLayer(layer: Layer, ghost render: Render) returns (r: Result<Layer>)
    requires Engine(render)
    ensures r.Ok? <==> OneCurvePerAxis(layer, render).Ok?
    ensures r.Ok? ==> r == OneCurvePerAxis(layer, render)
  {
    if !Gatherable(layer.curves) {
      return Ok(layer);
    }
    var bench := new Workbench(AxisTracks(layer.frames), layer.curves, render);
    var ok := bench.GatherCurves();
    if !ok {
      return Err("the curves cannot be joined");
    }
    r := FinishLayer(layer, bench, false);
  }

  lemma RendererIsEngine()
    ensures Engine(Renderer())
  {}

  /** Edits a layer.  The result is in step with its curves, with one curve an axis. */
  method EditOneLayer(layer: Layer, edit: Edit, names: Names) returns (r: Result<Layer>)
    ensures r.Ok? <==> Edited(layer, edit, Renderer(), names).Ok?
    ensures r.Ok? ==> r == Edited(layer, edit, Renderer(), names)
    ensures r.Ok? && LayerOk(Renderer(), layer) && Fresh(names, layer.curves) ==>
              LayerOk(Renderer(), r.value) && OnePerAxis(r.value.curves)
  {
    ghost var render := Renderer();
    RendererIsEngine();
    CurveEngineRenders();
    var bench := new Workbench(AxisTracks(layer.frames), layer.curves, render);
    var ok := bench.ApplyEdit(edit, layer.frames, names);
    if !ok {
      return Err("the edit is refused");
    }
    var once := FinishLayer(layer, bench, Limited(edit));
    if once.Err? {
      return once;
    }
    r := GatherLayer(once.value, render);
    if r.Ok? && LayerOk(render, layer) && Fresh(names, layer.curves) {
      EditingKeepsStep(layer, edit, render, names);
    }
  }
}

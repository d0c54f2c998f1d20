/** Editing a layer: one edit, then one curve for every axis.  Whatever the edit, the
    frames of the result are exactly what its curves draw. */
module EditLayer {
  import opened MotionTypes
  import opened Sorting
  import opened Timeline
  import opened CurveEngine
  import opened EditState
  import opened EditFrames
  import opened LayerEdit
  import opened RangeEdit
  import opened CurveTransform
  import LayerConflicts
  import LayerRendering = Rendering
  import LayerMerging = Merging

  /** What the editor asks for.  A fit comes with the points that were fitted to the axis,
      or with the reason why there are none. */
  datatype Edit =
    | Resolve(byPoints: bool, curveIds: set<string>)
    | AddAxis(ids: seq<Axis>, initial: real)
    | CopyAxis(source: Axis, ids: seq<Axis>)
    | DeleteAxes(ids: seq<Axis>)
    | CopyRange(ids: seq<Axis>, start: nat, end: nat, target: nat)
    | DeleteRange(ids: seq<Axis>, start: nat, end: nat)
    | SetCurve(ids: seq<Axis>, curveId: Option<string>, order: int, points: seq<CurvePoint>)
    | FitCurve(ids: seq<Axis>, curveId: Option<string>, order: int, fitted: Result<seq<CurvePoint>>)
    | Transform(ids: seq<Axis>, change: Change)

  function FirstFrameTick(frames: seq<Frame>): Option<nat> {
    if frames == [] then None else Some(LayerMerging.FirstTick(frames))
  }

  function LastFrameTick(frames: seq<Frame>): Option<nat> {
    if frames == [] then None else Some(LayerRendering.LastTick(frames))
  }

  function NameOf(curveId: Option<string>, names: Names): string {
    if curveId.Some? then curveId.value else names(0)
  }

  /** A range edit that touches nothing is refused. */
  function Touched(r: Result<(Work, bool)>): Result<Work> {
    if r.Err? then Err(r.reason) else if !r.value.1 then Err("no points there") else Ok(r.value.0)
  }

  function Fitted(w: Work, render: Render, ids: seq<Axis>, id: string, order: int, fitted: Result<seq<CurvePoint>>)
    : Result<Work>
  {
    if |Unique(ids)| != 1 then Err("choose one axis")
    else if Unique(ids)[0] !in w.tracks then Err("the axis is not in the layer")
    else if fitted.Err? then Err(fitted.reason)
    else CurveFitted(w, render, Unique(ids)[0], id, order, fitted.value)
  }

  function Applied(w: Work, frames: seq<Frame>, edit: Edit, render: Render, names: Names): Result<Work> {
    match edit
    case Resolve(byPoints, ids) => if !byPoints then Err("only by points") else Resolved(w, render, ids)
    case AddAxis(ids, initial) => AxisAdded(w, ids, initial, FirstFrameTick(frames), LastFrameTick(frames))
    case CopyAxis(source, ids) => AxisCopied(w, source, ids, names)
    case DeleteAxes(ids) => AxesDeleted(w, ids)
    case CopyRange(ids, start, end, target) =>
      if ids == [] then Err("choose an axis")
      else Touched(RangeCopied(w, render, Unique(ids), LayerConflicts.Min(start, end), LayerConflicts.Max(start, end), target))
    case DeleteRange(ids, start, end) =>
      if ids == [] then Err("choose an axis")
      else Touched(RangeDeleted(w, render, w.curves, Unique(ids), LayerConflicts.Min(start, end), LayerConflicts.Max(start, end)))
    case SetCurve(ids, id, order, points) => CurveSet(w, render, ids, NameOf(id, names), order, points)
    case FitCurve(ids, id, order, fitted) => Fitted(w, render, ids, NameOf(id, names), order, fitted)
    case Transform(ids, change) => Transformed(w, render, ids, change)
  }

  /** Only some edits are limited in length. */
  predicate Limited(edit: Edit) { !edit.Resolve? && !edit.FitCurve? }

  /** The layer that an edit leaves: frames put together again, and every curve with a
      name of its own. */
  function Finished(layer: Layer, w: Work, limited: bool): Result<Layer> {
    var frames := FramesOf(w.tracks);
    if frames.Err? then Err(frames.reason)
    else if limited && |frames.value| > MaxEditFrames then Err("too many frames")
    else if !UniqueIds(w.curves) then Err("two curves have one name")
    else Ok(layer.(frames := frames.value, curves := w.curves))
  }

  function WorkOf(layer: Layer): Work { Work(AxisTracks(layer.frames), layer.curves) }

  function EditedOnce(layer: Layer, edit: Edit, render: Render, names: Names): Result<Layer> {
    var w := Applied(WorkOf(layer), layer.frames, edit, render, names);
    if w.Err? then Err(w.reason) else Finished(layer, w.value, Limited(edit))
  }

  predicate Gatherable(curves: seq<Curve>) {
    exists axis :: axis in AxesInOrder(curves) && |CurvesOn(curves, axis)| >= 2
  }

  function OneCurvePerAxis(layer: Layer, render: Render): Result<Layer> {
    if !Gatherable(layer.curves) then Ok(layer)
    else
      var w := GatheredAll(WorkOf(layer), render, AxesInOrder(layer.curves));
      if w.Err? then Err(w.reason) else Finished(layer, w.value, false)
  }

  function Edited(layer: Layer, edit: Edit, render: Render, names: Names): Result<Layer> {
    var once := EditedOnce(layer, edit, render, names);
    if once.Err? then once else OneCurvePerAxis(once.value, render)
  }

  // ----- Every edit keeps the layer in step ---------------------------------------------------------

  ghost predicate LayerOk(render: Render, layer: Layer) { Consistent(render, layer.frames, layer.curves) }

  lemma FinishedOk(render: Render, layer: Layer, w: Work, limited: bool)
    requires WorkOk(render, w) && Finished(layer, w, limited).Ok?
    ensures LayerOk(render, Finished(layer, w, limited).value)
  {
    PuttingTogether(render, w);
  }

  lemma RangeEditKeeps(w: Work, frames: seq<Frame>, edit: Edit, render: Render, names: Names)
    requires Renders(render) && WorkOk(render, w) && (edit.CopyRange? || edit.DeleteRange?)
    requires Applied(w, frames, edit, render, names).Ok?
    ensures WorkOk(render, Applied(w, frames, edit, render, names).value)
  {
    var start, end := LayerConflicts.Min(edit.start, edit.end), LayerConflicts.Max(edit.start, edit.end);
    if edit.CopyRange? {
      CopyingRangeKeeps(w, render, Unique(edit.ids), start, end, edit.target);
    } else {
      assert w.curves[..|w.curves|] == w.curves;
      DeletingRangeKeeps(w, render, w.curves, w.curves, Unique(edit.ids), start, end);
    }
  }

  lemma AppliedKeeps(w: Work, frames: seq<Frame>, edit: Edit, render: Render, names: Names)
    requires Renders(render) && WorkOk(render, w) && Fresh(names, w.curves)
    requires Applied(w, frames, edit, render, names).Ok?
    requires UniqueIds(Applied(w, frames, edit, render, names).value.curves)
    ensures WorkOk(render, Applied(w, frames, edit, render, names).value)
  {
    match edit {
      case Resolve(_, ids) => ResolvingKeeps(w, render, ids);
      case AddAxis(ids, initial) =>
        AddingKeeps(w, render, Unique(ids)[0], Applied(w, frames, edit, render, names).value.tracks[Unique(ids)[0]]);
      case CopyAxis(source, ids) => CopyingKeeps(w, render, source, ids, names);
      case DeleteAxes(ids) => DeletingKeeps(w, render, ids);
      case CopyRange(_, _, _, _) => RangeEditKeeps(w, frames, edit, render, names);
      case DeleteRange(_, _, _) => RangeEditKeeps(w, frames, edit, render, names);
      case SetCurve(ids, id, order, points) => SettingKeeps(w, render, ids, NameOf(id, names), order, points);
      case FitCurve(ids, id, order, fitted) =>
        FittingKeeps(w, render, Unique(ids)[0], NameOf(id, names), order, fitted.value);
      case Transform(ids, change) => TransformingKeeps(w, render, ids, change);
    }
  }

  lemma GatheringKeepsLayer(layer: Layer, render: Render)
    requires Renders(render) && LayerOk(render, layer) && OneCurvePerAxis(layer, render).Ok?
    ensures LayerOk(render, OneCurvePerAxis(layer, render).value)
    ensures OnePerAxis(OneCurvePerAxis(layer, render).value.curves)
  {
    if Gatherable(layer.curves) {
      TakingApart(render, layer.frames, layer.curves);
      GatheredOnePerAxis(WorkOf(layer), render);
      FinishedOk(render, layer, GatheredAll(WorkOf(layer), render, AxesInOrder(layer.curves)).value, false);
    } else {
      forall axis ensures |CurvesOn(layer.curves, axis)| <= 1 {
        if axis !in AxesInOrder(layer.curves) { NotListed(layer.curves, axis); }
      }
    }
  }

  /** Every edit that succeeds leaves a layer with at most one curve on an axis, whose
      frames are exactly what its curves draw. */
  lemma EditingKeepsStep(layer: Layer, edit: Edit, render: Render, names: Names)
    requires Renders(render) && LayerOk(render, layer) && Fresh(names, layer.curves)
    requires Edited(layer, edit, render, names).Ok?
    ensures LayerOk(render, Edited(layer, edit, render, names).value)
    ensures OnePerAxis(Edited(layer, edit, render, names).value.curves)
  {
    var w := WorkOf(layer);
    TakingApart(render, layer.frames, layer.curves);
    AppliedKeeps(w, layer.frames, edit, render, names);
    FinishedOk(render, layer, Applied(w, layer.frames, edit, render, names).value, Limited(edit));
    GatheringKeepsLayer(EditedOnce(layer, edit, render, names).value, render);
  }

  /** Recalculating all curves brings any layer into step whose curves can be drawn and do
      not overlap, whatever its frames were. */
  lemma ResolvingRepairs(layer: Layer, render: Render, names: Names)
    requires Renders(render) && Structure(render, layer.curves)
    requires Edited(layer, Resolve(true, {}), render, names).Ok?
    ensures LayerOk(render, Edited(layer, Resolve(true, {}), render, names).value)
    ensures OnePerAxis(Edited(layer, Resolve(true, {}), render, names).value.curves)
  {
    var w := WorkOf(layer);
    ResolvingKeeps(w, render, {});
    FinishedOk(render, layer, Resolved(w, render, {}).value, false);
    GatheringKeepsLayer(EditedOnce(layer, Resolve(true, {}), render, names).value, render);
  }

  /** So it stays over any series of edits. */
  function EditedAll(layer: Layer, edits: seq<Edit>, render: Render, names: seq<Names>): Result<Layer>
    requires |names| == |edits|
  {
    if edits == [] then Ok(layer)
    else
      var before := EditedAll(layer, Front(edits), render, Front(names));
      if before.Err? then before else Edited(before.value, Last(edits), render, Last(names))
  }

  /** The names that an edit gives are new in the layer that it changes. */
  ghost predicate AllFresh(layer: Layer, edits: seq<Edit>, render: Render, names: seq<Names>)
    requires |names| == |edits|
    decreases |edits|
  {
    edits != [] ==>
      && AllFresh(layer, Front(edits), render, Front(names))
      && var before := EditedAll(layer, Front(edits), render, Front(names));
         before.Ok? ==> Fresh(Last(names), before.value.curves)
  }

  lemma {:induction false} EditsKeepStep(layer: Layer, edits: seq<Edit>, render: Render, names: seq<Names>)
    requires Renders(render) && LayerOk(render, layer) && |names| == |edits|
    requires AllFresh(layer, edits, render, names) && EditedAll(layer, edits, render, names).Ok?
    ensures LayerOk(render, EditedAll(layer, edits, render, names).value)
    ensures edits != [] ==> OnePerAxis(EditedAll(layer, edits, render, names).value.curves)
    decreases |edits|
  {
    if edits != [] {
      EditsKeepStep(layer, Front(edits), render, Front(names));
      EditingKeepsStep(EditedAll(layer, Front(edits), render, Front(names)).value, Last(edits), render, Last(names));
    }
  }
}

/** The commands that change the layers of a project, what each says is affected, and the
    composition cache over any series of them. */
module LayerCommands {
  import opened MotionTypes
  import opened Sorting
  import opened Timeline
  import opened LayerConflicts
  import opened Composition

  datatype Command =
    | UpdateSettings(id: string, enabled: Option<bool>, name: Option<string>)
    | ReplaceData(id: string, updated: Layer)
    | DeleteLayer(id: string)
    | Duplicate(id: string, newId: string, newName: string)
    | AddLayer(layer: Layer)

  /** What a command does: the new layers, and the axes and layers it says are affected. */
  datatype Effect = Effect(layers: seq<Layer>, axes: set<Axis>, ids: set<string>)

  function MotionIds(layer: Layer): set<Axis> {
    AxesOf(layer.frames) + (set curve | curve in layer.curves :: curve.axis)
  }

  function FindLayer(layers: seq<Layer>, id: string): (r: Option<nat>)
    ensures r.Some? ==> r.value < |layers| && layers[r.value].id == id
    ensures r.None? ==> forall i :: 0 <= i < |layers| ==> layers[i].id != id
  {
    if layers == [] then None
    else if layers[0].id == id then Some(0)
    else
      var rest := FindLayer(layers[1..], id);
      if rest.Some? then Some(rest.value + 1) else None
  }

  function Do(layers: seq<Layer>, command: Command): Result<Effect> {
    match command
    case AddLayer(layer) => Ok(Effect(layers + [layer], MotionIds(layer), {layer.id}))
    case UpdateSettings(id, enabled, name) =>
      var found := FindLayer(layers, id);
      if found.None? then Err("no such layer")
      else
        var layer := layers[found.value];
        var updated := layer.(enabled := if enabled.Some? then enabled.value else layer.enabled,
                              name := if name.Some? && name.value != "" then name.value else layer.name);
        Ok(Effect(layers[found.value := updated],
                  if enabled.Some? || name.Some? then MotionIds(updated) else {}, {id}))
    case ReplaceData(id, updated) =>
      var found := FindLayer(layers, id);
      if found.None? then Err("no such layer")
      else
        var original := layers[found.value];
        Ok(Effect(layers[found.value := updated.(id := id, enabled := original.enabled)],
                  MotionIds(original) + MotionIds(updated), {id}))
    case DeleteLayer(id) =>
      var found := FindLayer(layers, id);
      if found.None? then Err("no such layer")
      else Ok(Effect(Picked(layers, {id}, false), MotionIds(layers[found.value]), {id}))
    case Duplicate(id, newId, newName) =>
      var found := FindLayer(layers, id);
      if found.None? then Err("no such layer")
      else
        var copy := layers[found.value].(id := newId, name := newName, enabled := false);
        Ok(Effect(layers + [copy], MotionIds(copy), {newId}))
  }

  // ----- What is said to be affected covers what changed ---------------------------------------------------

  lemma {:induction false} OnAxisJoin(a: seq<Layer>, b: seq<Layer>, axis: Axis)
    ensures OnAxis(a + b, axis) == OnAxis(a, axis) + OnAxis(b, axis)
  {
    if a == [] {
      assert a + b == b;
    } else {
      assert (a + b)[1..] == a[1..] + b;
      OnAxisJoin(a[1..], b, axis);
    }
  }

  lemma SilentLayer(layer: Layer, axis: Axis)
    requires !layer.enabled || axis !in AxesOf(layer.frames)
    ensures OnAxis([layer], axis) == []
  {}

  lemma {:induction false} PickedJoin(a: seq<Layer>, b: seq<Layer>, ids: set<string>, inside: bool)
    ensures Picked(a + b, ids, inside) == Picked(a, ids, inside) + Picked(b, ids, inside)
  {
    if b == [] {
      assert a + b == a;
    } else {
      assert Front(a + b) == a + Front(b) && Last(a + b) == Last(b);
      PickedJoin(a, Front(b), ids, inside);
    }
  }

  lemma PickedOne(layer: Layer, ids: set<string>)
    requires layer.id in ids
    ensures Picked([layer], ids, false) == []
  {}

  lemma AddingCovers(layers: seq<Layer>, layer: Layer, axes: set<Axis>)
    requires AxesOf(layer.frames) <= axes || !layer.enabled
    ensures Covers(layers, layers + [layer], axes, {layer.id})
  {
    forall axis | axis !in axes ensures OnAxis(layers, axis) == OnAxis(layers + [layer], axis) {
      OnAxisJoin(layers, [layer], axis);
      SilentLayer(layer, axis);
    }
    PickedJoin(layers, [layer], {layer.id}, false);
    PickedOne(layer, {layer.id});
  }

  lemma ReplacingCovers(layers: seq<Layer>, k: nat, layer: Layer, axes: set<Axis>)
    requires k < |layers| && layer.id == layers[k].id
    requires layer == layers[k] || AxesOf(layers[k].frames) + AxesOf(layer.frames) <= axes
    ensures Covers(layers, layers[k := layer], axes, {layer.id})
  {
    var before, after := layers[..k], layers[k + 1..];
    assert layers == before + [layers[k]] + after && layers[k := layer] == before + [layer] + after;
    forall axis | axis !in axes ensures OnAxis(layers, axis) == OnAxis(layers[k := layer], axis) {
      OnAxisJoin(before + [layers[k]], after, axis);
      OnAxisJoin(before + [layer], after, axis);
      OnAxisJoin(before, [layers[k]], axis);
      OnAxisJoin(before, [layer], axis);
      if layer != layers[k] {
        SilentLayer(layer, axis);
        SilentLayer(layers[k], axis);
      }
    }
    PickedJoin(before + [layers[k]], after, {layer.id}, false);
    PickedJoin(before + [layer], after, {layer.id}, false);
    PickedJoin(before, [layers[k]], {layer.id}, false);
    PickedJoin(before, [layer], {layer.id}, false);
    PickedOne(layer, {layer.id});
    PickedOne(layers[k], {layer.id});
  }

  lemma {:induction false} PickedTwice(layers: seq<Layer>, ids: set<string>)
    ensures Picked(Picked(layers, ids, false), ids, false) == Picked(layers, ids, false)
  {
    if layers != [] {
      PickedTwice(Front(layers), ids);
      var kept := Picked(Front(layers), ids, false);
      if Last(layers).id in ids {
        assert kept + [] == kept;
      } else {
        PickedJoin(kept, [Last(layers)], ids, false);
        assert Front([Last(layers)]) == [];
      }
    }
  }

  lemma {:induction false} OnAxisPicked(layers: seq<Layer>, ids: set<string>, axis: Axis)
    requires forall i :: 0 <= i < |layers| && layers[i].id in ids ==> axis !in AxesOf(layers[i].frames)
    ensures OnAxis(Picked(layers, ids, false), axis) == OnAxis(layers, axis)
  {
    if layers != [] {
      OnAxisPicked(Front(layers), ids, axis);
      FrontAndLast(layers);
      OnAxisJoin(Front(layers), [Last(layers)], axis);
      var kept := Picked(Front(layers), ids, false);
      if Last(layers).id in ids {
        SilentLayer(Last(layers), axis);
        assert kept + [] == kept;
      } else {
        OnAxisJoin(kept, [Last(layers)], axis);
      }
    }
  }

  ghost predicate UniqueLayers(layers: seq<Layer>) {
    forall i, j :: 0 <= i < j < |layers| ==> layers[i].id != layers[j].id
  }

  lemma DeletingCovers(layers: seq<Layer>, k: nat)
    requires UniqueLayers(layers) && k < |layers|
    ensures Covers(layers, Picked(layers, {layers[k].id}, false), MotionIds(layers[k]), {layers[k].id})
  {
    forall axis | axis !in MotionIds(layers[k])
      ensures OnAxis(layers, axis) == OnAxis(Picked(layers, {layers[k].id}, false), axis)
    {
      forall i | 0 <= i < |layers| && layers[i].id in {layers[k].id} ensures i == k {}
      OnAxisPicked(layers, {layers[k].id}, axis);
    }
    PickedTwice(layers, {layers[k].id});
  }

  /** Every command says enough. */
  lemma CommandsCover(layers: seq<Layer>, command: Command)
    requires UniqueLayers(layers) && Do(layers, command).Ok?
    ensures var effect := Do(layers, command).value; Covers(layers, effect.layers, effect.axes, effect.ids)
  {
    match command {
      case AddLayer(layer) => AddingCovers(layers, layer, MotionIds(layer));
      case UpdateSettings(id, enabled, name) =>
        var k, effect := FindLayer(layers, id).value, Do(layers, command).value;
        ReplacingCovers(layers, k, effect.layers[k], effect.axes);
      case ReplaceData(id, updated) =>
        var k, effect := FindLayer(layers, id).value, Do(layers, command).value;
        ReplacingCovers(layers, k, effect.layers[k], effect.axes);
      case DeleteLayer(id) => DeletingCovers(layers, FindLayer(layers, id).value);
      case Duplicate(id, newId, newName) =>
        var copy := layers[FindLayer(layers, id).value].(id := newId, name := newName, enabled := false);
        AddingCovers(layers, copy, MotionIds(copy));
    }
  }

  // ----- What commands leave -----------------------------------------------------------------------------------

  /** Every other layer is where it was, as it was. */
  ghost predicate OthersStay(layers: seq<Layer>, after: seq<Layer>, id: string) {
    |after| == |layers| && forall i :: 0 <= i < |layers| && layers[i].id != id ==> after[i] == layers[i]
  }

  /** New settings, and the same data; what is not given, and an empty name, stays. */
  ghost predicate Resettled(was: Layer, now: Layer, enabled: Option<bool>, name: Option<string>) {
    && now.id == was.id && now.frames == was.frames && now.curves == was.curves
    && now.enabled == (if enabled.Some? then enabled.value else was.enabled)
    && (if name.Some? && name.value != "" then Some(now.name) == name else now.name == was.name)
  }

  /** New data, under the same id and as enabled as before. */
  ghost predicate Refilled(was: Layer, now: Layer, data: Layer) {
    && now.id == was.id && now.enabled == was.enabled
    && now.frames == data.frames && now.curves == data.curves && now.name == data.name
  }

  /** The layers in their order, without that one. */
  ghost predicate Without(layers: seq<Layer>, after: seq<Layer>, k: nat) {
    k < |layers| && after == layers[..k] + layers[k + 1..]
  }

  /** A copy at the end, under a new name and not enabled. */
  ghost predicate CopiedAtEnd(layers: seq<Layer>, after: seq<Layer>, k: nat, newId: string, newName: string) {
    && k < |layers| && |after| == |layers| + 1 && after[..|layers|] == layers
    && var copy := after[|layers|];
       && copy.id == newId && copy.name == newName && !copy.enabled
       && copy.frames == layers[k].frames && copy.curves == layers[k].curves
  }

  /** What a command leaves, told by the layer of that id, of which there is one. */
  ghost predicate Leaves(layers: seq<Layer>, command: Command, after: seq<Layer>, k: nat) {
    match command
    case AddLayer(layer) => after == layers + [layer]
    case UpdateSettings(id, enabled, name) =>
      k < |layers| == |after| && layers[k].id == id && OthersStay(layers, after, id) && Resettled(layers[k], after[k], enabled, name)
    case ReplaceData(id, updated) =>
      k < |layers| == |after| && layers[k].id == id && OthersStay(layers, after, id) && Refilled(layers[k], after[k], updated)
    case DeleteLayer(id) => k < |layers| && layers[k].id == id && Without(layers, after, k)
    case Duplicate(id, newId, newName) => k < |layers| && layers[k].id == id && CopiedAtEnd(layers, after, k, newId, newName)
  }

  lemma {:induction false} AllPicked(layers: seq<Layer>, ids: set<string>)
    requires forall i :: 0 <= i < |layers| ==> layers[i].id !in ids
    ensures Picked(layers, ids, false) == layers
  {
    if layers != [] {
      AllPicked(Front(layers), ids);
      FrontAndLast(layers);
    }
  }

  lemma PickedWithout(layers: seq<Layer>, k: nat)
    requires UniqueLayers(layers) && k < |layers|
    ensures Picked(layers, {layers[k].id}, false) == layers[..k] + layers[k + 1..]
  {
    var ids, before, one, after := {layers[k].id}, layers[..k], [layers[k]], layers[k + 1..];
    assert layers == (before + one) + after;
    PickedJoin(before + one, after, ids, false);
    PickedJoin(before, one, ids, false);
    PickedOne(layers[k], ids);
    OthersPicked(layers, k);
    assert before + [] == before;
  }

  lemma OthersPicked(layers: seq<Layer>, k: nat)
    requires UniqueLayers(layers) && k < |layers|
    ensures Picked(layers[..k], {layers[k].id}, false) == layers[..k]
    ensures Picked(layers[k + 1..], {layers[k].id}, false) == layers[k + 1..]
  {
    AllPicked(layers[..k], {layers[k].id});
    AllPicked(layers[k + 1..], {layers[k].id});
  }

  function TargetOf(command: Command): Option<string> {
    match command
    case AddLayer(_) => None
    case UpdateSettings(id, _, _) => Some(id)
    case ReplaceData(id, _) => Some(id)
    case DeleteLayer(id) => Some(id)
    case Duplicate(id, _, _) => Some(id)
  }

  /** A command is refused exactly when the layer that it names is missing, and leaves what it
      says. */
  lemma CommandsLeave(layers: seq<Layer>, command: Command)
    requires UniqueLayers(layers)
    ensures Do(layers, command).Ok? <==>
            TargetOf(command).Some? ==> exists i :: 0 <= i < |layers| && layers[i].id == TargetOf(command).value
    ensures Do(layers, command).Ok? ==> exists k: nat :: Leaves(layers, command, Do(layers, command).value.layers, k)
  {
    if Do(layers, command).Ok? {
      if TargetOf(command).Some? {
        var k := FindLayer(layers, TargetOf(command).value).value;
        if command.DeleteLayer? { PickedWithout(layers, k); }
        assert Leaves(layers, command, Do(layers, command).value.layers, k);
      } else {
        assert Leaves(layers, command, Do(layers, command).value.layers, 0);
      }
    }
  }

  // ----- The cache over any series of commands ----------------------------------------------------------------

  function Composed(
    cached: Option<Summary>, layers: seq<Layer>, axes: set<Axis>, ids: set<string>,
    ranges: RangeCheck, curves: CurveCheck): Summary
  {
    if cached.Some? && (axes != {} || ids != {}) then Updated(cached.value, layers, axes, ids, ranges, curves)
    else Full(layers, ranges, curves)
  }

  /** The layers and the cache after some commands; a refused one changes nothing. */
  function After(
    layers: seq<Layer>, commands: seq<Command>, ranges: RangeCheck, curves: CurveCheck): (seq<Layer>, Option<Summary>)
  {
    if commands == [] then (layers, None)
    else
      var before := After(layers, Front(commands), ranges, curves);
      var effect := Do(before.0, Last(commands));
      if effect.Err? then before
      else
        (effect.value.layers,
         Some(Composed(before.1, effect.value.layers, effect.value.axes, effect.value.ids, ranges, curves)))
  }

  /** One command: if the cache was right, it is right afterwards. */
  lemma CommandKeepsCache(
    cached: Option<Summary>, layers: seq<Layer>, command: Command, ranges: RangeCheck, curves: CurveCheck)
    requires UniqueLayers(layers) && Do(layers, command).Ok?
    requires cached.Some? ==> SameEntries(cached.value, Full(layers, ranges, curves))
    ensures var effect := Do(layers, command).value;
            SameEntries(Composed(cached, effect.layers, effect.axes, effect.ids, ranges, curves),
                        Full(effect.layers, ranges, curves))
  {
    var effect := Do(layers, command).value;
    if cached.Some? {
      CommandsCover(layers, command);
      UpdatedIsFull(cached.value, layers, effect.layers, effect.axes, effect.ids, ranges, curves);
    }
  }

  // ----- Layers keep names of their own ------------------------------------------------------------------------

  function Ids(layers: seq<Layer>): set<string> { set layer | layer in layers :: layer.id }

  /** The name that a command gives to a new layer. */
  function Given(command: Command): set<string> {
    match command
    case AddLayer(layer) => {layer.id}
    case Duplicate(_, newId, _) => {newId}
    case _ => {}
  }

  function AllGiven(commands: seq<Command>): set<string> {
    if commands == [] then {} else AllGiven(Front(commands)) + Given(Last(commands))
  }

  /** Every new name is one that was never in use. */
  predicate NewNames(layers: seq<Layer>, commands: seq<Command>) {
    commands != [] ==>
      NewNames(layers, Front(commands)) && Given(Last(commands)) !! Ids(layers) + AllGiven(Front(commands))
  }

  lemma {:induction false} PickedAmong(layers: seq<Layer>, ids: set<string>, layer: Layer)
    requires layer in Picked(layers, ids, false)
    ensures layer in layers
  {
    if layers != [] && layer != Last(layers) {
      PickedAmong(Front(layers), ids, layer);
    }
  }

  lemma {:induction false} PickedUnique(layers: seq<Layer>, ids: set<string>)
    requires UniqueLayers(layers)
    ensures UniqueLayers(Picked(layers, ids, false)) && Ids(Picked(layers, ids, false)) <= Ids(layers)
  {
    forall layer | layer in Picked(layers, ids, false) ensures layer in layers { PickedAmong(layers, ids, layer); }
    if layers != [] {
      var kept := Picked(Front(layers), ids, false);
      PickedUnique(Front(layers), ids);
      forall i | 0 <= i < |kept| ensures kept[i].id != Last(layers).id {
        assert kept[i] in kept;
        PickedAmong(Front(layers), ids, kept[i]);
        var j :| 0 <= j < |layers| - 1 && layers[j] == kept[i];
      }
    }
  }

  lemma AddedUnique(layers: seq<Layer>, layer: Layer)
    requires UniqueLayers(layers) && layer.id !in Ids(layers)
    ensures UniqueLayers(layers + [layer]) && Ids(layers + [layer]) == Ids(layers) + {layer.id}
  {
    forall i | 0 <= i < |layers| ensures layers[i].id != layer.id { assert layers[i] in layers; }
    assert layer in layers + [layer];
    forall other | other in layers ensures other.id in Ids(layers + [layer]) { assert other in layers + [layer]; }
  }

  lemma ReplacedUnique(layers: seq<Layer>, k: nat, layer: Layer)
    requires UniqueLayers(layers) && k < |layers| && layer.id == layers[k].id
    ensures UniqueLayers(layers[k := layer]) && Ids(layers[k := layer]) <= Ids(layers)
  {
    forall other | other in layers[k := layer] ensures other.id in Ids(layers) { assert layers[k] in layers; }
  }

  lemma DoUnique(layers: seq<Layer>, command: Command)
    requires UniqueLayers(layers) && Given(command) !! Ids(layers) && Do(layers, command).Ok?
    ensures UniqueLayers(Do(layers, command).value.layers)
    ensures Ids(Do(layers, command).value.layers) <= Ids(layers) + Given(command)
  {
    var effect := Do(layers, command).value;
    match command {
      case AddLayer(layer) => AddedUnique(layers, layer);
      case UpdateSettings(id, _, _) =>
        ReplacedUnique(layers, FindLayer(layers, id).value, effect.layers[FindLayer(layers, id).value]);
      case ReplaceData(id, _) =>
        ReplacedUnique(layers, FindLayer(layers, id).value, effect.layers[FindLayer(layers, id).value]);
      case DeleteLayer(id) => PickedUnique(layers, {id});
      case Duplicate(id, newId, newName) => AddedUnique(layers, effect.layers[|layers|]);
    }
  }

  /** With new names for new layers, no two layers ever share one. */
  lemma {:induction false} AlwaysUnique(
    layers: seq<Layer>, commands: seq<Command>, ranges: RangeCheck, curves: CurveCheck)
    requires UniqueLayers(layers) && NewNames(layers, commands)
    ensures UniqueLayers(After(layers, commands, ranges, curves).0)
    ensures Ids(After(layers, commands, ranges, curves).0) <= Ids(layers) + AllGiven(commands)
    decreases |commands|
  {
    if commands != [] {
      var before := After(layers, Front(commands), ranges, curves);
      AlwaysUnique(layers, Front(commands), ranges, curves);
      if Do(before.0, Last(commands)).Ok? {
        DoUnique(before.0, Last(commands));
      }
    }
  }

  /** After any series of commands, the cache is what working everything out anew would
      give, entry by entry. */
  lemma {:induction false} CacheIsAlwaysRight(
    layers: seq<Layer>, commands: seq<Command>, ranges: RangeCheck, curves: CurveCheck)
    requires UniqueLayers(layers) && NewNames(layers, commands)
    ensures var after := After(layers, commands, ranges, curves);
            after.1.Some? ==> SameEntries(after.1.value, Full(after.0, ranges, curves))
    decreases |commands|
  {
    if commands != [] {
      var before := After(layers, Front(commands), ranges, curves);
      CacheIsAlwaysRight(layers, Front(commands), ranges, curves);
      AlwaysUnique(layers, Front(commands), ranges, curves);
      if Do(before.0, Last(commands)).Ok? {
        CommandKeepsCache(before.1, before.0, Last(commands), ranges, curves);
      }
    }
  }
}

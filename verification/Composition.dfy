/** The cached composition: conflicts, range warnings and curve mismatches of a project,
    brought up to date for the axes and layers that changed instead of worked out anew. */
module Composition {
  import opened MotionTypes
  import opened Sorting
  import opened Timeline
  import opened LayerConflicts
  import LayerValidation

  // ----- How often a conflict is listed --------------------------------------------------------------

  ghost function Count<T>(items: seq<T>, item: T): nat { multiset(items)[item] }

  lemma CountJoin<T>(a: seq<T>, b: seq<T>, item: T)
    ensures Count(a + b, item) == Count(a, item) + Count(b, item)
  {
  }

  /** Two loops over lists of the same length, whose reports list the conflict equally
      often. */
  lemma {:induction false} CountConcat<T(!new), U(!new)>(
    xs: seq<T>, f: T -> seq<Conflict>, ys: seq<U>, g: U -> seq<Conflict>, c: Conflict)
    requires |xs| == |ys|
    requires forall k :: 0 <= k < |xs| ==> Count(f(xs[k]), c) == Count(g(ys[k]), c)
    ensures Count(Concat(xs, f), c) == Count(Concat(ys, g), c)
  {
    if xs != [] {
      CountConcat(Front(xs), f, Front(ys), g, c);
    }
  }

  lemma {:induction false} CountNone<T(!new)>(xs: seq<T>, f: T -> seq<Conflict>, c: Conflict)
    requires forall k :: 0 <= k < |xs| ==> Count(f(xs[k]), c) == 0
    ensures Count(Concat(xs, f), c) == 0
  {
    if xs != [] {
      CountNone(Front(xs), f, c);
    }
  }

  /** What is reported for an axis is about that axis. */
  lemma AboutAxis(a: Tracks, b: Tracks, axis: Axis, c: Conflict)
    requires c.axis != axis
    ensures Count(AxisReport(a, b)(axis), c) == 0
  {
    var firsts, seconds := TrackOf(a, axis), TrackOf(b, axis);
    forall j | 0 <= j < |firsts| ensures Count(SegmentReport(a, b, axis, seconds)(firsts[j]), c) == 0 {
      forall k | 0 <= k < |seconds| ensures Count(OnePairOf(a, b, axis, firsts[j])(seconds[k]), c) == 0 {
      }
      CountNone(seconds, OnePairOf(a, b, axis, firsts[j]), c);
    }
    CountNone(firsts, SegmentReport(a, b, axis, seconds), c);
  }

  /** Of all axes, only that of the conflict counts. */
  lemma {:induction false} CountAxes(axes: seq<Axis>, a: Tracks, b: Tracks, c: Conflict)
    requires Increasing(axes)
    ensures Count(Concat(axes, AxisReport(a, b)), c) ==
            if c.axis in axes then Count(AxisReport(a, b)(c.axis), c) else 0
  {
    if axes != [] {
      CountAxes(Front(axes), a, b, c);
      LastOfIncreasing(axes);
      CountJoin(Concat(Front(axes), AxisReport(a, b)), AxisReport(a, b)(Last(axes)), c);
      if Last(axes) != c.axis {
        AboutAxis(a, b, Last(axes), c);
      }
    }
  }

  lemma LastOfIncreasing(axes: seq<Axis>)
    requires Increasing(axes) && axes != []
    ensures Last(axes) !in Front(axes)
    ensures forall axis :: axis in axes <==> axis in Front(axes) || axis == Last(axes)
  {
    FrontAndLast(axes);
  }

  lemma CountPair(a: Tracks, b: Tracks, c: Conflict)
    ensures Count(PairReport(a)(b), c) ==
            if c.axis in a.tracks && c.axis in b.tracks then Count(AxisReport(a, b)(c.axis), c) else 0
  {
    CountAxes(SortedSet(a.tracks.Keys * b.tracks.Keys), a, b, c);
  }

  // ----- Only the layers with the axis matter ------------------------------------------------------------

  /** The loops over pairs, from the front. */
  function Pairs(enabled: seq<Tracks>, report: Tracks -> Tracks -> seq<Conflict>): seq<Conflict> {
    if enabled == [] then [] else Concat(enabled[1..], report(enabled[0])) + Pairs(enabled[1..], report)
  }

  lemma {:induction false} RowsArePairs(enabled: seq<Tracks>, count: nat, report: Tracks -> Tracks -> seq<Conflict>)
    requires count <= |enabled|
    ensures Rows(enabled, |enabled|, report) == Rows(enabled, count, report) + Pairs(enabled[count..], report)
    decreases |enabled| - count
  {
    if count < |enabled| {
      RowsArePairs(enabled, count + 1, report);
      assert enabled[count..][1..] == enabled[count + 1..];
    } else {
      assert enabled[count..] == [];
    }
  }

  lemma ConflictsArePairs(layers: seq<Layer>, selected: Option<set<Axis>>)
    ensures ProjectConflicts(layers, selected) == Pairs(TracksOf(layers, selected), PairReports())
  {
    var enabled := TracksOf(layers, selected);
    RowsArePairs(enabled, 0, PairReports());
    assert enabled[0..] == enabled;
  }

  /** How often the loop over the later layers lists a conflict. */
  ghost function RowCount(a: Tracks, later: seq<Tracks>, c: Conflict): nat {
    Count(Concat(later, PairReport(a)), c)
  }

  /** How often all the loops list it. */
  ghost function PairsCount(enabled: seq<Tracks>, c: Conflict): nat { Count(Pairs(enabled, PairReports()), c) }

  lemma PairsStep(enabled: seq<Tracks>, c: Conflict)
    requires enabled != []
    ensures PairsCount(enabled, c) == RowCount(enabled[0], enabled[1..], c) + PairsCount(enabled[1..], c)
  {
  }

  /** Two lists of tracks that list a conflict equally often, pair by pair. */
  ghost predicate SamePairs(a: seq<Tracks>, b: seq<Tracks>, c: Conflict) {
    && |a| == |b|
    && forall i, j :: 0 <= i < |a| && 0 <= j < |a| ==> SamePair(a[i], a[j], b[i], b[j], c)
  }

  ghost predicate SamePair(a: Tracks, b: Tracks, x: Tracks, y: Tracks, c: Conflict) {
    Count(PairReport(a)(b), c) == Count(PairReport(x)(y), c)
  }

  lemma SamePairsTail(a: seq<Tracks>, b: seq<Tracks>, c: Conflict)
    requires SamePairs(a, b, c) && a != []
    ensures SamePairs(a[1..], b[1..], c)
  {
    forall i, j | 0 <= i < |a| - 1 && 0 <= j < |a| - 1
      ensures SamePair(a[1..][i], a[1..][j], b[1..][i], b[1..][j], c)
    {
      assert SamePair(a[i + 1], a[j + 1], b[i + 1], b[j + 1], c);
    }
  }

  lemma SameRow(a: seq<Tracks>, b: seq<Tracks>, c: Conflict)
    requires SamePairs(a, b, c) && a != []
    ensures RowCount(a[0], a[1..], c) == RowCount(b[0], b[1..], c)
  {
    forall k | 0 <= k < |a| - 1 ensures Count(PairReport(a[0])(a[1..][k]), c) == Count(PairReport(b[0])(b[1..][k]), c) {
      assert SamePair(a[0], a[k + 1], b[0], b[k + 1], c);
    }
    CountConcat(a[1..], PairReport(a[0]), b[1..], PairReport(b[0]), c);
  }

  lemma {:induction false} CountPairs(a: seq<Tracks>, b: seq<Tracks>, c: Conflict)
    requires SamePairs(a, b, c)
    ensures PairsCount(a, c) == PairsCount(b, c)
  {
    if a != [] {
      SamePairsTail(a, b, c);
      CountPairs(a[1..], b[1..], c);
      SameRow(a, b, c);
      PairsStep(a, c);
      PairsStep(b, c);
    }
  }

  predicate IsSelected(selected: Option<set<Axis>>, axis: Axis) { selected.None? || axis in selected.value }

  /** Selecting axes keeps every conflict of a selected axis, as often as it was, and no
      other. */
  lemma SelectingFilters(layers: seq<Layer>, selected: Option<set<Axis>>, c: Conflict)
    ensures Count(ProjectConflicts(layers, selected), c) ==
            if IsSelected(selected, c.axis) then Count(ProjectConflicts(layers, Some({c.axis})), c) else 0
  {
    ConflictsArePairs(layers, selected);
    ConflictsArePairs(layers, Some({c.axis}));
    var a, b := TracksOf(layers, selected), TracksOf(layers, Some({c.axis}));
    if IsSelected(selected, c.axis) {
      forall i, j | 0 <= i < |a| && 0 <= j < |a| ensures SamePair(a[i], a[j], b[i], b[j], c) {
        SameTracks(layers, selected, c.axis, i, j, c);
      }
      CountPairs(a, b, c);
    } else {
      forall i | 0 <= i < |a| ensures c.axis !in a[i].tracks {}
      NoPairs(a, c);
    }
  }

  lemma SameTracks(layers: seq<Layer>, selected: Option<set<Axis>>, axis: Axis, i: nat, j: nat, c: Conflict)
    requires IsSelected(selected, axis) && i < |Enabled(layers)| && j < |Enabled(layers)| && c.axis == axis
    ensures var a, b := TracksOf(layers, selected), TracksOf(layers, Some({axis}));
            SamePair(a[i], a[j], b[i], b[j], c)
  {
    var a, b := TracksOf(layers, selected), TracksOf(layers, Some({axis}));
    CountPair(a[i], a[j], c);
    CountPair(b[i], b[j], c);
    SameAxisReport(a[i], a[j], b[i], b[j], axis);
  }

  /** A report of an axis looks at nothing but the two layers' names and that axis. */
  lemma SameAxisReport(a: Tracks, b: Tracks, x: Tracks, y: Tracks, axis: Axis)
    requires a.id == x.id && a.name == x.name && b.id == y.id && b.name == y.name
    requires TrackOf(a, axis) == TrackOf(x, axis) && TrackOf(b, axis) == TrackOf(y, axis)
    ensures AxisReport(a, b)(axis) == AxisReport(x, y)(axis)
  {
    var firsts, seconds := TrackOf(a, axis), TrackOf(b, axis);
    forall first: Segment ensures SegmentReport(a, b, axis, seconds)(first) == SegmentReport(x, y, axis, seconds)(first) {
      forall second: Segment ensures OnePairOf(a, b, axis, first)(second) == OnePairOf(x, y, axis, first)(second) {}
      SameConcat(seconds, OnePairOf(a, b, axis, first), OnePairOf(x, y, axis, first));
    }
    SameConcat(firsts, SegmentReport(a, b, axis, seconds), SegmentReport(x, y, axis, seconds));
  }

  lemma {:induction false} SameConcat<T(!new)>(xs: seq<T>, f: T -> seq<Conflict>, g: T -> seq<Conflict>)
    requires forall x :: f(x) == g(x)
    ensures Concat(xs, f) == Concat(xs, g)
  {
    if xs != [] {
      SameConcat(Front(xs), f, g);
    }
  }

  lemma {:induction false} NoPairs(enabled: seq<Tracks>, c: Conflict)
    requires forall i :: 0 <= i < |enabled| ==> c.axis !in enabled[i].tracks
    ensures Count(Pairs(enabled, PairReports()), c) == 0
  {
    if enabled != [] {
      NoPairs(enabled[1..], c);
      forall k | 0 <= k < |enabled| - 1 ensures Count(PairReport(enabled[0])(enabled[1..][k]), c) == 0 {
        CountPair(enabled[0], enabled[1..][k], c);
      }
      CountNone(enabled[1..], PairReport(enabled[0]), c);
    }
  }

  // ----- Layers without the axis are silent -----------------------------------------------------------------

  /** The enabled layers that have an axis, with what matters of them there. */
  function OnAxis(layers: seq<Layer>, axis: Axis): seq<Tracks> {
    if layers == [] then []
    else
      (if layers[0].enabled && axis in AxesOf(layers[0].frames)
       then [Tracks(layers[0].id, layers[0].name, LayerSegments(layers[0].frames, Some({axis})))] else [])
      + OnAxis(layers[1..], axis)
  }

  function Loud(enabled: seq<Tracks>, axis: Axis): seq<Tracks> {
    if enabled == [] then []
    else (if axis in enabled[0].tracks then [enabled[0]] else []) + Loud(enabled[1..], axis)
  }

  lemma {:induction false} LoudTracks(layers: seq<Layer>, axis: Axis)
    ensures Loud(TracksOf(layers, Some({axis})), axis) == OnAxis(layers, axis)
  {
    if layers != [] {
      var enabled, rest := TracksOf(layers, Some({axis})), TracksOf(layers[1..], Some({axis}));
      LoudTracks(layers[1..], axis);
      if layers[0].enabled {
        assert Enabled(layers) == [layers[0]] + Enabled(layers[1..]);
        assert enabled[1..] == rest;
      } else {
        assert Enabled(layers) == Enabled(layers[1..]);
        assert enabled == rest;
      }
    }
  }

  lemma RowStep(a: Tracks, later: seq<Tracks>, c: Conflict)
    requires later != []
    ensures RowCount(a, later, c) == Count(PairReport(a)(later[0]), c) + RowCount(a, later[1..], c)
  {
    ConcatFront(later, PairReport(a));
  }

  lemma RowCons(a: Tracks, first: Tracks, rest: seq<Tracks>, c: Conflict)
    ensures RowCount(a, [first] + rest, c) == Count(PairReport(a)(first), c) + RowCount(a, rest, c)
  {
    assert ([first] + rest)[1..] == rest;
    RowStep(a, [first] + rest, c);
  }

  lemma LoudStep(enabled: seq<Tracks>, axis: Axis)
    requires enabled != []
    ensures axis in enabled[0].tracks ==> Loud(enabled, axis) == [enabled[0]] + Loud(enabled[1..], axis)
    ensures axis !in enabled[0].tracks ==> Loud(enabled, axis) == Loud(enabled[1..], axis)
  {
  }

  lemma {:induction false} CountLoud(a: Tracks, enabled: seq<Tracks>, c: Conflict)
    ensures RowCount(a, enabled, c) == RowCount(a, Loud(enabled, c.axis), c)
    ensures c.axis !in a.tracks ==> RowCount(a, enabled, c) == 0
  {
    if enabled != [] {
      CountLoud(a, enabled[1..], c);
      CountPair(a, enabled[0], c);
      RowStep(a, enabled, c);
      LoudStep(enabled, c.axis);
      RowCons(a, enabled[0], Loud(enabled[1..], c.axis), c);
    }
  }

  lemma {:induction false} ConcatFront<T(!new)>(xs: seq<T>, report: T -> seq<Conflict>)
    requires xs != []
    ensures Concat(xs, report) == report(xs[0]) + Concat(xs[1..], report)
  {
    if |xs| == 1 {
      assert Front(xs) == [] && xs[1..] == [];
    } else {
      ConcatFront(Front(xs), report);
      assert Front(xs)[1..] == Front(xs[1..]);
    }
  }

  lemma PairsCons(first: Tracks, rest: seq<Tracks>, c: Conflict)
    ensures PairsCount([first] + rest, c) == RowCount(first, rest, c) + PairsCount(rest, c)
  {
    assert ([first] + rest)[1..] == rest;
    PairsStep([first] + rest, c);
  }

  lemma {:induction false} CountLoudPairs(enabled: seq<Tracks>, c: Conflict)
    ensures PairsCount(enabled, c) == PairsCount(Loud(enabled, c.axis), c)
  {
    if enabled != [] {
      CountLoudPairs(enabled[1..], c);
      CountLoud(enabled[0], enabled[1..], c);
      PairsStep(enabled, c);
      LoudStep(enabled, c.axis);
      PairsCons(enabled[0], Loud(enabled[1..], c.axis), c);
    }
  }

  /** The conflicts of an axis depend on nothing but the enabled layers that have it. */
  lemma ConflictsOnAxis(layers: seq<Layer>, c: Conflict)
    ensures Count(ProjectConflicts(layers, None), c) == PairsCount(OnAxis(layers, c.axis), c)
  {
    SelectingFilters(layers, None, c);
    ConflictsArePairs(layers, Some({c.axis}));
    CountLoudPairs(TracksOf(layers, Some({c.axis})), c);
    LoudTracks(layers, c.axis);
  }

  // ----- What is reported layer by layer ------------------------------------------------------------------

  /** An issue, with the layer it was found in. */
  datatype Item<T> = Item(layerId: string, layerName: string, issue: T)

  function Labelled<T>(layer: Layer, issues: seq<T>): seq<Item<T>> {
    seq(|issues|, i requires 0 <= i < |issues| => Item(layer.id, layer.name, issues[i]))
  }

  function Items<T>(layers: seq<Layer>, check: Layer -> seq<T>): seq<Item<T>> {
    if layers == [] then [] else Items(Front(layers), check) + Labelled(Last(layers), check(Last(layers)))
  }

  /** The layers whose names are, or are not, in a set. */
  function Picked(layers: seq<Layer>, ids: set<string>, inside: bool): seq<Layer> {
    if layers == [] then []
    else Picked(Front(layers), ids, inside) + (if (Last(layers).id in ids) == inside then [Last(layers)] else [])
  }

  lemma {:induction false} NotOfLayer<T>(layers: seq<Layer>, check: Layer -> seq<T>, item: Item<T>)
    requires forall i :: 0 <= i < |layers| ==> layers[i].id != item.layerId
    ensures Count(Items(layers, check), item) == 0
  {
    if layers != [] {
      NotOfLayer(Front(layers), check, item);
      NotLabelled(Last(layers), check(Last(layers)), item);
    }
  }

  lemma NotLabelled<T>(layer: Layer, issues: seq<T>, item: Item<T>)
    requires layer.id != item.layerId
    ensures Count(Labelled(layer, issues), item) == 0
  {
    assert forall i :: 0 <= i < |issues| ==> Labelled(layer, issues)[i] != item;
    assert item !in Labelled(layer, issues);
  }

  /** An item is found in the layers of its own name, and only there. */
  lemma {:induction false} CountPicked<T>(
    layers: seq<Layer>, check: Layer -> seq<T>, ids: set<string>, inside: bool, item: Item<T>)
    ensures Count(Items(Picked(layers, ids, inside), check), item) ==
            if (item.layerId in ids) == inside then Count(Items(layers, check), item) else 0
  {
    if layers != [] {
      var last := Last(layers);
      CountPicked(Front(layers), check, ids, inside, item);
      CountJoin(Items(Front(layers), check), Labelled(last, check(last)), item);
      if last.id != item.layerId { NotLabelled(last, check(last), item); }
      if (last.id in ids) == inside {
        CountSnoc(Picked(Front(layers), ids, inside), last, check, item);
      } else {
        assert Picked(Front(layers), ids, inside) + [] == Picked(Front(layers), ids, inside);
      }
    }
  }

  lemma CountSnoc<T>(layers: seq<Layer>, last: Layer, check: Layer -> seq<T>, item: Item<T>)
    ensures Count(Items(layers + [last], check), item) ==
            Count(Items(layers, check), item) + Count(Labelled(last, check(last)), item)
  {
    assert Front(layers + [last]) == layers;
  }

  // ----- The cache ---------------------------------------------------------------------------------------------

  /** Items that stay in the cache: those about nothing that changed. */
  function KeptConflicts(conflicts: seq<Conflict>, axes: set<Axis>): seq<Conflict> {
    if conflicts == [] then []
    else KeptConflicts(Front(conflicts), axes) + (if Last(conflicts).axis in axes then [] else [Last(conflicts)])
  }

  function KeptItems<T>(items: seq<Item<T>>, ids: set<string>): seq<Item<T>> {
    if items == [] then []
    else KeptItems(Front(items), ids) + (if Last(items).layerId in ids then [] else [Last(items)])
  }

  lemma {:induction false} CountKeptConflicts(conflicts: seq<Conflict>, axes: set<Axis>, c: Conflict)
    ensures Count(KeptConflicts(conflicts, axes), c) == if c.axis in axes then 0 else Count(conflicts, c)
  {
    if conflicts != [] {
      CountKeptConflicts(Front(conflicts), axes, c);
      FrontAndLast(conflicts);
      CountJoin(Front(conflicts), [Last(conflicts)], c);
    }
  }

  lemma {:induction false} CountKeptItems<T>(items: seq<Item<T>>, ids: set<string>, item: Item<T>)
    ensures Count(KeptItems(items, ids), item) == if item.layerId in ids then 0 else Count(items, item)
  {
    if items != [] {
      CountKeptItems(Front(items), ids, item);
      FrontAndLast(items);
      CountJoin(Front(items), [Last(items)], item);
    }
  }

  type RangeCheck = Layer -> seq<LayerValidation.RangeIssue>

  type CurveCheck = Layer -> seq<LayerValidation.Mismatch>

  datatype Summary = Summary(
    conflicts: seq<Conflict>, warnings: seq<Item<LayerValidation.RangeIssue>>,
    mismatches: seq<Item<LayerValidation.Mismatch>>, conflictFree: bool)

  function Summarise(
    conflicts: seq<Conflict>, warnings: seq<Item<LayerValidation.RangeIssue>>,
    mismatches: seq<Item<LayerValidation.Mismatch>>): Summary
  {
    Summary(conflicts, warnings, mismatches, conflicts == [] && mismatches == [])
  }

  /** Everything worked out anew. */
  function Full(layers: seq<Layer>, ranges: RangeCheck, curves: CurveCheck): Summary {
    Summarise(ProjectConflicts(layers, None), Items(layers, ranges), Items(layers, curves))
  }

  /** What is kept, and what is worked out for the affected axes and layers. */
  function Updated(
    cached: Summary, layers: seq<Layer>, axes: set<Axis>, ids: set<string>, ranges: RangeCheck, curves: CurveCheck)
    : Summary
  {
    var targets := Picked(layers, ids, true);
    Summarise(KeptConflicts(cached.conflicts, axes) + ProjectConflicts(layers, Some(axes)),
              KeptItems(cached.warnings, ids) + Items(targets, ranges),
              KeptItems(cached.mismatches, ids) + Items(targets, curves))
  }

  class CompositionCache {
    var project: string
    var cached: Option<Summary>

    constructor ()
      ensures cached == None
    {
      project, cached := "", None;
    }

    /** `composition`: only what is affected is worked out, if there is a cache for the
        project and something is said to be affected. */
    method Compose(
      projectId: string, layers: seq<Layer>, axes: set<Axis>, ids: set<string>, ranges: RangeCheck, curves: CurveCheck)
      returns (summary: Summary)
      modifies this
      ensures project == projectId && cached == Some(summary)
      ensures summary ==
              if old(project) == projectId && old(cached).Some? && (axes != {} || ids != {})
              then Updated(old(cached).value, layers, axes, ids, ranges, curves)
              else Full(layers, ranges, curves)
    {
      var conflicts, warnings, mismatches, targets;
      if project == projectId && cached.Some? && (axes != {} || ids != {}) {
        conflicts := KeptConflicts(cached.value.conflicts, axes);
        var more := ListConflicts(layers, Some(axes));
        conflicts := conflicts + more;
        warnings := KeptItems(cached.value.warnings, ids);
        mismatches := KeptItems(cached.value.mismatches, ids);
        targets := Picked(layers, ids, true);
      } else {
        conflicts := ListConflicts(layers, None);
        warnings, mismatches, targets := [], [], layers;
      }
      var moreWarnings := CollectItems(targets, ranges);
      var moreMismatches := CollectItems(targets, curves);
      assert [] + moreWarnings == moreWarnings && [] + moreMismatches == moreMismatches;
      warnings, mismatches := warnings + moreWarnings, mismatches + moreMismatches;
      summary := Summary(conflicts, warnings, mismatches, conflicts == [] && mismatches == []);
      project, cached := projectId, Some(summary);
    }
  }

  method CollectItems<T>(layers: seq<Layer>, check: Layer -> seq<T>) returns (items: seq<Item<T>>)
    ensures items == Items(layers, check)
  {
    items := [];
    for i := 0 to |layers|
      invariant items == Items(layers[..i], check)
    {
      assert Front(layers[..i + 1]) == layers[..i];
      items := items + Labelled(layers[i], check(layers[i]));
    }
    assert layers[..|layers|] == layers;
  }

  // ----- The cache is right --------------------------------------------------------------------------------------

  /** The same entries, as often, in whatever order. */
  ghost predicate SameEntries(a: Summary, b: Summary) {
    && multiset(a.conflicts) == multiset(b.conflicts)
    && multiset(a.warnings) == multiset(b.warnings)
    && multiset(a.mismatches) == multiset(b.mismatches)
    && a.conflictFree == b.conflictFree
  }

  /** The affected axes and layers cover what changed: on every other axis the enabled
      layers are the same, and so are all other layers. */
  ghost predicate Covers(before: seq<Layer>, after: seq<Layer>, axes: set<Axis>, ids: set<string>) {
    && (forall axis :: axis !in axes ==> OnAxis(before, axis) == OnAxis(after, axis))
    && Picked(before, ids, false) == Picked(after, ids, false)
  }

  lemma SameCounts<T(!new)>(a: seq<T>, b: seq<T>)
    requires forall x :: Count(a, x) == Count(b, x)
    ensures multiset(a) == multiset(b)
  {
    forall x ensures multiset(a)[x] == multiset(b)[x] {
      assert Count(a, x) == Count(b, x);
    }
  }

  lemma {:induction false} SameEmpty<T>(a: seq<T>, b: seq<T>)
    requires multiset(a) == multiset(b)
    ensures a == [] <==> b == []
  {
    if a != [] { assert a[0] in multiset(a); }
    if b != [] { assert b[0] in multiset(b); }
  }

  lemma UpdatedConflicts(cached: seq<Conflict>, before: seq<Layer>, after: seq<Layer>, axes: set<Axis>)
    requires multiset(cached) == multiset(ProjectConflicts(before, None))
    requires forall axis :: axis !in axes ==> OnAxis(before, axis) == OnAxis(after, axis)
    ensures multiset(KeptConflicts(cached, axes) + ProjectConflicts(after, Some(axes))) ==
            multiset(ProjectConflicts(after, None))
  {
    forall c ensures Count(KeptConflicts(cached, axes) + ProjectConflicts(after, Some(axes)), c) ==
                     Count(ProjectConflicts(after, None), c)
    {
      CountJoin(KeptConflicts(cached, axes), ProjectConflicts(after, Some(axes)), c);
      CountKeptConflicts(cached, axes, c);
      SelectingFilters(after, Some(axes), c);
      SelectingFilters(after, None, c);
      if c.axis !in axes {
        ConflictsOnAxis(before, c);
        ConflictsOnAxis(after, c);
      }
    }
    SameCounts(KeptConflicts(cached, axes) + ProjectConflicts(after, Some(axes)), ProjectConflicts(after, None));
  }

  lemma UpdatedItems<T(!new)>(
    cached: seq<Item<T>>, before: seq<Layer>, after: seq<Layer>, ids: set<string>, check: Layer -> seq<T>)
    requires multiset(cached) == multiset(Items(before, check))
    requires Picked(before, ids, false) == Picked(after, ids, false)
    ensures multiset(KeptItems(cached, ids) + Items(Picked(after, ids, true), check)) == multiset(Items(after, check))
  {
    forall item: Item<T> ensures Count(KeptItems(cached, ids) + Items(Picked(after, ids, true), check), item) ==
                                 Count(Items(after, check), item)
    {
      CountJoin(KeptItems(cached, ids), Items(Picked(after, ids, true), check), item);
      CountKeptItems(cached, ids, item);
      CountPicked(after, check, ids, true, item);
      CountPicked(after, check, ids, false, item);
      CountPicked(before, check, ids, false, item);
    }
    SameCounts(KeptItems(cached, ids) + Items(Picked(after, ids, true), check), Items(after, check));
  }

  /** Brought up to date for a change that the affected axes and layers cover, the cache
      is what working everything out anew would give. */
  lemma UpdatedIsFull(
    cached: Summary, before: seq<Layer>, after: seq<Layer>, axes: set<Axis>, ids: set<string>,
    ranges: RangeCheck, curves: CurveCheck)
    requires SameEntries(cached, Full(before, ranges, curves)) && Covers(before, after, axes, ids)
    ensures SameEntries(Updated(cached, after, axes, ids, ranges, curves), Full(after, ranges, curves))
  {
    var updated, full := Updated(cached, after, axes, ids, ranges, curves), Full(after, ranges, curves);
    UpdatedConflicts(cached.conflicts, before, after, axes);
    UpdatedItems(cached.warnings, before, after, ids, ranges);
    UpdatedItems(cached.mismatches, before, after, ids, curves);
    SameEmpty(updated.conflicts, full.conflicts);
    SameEmpty(updated.mismatches, full.mismatches);
  }
}

/** A project on disk: one metadata file and one file a layer.  Every single write and
    unlink is atomic; a save is many of them, and may stop between any two. */
module ProjectStore {
  import opened MotionTypes
  import opened Timeline

  datatype Entry = Entry(id: string, file: string)

  /** An old project keeps its layers inside the metadata file. */
  datatype Meta = Whole(layers: seq<Layer>) | Split(entries: seq<Entry>)

  datatype Disk = Disk(meta: Option<Meta>, dir: bool, files: map<string, Layer>)

  /** The file name that belongs to a layer id; two ids may share one. */
  type Naming = string -> string

  // ----- Reading -----------------------------------------------------------------------------

  function LoadEntries(files: map<string, Layer>, entries: seq<Entry>): Result<seq<Layer>> {
    if entries == [] then Ok([])
    else
      var front := LoadEntries(files, Front(entries));
      var last := Last(entries);
      if front.Err? then front
      else if last.file !in files then Err("layer not found")
      else if files[last.file].id != last.id then Err("layer id mismatch")
      else Ok(front.value + [files[last.file]])
  }

  function Load(d: Disk): Result<seq<Layer>> {
    match d.meta
    case None => Err("project not found")
    case Some(Whole(layers)) => Ok(layers)
    case Some(Split(entries)) => if d.dir then LoadEntries(d.files, entries) else Err("no layer directory")
  }

  method ReadProject(d: Disk) returns (r: Result<seq<Layer>>)
    ensures r == Load(d)
  {
    if d.meta.None? {
      return Err("project not found");
    }
    if d.meta.value.Whole? {
      return Ok(d.meta.value.layers);
    }
    if !d.dir {
      return Err("no layer directory");
    }
    var entries := d.meta.value.entries;
    var layers := [];
    for i := 0 to |entries|
      invariant LoadEntries(d.files, entries[..i]) == Ok(layers)
    {
      assert Front(entries[..i + 1]) == entries[..i];
      var entry := entries[i];
      if entry.file !in d.files {
        FailureStays(d.files, entries, i + 1);
        return Err("layer not found");
      }
      if d.files[entry.file].id != entry.id {
        FailureStays(d.files, entries, i + 1);
        return Err("layer id mismatch");
      }
      layers := layers + [d.files[entry.file]];
    }
    assert entries[..|entries|] == entries;
    return Ok(layers);
  }

  lemma {:induction false} FailureStays(files: map<string, Layer>, entries: seq<Entry>, k: nat)
    requires k <= |entries| && LoadEntries(files, entries[..k]).Err?
    ensures LoadEntries(files, entries) == LoadEntries(files, entries[..k])
    decreases |entries|
  {
    if k < |entries| {
      assert Front(entries)[..k] == entries[..k];
      FailureStays(files, Front(entries), k);
    } else {
      assert entries[..k] == entries;
    }
  }

  // ----- The steps of a save --------------------------------------------------------------------

  datatype Step = MakeDirectory | Write(file: string, layer: Layer) | WriteMeta(entries: seq<Entry>) | Unlink(file: string)

  function Apply(d: Disk, step: Step): Disk {
    match step
    case MakeDirectory => d.(dir := true)
    case Write(file, layer) => d.(files := d.files[file := layer])
    case WriteMeta(entries) => d.(meta := Some(Split(entries)))
    case Unlink(file) => d.(files := d.files - {file})
  }

  function Run(d: Disk, steps: seq<Step>): Disk {
    if steps == [] then d else Apply(Run(d, Front(steps)), Last(steps))
  }

  /** Without a list of changed layers, every layer is written. */
  predicate Picked(changed: Option<set<string>>, layer: Layer) {
    changed.None? || layer.id in changed.value
  }

  function Writes(naming: Naming, layers: seq<Layer>, changed: Option<set<string>>): seq<Step> {
    if layers == [] then []
    else Writes(naming, Front(layers), changed)
         + (if Picked(changed, Last(layers)) then [Write(naming(Last(layers).id), Last(layers))] else [])
  }

  function Entries(naming: Naming, layers: seq<Layer>): (r: seq<Entry>)
    ensures |r| == |layers|
    ensures forall i :: 0 <= i < |layers| ==> r[i] == Entry(layers[i].id, naming(layers[i].id))
  {
    seq(|layers|, i requires 0 <= i < |layers| => Entry(layers[i].id, naming(layers[i].id)))
  }

  function Unlinks(files: seq<string>): (r: seq<Step>)
    ensures |r| == |files|
    ensures forall i :: 0 <= i < |files| ==> r[i] == Unlink(files[i])
  {
    seq(|files|, i requires 0 <= i < |files| => Unlink(files[i]))
  }

  function Plan(naming: Naming, layers: seq<Layer>, changed: Option<set<string>>, removed: seq<string>): seq<Step> {
    [MakeDirectory] + Writes(naming, layers, changed) + [WriteMeta(Entries(naming, layers))] + Unlinks(removed)
  }

  /** A list of changed layers only counts when the project is already split. */
  function Effective(d: Disk, changed: Option<set<string>>): Option<set<string>> {
    if d.meta.Some? && d.meta.value.Split? then changed else None
  }

  function Names(naming: Naming, layers: seq<Layer>): set<string> {
    set layer | layer in layers :: naming(layer.id)
  }

  /** What is unlinked: with a list of changed layers, the files of the deleted ones;
      otherwise every file that no layer uses. */
  function Removable(
    naming: Naming, files: map<string, Layer>, layers: seq<Layer>, changed: Option<set<string>>, deletes: set<string>)
    : set<string>
  {
    if changed.None? then files.Keys - Names(naming, layers)
    else set id | id in deletes :: naming(id)
  }

  /** The disk after the layers are written. */
  function Data(d: Disk, naming: Naming, layers: seq<Layer>, changed: Option<set<string>>): Disk {
    Run(d, [MakeDirectory] + Writes(naming, layers, changed))
  }

  ghost predicate IsRemoval(
    removed: seq<string>, d: Disk, naming: Naming, layers: seq<Layer>, changed: Option<set<string>>, deletes: set<string>)
  {
    var files := Data(d, naming, layers, changed).files;
    forall file :: file in removed <==> file in files && file in Removable(naming, files, layers, changed, deletes)
  }

  // ----- The object ---------------------------------------------------------------------------------

  class Store {
    const naming: Naming
    var disk: Disk
    /** Every state the disk has been in, oldest first. */
    ghost var history: seq<Disk>

    ghost predicate Valid()
      reads this
    {
      history != [] && Last(history) == disk
    }

    constructor (naming: Naming, disk: Disk)
      ensures Valid() && this.naming == naming && this.disk == disk && history == [disk]
    {
      this.naming, this.disk, history := naming, disk, [disk];
    }

    method Do(step: Step)
      requires Valid()
      modifies this
      ensures Valid() && Did(old(disk), old(history), [step], disk, history)
    {
      match step {
        case MakeDirectory => disk := disk.(dir := true);
        case Write(file, layer) => disk := disk.(files := disk.files[file := layer]);
        case WriteMeta(entries) => disk := disk.(meta := Some(Split(entries)));
        case Unlink(file) => disk := disk.(files := disk.files - {file});
      }
      history := history + [disk];
      OneStep(old(disk), step);
    }

    /** Writes the layers that changed, in order. */
    method WriteLayers(layers: seq<Layer>, changed: Option<set<string>>)
      requires Valid()
      modifies this
      ensures Valid() && Did(old(disk), old(history), Writes(naming, layers, changed), disk, history)
    {
      for i := 0 to |layers|
        invariant Valid() && Did(old(disk), old(history), Writes(naming, layers[..i], changed), disk, history)
      {
        assert Front(layers[..i + 1]) == layers[..i];
        ghost var done, d, h := Writes(naming, layers[..i], changed), disk, history;
        if Picked(changed, layers[i]) {
          ghost var step := Write(naming(layers[i].id), layers[i]);
          Do(Write(naming(layers[i].id), layers[i]));
          DidBoth(old(disk), old(history), done, d, h, [step], disk, history);
        } else {
          assert done + [] == done;
        }
      }
      assert layers[..|layers|] == layers;
    }

    /** Unlinks those of the candidates that are there. */
    method RemoveFiles(candidates: set<string>) returns (ghost removed: seq<string>)
      requires Valid()
      modifies this
      ensures Valid() && Did(old(disk), old(history), Unlinks(removed), disk, history)
      ensures forall file :: file in removed <==> file in old(disk).files && file in candidates
    {
      removed := [];
      var rest := candidates;
      while rest != {}
        invariant Valid() && Did(old(disk), old(history), Unlinks(removed), disk, history)
        invariant rest <= candidates
        invariant forall file :: file in removed <==> file in old(disk).files && file in candidates && file !in rest
        invariant disk.files.Keys == old(disk).files.Keys - (candidates - rest)
        decreases rest
      {
        var file :| file in rest;
        if file in disk.files {
          ghost var d, h := disk, history;
          Do(Unlink(file));
          OneStep(d, Unlink(file));
          DidBoth(old(disk), old(history), Unlinks(removed), d, h, [Unlink(file)], disk, history);
          assert Unlinks(removed + [file]) == Unlinks(removed) + [Unlink(file)];
          removed := removed + [file];
        }
        rest := rest - {file};
      }
    }

    /** Writes the directory and the layers, and says which files may go. */
    method WriteData(layers: seq<Layer>, changed: Option<set<string>>)
      requires Valid()
      modifies this
      ensures Valid() && Did(old(disk), old(history), [MakeDirectory] + Writes(naming, layers, changed), disk, history)
    {
      Do(MakeDirectory);
      ghost var d, h := disk, history;
      WriteLayers(layers, changed);
      DidBoth(old(disk), old(history), [MakeDirectory], d, h, Writes(naming, layers, changed), disk, history);
    }

    method SaveProject(layers: seq<Layer>, upserts: Option<set<string>>, deletes: set<string>)
      returns (ghost removed: seq<string>)
      requires Valid()
      modifies this
      ensures Valid()
      ensures IsRemoval(removed, old(disk), naming, layers, Effective(old(disk), upserts), deletes)
      ensures Did(old(disk), old(history), Plan(naming, layers, Effective(old(disk), upserts), removed), disk, history)
    {
      var changed := if disk.meta.Some? && disk.meta.value.Split? then upserts else None;
      WriteData(layers, changed);
      ghost var d, h := disk, history;
      var candidates := Removable(naming, disk.files, layers, changed, deletes);
      Do(WriteMeta(Entries(naming, layers)));
      ghost var first := [MakeDirectory] + Writes(naming, layers, changed);
      ghost var second := [WriteMeta(Entries(naming, layers))];
      OneStep(d, second[0]);
      DidBoth(old(disk), old(history), first, d, h, second, disk, history);
      d, h := disk, history;
      removed := RemoveFiles(candidates);
      DidBoth(old(disk), old(history), first + second, d, h, Unlinks(removed), disk, history);
    }
  }

  /** The states after each of the steps. */
  ghost function Trace(d: Disk, steps: seq<Step>): seq<Disk> {
    if steps == [] then [] else Trace(d, Front(steps)) + [Run(d, steps)]
  }

  /** The steps lead from one disk and history to another. */
  ghost predicate Did(d: Disk, history: seq<Disk>, steps: seq<Step>, after: Disk, longer: seq<Disk>) {
    after == Run(d, steps) && longer == history + Trace(d, steps)
  }

  lemma OneStep(d: Disk, step: Step)
    ensures Run(d, [step]) == Apply(d, step) && Trace(d, [step]) == [Apply(d, step)]
  {
    assert Front([step]) == [];
  }

  lemma {:induction false} MoreSteps(d: Disk, a: seq<Step>, b: seq<Step>)
    ensures Run(d, a + b) == Run(Run(d, a), b)
    ensures Trace(d, a + b) == Trace(d, a) + Trace(Run(d, a), b)
  {
    if b == [] {
      assert a + b == a;
    } else {
      MoreSteps(d, a, Front(b));
      assert Front(a + b) == a + Front(b) && Last(a + b) == Last(b);
    }
  }

  lemma DidBoth(
    d: Disk, h: seq<Disk>, a: seq<Step>, d1: Disk, h1: seq<Disk>, b: seq<Step>, d2: Disk, h2: seq<Disk>)
    requires Did(d, h, a, d1, h1) && Did(d1, h1, b, d2, h2)
    ensures Did(d, h, a + b, d2, h2)
  {
    MoreSteps(d, a, b);
  }

  lemma {:induction false} TraceIsPrefixes(d: Disk, steps: seq<Step>, k: nat)
    requires k < |steps|
    ensures |Trace(d, steps)| == |steps| && Trace(d, steps)[k] == Run(d, steps[..k + 1])
  {
    if k < |steps| - 1 {
      TraceIsPrefixes(d, Front(steps), k);
      assert Front(steps)[..k + 1] == steps[..k + 1];
    } else {
      TraceLength(d, Front(steps));
      assert steps[..k + 1] == steps;
    }
  }

  lemma {:induction false} TraceLength(d: Disk, steps: seq<Step>)
    ensures |Trace(d, steps)| == |steps|
  {
    if steps != [] {
      TraceLength(d, Front(steps));
    }
  }

  // ----- What the steps do ------------------------------------------------------------------------------

  function Lookup(files: map<string, Layer>, file: string): Option<Layer> {
    if file in files then Some(files[file]) else None
  }

  /** The last layer that is written to a file. */
  function LastWrite(naming: Naming, layers: seq<Layer>, changed: Option<set<string>>, file: string): Option<Layer> {
    if layers == [] then None
    else if Picked(changed, Last(layers)) && naming(Last(layers).id) == file then Some(Last(layers))
    else LastWrite(naming, Front(layers), changed, file)
  }

  lemma WritesSnoc(d: Disk, naming: Naming, layers: seq<Layer>, changed: Option<set<string>>)
    requires layers != []
    ensures var before := Run(d, Writes(naming, Front(layers), changed));
            Run(d, Writes(naming, layers, changed)) ==
            if Picked(changed, Last(layers)) then Apply(before, Write(naming(Last(layers).id), Last(layers))) else before
  {
    var done := Writes(naming, Front(layers), changed);
    if Picked(changed, Last(layers)) {
      assert Front(Writes(naming, layers, changed)) == done;
    } else {
      assert Writes(naming, layers, changed) == done;
    }
  }

  lemma WriteEffect(d: Disk, name: string, layer: Layer, file: string)
    ensures var after := Apply(d, Write(name, layer));
            && after.meta == d.meta && after.dir == d.dir
            && Lookup(after.files, file) == if file == name then Some(layer) else Lookup(d.files, file)
  {
  }

  lemma LastWriteSnoc(naming: Naming, layers: seq<Layer>, changed: Option<set<string>>, file: string)
    requires layers != []
    ensures LastWrite(naming, layers, changed, file) ==
            if Picked(changed, Last(layers)) && naming(Last(layers).id) == file then Some(Last(layers))
            else LastWrite(naming, Front(layers), changed, file)
  {
  }

  /** What a file holds after the layers were written to a disk. */
  ghost predicate Written(
    after: Disk, d: Disk, naming: Naming, layers: seq<Layer>, changed: Option<set<string>>, file: string)
  {
    var written := LastWrite(naming, layers, changed, file);
    && after.meta == d.meta && after.dir == d.dir
    && Lookup(after.files, file) == if written.Some? then written else Lookup(d.files, file)
  }

  lemma {:induction false} WritesEffect(d: Disk, naming: Naming, layers: seq<Layer>, changed: Option<set<string>>, file: string)
    ensures Written(Run(d, Writes(naming, layers, changed)), d, naming, layers, changed, file)
  {
    if layers != [] {
      var before, last := Run(d, Writes(naming, Front(layers), changed)), Last(layers);
      WritesEffect(d, naming, Front(layers), changed, file);
      WritesSnoc(d, naming, layers, changed);
      WriteEffect(before, naming(last.id), last, file);
      LastWriteSnoc(naming, layers, changed, file);
    }
  }

  lemma {:induction false} UnlinksEffect(d: Disk, files: seq<string>, file: string)
    ensures var after := Run(d, Unlinks(files));
            && after.meta == d.meta && after.dir == d.dir
            && Lookup(after.files, file) == if file in files then None else Lookup(d.files, file)
  {
    if files != [] {
      assert Front(Unlinks(files)) == Unlinks(Front(files)) && files == Front(files) + [Last(files)];
      UnlinksEffect(d, Front(files), file);
    }
  }

  lemma {:induction false} WrittenLayer(naming: Naming, layers: seq<Layer>, changed: Option<set<string>>, file: string)
    ensures var written := LastWrite(naming, layers, changed, file);
            && (written.Some? ==>
                  written.value in layers && Picked(changed, written.value) && naming(written.value.id) == file)
            && (written.None? ==>
                  forall layer :: layer in layers && Picked(changed, layer) ==> naming(layer.id) != file)
  {
    if layers != [] {
      assert layers == Front(layers) + [Last(layers)];
      WrittenLayer(naming, Front(layers), changed, file);
    }
  }

  // ----- When loading gives back what was saved --------------------------------------------------------------

  lemma {:induction false} LoadIsLookup(files: map<string, Layer>, naming: Naming, layers: seq<Layer>)
    ensures LoadEntries(files, Entries(naming, layers)) == Ok(layers) <==>
            forall i :: 0 <= i < |layers| ==> Lookup(files, naming(layers[i].id)) == Some(layers[i])
  {
    if layers != [] {
      var front, entries := Front(layers), Entries(naming, layers);
      assert Front(entries) == Entries(naming, front);
      LoadIsLookup(files, naming, front);
      assert layers == front + [Last(layers)];
      LoadedLength(files, Front(entries));
    }
  }

  lemma {:induction false} LoadedLength(files: map<string, Layer>, entries: seq<Entry>)
    ensures LoadEntries(files, entries).Ok? ==> |LoadEntries(files, entries).value| == |entries|
  {
    if entries != [] {
      LoadedLength(files, Front(entries));
    }
  }

  /** A written layer shares its file with no different layer; a layer that is not written
      is on disk already; no deleted layer's file is still in use. */
  ghost predicate Storable(
    d: Disk, naming: Naming, layers: seq<Layer>, changed: Option<set<string>>, deletes: set<string>)
  {
    && (forall i, j :: 0 <= i < |layers| && 0 <= j < |layers| && Picked(changed, layers[j]) ==>
          naming(layers[i].id) == naming(layers[j].id) ==> layers[i] == layers[j])
    && (forall i :: 0 <= i < |layers| ==> Picked(changed, layers[i]) || OnDisk(d, naming, layers[i]))
    && (changed.Some? ==> forall id :: id in deletes ==> naming(id) !in Names(naming, layers))
  }

  predicate OnDisk(d: Disk, naming: Naming, layer: Layer) {
    Lookup(d.files, naming(layer.id)) == Some(layer)
  }

  lemma DataEffect(d: Disk, naming: Naming, layers: seq<Layer>, changed: Option<set<string>>, file: string)
    ensures var after := Data(d, naming, layers, changed);
            var written := LastWrite(naming, layers, changed, file);
            && after.meta == d.meta && after.dir
            && Lookup(after.files, file) == if written.Some? then written else Lookup(d.files, file)
  {
    MoreSteps(d, [MakeDirectory], Writes(naming, layers, changed));
    OneStep(d, MakeDirectory);
    WritesEffect(Apply(d, MakeDirectory), naming, layers, changed, file);
  }

  /** The disk once some files have been unlinked after the metadata was written. */
  function Settled(
    d: Disk, naming: Naming, layers: seq<Layer>, changed: Option<set<string>>, removed: seq<string>): Disk
  {
    Run(d, Plan(naming, layers, changed, removed))
  }

  lemma SettledEffect(
    d: Disk, naming: Naming, layers: seq<Layer>, changed: Option<set<string>>, removed: seq<string>, file: string)
    ensures var after := Settled(d, naming, layers, changed, removed);
            && after.meta == Some(Split(Entries(naming, layers))) && after.dir
            && Lookup(after.files, file) ==
               if file in removed then None else Lookup(Data(d, naming, layers, changed).files, file)
  {
    var first := [MakeDirectory] + Writes(naming, layers, changed);
    var meta := [WriteMeta(Entries(naming, layers))];
    MoreSteps(d, first, meta);
    OneStep(Run(d, first), meta[0]);
    MoreSteps(d, first + meta, Unlinks(removed));
    DataEffect(d, naming, layers, changed, file);
    UnlinksEffect(Run(d, first + meta), removed, file);
  }

  /** After a full save a file is there exactly if some layer is stored in it. */
  lemma FullSaveCleans(
    d: Disk, naming: Naming, layers: seq<Layer>, deletes: set<string>, removed: seq<string>, file: string)
    requires IsRemoval(removed, d, naming, layers, None, deletes)
    ensures file in Settled(d, naming, layers, None, removed).files <==>
            exists i :: 0 <= i < |layers| && naming(layers[i].id) == file
  {
    SettledEffect(d, naming, layers, None, removed, file);
    DataEffect(d, naming, layers, None, file);
    WrittenLayer(naming, layers, None, file);
    if i :| 0 <= i < |layers| && naming(layers[i].id) == file { assert layers[i] in layers && file in Names(naming, layers); }
    if file in Names(naming, layers) {
      var layer :| layer in layers && naming(layer.id) == file;
      var i :| 0 <= i < |layers| && layers[i] == layer;
    }
  }

  /** After a save of changed layers a file is there exactly if it was, or was written, and
      belongs to no deleted layer. */
  lemma ChangedSaveKeeps(
    d: Disk, naming: Naming, layers: seq<Layer>, changed: set<string>, deletes: set<string>, removed: seq<string>,
    file: string)
    requires IsRemoval(removed, d, naming, layers, Some(changed), deletes)
    ensures file in Settled(d, naming, layers, Some(changed), removed).files <==>
            && (file in d.files || exists i :: 0 <= i < |layers| && layers[i].id in changed && naming(layers[i].id) == file)
            && forall id :: id in deletes ==> naming(id) != file
  {
    SettledEffect(d, naming, layers, Some(changed), removed, file);
    DataEffect(d, naming, layers, Some(changed), file);
    WrittenLayer(naming, layers, Some(changed), file);
  }

  /** What loading needs of one layer. */
  lemma LayerIsSaved(
    d: Disk, naming: Naming, layers: seq<Layer>, changed: Option<set<string>>, deletes: set<string>,
    removed: seq<string>, layer: Layer)
    requires layer in layers && Storable(d, naming, layers, changed, deletes)
    requires forall file :: file in removed ==>
               file in Removable(naming, Data(d, naming, layers, changed).files, layers, changed, deletes)
    ensures Lookup(Settled(d, naming, layers, changed, removed).files, naming(layer.id)) == Some(layer)
  {
    var file := naming(layer.id);
    SettledEffect(d, naming, layers, changed, removed, file);
    DataEffect(d, naming, layers, changed, file);
    WrittenLayer(naming, layers, changed, file);
    assert file in Names(naming, layers);
    assert file !in removed;
  }

  /** Once the metadata is written, and after every unlink that follows, loading gives
      exactly the saved layers, in order. */
  lemma LoadsWhatWasSaved(
    d: Disk, naming: Naming, layers: seq<Layer>, changed: Option<set<string>>, deletes: set<string>,
    removed: seq<string>)
    requires Storable(d, naming, layers, changed, deletes)
    requires forall file :: file in removed ==>
               file in Removable(naming, Data(d, naming, layers, changed).files, layers, changed, deletes)
    ensures Load(Settled(d, naming, layers, changed, removed)) == Ok(layers)
  {
    SettledEffect(d, naming, layers, changed, removed, "");
    forall i | 0 <= i < |layers|
      ensures Lookup(Settled(d, naming, layers, changed, removed).files, naming(layers[i].id)) == Some(layers[i])
    {
      LayerIsSaved(d, naming, layers, changed, deletes, removed, layers[i]);
    }
    LoadIsLookup(Settled(d, naming, layers, changed, removed).files, naming, layers);
  }

  /** A finished save loads back as what was saved exactly when the layers were storable:
      unlinking does not ask whether a saved layer still uses the file. */
  lemma SavedExactlyWhenStorable(
    d: Disk, naming: Naming, layers: seq<Layer>, changed: Option<set<string>>, deletes: set<string>,
    removed: seq<string>)
    requires IsRemoval(removed, d, naming, layers, changed, deletes)
    ensures Load(Settled(d, naming, layers, changed, removed)) == Ok(layers) <==>
            Storable(d, naming, layers, changed, deletes)
  {
    if Storable(d, naming, layers, changed, deletes) {
      LoadsWhatWasSaved(d, naming, layers, changed, deletes, removed);
    }
    if Load(Settled(d, naming, layers, changed, removed)) == Ok(layers) {
      var files := Settled(d, naming, layers, changed, removed).files;
      SettledEffect(d, naming, layers, changed, removed, "");
      LoadIsLookup(files, naming, layers);
      forall i | 0 <= i < |layers|
        ensures Lookup(files, naming(layers[i].id)) == Some(layers[i])
        ensures Picked(changed, layers[i]) || OnDisk(d, naming, layers[i])
      {
        LoadedLayer(d, naming, layers, changed, removed, i);
      }
      if changed.Some? {
        NothingInUseRemoved(d, naming, layers, changed, deletes, removed);
      }
    }
  }

  lemma LoadedLayer(
    d: Disk, naming: Naming, layers: seq<Layer>, changed: Option<set<string>>, removed: seq<string>, i: nat)
    requires i < |layers|
    requires Lookup(Settled(d, naming, layers, changed, removed).files, naming(layers[i].id)) == Some(layers[i])
    ensures Picked(changed, layers[i]) || OnDisk(d, naming, layers[i])
  {
    var file := naming(layers[i].id);
    SettledEffect(d, naming, layers, changed, removed, file);
    DataEffect(d, naming, layers, changed, file);
    WrittenLayer(naming, layers, changed, file);
  }

  lemma NothingInUseRemoved(
    d: Disk, naming: Naming, layers: seq<Layer>, changed: Option<set<string>>, deletes: set<string>,
    removed: seq<string>)
    requires IsRemoval(removed, d, naming, layers, changed, deletes) && changed.Some?
    requires forall i :: 0 <= i < |layers| ==>
               Lookup(Settled(d, naming, layers, changed, removed).files, naming(layers[i].id)) == Some(layers[i])
    ensures forall id :: id in deletes ==> naming(id) !in Names(naming, layers)
  {
    forall id, i | id in deletes && 0 <= i < |layers| ensures naming(layers[i].id) != naming(id) {
      SettledEffect(d, naming, layers, changed, removed, naming(layers[i].id));
      assert Lookup(Data(d, naming, layers, changed).files, naming(layers[i].id)).Some?;
    }
  }

  // ----- Stopping in between ----------------------------------------------------------------------------------

  /** Every old layer is still there, or its new version is. */
  ghost predicate Mixture(loaded: seq<Layer>, before: seq<Layer>, layers: seq<Layer>) {
    && |loaded| == |before|
    && forall i :: 0 <= i < |before| ==> OldOrNew(loaded[i], before[i], layers)
  }

  ghost predicate OldOrNew(loaded: Layer, before: Layer, layers: seq<Layer>) {
    loaded == before || (loaded.id == before.id && loaded in layers)
  }

  /** No saved layer uses the file of another layer that the disk has. */
  ghost predicate NamesAgree(d: Disk, naming: Naming, layers: seq<Layer>) {
    d.meta.Some? && d.meta.value.Split? ==>
      forall layer, entry :: layer in layers && entry in d.meta.value.entries && naming(layer.id) == entry.file ==>
        layer.id == entry.id
  }

  /** Each file is as before, or holds the layer that belongs there. */
  ghost predicate Overwritten(files: map<string, Layer>, before: map<string, Layer>, naming: Naming, layers: seq<Layer>) {
    forall file :: FileOk(files, before, naming, layers, file)
  }

  ghost predicate FileOk(
    files: map<string, Layer>, before: map<string, Layer>, naming: Naming, layers: seq<Layer>, file: string)
  {
    || Lookup(files, file) == Lookup(before, file)
    || (file in files && files[file] in layers && naming(files[file].id) == file)
  }

  lemma {:induction false} OverwrittenLoads(
    files: map<string, Layer>, before: map<string, Layer>, naming: Naming, layers: seq<Layer>, entries: seq<Entry>)
    requires Overwritten(files, before, naming, layers) && LoadEntries(before, entries).Ok?
    requires forall layer, entry :: layer in layers && entry in entries && naming(layer.id) == entry.file ==>
               layer.id == entry.id
    ensures LoadEntries(files, entries).Ok?
    ensures Mixture(LoadEntries(files, entries).value, LoadEntries(before, entries).value, layers)
  {
    if entries != [] {
      var last := Last(entries);
      OverwrittenLoads(files, before, naming, layers, Front(entries));
      assert last in entries && FileOk(files, before, naming, layers, last.file);
      assert OldOrNew(files[last.file], before[last.file], layers);
    }
  }

  /** Before the metadata is written, the project loads, each layer old or new. */
  lemma StoppedWhileWriting(
    d: Disk, naming: Naming, layers: seq<Layer>, changed: Option<set<string>>, m: nat)
    requires m <= |layers| && Load(d).Ok? && NamesAgree(d, naming, layers)
    ensures Load(Data(d, naming, layers[..m], changed)).Ok?
    ensures Mixture(Load(Data(d, naming, layers[..m], changed)).value, Load(d).value, layers)
  {
    var after := Data(d, naming, layers[..m], changed);
    DataEffect(d, naming, layers[..m], changed, "");
    if d.meta.value.Split? {
      forall file ensures FileOk(after.files, d.files, naming, layers, file) {
        DataEffect(d, naming, layers[..m], changed, file);
        WrittenLayer(naming, layers[..m], changed, file);
      }
      OverwrittenLoads(after.files, d.files, naming, layers, d.meta.value.entries);
    }
  }

  /** The steps of a save, cut anywhere: nothing yet, some layers written, or the metadata
      written and some files unlinked. */
  lemma CutPlan(
    naming: Naming, layers: seq<Layer>, changed: Option<set<string>>, removed: seq<string>, k: nat)
    returns (m: nat, n: nat)
    requires 0 < k <= |Plan(naming, layers, changed, removed)|
    ensures m <= |layers| && n <= |removed|
    ensures var cut := Plan(naming, layers, changed, removed)[..k];
            || cut == [MakeDirectory] + Writes(naming, layers[..m], changed)
            || cut == Plan(naming, layers, changed, removed[..n])
  {
    var writes := Writes(naming, layers, changed);
    var plan := Plan(naming, layers, changed, removed);
    if k <= |writes| + 1 {
      m := CutWrites(naming, layers, changed, k - 1);
      n := 0;
      assert plan[..k] == [MakeDirectory] + writes[..k - 1];
    } else {
      m, n := 0, k - |writes| - 2;
      assert Unlinks(removed)[..n] == Unlinks(removed[..n]);
      assert plan[..k] == [MakeDirectory] + writes + [WriteMeta(Entries(naming, layers))] + Unlinks(removed)[..n];
    }
  }

  lemma {:induction false} CutWrites(naming: Naming, layers: seq<Layer>, changed: Option<set<string>>, k: nat)
    returns (m: nat)
    requires k <= |Writes(naming, layers, changed)|
    ensures m <= |layers| && Writes(naming, layers, changed)[..k] == Writes(naming, layers[..m], changed)
  {
    if k == |Writes(naming, layers, changed)| {
      m := |layers|;
      assert layers[..m] == layers;
    } else {
      m := CutWrites(naming, Front(layers), changed, k);
      assert Front(layers)[..m] == layers[..m];
    }
  }

  /** A save that stops after any number of steps leaves a project that loads: as it was,
      each layer old or new, or exactly as it is being saved. */
  lemma EveryStopLoads(
    d: Disk, naming: Naming, layers: seq<Layer>, changed: Option<set<string>>, deletes: set<string>,
    removed: seq<string>, k: nat)
    requires k <= |Plan(naming, layers, changed, removed)|
    requires IsRemoval(removed, d, naming, layers, changed, deletes)
    requires Storable(d, naming, layers, changed, deletes) && NamesAgree(d, naming, layers) && Load(d).Ok?
    ensures var loaded := Load(Run(d, Plan(naming, layers, changed, removed)[..k]));
            loaded == Ok(layers) || (loaded.Ok? && Mixture(loaded.value, Load(d).value, layers))
  {
    if k > 0 {
      var m, n := CutPlan(naming, layers, changed, removed, k);
      StoppedWhileWriting(d, naming, layers, changed, m);
      assert forall file :: file in removed[..n] ==> file in removed;
      LoadsWhatWasSaved(d, naming, layers, changed, deletes, removed[..n]);
    }
  }

  /** Saving the changed layers alone leaves the same project as saving them all. */
  lemma IncrementalRefinesFull(
    d: Disk, naming: Naming, layers: seq<Layer>, changed: set<string>, deletes: set<string>,
    removed: seq<string>, others: seq<string>)
    requires Storable(d, naming, layers, Some(changed), deletes)
    requires IsRemoval(removed, d, naming, layers, Some(changed), deletes)
    requires IsRemoval(others, d, naming, layers, None, {})
    ensures Storable(d, naming, layers, None, {})
    ensures Load(Settled(d, naming, layers, Some(changed), removed)) ==
            Load(Settled(d, naming, layers, None, others)) == Ok(layers)
  {
    LoadsWhatWasSaved(d, naming, layers, Some(changed), deletes, removed);
    LoadsWhatWasSaved(d, naming, layers, None, {}, others);
  }
}

/** What rendering a project gives, told of its layers alone: when it is refused, how long
    the motion lasts, and which axes every frame has. */
module RenderedProject {
  import opened MotionTypes
  import opened Sorting
  import opened Timeline
  import opened LayerConflicts
  import opened Rendering
  import LayerMerging = Merging

  /** Two enabled layers have a value for one axis at one tick. */
  ghost predicate Shared(layers: seq<Layer>, i: nat, j: nat, axis: Axis, tick: nat) {
    && i < j < |layers| && layers[i].enabled && layers[j].enabled
    && FirstAt(layers[i].frames, axis, tick).Some? && FirstAt(layers[j].frames, axis, tick).Some?
  }

  /** The axis is asked for, or none is and an enabled layer has it. */
  ghost predicate Moves(layers: seq<Layer>, motionIds: set<Axis>, axis: Axis) {
    if motionIds != {} then axis in motionIds
    else exists layer :: layer in layers && layer.enabled && axis in AxesOf(layer.frames)
  }

  /** An enabled layer has a frame that late. */
  ghost predicate LastsTo(layers: seq<Layer>, tick: nat) {
    exists layer, frame :: layer in layers && layer.enabled && frame in layer.frames && frame.tick >= tick
  }

  /** No tick is shared. */
  ghost predicate NoneShared(layers: seq<Layer>) {
    forall i: nat, j: nat, axis, tick :: !Shared(layers, i, j, axis, tick)
  }

  /** The layer never clashes with any enabled one of these. */
  ghost predicate Clear(layer: Layer, others: seq<Layer>) {
    forall other, axis :: other in others && other.enabled ==> NeverClash(layer, other, axis)
  }

  lemma {:induction false} DisjointStep(layer: Layer, rest: seq<Layer>)
    requires forall i :: 0 <= i < |rest| ==> rest[i].enabled
    ensures Disjoint([layer] + rest) <==> Disjoint(rest) && Clear(layer, rest)
  {
    var all := [layer] + rest;
    if Disjoint(all) {
      forall i, j, axis | 0 <= i < j < |rest| ensures NeverClash(rest[i], rest[j], axis) {
        assert NeverClash(all[i + 1], all[j + 1], axis);
      }
      forall other, axis | other in rest && other.enabled ensures NeverClash(layer, other, axis) {
        var n :| 0 <= n < |rest| && rest[n] == other;
        assert NeverClash(all[0], all[n + 1], axis);
      }
    }
    if Disjoint(rest) && Clear(layer, rest) {
      forall i, j, axis | 0 <= i < j < |all| ensures NeverClash(all[i], all[j], axis) {
        assert all[j] == rest[j - 1] && rest[j - 1] in rest;
        assert i > 0 ==> NeverClash(rest[i - 1], rest[j - 1], axis);
      }
    }
  }

  lemma {:induction false} SharedLater(layers: seq<Layer>)
    requires layers != [] && NoneShared(layers)
    ensures NoneShared(layers[1..])
    ensures layers[0].enabled ==> Clear(layers[0], layers[1..])
  {
    forall i: nat, j: nat, axis, tick ensures !Shared(layers[1..], i, j, axis, tick) {
      assert !Shared(layers, i + 1, j + 1, axis, tick);
    }
    if layers[0].enabled {
      forall other, axis | other in layers[1..] && other.enabled ensures NeverClash(layers[0], other, axis) {
        var n :| 0 <= n < |layers[1..]| && layers[1..][n] == other;
        forall tick ensures !Clash(layers[0], other, axis, tick) {
          assert !Shared(layers, 0, n + 1, axis, tick);
        }
      }
    }
  }

  lemma {:induction false} SharedStep(layers: seq<Layer>)
    requires layers != [] && NoneShared(layers[1..])
    requires layers[0].enabled ==> Clear(layers[0], layers[1..])
    ensures NoneShared(layers)
  {
    forall i: nat, j: nat, axis, tick ensures !Shared(layers, i, j, axis, tick) {
      if i < j < |layers| && layers[i].enabled && layers[j].enabled {
        var other := layers[1..][j - 1];
        assert other in layers[1..] && other == layers[j];
        if i == 0 {
          assert NeverClash(layers[0], other, axis);
          assert !Clash(layers[0], other, axis, tick);
        } else {
          assert layers[1..][i - 1] == layers[i];
          assert !Shared(layers[1..], i - 1, j - 1, axis, tick);
        }
      }
    }
  }

  lemma {:induction false} EnabledShared(layers: seq<Layer>)
    ensures Disjoint(Enabled(layers)) <==> NoneShared(layers)
  {
    if layers != [] {
      var rest := Enabled(layers[1..]);
      EnabledShared(layers[1..]);
      forall i | 0 <= i < |rest| ensures rest[i].enabled { assert rest[i] in rest; }
      DisjointStep(layers[0], rest);
      if NoneShared(layers) { SharedLater(layers); }
      if NoneShared(layers[1..]) && (layers[0].enabled ==> Clear(layers[0], layers[1..])) { SharedStep(layers); }
      assert Clear(layers[0], rest) <==> Clear(layers[0], layers[1..]);
      assert Enabled(layers) == (if layers[0].enabled then [layers[0]] + rest else rest);
    }
  }

  lemma {:induction false} LastTickIsOne(frames: seq<Frame>)
    ensures LastTick(frames) == 0 || exists frame :: frame in frames && frame.tick == LastTick(frames)
  {
    if frames != [] {
      LastTickIsOne(Front(frames));
      FrontAndLast(frames);
    }
  }

  lemma {:induction false} DurationTells(layers: seq<Layer>, tick: nat)
    requires tick > 0
    ensures Duration(Enabled(layers)) >= tick <==> LastsTo(layers, tick)
  {
    var on := Enabled(layers);
    DurationBound(on);
    if LastsTo(layers, tick) {
      var layer, frame :| layer in layers && layer.enabled && frame in layer.frames && frame.tick >= tick;
      assert layer in on;
      LayerMerging.LastTickCovers(layer.frames, frame);
    }
    if Duration(on) >= tick {
      var i :| 0 <= i < |on| && LastTick(on[i].frames) == Duration(on);
      assert on[i] in on;
      LastTickIsOne(on[i].frames);
    }
  }

  lemma {:induction false} SelectedMoves(layers: seq<Layer>, motionIds: set<Axis>)
    ensures forall axis :: axis in Selected(layers, motionIds) <==> Moves(layers, motionIds, axis)
  {}

  /** Rendering is refused exactly when something moves and two enabled layers share a tick. */
  lemma {:induction false} RenderingRefuses(layers: seq<Layer>, motionIds: set<Axis>, manual: map<Axis, real>)
    ensures Rendered(layers, motionIds, manual).Err? <==>
            && (exists axis :: Moves(layers, motionIds, axis))
            && (exists i: nat, j: nat, axis, tick :: Shared(layers, i, j, axis, tick))
  {
    SelectedMoves(layers, motionIds);
    NoConflictsMeansConflictFree(layers);
    EnabledShared(layers);
    if axis :| Moves(layers, motionIds, axis) { assert axis in Selected(layers, motionIds); }
  }

  /** The frames run from tick 1 to the last tick of any enabled layer; each has every axis
      that moves, and no other, where the motion of the layers has it. */
  lemma {:induction false} RenderingGives(
    layers: seq<Layer>, motionIds: set<Axis>, manual: map<Axis, real>, k: nat, axis: Axis)
    requires Rendered(layers, motionIds, manual).Ok?
    ensures var frames := Rendered(layers, motionIds, manual).value;
            && (k < |frames| <==> (exists a :: Moves(layers, motionIds, a)) && (k == 0 || LastsTo(layers, k + 1)))
            && (k < |frames| ==>
                  && frames[k].tick == k + 1
                  && (axis in frames[k].values <==> Moves(layers, motionIds, axis))
                  && (axis in frames[k].values ==>
                        frames[k].values[axis] ==
                          Motion(SupplyOf(Enabled(layers), axis), InitialOf(manual, axis), k + 1)))
  {
    SelectedMoves(layers, motionIds);
    if a :| Moves(layers, motionIds, a) {
      assert a in Selected(layers, motionIds);
      DurationTells(layers, k + 1);
      NoConflictsMeansConflictFree(layers);
      RenderedIsMotion(Enabled(layers), manual, axis, k + 1);
    } else {
      assert Selected(layers, motionIds) == {};
    }
  }
}

/** Taking out of a fitting curve every point that it can do without. */
module Pruning {
  import opened MotionTypes
  import opened Sorting
  import opened Timeline
  import opened CurveEngine
  import opened ChordSelection
  import opened FitErrors
  import opened SliceCheck

  /** Part of a list, in the same order. */
  ghost predicate Thinner(part: seq<nat>, whole: seq<nat>) {
    |part| <= |whole| && forall x :: x in part ==> x in whole
  }

  function Without(kept: seq<nat>, slot: nat): seq<nat>
    requires slot < |kept|
  {
    kept[..slot] + kept[slot + 1..]
  }

  lemma {:induction false} DropNothing(kept: seq<nat>, dropping: set<nat>)
    requires forall i :: 0 <= i < |kept| ==> kept[i] !in dropping
    ensures Drop(kept, dropping) == kept && Slots(kept, dropping) == []
  {
    if kept != [] {
      DropNothing(Front(kept), dropping);
      FrontAndLast(kept);
    }
  }

  /** Dropping one point by its number leaves the same trial and slot as taking it out of
      its place. */
  lemma {:induction false} DropOne(kept: seq<nat>, slot: nat)
    requires Increasing(kept) && slot < |kept|
    ensures Drop(kept, {kept[slot]}) == Without(kept, slot) && Slots(kept, {kept[slot]}) == [slot]
  {
    var front := Front(kept);
    if slot == |front| {
      DropNothing(front, {kept[slot]});
    } else {
      DropOne(front, slot);
      assert Last(kept) !in {kept[slot]};
      assert Without(kept, slot) == Without(front, slot) + [Last(kept)];
    }
  }

  lemma {:induction false} DropLength(kept: seq<nat>, dropping: set<nat>)
    ensures |Drop(kept, dropping)| <= |kept|
    ensures (exists i :: 0 <= i < |kept| && kept[i] in dropping) ==> |Drop(kept, dropping)| < |kept|
  {
    if kept != [] {
      DropLength(Front(kept), dropping);
    }
  }

  // ----- Which points to try first ---------------------------------------------------------------

  type Cost = (real, nat)

  function CostLeq(): (Cost, Cost) -> bool {
    (a: Cost, b: Cost) => a.0 < b.0 || (a.0 == b.0 && a.1 <= b.1)
  }

  function Costs(error: ErrorOf, kept: seq<nat>): (r: seq<Cost>)
    requires |kept| > 2
    ensures |r| == |kept| - 2
    ensures forall i :: 0 <= i < |r| ==> r[i].1 == kept[i + 1]
  {
    seq(|kept| - 2, i requires 0 <= i < |kept| - 2 => (error(kept[i + 1], kept[i], kept[i + 2]), kept[i + 1]))
  }

  function SlotOf(kept: seq<nat>, x: nat): (slot: nat)
    requires x in kept
    ensures slot < |kept| && kept[slot] == x
  {
    if kept[0] == x then 0 else 1 + SlotOf(kept[1..], x)
  }

  predicate Apart(s: int, t: int) { s + 1 < t || t + 1 < s }

  /** Some inner points, no two of them neighbours, with their places. */
  ghost predicate Group(kept: seq<nat>, group: seq<nat>, slots: seq<nat>) {
    && |slots| == |group|
    && (forall i :: 0 <= i < |slots| ==> 0 < slots[i] < |kept| - 1 && group[i] == kept[slots[i]])
    && (forall i, j :: 0 <= i < j < |slots| ==> Apart(slots[i], slots[j]))
  }

  /** The places that a group and its neighbours take up. */
  ghost predicate Blocked(slots: seq<nat>, blocked: set<int>) {
    forall i :: 0 <= i < |slots| ==> Takes(blocked, slots[i])
  }

  ghost predicate Takes(blocked: set<int>, slot: int) {
    slot - 1 in blocked && slot in blocked && slot + 1 in blocked
  }

  /** Takes the cheapest points, and leaves out the neighbours of those taken. */
  method PickGroup(error: ErrorOf, kept: seq<nat>) returns (group: seq<nat>, ghost slots: seq<nat>)
    requires Increasing(kept) && |kept| > 2
    ensures Group(kept, group, slots) && group != [] && |group| <= |kept| - 2
  {
    var ranked := Sort(Costs(error, kept), CostLeq());
    group, slots := [], [];
    var blocked: set<int> := {};
    for k := 0 to |ranked|
      invariant Group(kept, group, slots) && Blocked(slots, blocked)
      invariant k == 0 ==> blocked == {}
      invariant k > 0 ==> group != []
      invariant |group| <= k
    {
      ghost var i := RankedInside(error, kept, ranked, k);
      var slot := SlotOf(kept, ranked[k].1);
      SameIndex(kept, i, slot);
      if slot !in blocked {
        OneMoreInGroup(kept, group, slots, blocked, slot);
        group := group + [ranked[k].1];
        slots := slots + [slot];
        blocked := blocked + {slot - 1, slot, slot + 1};
      }
    }
  }

  lemma OneMoreInGroup(kept: seq<nat>, group: seq<nat>, slots: seq<nat>, blocked: set<int>, slot: nat)
    requires Group(kept, group, slots) && Blocked(slots, blocked) && 0 < slot < |kept| - 1 && slot !in blocked
    ensures Group(kept, group + [kept[slot]], slots + [slot])
    ensures Blocked(slots + [slot], blocked + {slot - 1, slot, slot + 1})
  {}

  lemma RankedInside(error: ErrorOf, kept: seq<nat>, ranked: seq<Cost>, k: nat) returns (i: nat)
    requires |kept| > 2 && ranked == Sort(Costs(error, kept), CostLeq()) && k < |ranked|
    ensures 0 < i < |kept| - 1 && kept[i] == ranked[k].1 && ranked[k].1 in kept
  {
    var costs := Costs(error, kept);
    assert ranked[k] in ranked && ranked[k] in costs;
    var c :| 0 <= c < |costs| && costs[c] == ranked[k];
    i := c + 1;
    assert kept[i] in kept;
  }

  // ----- Trying ------------------------------------------------------------------------------------

  /** A selection whose curve is within the tolerance. */
  ghost predicate Fitting(
    ordered: seq<Point>, mode: TangentMode, shape: Shape, tolerance: real, kept: seq<nat>)
  {
    Keeps(ordered, kept) && Fits(ordered, PointsAt(ordered, mode, kept), shape, tolerance)
  }

  /** No single inner point can be taken out. */
  ghost predicate OneMinimal(
    ordered: seq<Point>, mode: TangentMode, shape: Shape, tolerance: real, kept: seq<nat>)
  {
    Stuck(ordered, mode, shape, tolerance, kept, |kept| - 1)
  }

  /** Nor can any of the points before a place. */
  ghost predicate Stuck(
    ordered: seq<Point>, mode: TangentMode, shape: Shape, tolerance: real, kept: seq<nat>, end: int)
  {
    forall slot :: 0 < slot < end ==> !FittingWithout(ordered, mode, shape, tolerance, kept, slot)
  }

  ghost predicate FittingWithout(
    ordered: seq<Point>, mode: TangentMode, shape: Shape, tolerance: real, kept: seq<nat>, slot: int)
  {
    0 < slot < |kept| - 1 && Fitting(ordered, mode, shape, tolerance, Without(kept, slot))
  }

  // ----- What cannot be pruned --------------------------------------------------------------------------

  /** Some inner points, no two of them neighbours. */
  ghost predicate Scattered(kept: seq<nat>, dropping: set<nat>) {
    && dropping != {} && (forall x :: x in dropping ==> x in kept && x != kept[0] && x != kept[|kept| - 1])
    && forall i: nat :: i + 1 < |kept| ==> !(kept[i] in dropping && kept[i + 1] in dropping)
  }

  /** No scattered points can be taken out together. */
  ghost predicate Rigid(ordered: seq<Point>, mode: TangentMode, shape: Shape, tolerance: real, kept: seq<nat>) {
    forall dropping :: Scattered(kept, dropping) ==> !Fitting(ordered, mode, shape, tolerance, Drop(kept, dropping))
  }

  lemma GroupScattered(kept: seq<nat>, group: seq<nat>, slots: seq<nat>, dropping: set<nat>)
    requires Increasing(kept) && Group(kept, group, slots) && dropping != {} && forall x :: x in dropping ==> x in group
    ensures Scattered(kept, dropping)
  {
    forall x | x in dropping ensures x in kept && x != kept[0] && x != kept[|kept| - 1] {
      var i :| 0 <= i < |group| && group[i] == x;
    }
    forall i: nat | i + 1 < |kept| ensures !(kept[i] in dropping && kept[i + 1] in dropping) {
      if kept[i] in dropping && kept[i + 1] in dropping {
        var a :| 0 <= a < |group| && group[a] == kept[i];
        var b :| 0 <= b < |group| && group[b] == kept[i + 1];
        SameIndex(kept, slots[a], i);
        SameIndex(kept, slots[b], i + 1);
      }
    }
  }

  lemma RigidIsMinimal(
    ordered: seq<Point>, mode: TangentMode, shape: Shape, tolerance: real, kept: seq<nat>, slot: int)
    requires Increasing(kept) && Rigid(ordered, mode, shape, tolerance, kept)
    ensures !FittingWithout(ordered, mode, shape, tolerance, kept, slot)
  {
    if 0 < slot < |kept| - 1 {
      DropOne(kept, slot);
      assert Scattered(kept, {kept[slot]});
    }
  }

  /** No part of the group can be dropped. */
  ghost predicate Hopeless(
    ordered: seq<Point>, mode: TangentMode, shape: Shape, tolerance: real, kept: seq<nat>, group: seq<nat>)
  {
    forall dropping: set<nat> :: dropping != {} && (forall x :: x in dropping ==> x in group) ==>
      !Fitting(ordered, mode, shape, tolerance, Drop(kept, dropping))
  }

  lemma HopelessParts(
    ordered: seq<Point>, mode: TangentMode, shape: Shape, tolerance: real, kept: seq<nat>, group: seq<nat>, k: nat)
    requires k <= |group|
    ensures Hopeless(ordered, mode, shape, tolerance, kept, group) ==>
              && Hopeless(ordered, mode, shape, tolerance, kept, group[..k])
              && Hopeless(ordered, mode, shape, tolerance, kept, group[k..])
  {
    forall x ensures x in group[..k] || x in group[k..] ==> x in group {}
  }

  /** How many attempts a fit of so many samples has. */
  function Attempts(samples: nat): nat
    requires samples > 0
  {
    if 6_000_000 / samples > 400 then 6_000_000 / samples else 400
  }

  /** How many attempts a group takes at most: itself, and both halves. */
  function GroupTries(size: nat): nat { if size == 0 then 1 else 2 * size - 1 }

  /** How many attempts pruning takes at most. */
  function PruneTries(size: nat): nat { if size <= 2 then 0 else PruneTries(size - 1) + 3 * (size - 2) }

  lemma {:induction false} MoreTries(less: nat, more: nat)
    requires less < more && more > 2
    ensures PruneTries(less) + 3 * (more - 2) <= PruneTries(more)
  {
    if less < more - 1 && more > 3 {
      MoreTries(less, more - 1);
    }
  }

  /** What the stages of a fit share. */
  class FitContext {
    const ordered: seq<Point>
    const tolerance: real
    const order: int
    const limit: nat
    const steps: map<nat, nat>
    ghost const shape: Shape
    var attempts: nat

    ghost predicate Valid() {
      Recording(ordered) && StepsOf(steps, ordered) && IsOrder(order) && Draws(shape, order)
    }

    constructor (ordered: seq<Point>, tolerance: real, order: int, limit: nat, steps: map<nat, nat>)
      requires Recording(ordered) && IsOrder(order) && StepsOf(steps, ordered)
      ensures Valid()
      ensures this.ordered == ordered && this.tolerance == tolerance && this.order == order
      ensures this.limit == limit && shape == RawShape(order)
      ensures attempts == Attempts(|ordered|)
    {
      this.ordered, this.tolerance, this.order, this.limit, this.steps := ordered, tolerance, order, limit, steps;
      shape := RawShape(order);
      attempts := Attempts(|ordered|);
      OrderDraws(order);
    }

    function Mode(): TangentMode { FitMode(order) }

    ghost predicate IsFitting(kept: seq<nat>) { Fitting(ordered, Mode(), shape, tolerance, kept) }

    /** Drops some inner points, and looks at the slices around them. */
    method TryDropping(kept: seq<nat>, dropping: set<nat>) returns (ok: bool, trial: seq<nat>)
      requires Valid() && IsFitting(kept) && 0 !in dropping && |ordered| - 1 !in dropping
      ensures trial == Drop(kept, dropping)
      ensures ok <==> IsFitting(trial)
    {
      var slots;
      trial, slots := SplitKept(kept, dropping);
      DroppedKeeps(ordered, kept, dropping);
      KeptCovers(ordered, Mode(), trial);
      ghost var windows;
      ok, windows := WithinSlices(ordered, steps, PointsAt(ordered, Mode(), trial), order, shape, tolerance, slots);
      SlicesTellAll(ordered, Mode(), shape, kept, dropping, tolerance, windows);
    }

    /** Tries to drop a whole group; if that fails, each half of it. */
    method DropGroup(kept: seq<nat>, group: seq<nat>) returns (r: Option<seq<nat>>)
      requires Valid() && IsFitting(kept)
      requires forall i :: 0 <= i < |group| ==> 0 < group[i] < |ordered| - 1
      modifies this`attempts
      ensures attempts <= old(attempts) <= attempts + GroupTries(|group|)
      ensures r.Some? ==> IsFitting(r.value) && Thinner(r.value, kept)
      ensures r.Some? ==> forall x :: x in kept && x !in group ==> x in r.value
      ensures group != [] && Hopeless(ordered, Mode(), shape, tolerance, kept, group) ==> r.None?
      decreases |group|
    {
      if attempts == 0 {
        return None;
      }
      attempts := attempts - 1;
      var dropping := set x | x in group;
      var ok, trial := TryDropping(kept, dropping);
      if ok {
        DropKeepsOrder(kept, dropping);
        DropLength(kept, dropping);
        assert group != [] ==> group[0] in dropping;
        return Some(trial);
      }
      if |group| <= 1 {
        return None;
      }
      var middle := |group| / 2;
      HopelessParts(ordered, Mode(), shape, tolerance, kept, group, middle);
      var first := DropGroup(kept, group[..middle]);
      var base := if first.None? then kept else first.value;
      var second := DropGroup(base, group[middle..]);
      assert forall x :: x in group[..middle] || x in group[middle..] ==> x in group;
      if second.Some? {
        return second;
      }
      return first;
    }

    /** Takes out one inner point. */
    method TryWithout(kept: seq<nat>, slot: nat) returns (ok: bool)
      requires Valid() && IsFitting(kept) && 0 < slot < |kept| - 1
      ensures ok <==> FittingWithout(ordered, Mode(), shape, tolerance, kept, slot)
    {
      DropOne(kept, slot);
      var trial;
      ok, trial := TryDropping(kept, {kept[slot]});
    }

    ghost predicate Swept(whole: seq<nat>, kept: seq<nat>, removed: bool, slot: nat) {
      if removed then |kept| < |whole|
      else kept == whole && Stuck(ordered, Mode(), shape, tolerance, kept, slot)
    }

    /** One point after the other; a point that cannot go is passed over. */
    method SweepAlone(whole: seq<nat>) returns (kept: seq<nat>, removed: bool)
      requires Valid() && IsFitting(whole)
      modifies this`attempts
      ensures attempts <= old(attempts) && IsFitting(kept) && Thinner(kept, whole)
      ensures old(attempts) <= attempts + (|whole| - 2)
      ensures (forall slot :: !FittingWithout(ordered, Mode(), shape, tolerance, whole, slot)) ==> !removed
      ensures removed ==> |kept| < |whole|
      ensures !removed ==> kept == whole
      ensures !removed && attempts > 0 ==> OneMinimal(ordered, Mode(), shape, tolerance, kept)
    {
      kept, removed := whole, false;
      var slot := 1;
      while slot < |kept| - 1 && attempts > 0
        invariant attempts <= old(attempts) && IsFitting(kept) && Thinner(kept, whole)
        invariant 1 <= slot <= |kept| - 1
        invariant old(attempts) == attempts + (slot - 1) + (|whole| - |kept|)
        invariant (forall slot :: !FittingWithout(ordered, Mode(), shape, tolerance, whole, slot)) ==> !removed
        invariant Swept(whole, kept, removed, slot)
        decreases attempts
      {
        attempts := attempts - 1;
        var ok := TryWithout(kept, slot);
        if ok {
          WithoutIsThinner(kept, slot, whole);
          kept := kept[..slot] + kept[slot + 1..];
          removed := true;
        } else {
          if !removed { OneMoreStuck(ordered, Mode(), shape, tolerance, kept, slot); }
          slot := slot + 1;
        }
      }
    }

    lemma RigidIsHopeless(kept: seq<nat>, group: seq<nat>, slots: seq<nat>)
      requires Increasing(kept) && Group(kept, group, slots)
      ensures Rigid(ordered, Mode(), shape, tolerance, kept) ==>
                Hopeless(ordered, Mode(), shape, tolerance, kept, group)
    {
      forall dropping: set<nat> | dropping != {} && (forall x :: x in dropping ==> x in group)
        ensures Scattered(kept, dropping)
      {
        GroupScattered(kept, group, slots, dropping);
      }
    }

    lemma RigidSticks(kept: seq<nat>)
      requires Increasing(kept)
      ensures Rigid(ordered, Mode(), shape, tolerance, kept) ==>
                forall slot :: !FittingWithout(ordered, Mode(), shape, tolerance, kept, slot)
    {
      if Rigid(ordered, Mode(), shape, tolerance, kept) {
        forall slot ensures !FittingWithout(ordered, Mode(), shape, tolerance, kept, slot) {
          RigidIsMinimal(ordered, Mode(), shape, tolerance, kept, slot);
        }
      }
    }

    /** Groups first, then one by one, until nothing goes any more or the attempts are used
        up.  With attempts left, no single point can go. */
    method PruneRedundant(indices: seq<nat>) returns (kept: seq<nat>)
      requires Valid() && IsFitting(indices)
      modifies this`attempts
      ensures attempts <= old(attempts) <= attempts + PruneTries(|indices|)
      ensures IsFitting(kept) && Thinner(kept, indices)
      ensures attempts > 0 ==> OneMinimal(ordered, Mode(), shape, tolerance, kept)
      ensures Rigid(ordered, Mode(), shape, tolerance, indices) ==> kept == indices
    {
      kept := indices;
      while |kept| > 2
        invariant attempts <= old(attempts) && IsFitting(kept) && Thinner(kept, indices)
        invariant old(attempts) + PruneTries(|kept|) <= attempts + PruneTries(|indices|)
        invariant Rigid(ordered, Mode(), shape, tolerance, indices) ==> kept == indices
        decreases |kept|
      {
        var group, slots := PickGroup(ChordErrors(ordered), kept);
        GroupInside(ordered, kept, group, slots);
        RigidIsHopeless(kept, group, slots);
        ghost var before := kept;
        var reduced := DropGroup(kept, group);
        if reduced.Some? && |reduced.value| < |kept| {
          kept := reduced.value;
          MoreTries(|kept|, |before|);
          continue;
        }
        RigidSticks(kept);
        var removed;
        kept, removed := SweepAlone(kept);
        MoreTries(if removed then |kept| else 2, |before|);
        if !removed || attempts == 0 {
          return;
        }
      }
    }
  }

  lemma OneMoreStuck(
    ordered: seq<Point>, mode: TangentMode, shape: Shape, tolerance: real, kept: seq<nat>, slot: nat)
    requires Stuck(ordered, mode, shape, tolerance, kept, slot)
    requires !FittingWithout(ordered, mode, shape, tolerance, kept, slot)
    ensures Stuck(ordered, mode, shape, tolerance, kept, slot + 1)
  {}

  lemma WithoutIsThinner(kept: seq<nat>, slot: nat, whole: seq<nat>)
    requires slot < |kept| && Thinner(kept, whole)
    ensures Thinner(Without(kept, slot), whole) && |Without(kept, slot)| < |kept|
  {}

  lemma GroupInside(ordered: seq<Point>, kept: seq<nat>, group: seq<nat>, slots: seq<nat>)
    requires Keeps(ordered, kept) && Group(kept, group, slots)
    ensures forall i :: 0 <= i < |group| ==> 0 < group[i] < |ordered| - 1
  {}
}

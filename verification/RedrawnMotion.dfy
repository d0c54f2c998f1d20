/** A motion of which a stretch is drawn again: exactly when nothing moves differently. */
module RedrawnMotion {
  import opened MotionTypes
  import opened Rendering
  import opened Merging

  /** The cut motion, with a stretch of it drawn again. */
  ghost predicate IsRedrawn(
    redrawn: nat -> Option<real>, cut: nat -> Option<real>, start: nat, end: nat, drawn: nat -> real)
  {
    start < end && forall tick: nat ::
      redrawn(tick) == if start <= tick <= end then Some(drawn(tick)) else cut(tick)
  }

  /** The stretch starts and ends where the axis is owned; from tick 0 on, the next one is
      owned as well. */
  ghost predicate OwnedStretch(owned: nat -> bool, start: nat, end: nat) {
    owned(start) && owned(end) && (start == 0 ==> owned(1))
  }

  /** What is drawn again is the motion. */
  ghost predicate DrawsMotion(drawn: nat -> real, motion: nat -> real, start: nat, end: nat) {
    forall tick: nat :: 0 < tick && start <= tick <= end ==> drawn(tick) == motion(tick)
  }

  /** The functions of one axis: what is supplied and owned, the motion, what the cut and the
      redrawn layer supply. */
  ghost predicate IsAxis(
    redrawn: nat -> Option<real>, cut: nat -> Option<real>, owned: nat -> bool, motion: nat -> real,
    supply: nat -> Option<real>, initial: Option<real>, start: nat, end: nat, drawn: nat -> real)
  {
    && IsCut(cut, owned, motion) && IsMotion(motion, supply, initial) && OwnershipOf(owned, supply)
    && IsRedrawn(redrawn, cut, start, end, drawn) && OwnedStretch(owned, start, end)
  }

  // ----- Before the stretch ---------------------------------------------------------------------------

  lemma RedrawnNext(
    redrawn: nat -> Option<real>, cut: nat -> Option<real>, owned: nat -> bool, motion: nat -> real,
    supply: nat -> Option<real>, initial: Option<real>, start: nat, end: nat, drawn: nat -> real, next: nat)
    requires IsAxis(redrawn, cut, owned, motion, supply, initial, start, end, drawn)
    requires DrawsMotion(drawn, motion, start, end) && NextOwned(owned, next) && 0 < next <= start
    ensures IsFirst(redrawn, next) && redrawn(next) == Some(motion(next))
  {
    forall tick: nat | tick < next ensures redrawn(tick).None? {
      assert tick == 0 || !owned(tick);
      assert cut(tick).None?;
    }
    assert cut(next) == Some(motion(next));
  }

  /** Where nothing is owned before the stretch, the redrawn layer waits as the cut one does. */
  lemma RedrawnWaits(
    redrawn: nat -> Option<real>, cut: nat -> Option<real>, owned: nat -> bool, motion: nat -> real,
    supply: nat -> Option<real>, initial: Option<real>, start: nat, end: nat, drawn: nat -> real, tick: nat, next: nat)
    requires IsAxis(redrawn, cut, owned, motion, supply, initial, start, end, drawn)
    requires DrawsMotion(drawn, motion, start, end) && NextOwned(owned, next) && 0 < tick < next <= start
    ensures Motion(redrawn, initial, tick) == Motion(cut, initial, tick)
  {
    RedrawnNext(redrawn, cut, owned, motion, supply, initial, start, end, drawn, next);
    MotionBeforeFirst(redrawn, initial, tick, next);
    CutBeforeFirst(cut, owned, motion, initial, tick, next);
  }

  /** After a tick that is owned, or in the stretch, it holds. */
  lemma RedrawnHolds(redrawn: nat -> Option<real>, initial: Option<real>, tick: nat, before: nat)
    requires before <= tick && tick > 0 && redrawn(before).Some? && redrawn(tick).None?
    ensures Motion(redrawn, initial, tick) == Motion(redrawn, initial, tick - 1)
  {
    Holds(redrawn, initial, tick);
  }

  // ----- Nothing moves differently --------------------------------------------------------------------

  lemma {:induction false} RedrawnKeepsMotion(
    redrawn: nat -> Option<real>, cut: nat -> Option<real>, owned: nat -> bool, motion: nat -> real,
    supply: nat -> Option<real>, initial: Option<real>, start: nat, end: nat, drawn: nat -> real, tick: nat)
    requires IsAxis(redrawn, cut, owned, motion, supply, initial, start, end, drawn)
    requires HarmlessTickZero(owned, supply, initial) && DrawsMotion(drawn, motion, start, end)
    ensures Motion(redrawn, initial, tick) == motion(tick)
  {
    if tick > 0 {
      if start <= tick <= end || owned(tick) {
        assert redrawn(tick) == Some(motion(tick));
      } else {
        RedrawnKeepsMotion(redrawn, cut, owned, motion, supply, initial, start, end, drawn, tick - 1);
        assert cut(tick).None?;
        if tick > end {
          RedrawnHolds(redrawn, initial, tick, end);
          UncutHolds(owned, supply, initial, tick, end);
        } else {
          RedrawnStart(redrawn, cut, owned, motion, supply, initial, start, end, drawn, tick);
        }
      }
    }
  }

  /** A tick before the stretch that nothing owns. */
  lemma RedrawnStart(
    redrawn: nat -> Option<real>, cut: nat -> Option<real>, owned: nat -> bool, motion: nat -> real,
    supply: nat -> Option<real>, initial: Option<real>, start: nat, end: nat, drawn: nat -> real, tick: nat)
    requires IsAxis(redrawn, cut, owned, motion, supply, initial, start, end, drawn)
    requires HarmlessTickZero(owned, supply, initial) && DrawsMotion(drawn, motion, start, end)
    requires 0 < tick < start && !owned(tick) && Motion(redrawn, initial, tick - 1) == motion(tick - 1)
    ensures Motion(redrawn, initial, tick) == motion(tick)
  {
    CutKeepsMotion(cut, owned, motion, supply, initial, tick);
    var next := FirstOwned(owned, 1, start);
    if next > tick {
      RedrawnWaits(redrawn, cut, owned, motion, supply, initial, start, end, drawn, tick, next);
    } else {
      RedrawnHolds(redrawn, initial, tick, next);
      UncutHolds(owned, supply, initial, tick, next);
    }
  }

  lemma RedrawnShowsHarm(
    redrawn: nat -> Option<real>, cut: nat -> Option<real>, owned: nat -> bool, motion: nat -> real,
    supply: nat -> Option<real>, initial: Option<real>, start: nat, end: nat, drawn: nat -> real)
    requires IsAxis(redrawn, cut, owned, motion, supply, initial, start, end, drawn)
    requires !HarmlessTickZero(owned, supply, initial) && DrawsMotion(drawn, motion, start, end)
    ensures Motion(redrawn, initial, 1) != motion(1)
  {
    var next: nat :| next > 1 && NextOwned(owned, next) && supply(next).Some?;
    HarmShowsAtOnce(cut, owned, motion, supply, initial);
    assert start != 0 && next <= start;
    RedrawnWaits(redrawn, cut, owned, motion, supply, initial, start, end, drawn, 1, next);
  }

  /** The redrawn layer moves as before at every tick if and only if what is drawn again is
      the motion, and no lone value at tick 0 has got lost. */
  lemma RedrawnDecides(
    redrawn: nat -> Option<real>, cut: nat -> Option<real>, owned: nat -> bool, motion: nat -> real,
    supply: nat -> Option<real>, initial: Option<real>, start: nat, end: nat, drawn: nat -> real)
    requires IsAxis(redrawn, cut, owned, motion, supply, initial, start, end, drawn)
    ensures (forall tick: nat :: Motion(redrawn, initial, tick) == motion(tick)) <==>
            HarmlessTickZero(owned, supply, initial) && DrawsMotion(drawn, motion, start, end)
  {
    if HarmlessTickZero(owned, supply, initial) && DrawsMotion(drawn, motion, start, end) {
      forall tick: nat ensures Motion(redrawn, initial, tick) == motion(tick) {
        RedrawnKeepsMotion(redrawn, cut, owned, motion, supply, initial, start, end, drawn, tick);
      }
    } else if forall tick: nat :: Motion(redrawn, initial, tick) == motion(tick) {
      forall tick: nat | 0 < tick && start <= tick <= end ensures drawn(tick) == motion(tick) {
        assert redrawn(tick) == Some(drawn(tick));
      }
      RedrawnShowsHarm(redrawn, cut, owned, motion, supply, initial, start, end, drawn);
      assert false;
    }
  }
}

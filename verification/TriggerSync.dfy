/** The four-timestamp clock offset estimator that the group coordinator uses to
    place one deadline on every participant's own clock, and the error bound it
    gives.  All times are whole nanoseconds, as in the program. */
module TriggerSync {
  import opened MotionTypes
  import opened Sorting

  /** One accepted exchange: its round trip and the offset it suggests. */
  datatype Sample = Sample(roundTrip: int, offset: int)

  datatype Estimate = Estimate(offset: int, roundTrip: int, uncertainty: int, sampleCount: nat)

  function Abs(x: int): nat { if x < 0 then -x else x }

  function Max(a: int, b: int): int { if a < b then b else a }

  /** Tuples compare by round trip first, then by offset. */
  function SampleLeq(): (Sample, Sample) -> bool {
    (a: Sample, b: Sample) => a.roundTrip < b.roundTrip || (a.roundTrip == b.roundTrip && a.offset <= b.offset)
  }

  function IntLeq(): (int, int) -> bool { (a: int, b: int) => a <= b }

  // ----- The estimate ---------------------------------------------------------

  /** Halving towards zero: what `int` does to the average of the two middle values. */
  function HalfTowardsZero(x: int): int { if x >= 0 then x / 2 else -((-x) / 2) }

  /** `int(median(xs))`. */
  function Median(xs: seq<int>): int
    requires xs != []
  {
    var s := Sort(xs, IntLeq());
    var mid := |s| / 2;
    if |s| % 2 == 1 then s[mid] else HalfTowardsZero(s[mid - 1] + s[mid])
  }

  function Offsets(best: seq<Sample>): (r: seq<int>)
    ensures |r| == |best|
    ensures forall i :: 0 <= i < |best| ==> r[i] == best[i].offset
  {
    seq(|best|, i requires 0 <= i < |best| => best[i].offset)
  }

  /** The largest distance of any offset from `centre`. */
  function Spread(offsets: seq<int>, centre: int): (r: nat)
    requires offsets != []
    ensures forall x :: x in offsets ==> Abs(x - centre) <= r
    ensures exists x :: x in offsets && Abs(x - centre) == r
  {
    assert offsets == [offsets[0]] + offsets[1..] && offsets[0] in offsets;
    if |offsets| == 1 then Abs(offsets[0] - centre)
    else
      var rest := Spread(offsets[1..], centre);
      assert forall y :: y in offsets[1..] ==> y in offsets;
      if Abs(offsets[0] - centre) < rest then rest else Abs(offsets[0] - centre)
  }

  /** The samples the estimate is made from: the `keepBest` shortest round trips. */
  function Best(samples: seq<Sample>, keepBest: nat): (r: seq<Sample>)
    requires samples != [] && keepBest >= 1
    ensures 1 <= |r| <= keepBest
    ensures forall s :: s in r ==> s in samples
    ensures forall s :: s in samples ==> r[0].roundTrip <= s.roundTrip
  {
    SortOrdered(samples, SampleLeq());
    var sorted := Sort(samples, SampleLeq());
    if |sorted| <= keepBest then sorted else sorted[..keepBest]
  }

  function EstimateOf(samples: seq<Sample>, keepBest: nat): Estimate
    requires samples != [] && keepBest >= 1
  {
    var best := Best(samples, keepBest);
    var offset := Median(Offsets(best));
    var spread := Spread(Offsets(best), offset);
    Estimate(offset, best[0].roundTrip, Max(best[0].roundTrip / 2, spread), |samples|)
  }

  function CoordinatorToLocal(coordinatorNs: int, offset: int): int { coordinatorNs + offset }

  function LocalToCoordinator(localNs: int, offset: int): int { localNs - offset }

  /** The sample of one exchange, when it is accepted. */
  function ExchangeSample(t1: int, t2: int, t3: int, t4: int): Option<Sample> {
    if t4 < t1 || t3 < t2 then None
    else if (t4 - t1) - (t3 - t2) < 0 then None
    else Some(Sample((t4 - t1) - (t3 - t2), ((t2 - t1) + (t3 - t4)) / 2))
  }

  class TriggerSyncEstimator {
    const keepBest: nat
    var samples: seq<Sample>

    constructor (keep: int := 3)
      ensures keepBest == Max(keep, 1) && samples == []
    {
      keepBest := Max(keep, 1);
      samples := [];
    }

    method AddExchange(t1: int, t2: int, t3: int, t4: int) returns (accepted: bool)
      modifies this`samples
      ensures accepted == ExchangeSample(t1, t2, t3, t4).Some?
      ensures samples == if accepted then old(samples) + [ExchangeSample(t1, t2, t3, t4).value]
                         else old(samples)
    {
      if t4 < t1 || t3 < t2 {
        return false;
      }
      var roundTrip := (t4 - t1) - (t3 - t2);
      if roundTrip < 0 {
        return false;
      }
      var offset := ((t2 - t1) + (t3 - t4)) / 2;
      samples := samples + [Sample(roundTrip, offset)];
      return true;
    }

    /** Fails exactly when nothing has been measured yet. */
    method Estimate() returns (r: Option<Estimate>)
      requires keepBest >= 1
      ensures r == if samples == [] then None else Some(EstimateOf(samples, keepBest))
    {
      if samples == [] {
        return None;
      }
      return Some(EstimateOf(samples, keepBest));
    }
  }

  // ----- What the estimate is worth --------------------------------------------

  /** `s` comes from an exchange whose two network delays were not negative, when
      the participant's clock is ahead of the coordinator's by `trueOffset`. */
  ghost predicate Honest(s: Sample, trueOffset: int) {
    exists out: nat, back: nat :: Delays(s, trueOffset, out, back)
  }

  ghost predicate Delays(s: Sample, trueOffset: int, out: nat, back: nat) {
    s.roundTrip == out + back && s.offset == (2 * trueOffset + out - back) / 2
  }

  /** Every exchange over a network is accepted and honest: `t2` and `t3` are read
      on the participant's clock, `t1` and `t4` on the coordinator's. */
  lemma ExchangeIsHonest(t1: int, t2: int, t3: int, t4: int, trueOffset: int)
    requires t2 - trueOffset >= t1 && t3 >= t2 && t4 >= t3 - trueOffset
    ensures ExchangeSample(t1, t2, t3, t4).Some?
    ensures Honest(ExchangeSample(t1, t2, t3, t4).value, trueOffset)
  {
    var out: nat, back: nat := t2 - trueOffset - t1, t4 - (t3 - trueOffset);
    assert Delays(ExchangeSample(t1, t2, t3, t4).value, trueOffset, out, back);
  }

  lemma SampleError(s: Sample, trueOffset: int)
    requires Honest(s, trueOffset)
    ensures Abs(s.offset - trueOffset) <= s.roundTrip / 2 + 1
    ensures s.roundTrip >= 0
  {
  }

  /** The estimate is off by at most half the shortest round trip, plus the spread
      of the offsets kept, plus one nanosecond of integer division; so by at most
      twice the reported uncertainty plus one. */
  lemma EstimateError(samples: seq<Sample>, keepBest: nat, trueOffset: int)
    requires samples != [] && keepBest >= 1
    requires forall s :: s in samples ==> Honest(s, trueOffset)
    ensures var e := EstimateOf(samples, keepBest);
            var spread := Spread(Offsets(Best(samples, keepBest)), e.offset);
            && e.uncertainty >= 0
            && Abs(e.offset - trueOffset) <= e.roundTrip / 2 + spread + 1
            && Abs(e.offset - trueOffset) <= 2 * e.uncertainty + 1
  {
    var best := Best(samples, keepBest);
    assert best[0] in best && best[0] in samples;
    SampleError(best[0], trueOffset);
    assert Offsets(best)[0] in Offsets(best);
  }

  /** For every uncertainty there are exchanges that reach the bound exactly: the
      uncertainty alone does not bound the error, and no smaller bound in terms of
      it holds. */
  lemma EstimateErrorIsTight(uncertainty: nat, trueOffset: int) returns (samples: seq<Sample>)
    ensures samples != []
    ensures forall s :: s in samples ==> Honest(s, trueOffset)
    ensures EstimateOf(samples, 3).uncertainty == uncertainty
    ensures Abs(EstimateOf(samples, 3).offset - trueOffset) == 2 * uncertainty + 1
  {
    var near := Sample(2 * uncertainty + 1, trueOffset - uncertainty - 1);
    var far := Sample(4 * uncertainty + 2, trueOffset - 2 * uncertainty - 1);
    assert Delays(near, trueOffset, 0, 2 * uncertainty + 1);
    assert Delays(far, trueOffset, 0, 4 * uncertainty + 2);
    samples := [near, far, far];
    TightEstimate(near, far, uncertainty);
  }

  lemma MedianOfThree(high: int, low: int)
    requires low <= high
    ensures Median([high, low, low]) == low
  {
    var tail := [low, low];
    assert [high, low, low][1..] == tail;
    SortOfOrdered(tail, IntLeq());
    assert Sort([high, low, low], IntLeq()) == Insert(high, tail, IntLeq());
    assert tail[1..] == [low] && [low][1..] == [];
    assert Insert(high, [low], IntLeq())[0] == low;
  }

  lemma SpreadOfThree(high: int, low: int)
    requires low <= high
    ensures Spread([high, low, low], low) == high - low
  {
    assert high in [high, low, low];
  }

  lemma TightEstimate(near: Sample, far: Sample, uncertainty: nat)
    requires near.roundTrip == 2 * uncertainty + 1 && far.roundTrip == 4 * uncertainty + 2
    requires far.offset == near.offset - uncertainty
    ensures EstimateOf([near, far, far], 3) ==
            Estimate(far.offset, near.roundTrip, uncertainty, 3)
  {
    var samples := [near, far, far];
    assert Ordered(samples, SampleLeq());
    SortOfOrdered(samples, SampleLeq());
    assert Best(samples, 3) == samples;
    var xs := Offsets(samples);
    assert xs == [near.offset, far.offset, far.offset];
    MedianOfThree(near.offset, far.offset);
    SpreadOfThree(near.offset, far.offset);
  }

  // ----- What it is made from ------------------------------------------------------

  /** As many exchanges as are to be kept, or all, and no other one had a shorter round trip. */
  lemma BestAreShortest(samples: seq<Sample>, keepBest: nat) returns (others: seq<Sample>)
    requires samples != [] && keepBest >= 1
    ensures var best := Best(samples, keepBest);
            && |best| == (if |samples| < keepBest then |samples| else keepBest)
            && multiset(best) + multiset(others) == multiset(samples)
            && forall b, s :: b in best && s in others ==> b.roundTrip <= s.roundTrip
  {
    var best, sorted := Best(samples, keepBest), Sort(samples, SampleLeq());
    SortMultiset(samples, SampleLeq());
    SortOrdered(samples, SampleLeq());
    others := sorted[|best|..];
    assert sorted == best + others;
    forall b, s | b in best && s in others ensures b.roundTrip <= s.roundTrip {
      var i :| 0 <= i < |best| && best[i] == b;
      var j :| 0 <= j < |others| && others[j] == s;
      assert sorted[i] == b && sorted[|best| + j] == s;
      assert SampleLeq()(sorted[i], sorted[|best| + j]);
    }
  }

  function Smaller(xs: seq<int>, m: int): nat {
    if xs == [] then 0 else (if xs[0] < m then 1 else 0) + Smaller(xs[1..], m)
  }

  function Larger(xs: seq<int>, m: int): nat {
    if xs == [] then 0 else (if xs[0] > m then 1 else 0) + Larger(xs[1..], m)
  }

  lemma {:induction false} InsertCounts(x: int, xs: seq<int>, m: int)
    ensures Smaller(Insert(x, xs, IntLeq()), m) == Smaller(xs, m) + (if x < m then 1 else 0)
    ensures Larger(Insert(x, xs, IntLeq()), m) == Larger(xs, m) + (if x > m then 1 else 0)
  {
    if xs == [] || IntLeq()(x, xs[0]) {
      assert ([x] + xs)[1..] == xs;
    } else {
      var rest := Insert(x, xs[1..], IntLeq());
      assert ([xs[0]] + rest)[1..] == rest;
      InsertCounts(x, xs[1..], m);
    }
  }

  lemma {:induction false} SortCounts(xs: seq<int>, m: int)
    ensures Smaller(Sort(xs, IntLeq()), m) == Smaller(xs, m) && Larger(Sort(xs, IntLeq()), m) == Larger(xs, m)
  {
    if xs != [] {
      SortCounts(xs[1..], m);
      InsertCounts(xs[0], Sort(xs[1..], IntLeq()), m);
    }
  }

  /** The first `k` may be smaller, the others are not. */
  lemma {:induction false} SmallerAtMost(xs: seq<int>, m: int, k: nat)
    requires k <= |xs| && forall i :: k <= i < |xs| ==> xs[i] >= m
    ensures Smaller(xs, m) <= k
  {
    if xs != [] { SmallerAtMost(xs[1..], m, if k == 0 then 0 else k - 1); }
  }

  lemma {:induction false} LargerAtMost(xs: seq<int>, m: int, k: nat)
    requires k <= |xs| && forall i :: 0 <= i < k ==> xs[i] <= m
    ensures Larger(xs, m) <= |xs| - k
  {
    if xs != [] { LargerAtMost(xs[1..], m, if k == 0 then 0 else k - 1); }
  }

  lemma HalfBetween(a: int, b: int)
    requires a <= b
    ensures a <= HalfTowardsZero(a + b) <= b
  {
  }

  ghost predicate Rising(s: seq<int>) { forall i, j :: 0 <= i <= j < |s| ==> s[i] <= s[j] }

  lemma MiddleCounts(s: seq<int>, m: int)
    requires Rising(s) && s != []
    requires s[(|s| - 1) / 2] <= m <= s[|s| / 2]
    ensures Smaller(s, m) <= |s| / 2 && Larger(s, m) <= |s| / 2
  {
    SmallerAtMost(s, m, |s| / 2);
    LargerAtMost(s, m, (|s| - 1) / 2 + 1);
  }

  lemma SortedRises(xs: seq<int>)
    ensures Rising(Sort(xs, IntLeq()))
  {
    SortOrdered(xs, IntLeq());
    var s := Sort(xs, IntLeq());
    forall i, j | 0 <= i <= j < |s| ensures s[i] <= s[j] { assert i == j || IntLeq()(s[i], s[j]); }
  }

  /** At most half of the offsets are smaller than the median, at most half are larger. */
  lemma MedianIsMiddle(xs: seq<int>)
    requires xs != []
    ensures Smaller(xs, Median(xs)) <= |xs| / 2 && Larger(xs, Median(xs)) <= |xs| / 2
  {
    var s, mid := Sort(xs, IntLeq()), |xs| / 2;
    SortedRises(xs);
    SortCounts(xs, Median(xs));
    if |xs| % 2 == 0 { HalfBetween(s[mid - 1], s[mid]); }
    MiddleCounts(s, Median(xs));
  }

  // ----- From the estimate to the start spread ----------------------------------

  /** The distance between the earliest and the latest of some times. */
  ghost predicate SpreadAtMost(times: seq<int>, limit: int) {
    forall i, j :: 0 <= i < |times| && 0 <= j < |times| ==> times[i] - times[j] <= limit
  }

  /** What the participants report: each maps the start it read on its own clock
      back with the offset it was given. */
  function Reports(starts: seq<int>, trueOffsets: seq<int>, given: seq<int>): (r: seq<int>)
    requires |starts| == |trueOffsets| == |given|
    ensures |r| == |starts|
    ensures forall i :: 0 <= i < |starts| ==>
              r[i] == LocalToCoordinator(CoordinatorToLocal(starts[i], trueOffsets[i]), given[i])
  {
    seq(|starts|, i requires 0 <= i < |starts| =>
      LocalToCoordinator(CoordinatorToLocal(starts[i], trueOffsets[i]), given[i]))
  }

  /** The offset that a participant is given: an estimate, or none at all for the
      coordinator, which exchanges nothing with itself. */
  function GivenOffset(exchanges: seq<Sample>, keepBest: nat): int
    requires keepBest >= 1
  {
    if exchanges == [] then 0 else EstimateOf(exchanges, keepBest).offset
  }

  /** The exchanges with a participant are honest and precise enough; the coordinator needs
      none, since it reads its own clock. */
  ghost predicate Synchronised(exchanges: seq<Sample>, keepBest: nat, limit: nat, trueOffset: int)
    requires keepBest >= 1
  {
    if exchanges == [] then trueOffset == 0
    else EstimateOf(exchanges, keepBest).uncertainty <= limit && forall s :: s in exchanges ==> Honest(s, trueOffset)
  }

  function GivenOffsets(exchanges: seq<seq<Sample>>, keepBest: nat): (r: seq<int>)
    requires keepBest >= 1
    ensures |r| == |exchanges| && forall i :: 0 <= i < |r| ==> r[i] == GivenOffset(exchanges[i], keepBest)
  {
    seq(|exchanges|, i requires 0 <= i < |exchanges| => GivenOffset(exchanges[i], keepBest))
  }

  /** When the uncertainty of every participant passed the configured limit, the real start
      spread and the reported one differ by at most four limits and two nanoseconds, in
      either direction. */
  lemma StartSpreadBound(
    starts: seq<int>, trueOffsets: seq<int>, exchanges: seq<seq<Sample>>, keepBest: nat,
    limit: nat, spread: int)
    requires keepBest >= 1
    requires |starts| == |trueOffsets| == |exchanges|
    requires forall i :: 0 <= i < |exchanges| ==> Synchronised(exchanges[i], keepBest, limit, trueOffsets[i])
    ensures var reports := Reports(starts, trueOffsets, GivenOffsets(exchanges, keepBest));
            && (SpreadAtMost(reports, spread) ==> SpreadAtMost(starts, spread + 4 * limit + 2))
            && (SpreadAtMost(starts, spread) ==> SpreadAtMost(reports, spread + 4 * limit + 2))
  {
    var reports := Reports(starts, trueOffsets, GivenOffsets(exchanges, keepBest));
    forall i | 0 <= i < |starts| ensures Abs(reports[i] - starts[i]) <= 2 * limit + 1 {
      assert Synchronised(exchanges[i], keepBest, limit, trueOffsets[i]);
      if exchanges[i] != [] { EstimateError(exchanges[i], keepBest, trueOffsets[i]); }
    }
  }
}

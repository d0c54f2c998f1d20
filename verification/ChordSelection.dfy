/** The first pass of the curve fit: split, again and again, where a straight line misses
    the recording most, with a priority queue of the segments that can still be split. */
module ChordSelection {
  import opened MotionTypes
  import opened Sorting
  import opened Timeline

  /** How far sample `index` is from the chord between two other samples. */
  type ErrorOf = (nat, nat, nat) -> real

  function Abs(x: real): real { if x < 0.0 then -x else x }

  function ChordError(ordered: seq<Point>, index: nat, left: nat, right: nat): real
    requires index < |ordered| && left < |ordered| && right < |ordered|
  {
    var span := (ordered[right].tick as int - ordered[left].tick as int) as real;
    var ratio := if span > 0.0 then (ordered[index].tick as int - ordered[left].tick as int) as real / span else 0.0;
    Abs(ordered[index].value - (ordered[left].value + (ordered[right].value - ordered[left].value) * ratio))
  }

  function ChordErrors(ordered: seq<Point>): ErrorOf {
    (index: nat, left: nat, right: nat) =>
      if index < |ordered| && left < |ordered| && right < |ordered| then ChordError(ordered, index, left, right)
      else 0.0
  }

  ghost predicate Errors(error: ErrorOf) {
    forall index, left, right :: error(index, left, right) >= 0.0
  }

  lemma ChordErrorsAreErrors(ordered: seq<Point>)
    ensures Errors(ChordErrors(ordered))
  {
  }

  // ----- The worst sample of a segment ---------------------------------------------------------

  /** The first of the samples inside a segment that miss its chord most. */
  ghost predicate IsWorst(error: ErrorOf, left: nat, right: nat, candidate: nat) {
    && left < candidate < right
    && (forall k :: left < k < right ==> error(k, left, right) <= error(candidate, left, right))
    && (forall k :: left < k < candidate ==> error(k, left, right) < error(candidate, left, right))
  }

  method WorstInside(error: ErrorOf, left: nat, right: nat) returns (worst: real, candidate: Option<nat>)
    requires Errors(error)
    ensures candidate.None? <==> left + 1 >= right
    ensures candidate.Some? ==>
              IsWorst(error, left, right, candidate.value) && worst == error(candidate.value, left, right)
  {
    worst, candidate := -1.0, None;
    var index := left + 1;
    while index < right
      invariant left < index && (index <= right || index == left + 1)
      invariant candidate.None? ==> index == left + 1 && worst == -1.0
      invariant candidate.Some? ==> IsWorst2(error, left, right, index, candidate.value)
      invariant candidate.Some? ==> worst == error(candidate.value, left, right)
    {
      var e := error(index, left, right);
      if e > worst {
        candidate, worst := Some(index), e;
      }
      index := index + 1;
    }
  }

  /** Among the samples before `end`. */
  ghost predicate IsWorst2(error: ErrorOf, left: nat, right: nat, end: nat, candidate: nat) {
    && left < candidate < end
    && (forall k :: left < k < end ==> error(k, left, right) <= error(candidate, left, right))
    && (forall k :: left < k < candidate ==> error(k, left, right) < error(candidate, left, right))
  }

  // ----- The queue --------------------------------------------------------------------------------

  datatype Entry = Entry(worst: real, left: nat, right: nat, candidate: nat)

  /** The order of the tuples in the heap: the worst first, then from left to right. */
  function EntryLeq(): (Entry, Entry) -> bool {
    (a: Entry, b: Entry) =>
      a.worst > b.worst
      || (a.worst == b.worst && (a.left < b.left
      || (a.left == b.left && (a.right < b.right || (a.right == b.right && a.candidate <= b.candidate)))))
  }

  /** No segment is queued twice. */
  ghost predicate OnceEach(queue: seq<Entry>) {
    forall i, j :: 0 <= i < j < |queue| ==> queue[i].left != queue[j].left
  }

  lemma {:induction false} InsertOnce(e: Entry, queue: seq<Entry>)
    requires OnceEach(queue) && forall other :: other in queue ==> other.left != e.left
    ensures OnceEach(Insert(e, queue, EntryLeq()))
  {
    if queue != [] && !EntryLeq()(e, queue[0]) {
      InsertOnce(e, queue[1..]);
      InsertKeeps(e, queue[1..], EntryLeq());
      var rest := Insert(e, queue[1..], EntryLeq());
      forall k | 0 <= k < |rest| ensures rest[k].left != queue[0].left {
        assert rest[k] in rest;
      }
    }
  }

  // ----- Segments -----------------------------------------------------------------------------------

  /** Neighbours among the selected samples. */
  ghost predicate Gap(selected: set<nat>, left: nat, right: nat) {
    left in selected && right in selected && left < right && forall k :: left < k < right ==> k !in selected
  }

  predicate Links(ends: map<nat, nat>, start: nat, end: nat) { start in ends && ends[start] == end }

  /** The ends of the segments, by their starts. */
  ghost predicate Chain(ends: map<nat, nat>, selected: set<nat>) {
    forall left: nat, right: nat :: Gap(selected, left, right) <==> Links(ends, left, right)
  }

  lemma GapSplit(selected: set<nat>, left: nat, middle: nat, right: nat, a: nat, b: nat)
    requires Gap(selected, left, right) && left < middle < right
    ensures Gap(selected + {middle}, a, b) <==>
            (Gap(selected, a, b) && a != left) || (a == left && b == middle) || (a == middle && b == right)
  {
    if a == left && Gap(selected, a, b) {
      assert b == right;
    }
    if b == right && Gap(selected, a, b) {
      assert a == left;
    }
    if Gap(selected, a, b) && a != left {
      assert !(a < middle < b);
    }
  }

  lemma ChainSplit(ends: map<nat, nat>, selected: set<nat>, left: nat, middle: nat, right: nat)
    requires Chain(ends, selected) && Gap(selected, left, right) && left < middle < right
    ensures Chain(Linked(Linked(ends, left, middle), middle, right), selected + {middle})
  {
    var linked := Linked(Linked(ends, left, middle), middle, right);
    forall a: nat, b: nat ensures Gap(selected + {middle}, a, b) <==> Links(linked, a, b) {
      GapSplit(selected, left, middle, right, a, b);
      assert middle !in selected && (middle in ends ==> Gap(selected, middle, ends[middle]));
    }
  }

  ghost predicate EntryOk(error: ErrorOf, selected: set<nat>, e: Entry) {
    Gap(selected, e.left, e.right) && IsWorst(error, e.left, e.right, e.candidate)
    && e.worst == error(e.candidate, e.left, e.right)
  }

  ghost predicate Queued(queue: seq<Entry>, left: nat) {
    exists e :: e in queue && e.left == left
  }

  /** The queue holds exactly the segments of the selection that have samples inside, each
      with its worst one; those that start in `pending` are still to be queued. */
  ghost predicate QueueFor(error: ErrorOf, selected: set<nat>, queue: seq<Entry>, pending: set<nat>) {
    && Ordered(queue, EntryLeq()) && OnceEach(queue)
    && (forall e :: e in queue ==> EntryOk(error, selected, e) && e.left !in pending)
    && (forall left: nat, right: nat :: Gap(selected, left, right) && left + 1 < right && left !in pending ==>
          Queued(queue, left))
  }

  lemma EntryOrder()
    ensures TotalOrder(EntryLeq())
  {
  }

  lemma PushKeeps(error: ErrorOf, selected: set<nat>, queue: seq<Entry>, pending: set<nat>, e: Entry)
    requires QueueFor(error, selected, queue, pending) && e.left in pending && EntryOk(error, selected, e)
    ensures QueueFor(error, selected, Insert(e, queue, EntryLeq()), pending - {e.left})
  {
    EntryOrder();
    InsertOrdered(e, queue, EntryLeq());
    InsertOnce(e, queue);
    InsertKeeps(e, queue, EntryLeq());
    forall left: nat, right: nat | Gap(selected, left, right) && left + 1 < right && left !in pending - {e.left}
      ensures Queued(Insert(e, queue, EntryLeq()), left)
    {
      if left != e.left {
        var other :| other in queue && other.left == left;
        assert other in Insert(e, queue, EntryLeq());
      } else {
        assert e in Insert(e, queue, EntryLeq());
      }
    }
  }

  /** Queues a segment, unless it has no samples inside. */
  method PushSegment(
    error: ErrorOf, ghost selected: set<nat>, queue: seq<Entry>, ghost pending: set<nat>, left: nat, right: nat)
    returns (longer: seq<Entry>)
    requires Errors(error) && QueueFor(error, selected, queue, pending)
    requires left in pending && Gap(selected, left, right)
    ensures QueueFor(error, selected, longer, pending - {left})
  {
    var worst, candidate := WorstInside(error, left, right);
    if candidate.Some? {
      longer := Insert(Entry(worst, left, right, candidate.value), queue, EntryLeq());
      PushKeeps(error, selected, queue, pending, Entry(worst, left, right, candidate.value));
    } else {
      longer := queue;
      NothingInside(error, selected, queue, pending, left, right);
    }
  }

  lemma NothingInside(
    error: ErrorOf, selected: set<nat>, queue: seq<Entry>, pending: set<nat>, left: nat, right: nat)
    requires QueueFor(error, selected, queue, pending) && Gap(selected, left, right) && left + 1 >= right
    ensures QueueFor(error, selected, queue, pending - {left})
  {
    forall b: nat | Gap(selected, left, b) ensures b == right {}
    forall a: nat, b: nat | Gap(selected, a, b) && a + 1 < b && a !in pending - {left} ensures Queued(queue, a) {
      assert a != left;
    }
  }

  /** The entries behind the head stay as they are when its segment is split, */
  lemma OthersStay(error: ErrorOf, selected: set<nat>, queue: seq<Entry>, other: Entry)
    requires QueueFor(error, selected, queue, {}) && queue != [] && other in queue[1..]
    ensures var e := queue[0];
            EntryOk(error, selected + {e.candidate}, other) && other.left != e.left && other.left != e.candidate
  {
    var i :| 0 <= i < |queue| - 1 && queue[1..][i] == other;
    assert queue[0] in queue && queue[i + 1] == other && other in queue;
    OtherEntry(error, selected, queue[0], other);
  }

  /** and every other segment is still queued. */
  lemma OthersQueued(error: ErrorOf, selected: set<nat>, queue: seq<Entry>, a: nat, b: nat)
    requires QueueFor(error, selected, queue, {}) && queue != []
    requires Gap(selected + {queue[0].candidate}, a, b) && a + 1 < b
    requires a != queue[0].left && a != queue[0].candidate
    ensures Queued(queue[1..], a)
  {
    var e := queue[0];
    assert e in queue && EntryOk(error, selected, e);
    GapSplit(selected, e.left, e.candidate, e.right, a, b);
    var other :| other in queue && other.left == a;
    assert queue == [e] + queue[1..];
  }

  /** The head of the queue is taken out and its segment split. */
  lemma SplitKeeps(error: ErrorOf, selected: set<nat>, queue: seq<Entry>)
    requires QueueFor(error, selected, queue, {}) && queue != []
    ensures var e := queue[0];
            QueueFor(error, selected + {e.candidate}, queue[1..], {e.left, e.candidate})
  {
    var e := queue[0];
    forall other | other in queue[1..]
      ensures EntryOk(error, selected + {e.candidate}, other) && other.left !in {e.left, e.candidate}
    {
      OthersStay(error, selected, queue, other);
    }
    forall a: nat, b: nat | Gap(selected + {e.candidate}, a, b) && a + 1 < b && a !in {e.left, e.candidate}
      ensures Queued(queue[1..], a)
    {
      OthersQueued(error, selected, queue, a, b);
    }
  }

  lemma OtherEntry(error: ErrorOf, selected: set<nat>, e: Entry, other: Entry)
    requires EntryOk(error, selected, e) && EntryOk(error, selected, other) && other.left != e.left
    ensures EntryOk(error, selected + {e.candidate}, other) && other.left != e.candidate
  {
    GapSplit(selected, e.left, e.candidate, e.right, other.left, other.right);
  }

  // ----- The naive rule -------------------------------------------------------------------------------

  /** Sample `k` misses its chord by no more than `bound`. */
  ghost predicate NoWorse(error: ErrorOf, selected: set<nat>, bound: real) {
    forall left: nat, k: nat, right: nat :: Gap(selected, left, right) && left < k < right ==> error(k, left, right) <= bound
  }

  /** One more sample is selected: one that misses its chord most of all. */
  ghost predicate WorstSplit(error: ErrorOf, selected: set<nat>, after: set<nat>) {
    exists e: Entry ::
      && EntryOk(error, selected, e) && after == selected + {e.candidate}
      && NoWorse(error, selected, e.worst)
  }

  ghost predicate NaiveRun(error: ErrorOf, threshold: real, run: seq<set<nat>>) {
    && run != []
    && forall i: nat :: i + 1 < |run| ==>
         WorstSplit(error, run[i], run[i + 1]) && !NoWorse(error, run[i], threshold)
  }

  /** The head of the queue is the worst sample of all. */
  lemma HeadIsWorst(error: ErrorOf, selected: set<nat>, queue: seq<Entry>)
    requires QueueFor(error, selected, queue, {})
    ensures queue == [] ==> forall bound :: NoWorse(error, selected, bound)
    ensures queue != [] ==> EntryOk(error, selected, queue[0]) && NoWorse(error, selected, queue[0].worst)
    ensures queue != [] ==> forall bound :: NoWorse(error, selected, bound) ==> queue[0].worst <= bound
  {
    forall left: nat, k: nat, right: nat | Gap(selected, left, right) && left < k < right
      ensures queue != [] && error(k, left, right) <= queue[0].worst
    {
      var e :| e in queue && e.left == left;
      assert EntryOk(error, selected, e) && e.right == right;
      var i :| 0 <= i < |queue| && queue[i] == e;
      assert i > 0 ==> EntryLeq()(queue[0], queue[i]);
    }
    if queue != [] {
      assert queue[0] in queue;
      var e := queue[0];
      forall bound | NoWorse(error, selected, bound) ensures e.worst <= bound {
        assert error(e.candidate, e.left, e.right) <= bound;
      }
    }
  }

  // ----- The selection ---------------------------------------------------------------------------------

  function StartOf(n: nat): set<nat>
    requires n >= 2
  {
    if n > 2 then {0, n - 1, n / 2} else {0, n - 1}
  }

  ghost predicate Selection(selected: set<nat>, n: nat) {
    n >= 2 && 0 in selected && n - 1 in selected && forall k :: k in selected ==> k < n
  }

  /** Splits until the limit is reached, or no sample misses its chord by more than the
      threshold.  The segments split are the ones the naive rule would split. */
  method SelectByChords(error: ErrorOf, n: nat, threshold: real, limit: nat)
    returns (selected: set<nat>, ghost run: seq<set<nat>>)
    requires Errors(error) && n >= 2 && limit >= 3
    ensures Selection(selected, n) && StartOf(n) <= selected && |selected| <= limit
    ensures NaiveRun(error, threshold, run) && run[0] == StartOf(n) && run[|run| - 1] == selected
    ensures |selected| >= (if limit < n then limit else n) || NoWorse(error, selected, threshold)
  {
    selected := StartOf(n);
    run := [selected];
    var queue, ends: map<nat, nat> := StartQueue(error, n);
    var most := if limit < n then limit else n;
    StartSize(n);
    while |selected| < most
      invariant Selection(selected, n) && StartOf(n) <= selected && |selected| <= limit
      invariant QueueFor(error, selected, queue, {}) && Chain(ends, selected)
      invariant NaiveRun(error, threshold, run) && run[0] == StartOf(n) && run[|run| - 1] == selected
      decreases most - |selected|
    {
      HeadIsWorst(error, selected, queue);
      if queue == [] || queue[0].worst <= threshold {
        break;
      }
      LongerRun(error, threshold, run, queue[0]);
      selected, queue, ends := SplitHead(error, n, selected, queue, ends);
      run := run + [selected];
    }
    if |selected| < most { HeadIsWorst(error, selected, queue); }
  }

  lemma LongerRun(error: ErrorOf, threshold: real, run: seq<set<nat>>, e: Entry)
    requires NaiveRun(error, threshold, run) && e.worst > threshold
    requires EntryOk(error, run[|run| - 1], e) && NoWorse(error, run[|run| - 1], e.worst)
    ensures NaiveRun(error, threshold, run + [run[|run| - 1] + {e.candidate}])
  {
    assert error(e.candidate, e.left, e.right) > threshold;
    assert WorstSplit(error, run[|run| - 1], run[|run| - 1] + {e.candidate});
  }

  /** Splits the segment at the head of the queue. */
  method SplitHead(error: ErrorOf, ghost n: nat, selected: set<nat>, queue: seq<Entry>, ends: map<nat, nat>)
    returns (larger: set<nat>, longer: seq<Entry>, linked: map<nat, nat>)
    requires Errors(error) && Selection(selected, n) && queue != []
    requires QueueFor(error, selected, queue, {}) && Chain(ends, selected)
    ensures larger == selected + {queue[0].candidate} && |larger| == |selected| + 1 && Selection(larger, n)
    ensures QueueFor(error, larger, longer, {}) && Chain(linked, larger)
  {
    var head := queue[0];
    assert head in queue && EntryOk(error, selected, head);
    // An entry of a segment that was split since would be dropped instead; there never
    // is one.
    assert head.left in ends && ends[head.left] == head.right;
    SplitKeeps(error, selected, queue);
    ChainSplit(ends, selected, head.left, head.candidate, head.right);
    larger := selected + {head.candidate};
    linked := Linked(Linked(ends, head.left, head.candidate), head.candidate, head.right);
    longer := PushHalves(error, selected, queue[1..], head);
  }

  /** Queues both halves of a segment that was split. */
  method PushHalves(error: ErrorOf, ghost before: set<nat>, queue: seq<Entry>, head: Entry)
    returns (longer: seq<Entry>)
    requires Errors(error) && EntryOk(error, before, head)
    requires QueueFor(error, before + {head.candidate}, queue, {head.left, head.candidate})
    ensures QueueFor(error, before + {head.candidate}, longer, {})
  {
    ghost var selected := before + {head.candidate};
    GapSplit(before, head.left, head.candidate, head.right, head.left, head.candidate);
    GapSplit(before, head.left, head.candidate, head.right, head.candidate, head.right);
    longer := PushSegment(error, selected, queue, {head.left, head.candidate}, head.left, head.candidate);
    longer := PushSegment(error, selected, longer,
      {head.left, head.candidate} - {head.left}, head.candidate, head.right);
    assert {head.left, head.candidate} - {head.left} - {head.candidate} == {};
  }

  lemma StartSize(n: nat)
    requires n >= 2
    ensures |StartOf(n)| <= 3 && |StartOf(n)| <= n && Selection(StartOf(n), n)
  {
  }

  /** The starts of the segments from the `i`-th on. */
  ghost function Later(starts: seq<nat>, i: nat): set<nat> {
    set j | i <= j < |starts| - 1 :: starts[j]
  }

  /** One of the first `k` pairs of neighbours in a list. */
  ghost predicate Pair(starts: seq<nat>, k: nat, a: nat, b: nat) {
    exists i :: 0 <= i < k && Adjacent(starts, i, a, b)
  }

  ghost predicate Adjacent(starts: seq<nat>, i: int, a: nat, b: nat) {
    0 <= i < |starts| - 1 && starts[i] == a && starts[i + 1] == b
  }

  /** The neighbours in a list are the neighbours in the set. */
  lemma SortedGap(selected: set<nat>, starts: seq<nat>, a: nat, b: nat)
    requires Increasing(starts) && forall x :: x in starts <==> x in selected
    ensures Gap(selected, a, b) <==> Pair(starts, |starts|, a, b)
  {
    if i :| 0 <= i < |starts| && Adjacent(starts, i, a, b) {
      AdjacentGap(selected, starts, i);
    }
    if Gap(selected, a, b) {
      var i :| 0 <= i < |starts| && starts[i] == a;
      var j :| 0 <= j < |starts| && starts[j] == b;
      assert starts[i + 1] in starts;
      assert Adjacent(starts, i, a, b);
    }
  }

  lemma AdjacentGap(selected: set<nat>, starts: seq<nat>, i: nat)
    requires Increasing(starts) && forall x :: x in starts <==> x in selected
    requires i < |starts| - 1
    ensures Gap(selected, starts[i], starts[i + 1])
  {
    forall j | 0 <= j < |starts| ensures !(starts[i] < starts[j] < starts[i + 1]) {
      assert j <= i || i + 1 <= j;
    }
  }

  /** The ends of the first `k` segments are noted, and no others. */
  ghost predicate Noted(starts: seq<nat>, ends: map<nat, nat>, k: nat) {
    forall a: nat, b: nat :: Links(ends, a, b) <==> Pair(starts, k, a, b)
  }

  function Linked(ends: map<nat, nat>, start: nat, end: nat): map<nat, nat> { ends[start := end] }

  lemma OnePair(starts: seq<nat>, k: nat, a: nat, b: nat)
    requires Increasing(starts) && k < |starts| - 1
    ensures Pair(starts, k + 1, a, b) <==> Pair(starts, k, a, b) || (a == starts[k] && b == starts[k + 1])
    ensures a == starts[k] ==> !Pair(starts, k, a, b)
  {
    if i :| 0 <= i < k + 1 && Adjacent(starts, i, a, b) {
      assert i == k || Pair(starts, k, a, b);
    }
    if a == starts[k] && b == starts[k + 1] {
      assert Adjacent(starts, k, a, b);
    }
  }

  lemma NoteOne(starts: seq<nat>, ends: map<nat, nat>, k: nat)
    requires Increasing(starts) && k < |starts| - 1 && Noted(starts, ends, k)
    ensures Noted(starts, Linked(ends, starts[k], starts[k + 1]), k + 1)
  {
    var linked := Linked(ends, starts[k], starts[k + 1]);
    forall a: nat, b: nat ensures Links(linked, a, b) <==> Pair(starts, k + 1, a, b) {
      OnePair(starts, k, a, b);
    }
  }

  method StartQueue(error: ErrorOf, n: nat) returns (queue: seq<Entry>, ends: map<nat, nat>)
    requires Errors(error) && n >= 2
    ensures QueueFor(error, StartOf(n), queue, {}) && Chain(ends, StartOf(n))
  {
    var starts := SortedSet(StartOf(n));
    ghost var selected := StartOf(n);
    assert 0 in starts;
    queue, ends := [], map[];
    NothingQueued(error, selected, starts);
    for i := 0 to |starts| - 1
      invariant QueueFor(error, selected, queue, Later(starts, i))
      invariant Noted(starts, ends, i)
    {
      NoteOne(starts, ends, i);
      AdjacentGap(selected, starts, i);
      ends := Linked(ends, starts[i], starts[i + 1]);
      queue := PushSegment(error, selected, queue, Later(starts, i), starts[i], starts[i + 1]);
      assert Later(starts, i) - {starts[i]} == Later(starts, i + 1);
    }
    assert Later(starts, |starts| - 1) == {};
    forall a: nat, b: nat ensures Gap(selected, a, b) <==> Links(ends, a, b) {
      SortedGap(selected, starts, a, b);
      assert Pair(starts, |starts|, a, b) <==> Pair(starts, |starts| - 1, a, b);
    }
  }

  lemma NothingQueued(error: ErrorOf, selected: set<nat>, starts: seq<nat>)
    requires Increasing(starts) && forall x :: x in starts <==> x in selected
    ensures QueueFor(error, selected, [], Later(starts, 0))
  {
    forall a: nat, b: nat | Gap(selected, a, b) ensures a in Later(starts, 0) {
      SortedGap(selected, starts, a, b);
    }
  }
}

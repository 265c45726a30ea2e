/**
 The histogram audit (`audit_phase` in `tests/measurement_audit.py`): from bucket
 counts and the few samples above the histogram it reconstructs exact order
 statistics of a population whose raw samples were never stored.
 */
module MeasurementAudit {
  import opened Optional
  import opened OrderStatistics

  const VERSION := 2
  const BOUNDARY_US := 100000
  const BOUNDARY_NS := 100000000
  const MAXIMUM := 0x7FFF_FFFF_FFFF_FFFF

  datatype Outcome = Completed | Rejected | Unknown | NotSent | Other(text: string)

  /** One log line of the audited phase. */
  datatype Row =
    | Outcomes(worker: int, completed: int, rejected: int, unknown: int, notSent: int, last: int, accepted: int)
    | TailBuffer(worker: int, version: int, lost: int, capacity: int, count: int)
    | Overflow(worker: int, lowerUs: int, maxNs: int, count: int)
    | Tail(worker: int, sequence: int, elapsedNs: int)
    | Range(worker: int, first: int, last: int, outcome: Outcome)
    | Bucket(worker: int, upperUs: int, count: int)

  predicate IsInteger(v: int, minimum: int, maximum: int) { minimum <= v <= maximum }

  // ---------- selections ----------

  function Tails(rows: seq<Row>, w: int): seq<Row> {
    if rows == [] then []
    else
      var last := rows[|rows| - 1];
      Tails(rows[..|rows| - 1], w) + if last.Tail? && last.worker == w then [last] else []
  }

  function Ranges(rows: seq<Row>, w: int): seq<Row> {
    if rows == [] then []
    else
      var last := rows[|rows| - 1];
      Ranges(rows[..|rows| - 1], w) + if last.Range? && last.worker == w then [last] else []
  }

  function Buckets(rows: seq<Row>, w: int): seq<Row> {
    if rows == [] then []
    else
      var last := rows[|rows| - 1];
      Buckets(rows[..|rows| - 1], w) + if last.Bucket? && last.worker == w then [last] else []
  }

  // ---------- the sequence ranges ----------

  function Counted(ranges: seq<Row>, outcome: Outcome): int
    requires forall r :: r in ranges ==> r.Range?
  {
    if ranges == [] then 0
    else
      var r := ranges[|ranges| - 1];
      Counted(ranges[..|ranges| - 1], outcome) + if r.outcome == outcome then r.last - r.first + 1 else 0
  }

  /** The ranges follow each other without gap or overlap, from 1 up to `last`. */
  predicate Contiguous(ranges: seq<Row>, last: int)
    requires forall r :: r in ranges ==> r.Range?
    decreases |ranges|
  {
    if ranges == [] then last == 0
    else
      var r := ranges[|ranges| - 1];
      && r.last == last && r.first <= r.last && r.first >= 1 && r.last <= MAXIMUM && !r.outcome.Other?
      && Contiguous(ranges[..|ranges| - 1], r.first - 1)
  }

  predicate Holds(r: Row, sequence: int)
    requires r.Range?
  {
    r.first <= sequence <= r.last
  }

  /** A contiguous log is a partition: each sequence number from 1 to `last` lies in exactly one range. */
  lemma {:induction false} RangesPartition(ranges: seq<Row>, last: int, sequence: int)
    requires (forall r :: r in ranges ==> r.Range?) && Contiguous(ranges, last)
    ensures 1 <= sequence <= last <==> exists k :: 0 <= k < |ranges| && Holds(ranges[k], sequence)
    ensures forall i, j :: 0 <= i < j < |ranges| && Holds(ranges[i], sequence) ==> !Holds(ranges[j], sequence)
    decreases |ranges|
  {
    if ranges != [] {
      var k := |ranges| - 1;
      var before := ranges[..k];
      RangesPartition(before, ranges[k].first - 1, sequence);
      if exists i :: 0 <= i < |before| && Holds(before[i], sequence) {
        var i :| 0 <= i < |before| && Holds(before[i], sequence);
        assert Holds(ranges[i], sequence);
      }
      forall i, j | 0 <= i < j < |ranges| && Holds(ranges[i], sequence) ensures !Holds(ranges[j], sequence) {
        assert Holds(before[i], sequence);
      }
    }
  }

  /** The sequence numbers with a given outcome. */
  function Numbers(ranges: seq<Row>, outcome: Outcome): set<int>
    requires forall r :: r in ranges ==> r.Range?
  {
    if ranges == [] then {}
    else
      var r := ranges[|ranges| - 1];
      Numbers(ranges[..|ranges| - 1], outcome) + if r.outcome == outcome then Interval(r.first, r.last) else {}
  }

  predicate Within(k: int, first: int, last: int) { first <= k <= last }

  function Interval(first: int, last: int): set<int> { set k | first <= k <= last && Within(k, first, last) }

  lemma {:induction false} IntervalSize(first: int, last: int)
    requires first <= last + 1
    ensures |Interval(first, last)| == last - first + 1
    decreases last - first + 1
  {
    if first <= last {
      IntervalSize(first, last - 1);
      assert Interval(first, last) == Interval(first, last - 1) + {last} by {
        forall k ensures k in Interval(first, last) <==> k in Interval(first, last - 1) + {last} {
          assert Within(k, first, last) <==> Within(k, first, last - 1) || (k == last && first <= last);
        }
      }
    } else {
      assert forall k :: Within(k, first, last) ==> false;
      assert Interval(first, last) == {};
    }
  }

  /** The outcome counters count sequence numbers: none twice, and none beyond the last. */
  lemma {:induction false} CountsAreNumbers(ranges: seq<Row>, last: int, outcome: Outcome)
    requires (forall r :: r in ranges ==> r.Range?) && Contiguous(ranges, last)
    ensures |Numbers(ranges, outcome)| == Counted(ranges, outcome)
    ensures forall k :: k in Numbers(ranges, outcome) ==> 1 <= k <= last
    decreases |ranges|
  {
    if ranges != [] {
      var r, before := ranges[|ranges| - 1], ranges[..|ranges| - 1];
      CountsAreNumbers(before, r.first - 1, outcome);
      IntervalSize(r.first, r.last);
      forall k | k in Interval(r.first, r.last) ensures Within(k, r.first, r.last) && k !in Numbers(before, outcome) {
      }
      assert Numbers(before, outcome) !! Interval(r.first, r.last);
    }
  }

  // ---------- the population ----------

  /** What one line adds to the population: a bucket's ceiling as often as counted, or one tail sample. */
  ghost function Contribution(r: Row): multiset<int> {
    if r.Bucket? && r.count >= 0 then multiset(Repeat(r.upperUs * 1000, r.count))
    else if r.Tail? then multiset{r.elapsedNs}
    else multiset{}
  }

  /** The samples of the workers in `ws`. */
  ghost function Population(rows: seq<Row>, ws: set<int>): multiset<int> {
    if rows == [] then multiset{}
    else
      var r := rows[|rows| - 1];
      Population(rows[..|rows| - 1], ws) + if r.worker in ws then Contribution(r) else multiset{}
  }

  lemma {:induction false} PopulationSplits(rows: seq<Row>, ws: set<int>, w: int)
    requires w !in ws
    ensures Population(rows, ws + {w}) == Population(rows, ws) + Population(rows, {w})
  {
    if rows != [] {
      PopulationSplits(rows[..|rows| - 1], ws, w);
    }
  }

  lemma {:induction false} PopulationSame(rows: seq<Row>, a: set<int>, b: set<int>)
    requires forall r :: r in rows && (r.Tail? || r.Bucket?) ==> (r.worker in a <==> r.worker in b)
    ensures Population(rows, a) == Population(rows, b)
  {
    if rows != [] {
      var r := rows[|rows| - 1];
      assert r in rows;
      PopulationSame(rows[..|rows| - 1], a, b);
    }
  }

  function BucketTotal(buckets: seq<Row>): int
    requires forall r :: r in buckets ==> r.Bucket?
  {
    if buckets == [] then 0 else BucketTotal(buckets[..|buckets| - 1]) + buckets[|buckets| - 1].count
  }

  ghost function BucketBag(buckets: seq<Row>): multiset<int> {
    if buckets == [] then multiset{}
    else BucketBag(buckets[..|buckets| - 1]) + Contribution(buckets[|buckets| - 1])
  }

  function Samples(tails: seq<Row>): seq<int>
    requires forall r :: r in tails ==> r.Tail?
  {
    if tails == [] then [] else Samples(tails[..|tails| - 1]) + [tails[|tails| - 1].elapsedNs]
  }

  lemma {:induction false} Selections(rows: seq<Row>, w: int)
    ensures forall r :: r in Tails(rows, w) <==> r in rows && r.Tail? && r.worker == w
    ensures forall r :: r in Ranges(rows, w) <==> r in rows && r.Range? && r.worker == w
    ensures forall r :: r in Buckets(rows, w) <==> r in rows && r.Bucket? && r.worker == w
  {
    if rows != [] {
      var k := |rows| - 1;
      Selections(rows[..k], w);
      assert rows == rows[..k] + [rows[k]];
    }
  }

  lemma {:induction false} BagAppended(b: seq<Row>, r: Row)
    ensures BucketBag(b + [r]) == BucketBag(b) + Contribution(r)
  {
    assert (b + [r])[..|b|] == b;
  }

  lemma {:induction false} SampleAppended(t: seq<Row>, r: Row)
    requires r.Tail? && forall x :: x in t ==> x.Tail?
    ensures (forall x :: x in t + [r] ==> x.Tail?)
        && multiset(Samples(t + [r])) == multiset(Samples(t)) + Contribution(r)
  {
    assert (t + [r])[..|t|] == t;
  }

  function LastRow(rows: seq<Row>): Row
    requires rows != []
  {
    rows[|rows| - 1]
  }

  /** What the last line adds to one worker's buckets, ... */
  ghost function InBuckets(r: Row, w: int): multiset<int> {
    if r.worker == w && r.Bucket? then Contribution(r) else multiset{}
  }

  /** ... to its tails, ... */
  ghost function InTails(r: Row, w: int): multiset<int> {
    if r.worker == w && r.Tail? then Contribution(r) else multiset{}
  }

  lemma {:induction false} BucketStep(rows: seq<Row>, w: int)
    requires rows != []
    ensures BucketBag(Buckets(rows, w)) == BucketBag(Buckets(rows[..|rows| - 1], w)) + InBuckets(LastRow(rows), w)
  {
    if LastRow(rows).worker == w && LastRow(rows).Bucket? {
      BagAppended(Buckets(rows[..|rows| - 1], w), LastRow(rows));
    } else {
      assert Buckets(rows, w) == Buckets(rows[..|rows| - 1], w);
    }
  }

  lemma {:induction false} TailStep(rows: seq<Row>, w: int)
    requires rows != [] && forall x :: x in Tails(rows[..|rows| - 1], w) ==> x.Tail?
    ensures forall x :: x in Tails(rows, w) ==> x.Tail?
    ensures multiset(Samples(Tails(rows, w)))
         == multiset(Samples(Tails(rows[..|rows| - 1], w))) + InTails(LastRow(rows), w)
  {
    if LastRow(rows).worker == w && LastRow(rows).Tail? {
      SampleAppended(Tails(rows[..|rows| - 1], w), LastRow(rows));
    } else {
      assert Tails(rows, w) == Tails(rows[..|rows| - 1], w);
    }
  }

  /** ... and to its population. */
  lemma {:induction false} PopulationStep(rows: seq<Row>, w: int)
    requires rows != []
    ensures Population(rows, {w})
         == Population(rows[..|rows| - 1], {w}) + (InBuckets(LastRow(rows), w) + InTails(LastRow(rows), w))
  {
  }

  lemma Regrouped(all: multiset<int>, a: multiset<int>, b: multiset<int>, x: multiset<int>, y: multiset<int>)
    requires all == a + b
    ensures all + (x + y) == (a + x) + (b + y)
  {
  }

  /** One worker's population is its buckets and its tails. */
  lemma {:induction false} WorkerPopulation(rows: seq<Row>, w: int)
    ensures forall r :: r in Tails(rows, w) ==> r.Tail?
    ensures Population(rows, {w}) == BucketBag(Buckets(rows, w)) + multiset(Samples(Tails(rows, w)))
  {
    if rows != [] {
      var before, r := rows[..|rows| - 1], LastRow(rows);
      WorkerPopulation(before, w);
      BucketStep(rows, w);
      TailStep(rows, w);
      PopulationStep(rows, w);
      Regrouped(Population(before, {w}), BucketBag(Buckets(before, w)), multiset(Samples(Tails(before, w))),
                InBuckets(r, w), InTails(r, w));
    }
  }

  lemma {:induction false} SamplesAt(tails: seq<Row>)
    requires forall r :: r in tails ==> r.Tail?
    ensures |Samples(tails)| == |tails| && forall i :: 0 <= i < |tails| ==> Samples(tails)[i] == tails[i].elapsedNs
  {
    if tails != [] {
      SamplesAt(tails[..|tails| - 1]);
    }
  }

  // ---------- one worker ----------

  predicate RangesOk(ranges: seq<Row>, o: Row)
    requires o.Outcomes? && forall r :: r in ranges ==> r.Range?
  {
    && IsInteger(o.last, 0, MAXIMUM) && Contiguous(ranges, o.last)
    && Counted(ranges, Completed) == o.completed && Counted(ranges, Rejected) == o.rejected
    && Counted(ranges, Unknown) == o.unknown && Counted(ranges, NotSent) == o.notSent
    && o.accepted == o.completed + o.unknown + o.notSent
  }

  predicate TailsOk(tails: seq<Row>, ranges: seq<Row>, last: int, maxNs: int)
    requires (forall r :: r in tails ==> r.Tail?) && forall r :: r in ranges ==> r.Range?
  {
    && (forall i, j :: 0 <= i < j < |tails| ==> tails[i].sequence != tails[j].sequence)
    && (forall i :: 0 <= i < |tails| ==>
          && IsInteger(tails[i].sequence, 1, last) && IsInteger(tails[i].elapsedNs, BOUNDARY_NS, maxNs)
          && exists r :: r in ranges && r.outcome.Completed? && Holds(r, tails[i].sequence))
    && (tails != [] ==> exists i :: 0 <= i < |tails| && tails[i].elapsedNs == maxNs)
  }

  function Uppers(buckets: seq<Row>): set<int>
    requires forall r :: r in buckets ==> r.Bucket?
  {
    set r | r in buckets :: r.upperUs
  }

  predicate GoodBucket(r: Row)
    requires r.Bucket?
  {
    IsInteger(r.upperUs, 10, BOUNDARY_US) && r.upperUs % 10 == 0 && IsInteger(r.count, 1, MAXIMUM)
  }

  /** Every bucket is in range, ten microseconds wide, nonempty, and unlike the ones before it. */
  predicate BucketsOk(buckets: seq<Row>)
    requires forall r :: r in buckets ==> r.Bucket?
  {
    if buckets == [] then true
    else
      var r, before := buckets[|buckets| - 1], buckets[..|buckets| - 1];
      BucketsOk(before) && r.upperUs !in Uppers(before) && GoodBucket(r)
  }

  predicate HeadersOk(o: Row, b: Row, v: Row, tails: nat)
    requires o.Outcomes? && b.TailBuffer? && v.Overflow?
  {
    && IsInteger(o.completed, 0, MAXIMUM) && IsInteger(o.rejected, 0, MAXIMUM) && IsInteger(o.unknown, 0, MAXIMUM)
    && IsInteger(o.notSent, 0, MAXIMUM)
    && b.version == VERSION && b.lost == 0 && IsInteger(b.capacity, 1, MAXIMUM)
    && v.lowerUs == BOUNDARY_US && IsInteger(v.maxNs, 0, MAXIMUM)
    && tails == b.count == v.count && IsInteger(b.count, 0, MAXIMUM) && tails <= b.capacity
  }

  predicate WorkerOk(rows: seq<Row>, o: Row, b: Row, v: Row)
    requires o.Outcomes? && b.TailBuffer? && v.Overflow?
  {
    Selections(rows, o.worker);
    var tails, ranges, buckets := Tails(rows, o.worker), Ranges(rows, o.worker), Buckets(rows, o.worker);
    && HeadersOk(o, b, v, |tails|) && RangesOk(ranges, o) && TailsOk(tails, ranges, o.last, v.maxNs)
        && BucketsOk(buckets)
    && BucketTotal(buckets) + |tails| == o.completed
  }

  function LastOf(ranges: seq<Row>): int
    requires forall r :: r in ranges ==> r.Range?
  {
    if ranges == [] then 0 else ranges[|ranges| - 1].last
  }

  /** A contiguous log is contiguous up to every cut. */
  lemma {:induction false} ContiguousPrefix(ranges: seq<Row>, last: int, i: nat)
    requires (forall r :: r in ranges ==> r.Range?) && Contiguous(ranges, last) && i <= |ranges|
    ensures forall r :: r in ranges[..i] ==> r.Range?
    ensures Contiguous(ranges[..i], LastOf(ranges[..i])) && last == LastOf(ranges)
    ensures i < |ranges| ==>
      ranges[i].first == LastOf(ranges[..i]) + 1 <= ranges[i].last <= MAXIMUM && !ranges[i].outcome.Other?
    decreases |ranges|
  {
    assert forall r :: r in ranges[..i] ==> r in ranges;
    if i == |ranges| {
      assert ranges[..i] == ranges;
    } else {
      var k := |ranges| - 1;
      ContiguousPrefix(ranges[..k], ranges[k].first - 1, i);
      assert ranges[..k][..i] == ranges[..i];
      if i < k {
        assert ranges[..k][i] == ranges[i];
      } else {
        assert ranges[..i] == ranges[..k];
      }
    }
  }

  /** The range loop: running `expected`, and one counter an outcome. */
  method CheckRanges(ranges: seq<Row>, o: Row) returns (ok: bool)
    requires o.Outcomes? && forall r :: r in ranges ==> r.Range?
    ensures ok <==> RangesOk(ranges, o)
  {
    var expected := 1;
    var completed, rejected, unknown, notSent := 0, 0, 0, 0;
    for i := 0 to |ranges|
      invariant forall r :: r in ranges[..i] ==> r.Range?
      invariant Contiguous(ranges[..i], expected - 1) && expected == LastOf(ranges[..i]) + 1 >= 1
      invariant completed == Counted(ranges[..i], Completed) && rejected == Counted(ranges[..i], Rejected)
      invariant unknown == Counted(ranges[..i], Unknown) && notSent == Counted(ranges[..i], NotSent)
    {
      var r := ranges[i];
      assert ranges[..i + 1][..i] == ranges[..i] && ranges[..i + 1][i] == r;
      assert forall x :: x in ranges[..i + 1] ==> x in ranges;
      if r.first != expected || !IsInteger(r.last, expected, MAXIMUM) || r.outcome.Other? {
        if RangesOk(ranges, o) {
          ContiguousPrefix(ranges, o.last, i);
        }
        return false;
      }
      var width := r.last - expected + 1;
      match r.outcome {
        case Completed => completed := completed + width;
        case Rejected => rejected := rejected + width;
        case Unknown => unknown := unknown + width;
        case NotSent => notSent := notSent + width;
      }
      expected := r.last + 1;
    }
    assert ranges[..|ranges|] == ranges;
    if Contiguous(ranges, o.last) {
      ContiguousPrefix(ranges, o.last, |ranges|);
    }
    ok := IsInteger(o.last, 0, MAXIMUM) && expected == o.last + 1
          && completed == o.completed && rejected == o.rejected && unknown == o.unknown && notSent == o.notSent
          && o.accepted == o.completed + unknown + notSent;
  }

  /** The tail loop: distinct keys inside completed ranges, samples between the boundary and the maximum. */
  method CheckTails(tails: seq<Row>, ranges: seq<Row>, last: int, maxNs: int) returns (ok: bool)
    requires (forall r :: r in tails ==> r.Tail?) && forall r :: r in ranges ==> r.Range?
    ensures ok <==> TailsOk(tails, ranges, last, maxNs)
  {
    var seen: set<int> := {};
    var reached := false;
    for i := 0 to |tails|
      invariant forall x :: x in seen <==> exists j :: 0 <= j < i && tails[j].sequence == x
      invariant forall j, k :: 0 <= j < k < i ==> tails[j].sequence != tails[k].sequence
      invariant forall j :: 0 <= j < i ==>
        && IsInteger(tails[j].sequence, 1, last) && IsInteger(tails[j].elapsedNs, BOUNDARY_NS, maxNs)
        && exists r :: r in ranges && r.outcome.Completed? && Holds(r, tails[j].sequence)
      invariant reached <==> exists j :: 0 <= j < i && tails[j].elapsedNs == maxNs
    {
      var t := tails[i];
      if !IsInteger(t.sequence, 1, last) || t.sequence in seen
         || !(exists r :: r in ranges && r.outcome.Completed? && Holds(r, t.sequence))
         || !IsInteger(t.elapsedNs, BOUNDARY_NS, maxNs) {
        return false;
      }
      seen := seen + {t.sequence};
      reached := reached || t.elapsedNs == maxNs;
    }
    ok := tails == [] || reached;
  }

  lemma {:induction false} BucketsGrow(b: seq<Row>, r: Row, histogram: map<int, nat>)
    requires r.Bucket? && forall x :: x in b ==> x.Bucket?
    ensures forall x :: x in b + [r] ==> x.Bucket?
    ensures BucketTotal(b + [r]) == BucketTotal(b) + r.count
    ensures Merged(histogram, b + [r]) == Plus(Merged(histogram, b), r.upperUs, if r.count >= 0 then r.count else 0)
    ensures Uppers(b + [r]) == Uppers(b) + {r.upperUs}
    ensures BucketsOk(b + [r]) <==> BucketsOk(b) && r.upperUs !in Uppers(b) && GoodBucket(r)
  {
    assert (b + [r])[..|b|] == b && (b + [r])[|b|] == r;
  }

  lemma {:induction false} BucketsOkPrefix(buckets: seq<Row>, i: nat)
    requires i <= |buckets| && (forall r :: r in buckets ==> r.Bucket?) && BucketsOk(buckets)
    ensures (forall r :: r in buckets[..i] ==> r.Bucket?) && BucketsOk(buckets[..i])
  {
    if i == |buckets| {
      assert buckets[..i] == buckets;
    } else {
      var front := buckets[..|buckets| - 1];
      assert forall r :: r in front ==> r in buckets;
      BucketsOkPrefix(front, i);
      assert front[..i] == buckets[..i];
    }
  }

  lemma {:induction false} BucketRefused(buckets: seq<Row>, i: nat)
    requires i <= |buckets| && (forall r :: r in buckets ==> r.Bucket?) && (forall r :: r in buckets[..i] ==> r.Bucket?)
    requires !BucketsOk(buckets[..i])
    ensures !BucketsOk(buckets)
  {
    if BucketsOk(buckets) {
      BucketsOkPrefix(buckets, i);
    }
  }

  /** The histogram after a worker's buckets. */
  function Merged(histogram: map<int, nat>, buckets: seq<Row>): map<int, nat>
    requires forall r :: r in buckets ==> r.Bucket?
  {
    if buckets == [] then histogram
    else
      var r := buckets[|buckets| - 1];
      Plus(Merged(histogram, buckets[..|buckets| - 1]), r.upperUs, if r.count >= 0 then r.count else 0)
  }

  lemma {:induction false} MergedBag(histogram: map<int, nat>, buckets: seq<Row>)
    requires (forall r :: r in buckets ==> r.Bucket?) && BucketsOk(buckets)
    ensures Bag(Merged(histogram, buckets)) == Bag(histogram) + BucketBag(buckets)
    ensures forall k :: k in Merged(histogram, buckets).Keys ==> k in histogram.Keys || 10 <= k <= BOUNDARY_US
    ensures |BucketBag(buckets)| == BucketTotal(buckets)
  {
    if buckets != [] {
      var k := |buckets| - 1;
      assert forall r :: r in buckets[..k] ==> r in buckets;
      MergedBag(histogram, buckets[..k]);
      BagGrows(Merged(histogram, buckets[..k]), buckets[k].upperUs, buckets[k].count);
      assert |multiset(Repeat(buckets[k].upperUs * 1000, buckets[k].count))| == buckets[k].count;
    }
  }

  /** What the bucket loop has established after the buckets in `done`. */
  ghost predicate MergedTo(done: seq<Row>, histogram: map<int, nat>, uppers: set<int>, merged: map<int, nat>,
      finite: int) {
    && (forall r :: r in done ==> r.Bucket?) && BucketsOk(done) && uppers == Uppers(done)
    && finite == BucketTotal(done) && merged == Merged(histogram, done)
  }

  lemma {:induction false} MergedMore(
    buckets: seq<Row>, i: nat, histogram: map<int, nat>, uppers: set<int>, merged: map<int, nat>, finite: int)
    requires i < |buckets| && buckets[i].Bucket? && GoodBucket(buckets[i]) && buckets[i].upperUs !in uppers
    requires MergedTo(buckets[..i], histogram, uppers, merged, finite)
    ensures var r := buckets[i];
            MergedTo(buckets[..i + 1], histogram, uppers + {r.upperUs}, Plus(merged, r.upperUs, r.count),
                finite + r.count)
  {
    assert buckets[..i + 1] == buckets[..i] + [buckets[i]];
    BucketsGrow(buckets[..i], buckets[i], histogram);
  }

  lemma {:induction false} MergeRefused(
    buckets: seq<Row>, i: nat, histogram: map<int, nat>, uppers: set<int>, merged: map<int, nat>, finite: int)
    requires i < |buckets| && (forall r :: r in buckets ==> r.Bucket?)
    requires MergedTo(buckets[..i], histogram, uppers, merged, finite)
    requires buckets[i].upperUs in uppers || !GoodBucket(buckets[i])
    ensures !BucketsOk(buckets)
  {
    assert buckets[..i + 1] == buckets[..i] + [buckets[i]];
    BucketsGrow(buckets[..i], buckets[i], histogram);
    BucketRefused(buckets, i + 1);
  }

  /** The bucket loop: merges the worker's buckets into the histogram. */
  method MergeBuckets(buckets: seq<Row>, histogram: map<int, nat>)
      returns (ok: bool, merged: map<int, nat>, finite: int)
    requires forall r :: r in buckets ==> r.Bucket?
    ensures ok <==> BucketsOk(buckets)
    ensures ok ==> finite == BucketTotal(buckets) && merged == Merged(histogram, buckets)
  {
    merged, finite := histogram, 0;
    var uppers: set<int> := {};
    for i := 0 to |buckets|
      invariant MergedTo(buckets[..i], histogram, uppers, merged, finite)
    {
      var r := buckets[i];
      if r.upperUs in uppers || !GoodBucket(r) {
        MergeRefused(buckets, i, histogram, uppers, merged, finite);
        return false, merged, finite;
      }
      MergedMore(buckets, i, histogram, uppers, merged, finite);
      uppers := uppers + {r.upperUs};
      finite := finite + r.count;
      merged := Plus(merged, r.upperUs, r.count);
    }
    assert buckets[..|buckets|] == buckets;
    ok := true;
  }

  /** All checks of one worker, adding its samples to the accumulators. */
  method AuditWorker(rows: seq<Row>, o: Row, b: Row, v: Row, histogram: map<int, nat>, samples: seq<int>)
    returns (ok: bool, merged: map<int, nat>, collected: seq<int>)
    requires o.Outcomes? && b.TailBuffer? && v.Overflow?
    ensures forall r :: r in Buckets(rows, o.worker) ==> r.Bucket?
    ensures forall r :: r in Tails(rows, o.worker) ==> r.Tail?
    ensures ok <==> WorkerOk(rows, o, b, v)
    ensures ok ==> merged == Merged(histogram, Buckets(rows, o.worker))
    ensures ok ==> collected == samples + Samples(Tails(rows, o.worker))
  {
    ok, merged, collected := false, histogram, samples;
    Selections(rows, o.worker);
    var tails, ranges, buckets := Tails(rows, o.worker), Ranges(rows, o.worker), Buckets(rows, o.worker);
    if HeadersOk(o, b, v, |tails|) {
      var rangesOk := CheckRanges(ranges, o);
      var tailsOk := CheckTails(tails, ranges, o.last, v.maxNs);
      var bucketsOk, h, finite := MergeBuckets(buckets, histogram);
      if rangesOk && tailsOk && bucketsOk && finite + |tails| == o.completed {
        ok, merged, collected := true, h, samples + Samples(tails);
      }
    }
  }

  /** What a checked worker adds: its population, as many samples as it completed, each in its half. */
  ghost predicate Adds(rows: seq<Row>, o: Row, h: map<int, nat>, merged: map<int, nat>, samples: seq<int>)
    requires o.Outcomes?
  {
    && Bag(merged) + multiset(samples) == Bag(h) + Population(rows, {o.worker})
    && |Population(rows, {o.worker})| == o.completed
    && (forall k :: k in merged.Keys ==> k in h.Keys || 10 <= k <= BOUNDARY_US)
    && (forall i :: 0 <= i < |samples| ==> samples[i] >= BOUNDARY_NS)
  }

  lemma {:induction false} AddsFrom(rows: seq<Row>, o: Row, h: map<int, nat>, tails: seq<Row>, buckets: seq<Row>)
    requires o.Outcomes? && tails == Tails(rows, o.worker) && buckets == Buckets(rows, o.worker)
    requires (forall r :: r in tails ==> r.Tail?) && (forall r :: r in buckets ==> r.Bucket?)
    requires BucketsOk(buckets) && BucketTotal(buckets) + |tails| == o.completed
    requires forall i :: 0 <= i < |tails| ==> tails[i].elapsedNs >= BOUNDARY_NS
    ensures Adds(rows, o, h, Merged(h, buckets), Samples(tails))
  {
    var merged, samples := Merged(h, buckets), Samples(tails);
    WorkerPopulation(rows, o.worker);
    SamplesAt(tails);
    MergedBag(h, buckets);
    BagSums(Bag(merged), Bag(h), BucketBag(buckets), multiset(samples), Population(rows, {o.worker}));
    assert |multiset(samples)| == |samples|;
  }

  lemma {:induction false} WorkerAdds(rows: seq<Row>, o: Row, b: Row, v: Row, h: map<int, nat>)
    requires o.Outcomes? && b.TailBuffer? && v.Overflow? && WorkerOk(rows, o, b, v)
    ensures forall r :: r in Buckets(rows, o.worker) ==> r.Bucket?
    ensures forall r :: r in Tails(rows, o.worker) ==> r.Tail?
    ensures Adds(rows, o, h, Merged(h, Buckets(rows, o.worker)), Samples(Tails(rows, o.worker)))
  {
    Selections(rows, o.worker);
    AddsFrom(rows, o, h, Tails(rows, o.worker), Buckets(rows, o.worker));
  }

  lemma BagSums(merged: multiset<int>, h: multiset<int>, buckets: multiset<int>, tails: multiset<int>,
      population: multiset<int>)
    requires merged == h + buckets && population == buckets + tails
    ensures merged + tails == h + population && |population| == |buckets| + |tails|
  {
  }

  // ---------- the phase ----------

  datatype Kind = OutcomesRow | BufferRow | OverflowRow

  predicate Is(r: Row, kind: Kind) {
    match kind
    case OutcomesRow => r.Outcomes?
    case BufferRow => r.TailBuffer?
    case OverflowRow => r.Overflow?
  }

  /** One row of a kind for each worker, keyed by worker. */
  ghost predicate Keyed(rows: seq<Row>, kind: Kind, m: map<int, Row>) {
    && (forall w :: w in m ==> Is(m[w], kind) && m[w].worker == w && m[w] in rows && IsInteger(w, 0, MAXIMUM))
    && (forall k :: 0 <= k < |rows| && Is(rows[k], kind) ==> rows[k].worker in m && m[rows[k].worker] == rows[k])
    && Unrepeated(rows, kind)
  }

  predicate Unrepeated(rows: seq<Row>, kind: Kind) {
    && (forall k :: 0 <= k < |rows| && Is(rows[k], kind) ==> IsInteger(rows[k].worker, 0, MAXIMUM))
    && (forall i, j :: 0 <= i < j < |rows| && Is(rows[i], kind) && Is(rows[j], kind) ==>
          rows[i].worker != rows[j].worker)
  }

  /** `unique`. */
  method Unique(rows: seq<Row>, kind: Kind) returns (found: Option<map<int, Row>>)
    ensures found.Some? <==> Unrepeated(rows, kind)
    ensures found.Some? ==> Keyed(rows, kind, found.value)
  {
    var m: map<int, Row> := map[];
    for k := 0 to |rows|
      invariant Keyed(rows[..k], kind, m)
    {
      var r := rows[k];
      assert rows[..k + 1] == rows[..k] + [r];
      if Is(r, kind) {
        if !IsInteger(r.worker, 0, MAXIMUM) { return None; }
        if r.worker in m {
          assert m[r.worker] in rows[..k];
          return None;
        }
        m := m[r.worker := r];
      }
    }
    assert rows[..|rows|] == rows;
    found := Some(m);
  }

  function Workers(rows: seq<Row>, kind: Kind): set<int> { set r | r in rows && Is(r, kind) :: r.worker }

  /** The row of a kind that a worker wrote. */
  function RowOf(rows: seq<Row>, kind: Kind, w: int): (r: Row)
    requires w in Workers(rows, kind)
    ensures r in rows && Is(r, kind) && r.worker == w
  {
    var k := |rows| - 1;
    if Is(rows[k], kind) && rows[k].worker == w then rows[k]
    else
      assert w in Workers(rows[..k], kind) by {
        var r :| r in rows && Is(r, kind) && r.worker == w;
        assert rows == rows[..k] + [rows[k]];
      }
      RowOf(rows[..k], kind, w)
  }

  /** All the conditions of the audit. */
  ghost predicate PhaseOk(rows: seq<Row>) {
    && Unrepeated(rows, OutcomesRow) && Unrepeated(rows, BufferRow) && Unrepeated(rows, OverflowRow)
    && Workers(rows, OutcomesRow) != {}
    && Workers(rows, OutcomesRow) == Workers(rows, BufferRow) == Workers(rows, OverflowRow)
    && (forall w :: w in Workers(rows, OutcomesRow) ==>
          WorkerOk(rows, RowOf(rows, OutcomesRow, w), RowOf(rows, BufferRow, w), RowOf(rows, OverflowRow, w)))
    && Known(rows, Workers(rows, OutcomesRow))
  }

  /** Tails, buckets and ranges belong to workers that reported an outcome. */
  predicate Known(rows: seq<Row>, workers: set<int>) {
    forall k :: 0 <= k < |rows| && (rows[k].Tail? || rows[k].Bucket? || rows[k].Range?) ==> rows[k].worker in workers
  }

  lemma {:induction false} KeyedWorkers(rows: seq<Row>, kind: Kind, m: map<int, Row>)
    requires Keyed(rows, kind, m)
    ensures m.Keys == Workers(rows, kind)
    ensures forall r :: r in rows && Is(r, kind) ==> r.worker in m && m[r.worker] == r
    ensures forall w :: w in m ==> m[w] == RowOf(rows, kind, w)
  {
    forall r | r in rows && Is(r, kind) ensures r.worker in m && m[r.worker] == r {
      var k :| 0 <= k < |rows| && rows[k] == r;
    }
    forall w | w in m.Keys ensures w in Workers(rows, kind) {
      assert m[w] in rows && Is(m[w], kind) && m[w].worker == w;
    }
    forall w | w in Workers(rows, kind) ensures w in m.Keys {
      var r :| r in rows && Is(r, kind) && r.worker == w;
    }
  }

  ghost predicate Checked(rows: seq<Row>, o: map<int, Row>, b: map<int, Row>, v: map<int, Row>, w: int) {
    && w in o && w in b && w in v && o[w].Outcomes? && o[w].worker == w && b[w].TailBuffer? && v[w].Overflow?
    && WorkerOk(rows, o[w], b[w], v[w])
  }

  ghost predicate AllChecked(rows: seq<Row>, o: map<int, Row>, b: map<int, Row>, v: map<int, Row>, ws: seq<int>)
    ensures AllChecked(rows, o, b, v, ws) ==> forall i :: 0 <= i < |ws| ==> ws[i] in o && o[ws[i]].Outcomes?
  {
    ws == [] || (Checked(rows, o, b, v, ws[|ws| - 1]) && AllChecked(rows, o, b, v, ws[..|ws| - 1]))
  }

  lemma {:induction false} CheckedAt(rows: seq<Row>, o: map<int, Row>, b: map<int, Row>, v: map<int, Row>,
      ws: seq<int>, i: nat)
    requires AllChecked(rows, o, b, v, ws) && i < |ws|
    ensures Checked(rows, o, b, v, ws[i])
    decreases |ws|
  {
    if i < |ws| - 1 {
      CheckedAt(rows, o, b, v, ws[..|ws| - 1], i);
    }
  }

  /** The histogram, the tails and the total after the workers in `ws`. */
  function MergedAll(rows: seq<Row>, ws: seq<int>): map<int, nat> {
    if ws == [] then map[]
    else
      var w := ws[|ws| - 1];
      Selections(rows, w);
      Merged(MergedAll(rows, ws[..|ws| - 1]), Buckets(rows, w))
  }

  function TailsAll(rows: seq<Row>, ws: seq<int>): seq<int> {
    if ws == [] then []
    else
      var w := ws[|ws| - 1];
      Selections(rows, w);
      TailsAll(rows, ws[..|ws| - 1]) + Samples(Tails(rows, w))
  }

  function CompletedAll(o: map<int, Row>, ws: seq<int>): int
    requires forall i :: 0 <= i < |ws| ==> ws[i] in o && o[ws[i]].Outcomes?
  {
    if ws == [] then 0 else CompletedAll(o, ws[..|ws| - 1]) + o[ws[|ws| - 1]].completed
  }

  function SetOf(ws: seq<int>): set<int> { set w | w in ws }

  /** Histogram and tails together are exactly the population `all`, each in its half. */
  ghost predicate Balanced(h: map<int, nat>, t: seq<int>, all: multiset<int>, completed: int) {
    && Bag(h) + multiset(t) == all && completed == |all|
    && (forall k :: k in h.Keys ==> 10 <= k <= BOUNDARY_US)
    && (forall i :: 0 <= i < |t| ==> t[i] >= BOUNDARY_NS)
  }

  /** ... the population of the workers seen. */
  ghost predicate Reconstructs(rows: seq<Row>, o: map<int, Row>, ws: seq<int>)
    requires forall i :: 0 <= i < |ws| ==> ws[i] in o && o[ws[i]].Outcomes?
  {
    Balanced(MergedAll(rows, ws), TailsAll(rows, ws), Population(rows, SetOf(ws)), CompletedAll(o, ws))
  }

  lemma BalancedMore(h: map<int, nat>, t: seq<int>, all: multiset<int>, completed: int,
      merged: map<int, nat>, more: seq<int>, mine: multiset<int>, count: int)
    requires Balanced(h, t, all, completed)
    requires Bag(merged) + multiset(more) == Bag(h) + mine && |mine| == count
    requires forall k :: k in merged.Keys ==> k in h.Keys || 10 <= k <= BOUNDARY_US
    requires forall i :: 0 <= i < |more| ==> more[i] >= BOUNDARY_NS
    ensures Balanced(merged, t + more, all + mine, completed + count)
  {
    Chained(Bag(merged), Bag(h), t, more, all, mine);
    assert forall i :: 0 <= i < |t + more| ==> (t + more)[i] == if i < |t| then t[i] else more[i - |t|];
  }

  lemma {:induction false} Unfold(rows: seq<Row>, o: map<int, Row>, ws: seq<int>, w: int)
    requires (forall i :: 0 <= i < |ws| ==> ws[i] in o && o[ws[i]].Outcomes?) && w in o && o[w].Outcomes?
    requires (forall r :: r in Buckets(rows, w) ==> r.Bucket?) && (forall r :: r in Tails(rows, w) ==> r.Tail?)
    ensures MergedAll(rows, ws + [w]) == Merged(MergedAll(rows, ws), Buckets(rows, w))
    ensures TailsAll(rows, ws + [w]) == TailsAll(rows, ws) + Samples(Tails(rows, w))
    ensures CompletedAll(o, ws + [w]) == CompletedAll(o, ws) + o[w].completed
    ensures SetOf(ws + [w]) == SetOf(ws) + {w}
  {
    assert (ws + [w])[..|ws|] == ws;
  }

  lemma {:induction false} OneMore(rows: seq<Row>, o: map<int, Row>, ws: seq<int>, w: int, merged: map<int, nat>,
      more: seq<int>)
    requires (forall i :: 0 <= i < |ws| ==> ws[i] in o && o[ws[i]].Outcomes?) && w !in ws && w in o && o[w].Outcomes?
        && o[w].worker == w
    requires Balanced(MergedAll(rows, ws), TailsAll(rows, ws), Population(rows, SetOf(ws)), CompletedAll(o, ws))
    requires Adds(rows, o[w], MergedAll(rows, ws), merged, more)
    ensures Balanced(merged, TailsAll(rows, ws) + more, Population(rows, SetOf(ws) + {w}),
        CompletedAll(o, ws) + o[w].completed)
  {
    PopulationSplits(rows, SetOf(ws), w);
    BalancedMore(MergedAll(rows, ws), TailsAll(rows, ws), Population(rows, SetOf(ws)), CompletedAll(o, ws),
                 merged, more, Population(rows, {w}), o[w].completed);
  }

  lemma WorkerJoins(rows: seq<Row>, o: map<int, Row>, b: Row, v: Row, ws: seq<int>, w: int)
    requires (forall i :: 0 <= i < |ws| ==> ws[i] in o && o[ws[i]].Outcomes?) && w !in ws && w in o && o[w].Outcomes?
        && o[w].worker == w
    requires b.TailBuffer? && v.Overflow? && WorkerOk(rows, o[w], b, v) && Reconstructs(rows, o, ws)
    ensures Reconstructs(rows, o, ws + [w])
  {
    var h := MergedAll(rows, ws);
    assert Adds(rows, o[w], h, Merged(h, Buckets(rows, w)), Samples(Tails(rows, w))) by {
      WorkerAdds(rows, o[w], b, v, h);
    }
    OneMore(rows, o, ws, w, Merged(h, Buckets(rows, w)), Samples(Tails(rows, w)));
    Unfold(rows, o, ws, w);
  }

  lemma NoneYet(rows: seq<Row>, o: map<int, Row>)
    ensures Reconstructs(rows, o, [])
  {
    PopulationNone(rows);
    assert SetOf([]) == {};
    var none: map<int, nat> := map[];
    assert none.Keys == {} && Expanded(none, {}) == [];
  }

  lemma {:induction false} WorkersAdd(rows: seq<Row>, o: map<int, Row>, b: map<int, Row>, v: map<int, Row>,
      ws: seq<int>)
    requires AllChecked(rows, o, b, v, ws) && forall i, j :: 0 <= i < j < |ws| ==> ws[i] != ws[j]
    ensures Reconstructs(rows, o, ws)
  {
    if ws == [] {
      NoneYet(rows, o);
    } else {
      var w, front := ws[|ws| - 1], ws[..|ws| - 1];
      assert ws == front + [w];
      assert Checked(rows, o, b, v, w) && AllChecked(rows, o, b, v, front);
      WorkersAdd(rows, o, b, v, front);
      WorkerJoins(rows, o, b[w], v[w], front, w);
    }
  }

  lemma Chained(merged: multiset<int>, h: multiset<int>, t: seq<int>, more: seq<int>, before: multiset<int>,
      mine: multiset<int>)
    requires merged + multiset(more) == h + mine && h + multiset(t) == before
    ensures merged + multiset(t + more) == before + mine && |before + mine| == |before| + |mine|
  {
    assert multiset(t + more) == multiset(t) + multiset(more);
    assert merged + (multiset(t) + multiset(more)) == (merged + multiset(more)) + multiset(t);
    assert (h + mine) + multiset(t) == (h + multiset(t)) + mine;
  }

  lemma {:induction false} PopulationNone(rows: seq<Row>)
    ensures Population(rows, {}) == multiset{}
  {
    if rows != [] {
      PopulationNone(rows[..|rows| - 1]);
    }
  }

  // ---------- quantiles ----------

  datatype Quantile = Quantile(rank: int, tailRank: Option<int>, ns: Option<int>)

  datatype Audit = Audit(completed: int, overflowCount: nat, p50: Quantile, p95: Quantile, p99: Quantile)

  /** `ceil(n * num / den)` over exact rationals. */
  function RankOf(n: nat, num: nat, den: nat): nat
    requires den > 0
  {
    (n * num + den - 1) / den
  }

  lemma RankInRange(n: nat, num: nat, den: nat)
    requires n > 0 && 0 < num <= den
    ensures 1 <= RankOf(n, num, den) <= n
  {
    var x := n * num + den - 1;
    MulLe(n, num, den);
    MulLe(n, 1, num);
    assert x < (n + 1) * den;
    QuotientBelow(x, den, n + 1);
    assert x >= den;
    assert x / den >= 1 by { assert x == den + (x - den); }
  }

  lemma QuotientBelow(x: nat, den: nat, k: nat)
    requires den > 0 && x < k * den
    ensures x / den < k
  {
    if x / den >= k {
      MulLe(den, k, x / den);
    }
  }

  lemma MulLe(a: nat, b: nat, c: nat)
    requires b <= c
    ensures a * b <= a * c
  {
    assert a * c == a * b + a * (c - b);
  }

  /** The `rank`-th smallest of a population, whatever listing of it is sorted. */
  ghost predicate IsOrderStatistic(value: int, population: multiset<int>, rank: int) {
    forall all: seq<int> :: Ascending(all) && multiset(all) == population
        ==> 1 <= rank <= |all| && all[rank - 1] == value
  }

  /** The reported value is exact, and it is taken from the tails just when the rank lies beyond the histogram. */
  ghost predicate Exact(q: Quantile, population: multiset<int>, tails: nat, rank: int) {
    && q.rank == rank
    && (|population| == 0 ==> q.tailRank == None && q.ns == None)
    && (|population| > 0 ==>
          && q.ns.Some? && IsOrderStatistic(q.ns.value, population, rank)
          && q.tailRank == if rank > |population| - tails then Some(rank - (|population| - tails)) else None)
  }

  /** Buckets in ascending order and then the sorted tails list the whole population in order. */
  ghost predicate Lists(h: map<int, nat>, sorted: seq<int>, population: multiset<int>) {
    var listing := Expanded(h, h.Keys) + sorted;
    Ascending(listing) && multiset(listing) == population && |listing| == |population|
  }

  lemma {:induction false} Listing(h: map<int, nat>, t: seq<int>, all: multiset<int>, completed: int)
    requires Balanced(h, t, all, completed)
    ensures Lists(h, Sort(t), all) && |Sort(t)| == |t|
  {
    SortSorts(t);
    ExpandedSorted(h, h.Keys, 10, BOUNDARY_US);
    forall i | 0 <= i < |Sort(t)| ensures BOUNDARY_NS <= Sort(t)[i] {
      assert Sort(t)[i] in multiset(t);
    }
    AppendAscends(Expanded(h, h.Keys), Sort(t), BOUNDARY_NS);
    assert |multiset(Sort(t))| == |Sort(t)| && |multiset(t)| == |t|;
    var listing := Expanded(h, h.Keys) + Sort(t);
    assert |multiset(listing)| == |listing|;
  }

  lemma ListedRank(listing: seq<int>, population: multiset<int>, rank: nat)
    requires Ascending(listing) && multiset(listing) == population && 1 <= rank <= |listing|
    ensures IsOrderStatistic(listing[rank - 1], population, rank)
  {
    forall all: seq<int> | Ascending(all) && multiset(all) == population
      ensures 1 <= rank <= |all| && all[rank - 1] == listing[rank - 1]
    {
      SortedOnce(all, listing);
    }
  }

  method QuantileOf(h: map<int, nat>, sorted: seq<int>, ghost population: multiset<int>, completed: nat, num: nat,
      den: nat)
    returns (q: Quantile)
    requires Lists(h, sorted, population) && completed == |population| && 0 < num <= den
    ensures Exact(q, population, |sorted|, RankOf(completed, num, den))
  {
    if completed > 0 {
      RankInRange(completed, num, den);
    }
    q := QuantileAt(h, sorted, population, completed, RankOf(completed, num, den));
  }

  /** The search for one rank. */
  method QuantileAt(h: map<int, nat>, sorted: seq<int>, ghost population: multiset<int>, completed: nat, rank: nat)
    returns (q: Quantile)
    requires Lists(h, sorted, population) && completed == |population| && (completed > 0 ==> 1 <= rank <= completed)
    ensures Exact(q, population, |sorted|, rank)
  {
    if completed == 0 {
      return Quantile(rank, None, None);
    }
    ghost var listing := Expanded(h, h.Keys) + sorted;
    ListedRank(listing, population, rank);
    var found, upper, total := BucketOfRank(h, rank);
    if found {
      assert listing[rank - 1] == upper * 1000;
      q := Quantile(rank, None, Some(upper * 1000));
    } else {
      assert listing[rank - 1] == sorted[rank - total - 1];
      q := Quantile(rank, Some(rank - total), Some(sorted[rank - total - 1]));
    }
  }

  // ---------- the audit ----------

  ghost predicate EveryWorker(rows: seq<Row>, o: map<int, Row>, b: map<int, Row>, v: map<int, Row>) {
    forall w :: w in o ==> Checked(rows, o, b, v, w)
  }

  predicate Typed(o: map<int, Row>, b: map<int, Row>, v: map<int, Row>) {
    forall w :: w in o ==>
      o[w].Outcomes? && o[w].worker == w && w in b && b[w].TailBuffer? && w in v && v[w].Overflow?
  }

  /** What the loop over workers has established after the workers in `ws`. */
  ghost predicate Seen(rows: seq<Row>, o: map<int, Row>, b: map<int, Row>, v: map<int, Row>, ws: seq<int>,
      h: map<int, nat>, t: seq<int>, completed: int)
  {
    && (forall i, j :: 0 <= i < j < |ws| ==> ws[i] != ws[j]) && AllChecked(rows, o, b, v, ws)
    && h == MergedAll(rows, ws) && t == TailsAll(rows, ws) && completed == CompletedAll(o, ws)
  }

  lemma {:induction false} SeenMore(rows: seq<Row>, o: map<int, Row>, b: map<int, Row>, v: map<int, Row>, ws: seq<int>,
      h: map<int, nat>, t: seq<int>, completed: int, w: int)
    requires Seen(rows, o, b, v, ws, h, t, completed) && Checked(rows, o, b, v, w) && w !in SetOf(ws)
    requires (forall r :: r in Buckets(rows, w) ==> r.Bucket?) && (forall r :: r in Tails(rows, w) ==> r.Tail?)
    ensures Seen(rows, o, b, v, ws + [w], Merged(h, Buckets(rows, w)), t + Samples(Tails(rows, w)),
        completed + o[w].completed)
    ensures SetOf(ws + [w]) == SetOf(ws) + {w}
  {
    assert (ws + [w])[..|ws|] == ws;
    Unfold(rows, o, ws, w);
  }

  lemma {:induction false} SeenAll(rows: seq<Row>, o: map<int, Row>, b: map<int, Row>, v: map<int, Row>, ws: seq<int>,
      h: map<int, nat>, t: seq<int>, completed: int)
    requires Seen(rows, o, b, v, ws, h, t, completed) && SetOf(ws) == o.Keys
    ensures Balanced(h, t, Population(rows, o.Keys), completed) && EveryWorker(rows, o, b, v)
    ensures |t| == TailCount(rows, o.Keys)
  {
    WorkersAdd(rows, o, b, v, ws);
    TailsCounted(rows, ws);
    forall w | w in o ensures Checked(rows, o, b, v, w) {
      assert w in SetOf(ws);
      var i :| 0 <= i < |ws| && ws[i] == w;
      CheckedAt(rows, o, b, v, ws, i);
    }
  }

  /** How many tail samples the workers in `ws` logged. */
  function TailCount(rows: seq<Row>, ws: set<int>): nat {
    if rows == [] then 0
    else TailCount(rows[..|rows| - 1], ws) + if rows[|rows| - 1].Tail? && rows[|rows| - 1].worker in ws then 1 else 0
  }

  lemma {:induction false} TailCountSplits(rows: seq<Row>, ws: set<int>, w: int)
    requires w !in ws
    ensures TailCount(rows, ws + {w}) == TailCount(rows, ws) + |Tails(rows, w)|
  {
    if rows != [] {
      TailCountSplits(rows[..|rows| - 1], ws, w);
    }
  }

  lemma {:induction false} TailCountNone(rows: seq<Row>)
    ensures TailCount(rows, {}) == 0
  {
    if rows != [] {
      TailCountNone(rows[..|rows| - 1]);
    }
  }

  lemma {:induction false} TailsCounted(rows: seq<Row>, ws: seq<int>)
    requires forall i, j :: 0 <= i < j < |ws| ==> ws[i] != ws[j]
    ensures |TailsAll(rows, ws)| == TailCount(rows, SetOf(ws))
  {
    if ws == [] {
      TailCountNone(rows);
      assert SetOf(ws) == {};
    } else {
      var front, w := ws[..|ws| - 1], ws[|ws| - 1];
      TailsCounted(rows, front);
      TailCountSplits(rows, SetOf(front), w);
      OneMoreWorker(rows, ws);
    }
  }

  lemma {:induction false} OneMoreWorker(rows: seq<Row>, ws: seq<int>)
    requires ws != []
    ensures var front, w := ws[..|ws| - 1], ws[|ws| - 1];
            SetOf(ws) == SetOf(front) + {w} && |TailsAll(rows, ws)| == |TailsAll(rows, front)| + |Tails(rows, w)|
  {
    var front, w := ws[..|ws| - 1], ws[|ws| - 1];
    Selections(rows, w);
    SamplesAt(Tails(rows, w));
    assert ws == front + [w];
  }

  method SeeWorker(rows: seq<Row>, o: map<int, Row>, b: map<int, Row>, v: map<int, Row>, ghost ws: seq<int>,
      h: map<int, nat>, t: seq<int>, completed: int, w: int)
    returns (fine: bool, merged: map<int, nat>, collected: seq<int>, total: int)
    requires Typed(o, b, v) && w in o && Seen(rows, o, b, v, ws, h, t, completed) && w !in SetOf(ws)
    ensures fine <==> Checked(rows, o, b, v, w)
    ensures fine ==> Seen(rows, o, b, v, ws + [w], merged, collected, total) && SetOf(ws + [w]) == SetOf(ws) + {w}
  {
    fine, merged, collected := AuditWorker(rows, o[w], b[w], v[w], h, t);
    total := completed + o[w].completed;
    if fine {
      SeenMore(rows, o, b, v, ws, h, t, completed, w);
    }
  }

  /** The loop over workers; it meets them in any order. */
  method AuditWorkers(rows: seq<Row>, o: map<int, Row>, b: map<int, Row>, v: map<int, Row>)
    returns (ok: bool, h: map<int, nat>, t: seq<int>, completed: int, ghost ws: seq<int>)
    requires Typed(o, b, v)
    ensures !ok ==> !EveryWorker(rows, o, b, v)
    ensures ok ==> Seen(rows, o, b, v, ws, h, t, completed) && SetOf(ws) == o.Keys
  {
    var todo := o.Keys;
    h, t, completed, ws := map[], [], 0, [];
    while |todo| > 0
      invariant todo <= o.Keys && SetOf(ws) == o.Keys - todo
      invariant Seen(rows, o, b, v, ws, h, t, completed)
      decreases |todo|
    {
      assert (forall w :: w !in todo) ==> todo == {};
      var w :| w in todo;
      assert w !in SetOf(ws);
      var fine;
      fine, h, t, completed := SeeWorker(rows, o, b, v, ws, h, t, completed, w);
      if !fine { return false, h, t, completed, ws; }
      ws, todo := ws + [w], todo - {w};
    }
    ok := true;
  }

  /** Everything the audit answers, about the whole population of the phase. */
  ghost predicate FaithfulTo(all: multiset<int>, audit: Audit) {
    && audit.completed == |all|
    && Exact(audit.p50, all, audit.overflowCount, RankOf(|all|, 1, 2))
    && Exact(audit.p95, all, audit.overflowCount, RankOf(|all|, 19, 20))
    && Exact(audit.p99, all, audit.overflowCount, RankOf(|all|, 99, 100))
  }

  /** `audit_phase`: it accepts exactly the consistent logs, and then its quantiles are exact. */
  method AuditPhase(rows: seq<Row>) returns (result: Option<Audit>)
    ensures result.Some? <==> PhaseOk(rows)
    ensures result.Some? ==> FaithfulTo(Population(rows, Workers(rows, OutcomesRow)), result.value)
    ensures result.Some? ==> result.value.overflowCount == TailCount(rows, Workers(rows, OutcomesRow))
  {
    var outcomes := Unique(rows, OutcomesRow);
    var buffers := Unique(rows, BufferRow);
    var overflows := Unique(rows, OverflowRow);
    if outcomes.None? || buffers.None? || overflows.None? { return None; }
    var o, b, v := outcomes.value, buffers.value, overflows.value;
    PhaseIff(rows, o, b, v);
    if o.Keys == {} || o.Keys != b.Keys || b.Keys != v.Keys { return None; }
    result := AuditKnown(rows, o, b, v);
  }

  /** An accepted log has no sample outside the audited population. */
  lemma {:induction false} NothingLeftOut(rows: seq<Row>, ws: set<int>)
    requires PhaseOk(rows) && Workers(rows, OutcomesRow) <= ws
    ensures Population(rows, ws) == Population(rows, Workers(rows, OutcomesRow))
  {
    forall r | r in rows && (r.Tail? || r.Bucket?) ensures r.worker in Workers(rows, OutcomesRow) {
      var k :| 0 <= k < |rows| && rows[k] == r;
    }
    PopulationSame(rows, ws, Workers(rows, OutcomesRow));
  }

  method AuditKnown(rows: seq<Row>, o: map<int, Row>, b: map<int, Row>, v: map<int, Row>)
      returns (result: Option<Audit>)
    requires Typed(o, b, v)
    ensures result.Some? <==> EveryWorker(rows, o, b, v) && Known(rows, o.Keys)
    ensures result.Some? ==> FaithfulTo(Population(rows, o.Keys), result.value)
    ensures result.Some? ==> result.value.overflowCount == TailCount(rows, o.Keys)
  {
    var ok, h, t, completed, ws := AuditWorkers(rows, o, b, v);
    if !ok { return None; }
    SeenAll(rows, o, b, v, ws, h, t, completed);
    var known := CheckKnown(rows, o.Keys);
    if !known { return None; }
    var audit := Quantiles(h, t, Population(rows, o.Keys), completed);
    result := Some(audit);
  }

  method CheckKnown(rows: seq<Row>, workers: set<int>) returns (ok: bool)
    ensures ok <==> Known(rows, workers)
  {
    for k := 0 to |rows|
      invariant forall j :: 0 <= j < k && (rows[j].Tail? || rows[j].Bucket? || rows[j].Range?) ==>
        rows[j].worker in workers
    {
      if (rows[k].Tail? || rows[k].Bucket? || rows[k].Range?) && rows[k].worker !in workers {
        return false;
      }
    }
    ok := true;
  }

  /** The last part: sort the tails once, then three searches. */
  method Quantiles(h: map<int, nat>, t: seq<int>, ghost all: multiset<int>, completed: int) returns (audit: Audit)
    requires Balanced(h, t, all, completed)
    ensures FaithfulTo(all, audit) && audit.overflowCount == |t|
  {
    Listing(h, t, all, completed);
    var sorted := Sort(t);
    var p50 := QuantileOf(h, sorted, all, completed, 1, 2);
    var p95 := QuantileOf(h, sorted, all, completed, 19, 20);
    var p99 := QuantileOf(h, sorted, all, completed, 99, 100);
    audit := Audit(completed, |t|, p50, p95, p99);
  }

  lemma PhaseIff(rows: seq<Row>, o: map<int, Row>, b: map<int, Row>, v: map<int, Row>)
    requires Keyed(rows, OutcomesRow, o) && Keyed(rows, BufferRow, b) && Keyed(rows, OverflowRow, v)
    ensures Workers(rows, OutcomesRow) == o.Keys
    ensures o.Keys == b.Keys == v.Keys ==> Typed(o, b, v)
    ensures PhaseOk(rows) <==>
      o.Keys != {} && o.Keys == b.Keys == v.Keys && EveryWorker(rows, o, b, v) && Known(rows, o.Keys)
  {
    KeyedWorkers(rows, OutcomesRow, o);
    KeyedWorkers(rows, BufferRow, b);
    KeyedWorkers(rows, OverflowRow, v);
    if o.Keys == b.Keys == v.Keys {
      forall w | w in o
        ensures Checked(rows, o, b, v, w)
            <==> WorkerOk(rows, RowOf(rows, OutcomesRow, w), RowOf(rows, BufferRow, w), RowOf(rows, OverflowRow, w))
      {
        assert o[w] == RowOf(rows, OutcomesRow, w) && b[w] == RowOf(rows, BufferRow, w)
            && v[w] == RowOf(rows, OverflowRow, w);
      }
    }
  }
}

/** The older percentile of `tests/benchmark.py` and `tests/soak.py`, rescaled to allow for overflow. */
module LegacyPercentile {
  import opened Optional
  import opened OrderStatistics
  import opened MeasurementAudit

  datatype Legacy = NoSamples | Micros(value: int) | BeyondHistogram

  /** `int(total * fraction + .999999)`, over exact numbers. */
  function Target(x: real): int
    requires x >= 0.0
  {
    (x + 0.999999).Floor
  }

  function Ceiling(x: real): int { if x == x.Floor as real then x.Floor else x.Floor + 1 }

  /** The shortcut is the ceiling exactly when the fractional part is zero or at least a millionth. */
  lemma TargetIsCeiling(x: real)
    requires x >= 0.0
    ensures Target(x) == Ceiling(x) <==> (x == x.Floor as real || x - x.Floor as real >= 0.000001)
  {
    var f := x.Floor;
    assert f as real <= x < f as real + 1.0;
    if x - f as real >= 0.000001 {
      assert f as real + 1.0 <= x + 0.999999 < f as real + 2.0;
    } else {
      assert f as real <= x + 0.999999 < f as real + 1.0;
    }
  }

  lemma ByProduct(a: real, b: real, c: real)
    requires c > 0.0
    ensures a * c < b * c <==> a < b
    ensures a * c == b * c <==> a == b
  {
    assert b * c - a * c == (b - a) * c;
  }

  lemma TimesBack(a: real, d: real)
    requires d > 0.0
    ensures a / d * d == a
  {
  }

  lemma MillionthOf(a: real, d: real)
    requires 1.0 <= a < d <= 1000000.0
    ensures 0.000001 <= a / d < 1.0
  {
    TimesBack(a, d);
    assert 0.000001 * d <= 1.0;
    ByProduct(a / d, 0.000001, d);
    ByProduct(a / d, 1.0, d);
  }

  /** A nonzero remainder over a denominator up to a million is at least a millionth. */
  lemma Millionth(r: nat, den: nat)
    requires 0 < r < den <= 1000000
    ensures 0.000001 <= r as real / den as real < 1.0
  {
    var a, d := r as real, den as real;
    assert 1.0 <= a < d <= 1000000.0;
    MillionthOf(a, d);
  }

  lemma Fraction(p: nat, den: nat)
    requires 0 < den <= 1000000
    ensures var x := p as real / den as real;
            && x.Floor == p / den
            && (x == x.Floor as real || x - x.Floor as real >= 0.000001)
            && Ceiling(x) == (p + den - 1) / den
  {
    var x, q, r := p as real / den as real, p / den, p % den;
    assert p == q * den + r;
    assert p as real == q as real * den as real + r as real;
    assert x == q as real + r as real / den as real;
    if r > 0 {
      Millionth(r, den);
      Quotient(q + 1, r - 1, den);
      assert p + den - 1 == (q + 1) * den + (r - 1);
    } else {
      Quotient(q, den - 1, den);
    }
  }

  lemma Quotient(q: nat, r: nat, den: nat)
    requires r < den
    ensures (q * den + r) / den == q
  {
    QuotientBelow(q * den + r, den, q + 1);
    if (q * den + r) / den < q {
      MulLe(den, (q * den + r) / den + 1, q);
    }
  }

  /** `percentile` of `tests/soak.py`. */
  method Percentile(h: map<int, nat>, fraction: real) returns (r: Option<int>)
    requires fraction >= 0.0
    ensures |Expanded(h, h.Keys)| == 0 ==> r == None
    ensures var total := |Expanded(h, h.Keys)|; var target := Max(1, Target(Times(total, fraction)));
            total > 0 && target <= total ==> r.Some? && Expanded(h, h.Keys)[target - 1] == r.value * 1000
  {
    var total := SumOf(h);
    if total == 0 { return None; }
    var found, upper, _ := BucketOfRank(h, Max(1, Target(Times(total, fraction))));
    r := if found then Some(upper) else None;
  }

  function Max(a: int, b: int): nat
    requires a >= 0
  {
    if a >= b then a else b
  }

  function Times(n: nat, fraction: real): (x: real)
    requires fraction >= 0.0
    ensures x >= 0.0
  {
    n as real * fraction
  }

  lemma Rescaled(total: nat, finite: nat, fraction: real)
    requires finite > 0 && fraction >= 0.0
    ensures fraction * total as real / finite as real >= 0.0
    ensures Times(finite, fraction * total as real / finite as real) == Times(total, fraction)
  {
    var y := fraction * total as real;
    assert y >= 0.0;
    assert y / finite as real * finite as real == y;
  }

  lemma {:induction false} IntProduct(n: nat, num: nat)
    ensures (n * num) as real == n as real * num as real
    decreases n
  {
    if n > 0 {
      IntProduct(n - 1, num);
      assert n * num == (n - 1) * num + num;
      assert n as real * num as real == (n - 1) as real * num as real + num as real;
    }
  }

  /** Multiplying by a quotient is dividing the product. */
  lemma TimesQuotient(a: real, b: real, d: real)
    requires d > 0.0
    ensures a * (b / d) == (a * b) / d
  {
    TimesBack(b, d);
    TimesBack(a * b, d);
    assert (a * (b / d)) * d == a * (b / d * d);
    ByProduct(a * (b / d), (a * b) / d, d);
  }

  lemma ExactTarget(n: nat, num: nat, den: nat)
    requires 0 < den <= 1000000
    ensures var x := Times(n, num as real / den as real); Target(x) == Ceiling(x) == RankOf(n, num, den)
  {
    IntProduct(n, num);
    TimesQuotient(n as real, num as real, den as real);
    var x := (n * num) as real / den as real;
    assert Times(n, num as real / den as real) == x;
    Fraction(n * num, den);
    TargetIsCeiling(x);
    assert Ceiling(x) == RankOf(n, num, den);
  }

  /** What the audited quantile says in the older form: whole microseconds, or "beyond the histogram". */
  function Projected(q: Quantile): Legacy {
    if q.tailRank.Some? then BeyondHistogram
    else if q.ns.Some? then Micros(q.ns.value / 1000) else NoSamples
  }

  /** The older answer, in terms of the sorted listing of the population. */
  ghost predicate LegacyIs(r: Legacy, finite: nat, listing: seq<int>, rank: int) {
    if |listing| == 0 then r == NoSamples
    else if rank > finite then r == BeyondHistogram
    else 1 <= rank <= |listing| && r.Micros? && listing[rank - 1] == r.value * 1000
  }

  /** `percentile_with_overflow` of `tests/benchmark.py`, for an exact fraction `num / den`. */
  method PercentileWithOverflow(h: map<int, nat>, overflow: nat, num: nat, den: nat, ghost sorted: seq<int>)
      returns (r: Legacy)
    requires 0 < num <= den <= 1000000 && |sorted| == overflow
    ensures var listing := Expanded(h, h.Keys) + sorted;
            LegacyIs(r, |Expanded(h, h.Keys)|, listing, RankOf(|listing|, num, den))
  {
    var fraction := num as real / den as real;
    var finite := SumOf(h);
    var total := finite + overflow;
    if total == 0 { return NoSamples; }
    var rank := Ceiling(Times(total, fraction));
    ExactTarget(total, num, den);
    RankInRange(total, num, den);
    if rank > finite { return BeyondHistogram; }
    Rescaled(total, finite, fraction);
    var value := Percentile(h, fraction * total as real / finite as real);
    r := Micros(value.value);
  }

  /**
   Both implementations agree: whatever the histogram, the overflowing samples and the
   fraction, the older answer is the audited quantile in whole microseconds.
   */
  lemma {:induction false} ImplementationsAgree(h: map<int, nat>, sorted: seq<int>, population: multiset<int>,
      rank: int, r: Legacy, q: Quantile)
    requires Lists(h, sorted, population) && Exact(q, population, |sorted|, rank)
    requires LegacyIs(r, |Expanded(h, h.Keys)|, Expanded(h, h.Keys) + sorted, rank)
    ensures r == Projected(q)
  {
    var listing := Expanded(h, h.Keys) + sorted;
    assert |population| == |listing|;
    if |listing| > 0 && rank <= |Expanded(h, h.Keys)| {
      assert listing[rank - 1] == q.ns.value;
    }
  }

  /**
   The comparison of a reported percentile with the raw evidence: from the same checked
   histogram and tails the two implementations always give the same answer.
   */
  method CompareWithLegacy(h: map<int, nat>, tails: seq<int>, ghost all: multiset<int>, completed: int, num: nat,
      den: nat)
    returns (q: Quantile, r: Legacy, same: bool)
    requires Balanced(h, tails, all, completed) && 0 < num <= den <= 1000000
    ensures same && r == Projected(q)
    ensures Exact(q, all, |tails|, RankOf(completed, num, den))
  {
    Listing(h, tails, all, completed);
    var sorted := Sort(tails);
    q := QuantileOf(h, sorted, all, completed, num, den);
    r := PercentileWithOverflow(h, |tails|, num, den, sorted);
    ImplementationsAgree(h, sorted, all, RankOf(completed, num, den), r, q);
    same := r == Projected(q);
  }
}

/** The latency histogram: what it reports of the samples it was given. */
module LatencyHistograms {
  import opened Types
  import opened Words
  import opened LatencySpec

  /** How many samples are at most v. */
  function AtMost(samples: seq<nat>, v: int): nat {
    if samples == [] then 0
    else AtMost(samples[..|samples| - 1], v) + (if samples[|samples| - 1] <= v then 1 else 0)
  }

  function CountIn(samples: seq<nat>, i: nat): nat {
    if samples == [] then 0
    else CountIn(samples[..|samples| - 1], i) + (if RawIndex(samples[|samples| - 1]) == i then 1 else 0)
  }

  function SumOf(samples: seq<nat>): nat {
    if samples == [] then 0 else SumOf(samples[..|samples| - 1]) + samples[|samples| - 1]
  }

  /** The histogram's fields. */
  datatype Hist = Hist(counts: seq<nat>, count: nat, sum: nat, min: int, max: int)

  ghost predicate IsMin(samples: seq<nat>, m: int) {
    (samples == [] ==> m == 0) && (samples != [] ==> m in samples && forall x :: x in samples ==> m <= x)
  }

  ghost predicate IsMax(samples: seq<nat>, m: int) {
    (samples == [] ==> m == 0) && (samples != [] ==> m in samples && forall x :: x in samples ==> x <= m)
  }

  /** h holds exactly these samples. */
  ghost predicate Holds(h: Hist, samples: seq<nat>) {
    && |h.counts| == BUCKETS && (forall i: nat {:trigger h.counts[i]} :: i < BUCKETS ==> h.counts[i] == CountIn(samples, i))
    && h.count == |samples| && h.sum == SumOf(samples)
    && IsMin(samples, h.min) && IsMax(samples, h.max)
    && forall x :: x in samples ==> x < LIMIT
  }

  // ------------------------------------------------------------ ranks and buckets

  /** x is the k-th smallest sample, counting from one. */
  ghost predicate IsKth(samples: seq<nat>, k: nat, x: nat) {
    x in samples && AtMost(samples, x - 1) < k <= AtMost(samples, x)
  }

  lemma {:induction false} AtMostGrows(samples: seq<nat>, v: int, w: int)
    requires v <= w
    ensures AtMost(samples, v) <= AtMost(samples, w) <= |samples|
    ensures (forall x :: x in samples ==> x <= w) ==> AtMost(samples, w) == |samples|
    ensures AtMost(samples, v) < AtMost(samples, w) ==> exists x :: x in samples && v < x <= w
  {
    if samples != [] {
      var front, last := samples[..|samples| - 1], samples[|samples| - 1];
      AtMostGrows(front, v, w);
      assert last in samples && forall x :: x in front ==> x in samples;
      if AtMost(front, v) == AtMost(front, w) && v < last <= w {
        assert AtMost(samples, v) < AtMost(samples, w);
      }
      if AtMost(front, v) < AtMost(front, w) {
        var x :| x in front && v < x <= w;
        assert x in samples;
      }
    }
  }

  /** A bucket's count is the samples up to its end less those before its start. */
  lemma {:induction false} CountInIs(samples: seq<nat>, i: nat)
    ensures CountIn(samples, i) == AtMost(samples, BucketHigh(i)) - AtMost(samples, BucketLow(i) - 1)
  {
    if samples != [] {
      var last := samples[|samples| - 1];
      CountInIs(samples[..|samples| - 1], i);
      InOwnBucket(last);
      BucketsTile(i);
      if BucketLow(i) <= last <= BucketHigh(i) {
        OnlyBucket(last, i);
      }
    }
  }

  lemma {:induction false} NothingBelowZero(samples: seq<nat>)
    ensures AtMost(samples, -1) == 0
  {
    if samples != [] {
      NothingBelowZero(samples[..|samples| - 1]);
    }
  }

  /** The loop of percentile(): the first bucket at which target samples have been seen. */
  function FirstAt(counts: seq<nat>, i: nat, seen: nat, target: nat): nat
    decreases |counts| - i
  {
    if i >= |counts| then |counts|
    else if seen + counts[i] >= target then i
    else FirstAt(counts, i + 1, seen + counts[i], target)
  }

  /** Up to the k-th sample's bucket fewer than k samples are seen, and with it at least k. */
  lemma SeenAt(h: Hist, samples: seq<nat>, i: nat, k: nat, x: nat)
    requires Holds(h, samples) && IsKth(samples, k, x) && i <= Bucket(x)
    ensures i < BUCKETS && AtMost(samples, BucketLow(i) - 1) + h.counts[i] == AtMost(samples, BucketHigh(i))
    ensures AtMost(samples, BucketHigh(i)) >= k <==> i == Bucket(x)
  {
    ClampNeverFires(x);
    CountInIs(samples, i);
    if i == Bucket(x) {
      AtMostGrows(samples, x, BucketHigh(i));
    } else {
      LowRises(i, Bucket(x));
      AtMostGrows(samples, BucketHigh(i), x - 1);
    }
  }

  /** The bucket the loop stops at is the k-th sample's own. */
  lemma {:induction false} FirstAtFinds(h: Hist, samples: seq<nat>, i: nat, k: nat, x: nat)
    requires Holds(h, samples) && IsKth(samples, k, x) && i <= Bucket(x)
    ensures FirstAt(h.counts, i, AtMost(samples, BucketLow(i) - 1), k) == Bucket(x) < BUCKETS
    decreases BUCKETS - i
  {
    SeenAt(h, samples, i, k, x);
    BucketsTile(i);
    if i < Bucket(x) {
      FirstAtFinds(h, samples, i + 1, k, x);
    }
  }

  // ------------------------------------------------------------ percentiles

  /** The rank of the first sample at or beyond percentile p of n. */
  function Rank(p: real, n: nat): nat
    requires p > 0.0
  {
    var target := (p / 100.0 * n as real + 0.5).Floor;
    if target <= 0 then 1 else if target > n then n else target
  }

  /** What is reported for rank k. */
  function ReportAt(h: Hist, k: nat): int {
    var i := FirstAt(h.counts, 0, 0, k);
    if i >= |h.counts| || BucketHigh(i) > h.max then h.max else BucketHigh(i)
  }

  function PercentileOf(h: Hist, p: real): int {
    if h.count == 0 then 0
    else if p >= 100.0 then h.max
    else if p <= 0.0 then h.min
    else ReportAt(h, Rank(p, h.count))
  }

  /** Every rank has its sample. */
  lemma {:induction false} KthExists(samples: seq<nat>, k: nat, from: nat, top: nat) returns (x: nat)
    requires AtMost(samples, from - 1) < k <= |samples| && from <= top
    requires forall y :: y in samples ==> y <= top
    ensures IsKth(samples, k, x)
    decreases top - from
  {
    AtMostGrows(samples, from - 1, from);
    if AtMost(samples, from) >= k {
      return from;
    }
    if from == top {
      AtMostGrows(samples, from, top);
    }
    x := KthExists(samples, k, from + 1, top);
  }

  /** The report for a rank is the end of its sample's bucket, or the maximum if that is less. */
  lemma ReportIs(h: Hist, samples: seq<nat>, k: nat, x: nat)
    requires Holds(h, samples) && IsKth(samples, k, x)
    ensures ReportAt(h, k) == Min(BucketHigh(Bucket(x)), h.max) && h.min <= x <= h.max
  {
    NothingBelowZero(samples);
    FirstAtFinds(h, samples, 0, k, x);
  }

  /** The report for a rank is at least the sample of that rank and exceeds it by less than one sixteenth of
      it; below thirty-two it is exact. */
  lemma ReportBound(h: Hist, samples: seq<nat>, k: nat, x: nat)
    requires Holds(h, samples) && IsKth(samples, k, x)
    ensures var r := ReportAt(h, k);
      && x <= r <= h.max
      && (x < 32 ==> r == x)
      && (x >= 32 ==> 16 * (r - x) < x)
  {
    ReportIs(h, samples, k, x);
    BucketNarrow(Bucket(x));
  }

  /** Nor can the bound be lowered: a sample at the low end of its bucket is reported at the high end. */
  lemma LowEndReportsHigh(h: Hist, samples: seq<nat>, k: nat, i: nat)
    requires Holds(h, samples) && IsKth(samples, k, BucketLow(i)) && BucketHigh(i) <= h.max
    ensures ReportAt(h, k) == BucketHigh(i)
  {
    BucketsTile(i);
    OnlyBucket(BucketLow(i), i);
    ReportIs(h, samples, k, BucketLow(i));
  }

  /** In every octave the excess comes within one of a sixteenth: 16 * 2^s is reported as 17 * 2^s - 1. */
  lemma SixteenthApproached(h: Hist, samples: seq<nat>, k: nat, s: nat)
    requires s >= 1 && Holds(h, samples) && IsKth(samples, k, 16 * Pow2(s)) && 17 * Pow2(s) - 1 <= h.max
    ensures var x, r := 16 * Pow2(s), ReportAt(h, k);
      r == 17 * Pow2(s) - 1 && 16 * (r - x) == x - 16
  {
    IndexParts(s, HALF);
    LowEndReportsHigh(h, samples, k, SUB + (s - 1) * HALF);
  }

  /** The documented three percent is passed: of the samples 64 and 67 the first is reported as 67. */
  lemma ThreePercentIsPassed(h: Hist)
    requires Holds(h, [64, 67])
    ensures IsKth([64, 67], 1, 64) && ReportAt(h, 1) == 67 && 100 * (ReportAt(h, 1) - 64) > 3 * 64
  {
    var samples := [64, 67];
    assert samples[..1] == [64] && [64][..0] == [];
    assert AtMost(samples, 63) == 0 && AtMost(samples, 64) == 1;
    assert samples[0] == 64 && samples[1] == 67 && samples[1] in samples;
    assert Pow2(0) == 1 && Pow2(1) == 2 && Pow2(2) == 4;
    SixteenthApproached(h, samples, 1, 2);
  }

  /** The same for percentiles: the rank's sample, or less than one sixteenth above it. */
  lemma PercentileBound(h: Hist, samples: seq<nat>, p: real) returns (x: nat)
    requires Holds(h, samples) && samples != [] && 0.0 < p < 100.0
    ensures IsKth(samples, Rank(p, |samples|), x)
    ensures var r := PercentileOf(h, p);
      && x <= r <= h.max
      && (x < 32 ==> r == x)
      && (x >= 32 ==> 16 * (r - x) < x)
  {
    RankBounds(p, |samples|);
    x := RankSample(h, samples, Rank(p, |samples|));
    ReportBound(h, samples, Rank(p, |samples|), x);
  }

  lemma RankBounds(p: real, n: nat)
    requires 0.0 < p && n > 0
    ensures 1 <= Rank(p, n) <= n
  {
  }

  lemma ScaleReal(a: real, b: real, c: real)
    requires a <= b && c >= 0.0
    ensures a * c <= b * c
  {
  }

  lemma FloorGrows(a: real, b: real)
    requires a <= b
    ensures a.Floor <= b.Floor
  {
  }

  lemma RankGrows(p: real, q: real, n: nat)
    requires 0.0 < p <= q && n > 0
    ensures Rank(p, n) <= Rank(q, n)
  {
    ScaleReal(p / 100.0, q / 100.0, n as real);
    FloorGrows(p / 100.0 * n as real + 0.5, q / 100.0 * n as real + 0.5);
  }

  /** The reports of two ranks are ordered as the ranks are. */
  lemma ReportMonotone(h: Hist, samples: seq<nat>, j: nat, k: nat)
    requires Holds(h, samples) && 1 <= j <= k <= |samples|
    ensures ReportAt(h, j) <= ReportAt(h, k)
    ensures h.min <= ReportAt(h, j) <= h.max
  {
    var x := RankSample(h, samples, j);
    var y := RankSample(h, samples, k);
    RanksOrder(samples, j, x, k, y);
    ReportIs(h, samples, j, x);
    ReportIs(h, samples, k, y);
    ReportBound(h, samples, j, x);
    IndexMonotone(x, y);
    HighGrows(Bucket(x), Bucket(y));
  }

  /** A larger percentile is never reported smaller. */
  lemma PercentileMonotone(h: Hist, samples: seq<nat>, p: real, q: real)
    requires Holds(h, samples) && p <= q
    ensures PercentileOf(h, p) <= PercentileOf(h, q)
  {
    if samples != [] {
      var n := |samples|;
      if 0.0 < p < 100.0 {
        RankBounds(p, n);
        ReportMonotone(h, samples, Rank(p, n), Rank(p, n));
      }
      if 0.0 < q < 100.0 {
        RankBounds(q, n);
        ReportMonotone(h, samples, Rank(q, n), Rank(q, n));
      }
      if 0.0 < p && q < 100.0 {
        RankGrows(p, q, n);
        ReportMonotone(h, samples, Rank(p, n), Rank(q, n));
      }
    }
  }

  lemma RankSample(h: Hist, samples: seq<nat>, k: nat) returns (x: nat)
    requires Holds(h, samples) && 1 <= k <= |samples|
    ensures IsKth(samples, k, x)
  {
    NothingBelowZero(samples);
    x := KthExists(samples, k, 0, h.max);
  }

  lemma RanksOrder(samples: seq<nat>, j: nat, x: nat, k: nat, y: nat)
    requires IsKth(samples, j, x) && IsKth(samples, k, y) && j <= k
    ensures x <= y
  {
    if y < x {
      AtMostGrows(samples, y, x - 1);
    }
  }

  lemma HighGrows(i: nat, j: nat)
    requires i <= j
    ensures BucketHigh(i) <= BucketHigh(j)
  {
    if i < j {
      LowRises(i, j);
      BucketsTile(j);
    }
  }

  // ------------------------------------------------------------ recording and merging

  lemma {:induction false} CountInConcat(a: seq<nat>, b: seq<nat>, i: nat)
    ensures CountIn(a + b, i) == CountIn(a, i) + CountIn(b, i)
  {
    if b == [] {
      assert a + b == a;
    } else {
      assert (a + b)[..|a + b| - 1] == a + b[..|b| - 1];
      CountInConcat(a, b[..|b| - 1], i);
    }
  }

  lemma {:induction false} SumConcat(a: seq<nat>, b: seq<nat>)
    ensures SumOf(a + b) == SumOf(a) + SumOf(b)
  {
    if b == [] {
      assert a + b == a;
    } else {
      assert (a + b)[..|a + b| - 1] == a + b[..|b| - 1];
      SumConcat(a, b[..|b| - 1]);
    }
  }

  /** Recording one more sample. */
  function Recorded(h: Hist, v: nat): Hist
    requires |h.counts| == BUCKETS
  {
    var i := BucketIndex(v);
    if 0 <= i then
      Hist(h.counts[i := h.counts[i] + 1], h.count + 1, h.sum + v,
           if h.count == 0 || v < h.min then v else h.min, if h.count == 0 || v > h.max then v else h.max)
    else h
  }

  lemma RecordedHolds(h: Hist, samples: seq<nat>, v: nat)
    requires Holds(h, samples) && v < LIMIT
    ensures Holds(Recorded(h, v), samples + [v])
    ensures 0 <= BucketIndex(v) < BUCKETS
  {
    ClampNeverFires(v);
    InOwnBucket(v);
    var more := samples + [v];
    assert more[..|samples|] == samples;
    forall i: nat | i < BUCKETS ensures Recorded(h, v).counts[i] == CountIn(more, i) {
      assert h.counts[i] == CountIn(samples, i);
    }
  }

  function Merged(h: Hist, o: Hist): Hist
    requires |h.counts| == |o.counts|
  {
    if o.count == 0 then h
    else
      Hist(seq(|h.counts|, i requires 0 <= i < |h.counts| => h.counts[i] + o.counts[i]), h.count + o.count,
           h.sum + o.sum, if h.count == 0 then o.min else Min(h.min, o.min),
           if h.count == 0 then o.max else Max(h.max, o.max))
  }

  /** Merging is recording both streams, one after the other. */
  lemma MergedHolds(h: Hist, a: seq<nat>, o: Hist, b: seq<nat>)
    requires Holds(h, a) && Holds(o, b)
    ensures Holds(Merged(h, o), a + b)
  {
    SumConcat(a, b);
    if b == [] {
      assert a + b == a;
    } else {
      MergedExtremes(h, a, o, b);
      forall i: nat | i < BUCKETS ensures Merged(h, o).counts[i] == CountIn(a + b, i) {
        CountInConcat(a, b, i);
        assert h.counts[i] == CountIn(a, i) && o.counts[i] == CountIn(b, i);
      }
    }
  }

  lemma MergedExtremes(h: Hist, a: seq<nat>, o: Hist, b: seq<nat>)
    requires Holds(h, a) && Holds(o, b) && b != []
    ensures IsMin(a + b, Merged(h, o).min) && IsMax(a + b, Merged(h, o).max)
  {
    var m := Merged(h, o);
    forall x | x in a + b ensures m.min <= x <= m.max {
      assert x in a || x in b;
    }
    assert h.min in a + b || a == [];
    assert o.min in a + b && o.max in a + b;
    assert h.max in a + b || a == [];
  }

  class LatencyHistogram {
    var counts: seq<nat>
    var count: nat
    var sum: nat
    var min: int
    var max: int
    ghost var samples: seq<nat>

    ghost function State(): Hist
      reads this
    {
      Hist(counts, count, sum, min, max)
    }

    ghost predicate Valid()
      reads this
    {
      Holds(State(), samples)
    }

    constructor ()
      ensures Valid() && samples == []
    {
      counts := seq(BUCKETS, _ => 0);
      count, sum, min, max := 0, 0, 0, 0;
      samples := [];
    }

    /** record() */
    method Record(value: int)
      requires Valid() && value < LIMIT
      modifies this
      ensures Valid() && samples == old(samples) + [if value < 0 then 0 else value]
    {
      var v: nat := if value < 0 then 0 else value;
      RecordedHolds(State(), samples, v);
      var i := BucketIndex(v);
      counts := counts[i := counts[i] + 1];
      if count == 0 || v < min {
        min := v;
      }
      if count == 0 || v > max {
        max := v;
      }
      count := count + 1;
      sum := sum + v;
      samples := samples + [v];
      assert State() == Recorded(old(State()), v);
    }

    /** The loop of merge(). */
    method AddCounts(other: LatencyHistogram)
      requires |counts| == |other.counts| == BUCKETS
      modifies this`counts
      ensures |counts| == BUCKETS
      ensures forall j :: 0 <= j < BUCKETS ==> counts[j] == old(counts)[j] + old(other.counts)[j]
    {
      ghost var before, theirs := counts, other.counts;
      var i := 0;
      while i < BUCKETS
        invariant i <= BUCKETS == |counts|
        invariant other.counts == if other == this then counts else theirs
        invariant forall j :: 0 <= j < BUCKETS ==> counts[j] == before[j] + (if j < i then theirs[j] else 0)
      {
        counts := counts[i := counts[i] + other.counts[i]];
        i := i + 1;
      }
    }

    /** merge(), with another histogram or with itself. */
    method Merge(other: LatencyHistogram)
      requires Valid() && other.Valid()
      modifies this
      ensures Valid() && samples == old(samples) + old(other.samples)
    {
      ghost var before, theirs := State(), other.State();
      MergedHolds(before, samples, theirs, other.samples);
      samples := samples + other.samples;
      if other.count == 0 {
        return;
      }
      AddCounts(other);
      if count == 0 {
        min, max := other.min, other.max;
      } else {
        min, max := Min(min, other.min), Max(max, other.max);
      }
      count, sum := count + other.count, sum + other.sum;
      assert counts == Merged(before, theirs).counts;
      assert State() == Merged(before, theirs);
    }

    method Reset()
      modifies this
      ensures Valid() && samples == []
    {
      counts := seq(BUCKETS, _ => 0);
      count, sum, min, max := 0, 0, 0, 0;
      samples := [];
    }

    /** percentile() */
    method Percentile(p: real) returns (r: int)
      requires Valid()
      ensures r == PercentileOf(State(), p)
    {
      if count == 0 {
        return 0;
      }
      if p >= 100.0 {
        return max;
      }
      if p <= 0.0 {
        return min;
      }
      var target := Rank(p, count);
      var seen := 0;
      var i := 0;
      while i < BUCKETS
        invariant i <= BUCKETS
        invariant FirstAt(counts, 0, 0, target) == FirstAt(counts, i, seen, target)
      {
        seen := seen + counts[i];
        if seen >= target {
          var hi := BucketHigh(i);
          return if hi > max then max else hi;
        }
        i := i + 1;
      }
      return max;
    }
  }
}

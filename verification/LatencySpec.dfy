/** Logarithmic latency buckets: sixteen to the octave, one per value below thirty-two. */
module LatencySpec {
  import opened Words
  import opened Arith

  const SUB: nat := 32
  const HALF: nat := 16
  const BUCKETS: nat := 1024

  /** Nanoseconds are signed 64-bit. */
  const LIMIT: nat := 0x8000_0000_0000_0000

  /** bucket_index() before its clamp. */
  function RawIndex(v: nat): int {
    if v < SUB then v
    else
      var shift := HighestBit(v) - 4;
      SUB + (shift - 1) * HALF + (v / Pow2(HighestBit(v) - 4) - HALF)
  }

  /** bucket_index() */
  function BucketIndex(value: int): int {
    var idx := RawIndex(if value < 0 then 0 else value);
    if idx < BUCKETS then idx else BUCKETS - 1
  }

  function Shift(i: nat): nat
    requires i >= SUB
  {
    (i - SUB) / HALF + 1
  }

  function Sub(i: nat): nat
    requires i >= SUB
  {
    (i - SUB) % HALF + HALF
  }

  function BucketLow(i: nat): nat {
    if i < SUB then i else Sub(i) * Pow2(Shift(i))
  }

  function BucketHigh(i: nat): int {
    if i < SUB then i else (Sub(i) + 1) * Pow2(Shift(i)) - 1
  }

  // ------------------------------------------------------------ the buckets tile

  lemma Doubles(n: nat)
    ensures Pow2(n + 1) == 2 * Pow2(n)
  {
  }

  /** Each bucket ends where the next begins. */
  lemma BucketsTile(i: nat)
    ensures BucketHigh(i) + 1 == BucketLow(i + 1)
    ensures BucketLow(i) <= BucketHigh(i)
  {
    if i >= SUB {
      Scale(Sub(i), Sub(i) + 1, Pow2(Shift(i)));
      Distribute(Pow2(Shift(i)), Sub(i), 1);
      Commute(Pow2(Shift(i)), Sub(i));
      Commute(Pow2(Shift(i)), Sub(i) + 1);
      if (i - SUB) % HALF == HALF - 1 {
        assert Shift(i + 1) == Shift(i) + 1 && Sub(i + 1) == HALF && Sub(i) == 31;
        Doubles(Shift(i));
      } else {
        assert Shift(i + 1) == Shift(i) && Sub(i + 1) == Sub(i) + 1;
      }
    } else if i == SUB - 1 {
      assert Shift(32) == 1 && Sub(32) == 16 && Pow2(1) == 2 * Pow2(0);
    }
  }

  /** The whole bucket is within one sixteenth of its own low end, and below thirty-two it is one value. */
  lemma BucketNarrow(i: nat)
    ensures i < SUB ==> BucketHigh(i) == BucketLow(i)
    ensures i >= SUB ==> 16 * (BucketHigh(i) - BucketLow(i)) < BucketLow(i) && BucketLow(i) >= SUB
  {
    if i >= SUB {
      var p := Pow2(Shift(i));
      Distribute(p, Sub(i), 1);
      Commute(p, Sub(i));
      Commute(p, Sub(i) + 1);
      Scale(16, Sub(i), p);
      Doubles(Shift(i) - 1);
    }
  }

  lemma {:induction false} HighestAtLeast(v: nat, n: nat)
    requires 0 < Pow2(n) <= v
    ensures HighestBit(v) >= n
  {
    if n > 0 {
      HighestAtLeast(v / 2, n - 1);
    }
  }

  /** The five leading bits of a value. */
  lemma {:induction false} LeadingBits(v: nat)
    requires v >= SUB
    ensures HighestBit(v) >= 5
    ensures 16 <= v / Pow2(HighestBit(v) - 4) < 32
  {
    var m := HighestBit(v);
    HighestAtLeast(v, 5);
    var p := Pow2(m - 4);
    PowSplit(m - 4);
    Euclid(v, p);
    var q := v / p;
    if q < 16 {
      Scale(q, 15, p);
      Commute(p, q);
    }
    if q >= 32 {
      Scale(32, q, p);
      Commute(p, q);
    }
  }

  lemma PowSplit(n: nat)
    ensures Pow2(n + 4) == 16 * Pow2(n) && Pow2(n + 5) == 32 * Pow2(n)
  {
    Doubles(n);
    Doubles(n + 1);
    Doubles(n + 2);
    Doubles(n + 3);
    Doubles(n + 4);
  }

  /** An index spells out the octave and the place in it. */
  lemma IndexParts(shift: nat, sub: nat)
    requires shift >= 1 && HALF <= sub < SUB
    ensures var i := SUB + (shift - 1) * HALF + (sub - HALF); i >= SUB && Shift(i) == shift && Sub(i) == sub
  {
  }

  lemma WithinQuotient(v: nat, p: nat)
    requires p > 0
    ensures v / p * p <= v < (v / p + 1) * p
  {
    Euclid(v, p);
    Commute(p, v / p);
    Distribute(p, v / p, 1);
    Commute(p, v / p + 1);
  }

  /** The index of a large value names its octave and its place there. */
  lemma IndexOfLarge(v: nat)
    requires v >= SUB
    ensures RawIndex(v) >= SUB && HighestBit(v) >= 5
    ensures Shift(RawIndex(v)) == HighestBit(v) - 4
    ensures Sub(RawIndex(v)) == v / Pow2(HighestBit(v) - 4)
  {
    LeadingBits(v);
    IndexParts(HighestBit(v) - 4, v / Pow2(HighestBit(v) - 4));
  }

  /** A value lies in its own bucket. */
  lemma InOwnBucket(v: nat)
    ensures RawIndex(v) >= 0
    ensures BucketLow(RawIndex(v)) <= v <= BucketHigh(RawIndex(v))
  {
    if v >= SUB {
      IndexOfLarge(v);
      WithinQuotient(v, Pow2(HighestBit(v) - 4));
    }
  }

  /** The bucket a value lies in. */
  function Bucket(v: nat): (i: nat)
    ensures i == RawIndex(v) && BucketLow(i) <= v <= BucketHigh(i)
  {
    InOwnBucket(v);
    RawIndex(v)
  }

  lemma {:induction false} LowRises(i: nat, j: nat)
    requires i < j
    ensures BucketHigh(i) < BucketLow(j)
  {
    BucketsTile(j - 1);
    if i + 1 < j {
      LowRises(i, j - 1);
    }
  }

  /** A value is in one bucket only. */
  lemma OnlyBucket(v: nat, i: nat)
    requires BucketLow(i) <= v <= BucketHigh(i)
    ensures RawIndex(v) == i
  {
    InOwnBucket(v);
    if RawIndex(v) < i {
      LowRises(RawIndex(v), i);
    } else if i < RawIndex(v) {
      LowRises(i, RawIndex(v));
    }
  }

  /** The buckets of the values below 2^63 are the first 960, so the clamp never fires; and together they
      cover 0 .. 2^63 - 1 without a gap. */
  lemma ClampNeverFires(v: nat)
    ensures v < LIMIT <==> RawIndex(v) < 960
    ensures v < LIMIT ==> BucketIndex(v) == RawIndex(v)
    ensures BucketLow(0) == 0 && BucketHigh(959) == LIMIT - 1
  {
    assert Shift(959) == 58 && Sub(959) == 31;
    PowSplit(58);
    WordLimit();
    InOwnBucket(v);
    if RawIndex(v) < 959 {
      LowRises(RawIndex(v), 959);
      BucketsTile(959);
    } else if RawIndex(v) > 959 {
      LowRises(959, RawIndex(v));
    }
  }

  lemma PowersToByte()
    ensures Pow2(7) == 128 && Pow2(8) == 256
  {
    Doubles(7);
  }

  lemma PowersToHalf()
    ensures Pow2(15) == 32768 && Pow2(16) == 65536
  {
    PowersToByte();
    Pow2Adds(8, 7);
    assert 256 * 128 == 32768;
    Doubles(15);
  }

  lemma PowersToWord()
    ensures Pow2(31) == 0x8000_0000 && Pow2(32) == 0x1_0000_0000
  {
    PowersToHalf();
    Pow2Adds(16, 15);
    assert 65536 * 32768 == 0x8000_0000;
    Doubles(31);
  }

  lemma WordLimit()
    ensures Pow2(63) == LIMIT
  {
    PowersToWord();
    Pow2Adds(32, 31);
    assert 0x1_0000_0000 * 0x8000_0000 == LIMIT;
  }

  lemma {:induction false} Pow2Adds(m: nat, n: nat)
    ensures Pow2(m + n) == Pow2(m) * Pow2(n)
  {
    if m > 0 {
      Pow2Adds(m - 1, n);
    }
  }

  /** Larger values have no smaller index. */
  lemma IndexMonotone(v: nat, w: nat)
    requires v <= w
    ensures RawIndex(v) <= RawIndex(w)
  {
    InOwnBucket(v);
    InOwnBucket(w);
    if RawIndex(w) < RawIndex(v) {
      LowRises(RawIndex(w), RawIndex(v));
    }
  }
}

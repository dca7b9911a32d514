/** The three-tier bitmap that tracks which price levels are non-empty. */
module LevelBitmaps {
  import opened Options
  import opened Words

  /** The tiers of a bitmap of n bits. */
  datatype Tiers = Tiers(n: nat, l0: seq<nat>, l1: seq<nat>, l2: nat)

  predicate Shaped(t: Tiers) {
    && |t.l0| == (t.n + 63) / 64
    && |t.l1| == (|t.l0| + 63) / 64
    && |t.l1| <= 64
  }

  predicate Marked(t: Tiers, i: nat) {
    i / 64 < |t.l0| && Has(t.l0[i / 64], i % 64)
  }

  /** Each summary bit is set exactly when the word it summarises is non-zero. */
  ghost predicate Summarised(t: Tiers)
    requires Shaped(t)
  {
    && (forall w0: nat :: w0 < |t.l0| ==> (Has(t.l1[w0 / 64], w0 % 64) <==> t.l0[w0] != 0))
    && (forall w1: nat :: w1 < |t.l1| ==> (Has(t.l2, w1) <==> t.l1[w1] != 0))
  }

  /** Nothing is set past the end of a tier. */
  ghost predicate Bounded(t: Tiers)
    requires Shaped(t)
  {
    && (forall i: nat :: Marked(t, i) ==> i < t.n)
    && (forall w0: nat :: w0 / 64 < |t.l1| && Has(t.l1[w0 / 64], w0 % 64) ==> w0 < |t.l0|)
    && (forall w1: nat :: Has(t.l2, w1) ==> w1 < |t.l1|)
    && (forall w0: nat, j: nat :: w0 < |t.l0| && Has(t.l0[w0], j) ==> j < 64)
    && (forall w1: nat, j: nat :: w1 < |t.l1| && Has(t.l1[w1], j) ==> j < 64)
  }

  ghost predicate Agree(t: Tiers) {
    Shaped(t) && Summarised(t) && Bounded(t)
  }

  /** Every word of every tier stays a 64-bit word. */
  lemma TiersAreWords(t: Tiers)
    requires Agree(t)
    ensures forall w :: w in t.l0 || w in t.l1 ==> IsWord(w)
    ensures IsWord(t.l2)
  {
    forall w | w in t.l0 || w in t.l1 ensures IsWord(w) {
      NoHighDigits(w, 64);
    }
    NoHighDigits(t.l2, 64);
  }

  /** The bits that are set. */
  ghost function Bits(t: Tiers): set<nat>
    requires Shaped(t)
  {
    set i: nat | 0 <= i < t.n && Marked(t, i)
  }

  /** set(): or the bit into all three tiers. */
  function WithBit(t: Tiers, i: nat): Tiers
    requires Shaped(t) && i < t.n
  {
    var w0 := i / 64;
    var w1 := w0 / 64;
    t.(l0 := t.l0[w0 := SetBit(t.l0[w0], i % 64)],
       l1 := t.l1[w1 := SetBit(t.l1[w1], w0 % 64)],
       l2 := SetBit(t.l2, w1))
  }

  lemma WithBitMarks(t: Tiers, i: nat, j: nat)
    requires Shaped(t) && i < t.n
    ensures Marked(WithBit(t, i), j) <==> j == i || Marked(t, j)
  {
    if j / 64 == i / 64 {
      SetBitDigits(t.l0[i / 64], i % 64, j % 64);
    }
  }

  lemma WithBitSummarised(t: Tiers, i: nat)
    requires Agree(t) && i < t.n
    ensures Summarised(WithBit(t, i))
  {
    var w0' := i / 64;
    var w1' := w0' / 64;
    forall w0: nat | w0 < |t.l0|
      ensures Has(WithBit(t, i).l1[w0 / 64], w0 % 64) <==> WithBit(t, i).l0[w0] != 0
    {
      if w0 / 64 == w1' {
        SetBitDigits(t.l1[w1'], w0' % 64, w0 % 64);
      }
    }
    forall w1: nat | w1 < |t.l1|
      ensures Has(WithBit(t, i).l2, w1) <==> WithBit(t, i).l1[w1] != 0
    {
      SetBitDigits(t.l2, w1', w1);
    }
  }

  lemma WithBitBounded(t: Tiers, i: nat)
    requires Agree(t) && i < t.n
    ensures Bounded(WithBit(t, i))
  {
    var t' := WithBit(t, i);
    var w0' := i / 64;
    var w1' := w0' / 64;
    forall j: nat | Marked(t', j) ensures j < t.n {
      WithBitMarks(t, i, j);
    }
    forall w0: nat | w0 / 64 < |t.l1| && Has(t'.l1[w0 / 64], w0 % 64) ensures w0 < |t.l0| {
      SetBitDigits(t.l1[w1'], w0' % 64, w0 % 64);
    }
    forall w1: nat | Has(t'.l2, w1) ensures w1 < |t.l1| {
      SetBitDigits(t.l2, w1', w1);
    }
    forall w0: nat, j: nat | w0 < |t.l0| && Has(t'.l0[w0], j) ensures j < 64 {
      SetBitDigits(t.l0[w0'], i % 64, j);
    }
    forall w1: nat, j: nat | w1 < |t.l1| && Has(t'.l1[w1], j) ensures j < 64 {
      SetBitDigits(t.l1[w1'], w0' % 64, j);
    }
  }

  lemma WithBitAgrees(t: Tiers, i: nat)
    requires Agree(t) && i < t.n
    ensures Agree(WithBit(t, i))
    ensures Bits(WithBit(t, i)) == Bits(t) + {i}
  {
    WithBitSummarised(t, i);
    WithBitBounded(t, i);
    forall j: nat ensures Marked(WithBit(t, i), j) <==> j == i || Marked(t, j) {
      WithBitMarks(t, i, j);
    }
  }

  /** clear(): mask the bit out, and a summary bit only once its word is zero. */
  function WithoutBit(t: Tiers, i: nat): Tiers
    requires Shaped(t) && i < t.n
  {
    var w0 := i / 64;
    var w1 := w0 / 64;
    var t0 := t.(l0 := t.l0[w0 := ClearBit(t.l0[w0], i % 64)]);
    if t0.l0[w0] != 0 then t0
    else
      var t1 := t0.(l1 := t.l1[w1 := ClearBit(t.l1[w1], w0 % 64)]);
      if t1.l1[w1] != 0 then t1
      else t1.(l2 := ClearBit(t.l2, w1))
  }

  lemma WithoutBitMarks(t: Tiers, i: nat, j: nat)
    requires Shaped(t) && i < t.n
    ensures Marked(WithoutBit(t, i), j) <==> j != i && Marked(t, j)
  {
    if j / 64 == i / 64 {
      ClearBitDigits(t.l0[i / 64], i % 64, j % 64);
    }
  }

  lemma WithoutBitSummarised(t: Tiers, i: nat)
    requires Agree(t) && i < t.n
    ensures Summarised(WithoutBit(t, i))
  {
    var t' := WithoutBit(t, i);
    var w0' := i / 64;
    var w1' := w0' / 64;
    StillSet(t.l0[w0'], i % 64);
    StillSet(t.l1[w1'], w0' % 64);
    forall w0: nat | w0 < |t.l0|
      ensures Has(t'.l1[w0 / 64], w0 % 64) <==> t'.l0[w0] != 0
    {
      if w0 / 64 == w1' {
        ClearBitDigits(t.l1[w1'], w0' % 64, w0 % 64);
      }
    }
    forall w1: nat | w1 < |t.l1|
      ensures Has(t'.l2, w1) <==> t'.l1[w1] != 0
    {
      ClearBitDigits(t.l2, w1', w1);
    }
  }

  /** Clearing a bit of zero gives zero. */
  lemma StillSet(w: nat, i: nat)
    ensures ClearBit(w, i) != 0 ==> w != 0
  {
    ClearBitFits(w, i);
  }

  lemma WithoutBitBounded(t: Tiers, i: nat)
    requires Agree(t) && i < t.n
    ensures Bounded(WithoutBit(t, i))
  {
    var t' := WithoutBit(t, i);
    var w0' := i / 64;
    var w1' := w0' / 64;
    forall j: nat | Marked(t', j) ensures j < t.n {
      WithoutBitMarks(t, i, j);
    }
    forall w0: nat | w0 / 64 < |t.l1| && Has(t'.l1[w0 / 64], w0 % 64) ensures w0 < |t.l0| {
      ClearBitDigits(t.l1[w1'], w0' % 64, w0 % 64);
    }
    forall w1: nat | Has(t'.l2, w1) ensures w1 < |t.l1| {
      ClearBitDigits(t.l2, w1', w1);
    }
    forall w0: nat, j: nat | w0 < |t.l0| && Has(t'.l0[w0], j) ensures j < 64 {
      ClearBitDigits(t.l0[w0'], i % 64, j);
    }
    forall w1: nat, j: nat | w1 < |t.l1| && Has(t'.l1[w1], j) ensures j < 64 {
      ClearBitDigits(t.l1[w1'], w0' % 64, j);
    }
  }

  lemma WithoutBitAgrees(t: Tiers, i: nat)
    requires Agree(t) && i < t.n
    ensures Agree(WithoutBit(t, i))
    ensures Bits(WithoutBit(t, i)) == Bits(t) - {i}
  {
    WithoutBitSummarised(t, i);
    WithoutBitBounded(t, i);
    forall j: nat ensures Marked(WithoutBit(t, i), j) <==> j != i && Marked(t, j) {
      WithoutBitMarks(t, i, j);
    }
  }

  /** A set bit shows in every tier. */
  lemma MarkedUpwards(t: Tiers, i: nat)
    requires Agree(t) && Marked(t, i)
    ensures i / 4096 < |t.l1| && t.l0[i / 64] != 0 && t.l1[i / 4096] != 0 && t.l2 != 0
    ensures Has(t.l2, i / 4096) && Has(t.l1[i / 4096], i / 64 % 64)
  {
    assert i / 64 / 64 == i / 4096;
    NonZero(t.l0[i / 64], i % 64);
    NonZero(t.l1[i / 4096], i / 64 % 64);
    NonZero(t.l2, i / 4096);
  }

  /** The walk down the tiers that find_highest and find_lowest share. */
  predicate WalksDown(t: Tiers, w1: nat, w0: nat, i: nat)
    requires Shaped(t)
  {
    && Has(t.l2, w1)
    && w0 / 64 == w1 < |t.l1| && Has(t.l1[w1], w0 % 64)
    && i / 64 == w0 && Marked(t, i)
  }

  lemma SameBlock(a: nat, b: nat)
    requires a / 64 == b / 64
    ensures a < b <==> a % 64 < b % 64
  {
  }

  /** The bit reached by taking the highest digit of each tier is the last one set. */
  lemma HighestIsMaximum(t: Tiers, w1: nat, w0: nat, i: nat, j: nat)
    requires Agree(t) && WalksDown(t, w1, w0, i)
    requires t.l2 != 0 && w1 == HighestBit(t.l2)
    requires t.l1[w1] != 0 && w0 % 64 == HighestBit(t.l1[w1])
    requires t.l0[w0] != 0 && i % 64 == HighestBit(t.l0[w0])
    requires Marked(t, j)
    ensures j <= i
  {
    MarkedUpwards(t, j);
    if j / 4096 > w1 {
      HighestIsLast(t.l2, j / 4096);
    } else if j / 4096 == w1 && j / 64 > w0 {
      SameBlock(j / 64, w0);
      HighestIsLast(t.l1[w1], j / 64 % 64);
    } else if j / 64 == w0 && j > i {
      SameBlock(j, i);
      HighestIsLast(t.l0[w0], j % 64);
    }
  }

  lemma LowestIsMinimum(t: Tiers, w1: nat, w0: nat, i: nat, j: nat)
    requires Agree(t) && WalksDown(t, w1, w0, i)
    requires t.l2 != 0 && w1 == LowestBit(t.l2)
    requires t.l1[w1] != 0 && w0 % 64 == LowestBit(t.l1[w1])
    requires t.l0[w0] != 0 && i % 64 == LowestBit(t.l0[w0])
    requires Marked(t, j)
    ensures i <= j
  {
    MarkedUpwards(t, j);
    if j / 4096 < w1 {
      LowestIsFirst(t.l2, j / 4096);
    } else if j / 4096 == w1 && j / 64 < w0 {
      SameBlock(j / 64, w0);
      LowestIsFirst(t.l1[w1], j / 64 % 64);
    } else if j / 64 == w0 && j < i {
      SameBlock(j, i);
      LowestIsFirst(t.l0[w0], j % 64);
    }
  }

  /** The greatest member of a set of levels, if it has one. */
  ghost predicate IsHighest(bits: set<nat>, r: Option<nat>) {
    match r
    case None => bits == {}
    case Some(i) => i in bits && forall j :: j in bits ==> j <= i
  }

  ghost predicate IsLowest(bits: set<nat>, r: Option<nat>) {
    match r
    case None => bits == {}
    case Some(i) => i in bits && forall j :: j in bits ==> i <= j
  }

  ghost function Higher(bits: set<nat>, i: nat): set<nat> {
    set k | k in bits && i < k
  }

  ghost function Lower(bits: set<nat>, i: nat): set<nat> {
    set k | k in bits && k < i
  }

  /** Everything set above i is in word w or later, and bits holds the part of w above i. */
  ghost predicate AboveFrom(t: Tiers, i: nat, w: nat, bits: nat)
    requires Shaped(t)
  {
    && w < |t.l0| && i < 64 * (w + 1)
    && (forall k: nat :: Marked(t, k) && i < k ==> w <= k / 64)
    && (forall d: nat :: Has(bits, d) <==> Has(t.l0[w], d) && i < 64 * w + d)
  }

  ghost predicate BelowFrom(t: Tiers, i: nat, w: nat, bits: nat)
    requires Shaped(t)
  {
    && w < |t.l0| && 64 * w < i
    && (forall k: nat :: Marked(t, k) && k < i ==> k / 64 <= w)
    && (forall d: nat :: Has(bits, d) <==> Has(t.l0[w], d) && 64 * w + d < i)
  }

  lemma AboveStarts(t: Tiers, i: nat)
    requires Agree(t) && i + 1 < t.n
    ensures AboveFrom(t, i, (i + 1) / 64, KeepFrom(t.l0[(i + 1) / 64], (i + 1) % 64))
  {
    var w, m := (i + 1) / 64, (i + 1) % 64;
    forall d: nat ensures Has(KeepFrom(t.l0[w], m), d) <==> Has(t.l0[w], d) && i < 64 * w + d {
      KeepFromDigits(t.l0[w], m, d);
    }
  }

  /** An exhausted word holds nothing above i, so the search moves to the next. */
  lemma AboveSteps(t: Tiers, i: nat, w: nat)
    requires Agree(t) && AboveFrom(t, i, w, 0)
    ensures if w + 1 < |t.l0| then AboveFrom(t, i, w + 1, t.l0[w + 1]) else Higher(Bits(t), i) == {}
  {
    forall k: nat | Marked(t, k) && i < k ensures w < k / 64 {
      NoDigits(k % 64);
    }
  }

  lemma AboveFound(t: Tiers, i: nat, w: nat, bits: nat)
    requires Agree(t) && AboveFrom(t, i, w, bits) && bits != 0
    ensures IsLowest(Higher(Bits(t), i), Some(64 * w + LowestBit(bits)))
  {
    var low := LowestBit(bits);
    assert low < 64;
    assert (64 * w + low) / 64 == w && (64 * w + low) % 64 == low;
    assert Marked(t, 64 * w + low);
    forall k: nat | Marked(t, k) && i < k ensures 64 * w + low <= k {
      if k / 64 == w && k % 64 < low {
        LowestIsFirst(bits, k % 64);
      }
    }
  }

  lemma BelowStarts(t: Tiers, i: nat)
    requires Agree(t) && 0 < i < t.n
    ensures var w, b := (i - 1) / 64, (i - 1) % 64;
      BelowFrom(t, i, w, if b == 63 then t.l0[w] else KeepBelow(t.l0[w], b + 1))
  {
    var w, b := (i - 1) / 64, (i - 1) % 64;
    forall d: nat
      ensures Has(KeepBelow(t.l0[w], b + 1), d) <==> Has(t.l0[w], d) && d <= b
    {
      KeepBelowDigits(t.l0[w], b + 1, d);
    }
  }

  lemma BelowSteps(t: Tiers, i: nat, w: nat)
    requires Agree(t) && BelowFrom(t, i, w, 0)
    ensures if w > 0 then BelowFrom(t, i, w - 1, t.l0[w - 1]) else Lower(Bits(t), i) == {}
  {
    forall k: nat | Marked(t, k) && k < i ensures k / 64 < w {
      NoDigits(k % 64);
    }
  }

  lemma BelowFound(t: Tiers, i: nat, w: nat, bits: nat)
    requires Agree(t) && BelowFrom(t, i, w, bits) && bits != 0
    ensures IsHighest(Lower(Bits(t), i), Some(64 * w + HighestBit(bits)))
  {
    var top := HighestBit(bits);
    assert top < 64;
    assert (64 * w + top) / 64 == w && (64 * w + top) % 64 == top;
    assert Marked(t, 64 * w + top);
    forall k: nat | Marked(t, k) && k < i ensures k <= 64 * w + top {
      if k / 64 == w && top < k % 64 {
        HighestIsLast(bits, k % 64);
      }
    }
  }

  class LevelBitmap {
    const n: nat
    var l0: seq<nat>
    var l1: seq<nat>
    var l2: nat

    ghost function State(): Tiers
      reads this
    {
      Tiers(n, l0, l1, l2)
    }

    ghost predicate Valid()
      reads this
    {
      Agree(State())
    }

    ghost function Set(): set<nat>
      requires Valid()
      reads this
    {
      Bits(State())
    }

    constructor (n: nat)
      requires n <= 64 * 64 * 64
      ensures Valid() && this.n == n && Set() == {}
    {
      this.n := n;
      l0 := seq((n + 63) / 64, _ => 0);
      l1 := seq(((n + 63) / 64 + 63) / 64, _ => 0);
      l2 := 0;
      new;
      forall j: nat ensures !Has(0, j) {
        NoDigits(j);
      }
    }

    method Mark(i: nat)
      requires Valid() && i < n
      modifies this
      ensures Valid() && Set() == old(Set()) + {i}
    {
      WithBitAgrees(State(), i);
      var w0 := i / 64;
      l0 := l0[w0 := SetBit(l0[w0], i % 64)];
      var w1 := w0 / 64;
      l1 := l1[w1 := SetBit(l1[w1], w0 % 64)];
      l2 := SetBit(l2, w1);
      assert State() == WithBit(old(State()), i);
    }

    method Clear(i: nat)
      requires Valid() && i < n
      modifies this
      ensures Valid() && Set() == old(Set()) - {i}
    {
      WithoutBitAgrees(State(), i);
      var w0 := i / 64;
      l0 := l0[w0 := ClearBit(l0[w0], i % 64)];
      if l0[w0] != 0 {
        assert State() == WithoutBit(old(State()), i);
        return;
      }
      var w1 := w0 / 64;
      l1 := l1[w1 := ClearBit(l1[w1], w0 % 64)];
      if l1[w1] != 0 {
        assert State() == WithoutBit(old(State()), i);
        return;
      }
      l2 := ClearBit(l2, w1);
      assert State() == WithoutBit(old(State()), i);
    }

    method Reset()
      requires Valid()
      modifies this
      ensures Valid() && Set() == {}
    {
      l0 := seq(|l0|, _ => 0);
      l1 := seq(|l1|, _ => 0);
      l2 := 0;
      forall j: nat ensures !Has(0, j) {
        NoDigits(j);
      }
    }

    method FindHighest() returns (r: Option<nat>)
      requires Valid()
      ensures IsHighest(Set(), r)
    {
      if l2 == 0 {
        forall j: nat | Marked(State(), j) ensures false {
          MarkedUpwards(State(), j);
        }
        return None;
      }
      var w1 := HighestBit(l2);
      assert w1 < |l1|;
      var w0 := w1 * 64 + HighestBit(l1[w1]);
      assert w0 / 64 == w1 && w0 % 64 == HighestBit(l1[w1]);
      var i := w0 * 64 + HighestBit(l0[w0]);
      assert i / 64 == w0 && i % 64 == HighestBit(l0[w0]);
      assert Marked(State(), i);
      forall j: nat | Marked(State(), j) ensures j <= i {
        HighestIsMaximum(State(), w1, w0, i, j);
      }
      return Some(i);
    }

    method FindLowest() returns (r: Option<nat>)
      requires Valid()
      ensures IsLowest(Set(), r)
    {
      if l2 == 0 {
        forall j: nat | Marked(State(), j) ensures false {
          MarkedUpwards(State(), j);
        }
        return None;
      }
      var w1 := LowestBit(l2);
      assert w1 < |l1|;
      var w0 := w1 * 64 + LowestBit(l1[w1]);
      assert w0 / 64 == w1 && w0 % 64 == LowestBit(l1[w1]);
      var i := w0 * 64 + LowestBit(l0[w0]);
      assert i / 64 == w0 && i % 64 == LowestBit(l0[w0]);
      assert Marked(State(), i);
      forall j: nat | Marked(State(), j) ensures i <= j {
        LowestIsMinimum(State(), w1, w0, i, j);
      }
      return Some(i);
    }

    /** scan_above(): the next set bit strictly above i. */
    method ScanAbove(i: nat) returns (r: Option<nat>)
      requires Valid() && i < n
      ensures IsLowest(Higher(Set(), i), r)
    {
      if i + 1 >= n {
        return None;
      }
      var j := i + 1;
      var w := j / 64;
      var bits: nat := KeepFrom(l0[w], j % 64);
      AboveStarts(State(), i);
      while bits == 0
        invariant AboveFrom(State(), i, w, bits)
        decreases |l0| - w
      {
        AboveSteps(State(), i, w);
        w := w + 1;
        if w >= |l0| {
          return None;
        }
        bits := l0[w];
      }
      AboveFound(State(), i, w, bits);
      return Some(64 * w + LowestBit(bits));
    }

    /** scan_below(): the next set bit strictly below i. */
    method ScanBelow(i: nat) returns (r: Option<nat>)
      requires Valid() && i < n
      ensures IsHighest(Lower(Set(), i), r)
    {
      if i == 0 {
        return None;
      }
      var j := i - 1;
      var w := j / 64;
      var b := j % 64;
      var bits: nat := if b == 63 then l0[w] else KeepBelow(l0[w], b + 1);
      BelowStarts(State(), i);
      while bits == 0
        invariant BelowFrom(State(), i, w, bits)
        decreases w
      {
        BelowSteps(State(), i, w);
        if w == 0 {
          return None;
        }
        w := w - 1;
        bits := l0[w];
      }
      BelowFound(State(), i, w, bits);
      return Some(64 * w + HighestBit(bits));
    }
  }
}

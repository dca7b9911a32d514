/** The reporting view: the best levels of a side, as totals and counts. */
module BookDepth {
  import opened Options
  import opened Types
  import opened BookSpec
  import opened BookLaws
  import opened BookSlab
  import opened BookFlat
  import opened BookCore
  import opened BookOps
  import opened LevelBitmaps
  import Arith

  datatype LevelView = LevelView(price: int, quantity: int, count: nat)

  /** How many orders share the best price. */
  function Front(queue: seq<Resting>): (r: nat)
    ensures r <= |queue| && (queue != [] ==> r > 0)
  {
    if queue == [] then 0
    else if |queue| == 1 || queue[1].price != queue[0].price then 1
    else 1 + Front(queue[1..])
  }

  /** The n best prices of a queue, with the quantity and the number of orders at each. */
  function TopLevels(queue: seq<Resting>, n: nat): seq<LevelView>
    decreases n
  {
    if n == 0 || queue == [] then []
    else
      var k := Front(queue);
      [LevelView(queue[0].price, Total(queue[..k]), k)] + TopLevels(queue[k..], n - 1)
  }

  function QuantityAtPrice(queue: seq<Resting>, price: int): int {
    if queue == [] then 0
    else (if queue[0].price == price then queue[0].quantity else 0) + QuantityAtPrice(queue[1..], price)
  }

  function BestPrice(queue: seq<Resting>): Option<int> {
    if queue == [] then None else Some(queue[0].price)
  }

  lemma {:induction false} FrontIs(a: seq<Resting>, b: seq<Resting>, price: int)
    requires a != [] && forall x :: x in a ==> x.price == price
    requires b != [] ==> b[0].price != price
    ensures Front(a + b) == |a|
  {
    assert a[0] in a;
    if |a| > 1 {
      assert a[1] in a && (a + b)[1..] == a[1..] + b;
      FrontIs(a[1..], b, price);
    }
  }

  lemma {:induction false} QuantityConcat(a: seq<Resting>, b: seq<Resting>, price: int)
    ensures QuantityAtPrice(a + b, price) == QuantityAtPrice(a, price) + QuantityAtPrice(b, price)
  {
    if a == [] {
      assert a + b == b;
    } else {
      assert (a + b)[1..] == a[1..] + b;
      QuantityConcat(a[1..], b, price);
    }
  }

  lemma {:induction false} QuantityAllAt(a: seq<Resting>, price: int)
    requires forall x :: x in a ==> x.price == price
    ensures QuantityAtPrice(a, price) == Total(a)
  {
    if a != [] {
      assert a[0] in a;
      QuantityAllAt(a[1..], price);
    }
  }

  lemma {:induction false} QuantityNoneAt(a: seq<Resting>, price: int)
    requires forall x :: x in a ==> x.price != price
    ensures QuantityAtPrice(a, price) == 0
  {
    if a != [] {
      assert a[0] in a;
      QuantityNoneAt(a[1..], price);
    }
  }

  /** Level i ranks strictly before level j. */
  predicate Precedes(side: Side, i: nat, j: nat) {
    if side.Sell? then i < j else j < i
  }

  lemma NextAsk(levels: seq<seq<Resting>>, i: nat, j: nat)
    requires i < j < |levels| && forall k: nat :: i < k < j ==> levels[k] == []
    ensures BehindOf(Sell, levels, i) == levels[j] + BehindOf(Sell, levels, j)
  {
    var rest := levels[i + 1..];
    FlatSplit(Sell, rest, j - i - 1);
    FlatEmpty(Sell, rest[..j - i - 1]);
    assert rest[j - i..] == levels[j + 1..];
  }

  lemma NextBid(levels: seq<seq<Resting>>, i: nat, j: nat)
    requires j < i < |levels| && forall k: nat :: j < k < i ==> levels[k] == []
    ensures BehindOf(Buy, levels, i) == levels[j] + BehindOf(Buy, levels, j)
  {
    var rest := levels[..i];
    FlatSplit(Buy, rest, j);
    FlatEmpty(Buy, rest[j + 1..]);
    assert rest[..j] == levels[..j];
  }

  /** When every level in between is empty, what is behind level i starts with level j. */
  lemma NextLevel(side: Side, levels: seq<seq<Resting>>, i: nat, j: nat)
    requires i < |levels| && j < |levels| && Precedes(side, i, j)
    requires forall k: nat :: k < |levels| && Precedes(side, i, k) && Precedes(side, k, j) ==> levels[k] == []
    ensures BehindOf(side, levels, i) == levels[j] + BehindOf(side, levels, j)
  {
    if side.Sell? {
      NextAsk(levels, i, j);
    } else {
      NextBid(levels, i, j);
    }
  }

  lemma NothingBehind(side: Side, levels: seq<seq<Resting>>, i: nat)
    requires i < |levels|
    requires forall k: nat :: k < |levels| && Precedes(side, i, k) ==> levels[k] == []
    ensures BehindOf(side, levels, i) == []
  {
    if side.Sell? {
      FlatEmpty(side, levels[i + 1..]);
    } else {
      FlatEmpty(side, levels[..i]);
    }
  }

  /** The level and everything behind it. */
  ghost function From(side: Side, c: Core, idx: nat): seq<Resting>
    requires AllIn(c.pool, c.mine.queues) && idx < |c.mine.queues|
  {
    MyLevels(c)[idx] + BehindOf(side, MyLevels(c), idx)
  }

  /** What the level array says of a level is what its orders say. */
  lemma LevelIs(band: Band, side: Side, c: Core, idx: nat)
    requires CoreOk(band, side, c, NIL) && idx < |c.mine.queues|
    ensures idx < |c.mine.levels| && c.mine.levels[idx].total == Total(MyLevels(c)[idx])
    ensures c.mine.levels[idx].count == |MyLevels(c)[idx]|
  {
    assert TotalOk(c.pool, c.mine.levels[idx], c.mine.queues[idx]);
  }

  /** One row of the depth report. */
  lemma TopStep(band: Band, side: Side, c: Core, idx: nat, n: nat)
    requires CoreOk(band, side, c, NIL) && idx < |c.mine.queues| && c.mine.queues[idx] != [] && n > 0
    ensures idx < |c.mine.levels|
    ensures var level := c.mine.levels[idx];
      TopLevels(From(side, c, idx), n)
        == [LevelView(PriceAt(band, idx), level.total, level.count)]
           + TopLevels(BehindOf(side, MyLevels(c), idx), n - 1)
  {
    var here, behind := MyLevels(c)[idx], BehindOf(side, MyLevels(c), idx);
    LevelIs(band, side, c, idx);
    forall x | x in here ensures x.price == PriceAt(band, idx) {
      RankOf(band, side, c, idx, x);
    }
    if behind != [] {
      assert behind[0] in behind;
      RankOf(band, side, c, idx, behind[0]);
    }
    FrontIs(here, behind, PriceAt(band, idx));
    assert here[0] in here;
    assert (here + behind)[..|here|] == here && (here + behind)[|here|..] == behind;
  }

  /** out, followed by the best n levels of rest, is the whole report. */
  ghost predicate Reports(out: seq<LevelView>, rest: seq<Resting>, n: nat, report: seq<LevelView>) {
    report == out + TopLevels(rest, n)
  }

  lemma ReportsAll(queue: seq<Resting>, n: nat)
    ensures Reports([], queue, n, TopLevels(queue, n))
  {
  }

  lemma ReportsRow(band: Band, side: Side, c: Core, idx: nat, row: LevelView, out: seq<LevelView>, n: nat,
                   report: seq<LevelView>, longer: seq<LevelView>, behind: seq<Resting>, fewer: nat)
    requires CoreOk(band, side, c, NIL) && idx < |c.mine.queues| && c.mine.queues[idx] != [] && n > 0
    requires idx < |c.mine.levels|
    requires row == LevelView(PriceAt(band, idx), c.mine.levels[idx].total, c.mine.levels[idx].count)
    requires Reports(out, From(side, c, idx), n, report)
    requires longer == out + [row] && behind == BehindOf(side, MyLevels(c), idx) && fewer == n - 1
    ensures Reports(longer, behind, fewer, report)
  {
    TopStep(band, side, c, idx, n);
    RowMoves(out, row, TopLevels(behind, fewer), TopLevels(From(side, c, idx), n), report);
  }

  lemma RowMoves(out: seq<LevelView>, row: LevelView, rest: seq<LevelView>, whole: seq<LevelView>, report: seq<LevelView>)
    requires whole == [row] + rest && report == out + whole
    ensures report == (out + [row]) + rest
  {
  }

  lemma ReportsDone(out: seq<LevelView>, rest: seq<Resting>, n: nat, report: seq<LevelView>)
    requires Reports(out, rest, n, report) && (rest == [] || n == 0)
    ensures out == report
  {
  }

  /** The scan's next set bit: the next lower for bids, the next higher for asks. */
  ghost predicate IsNext(side: Side, bits: set<nat>, i: nat, r: Option<nat>) {
    if side.Buy? then IsHighest(Lower(bits, i), r) else IsLowest(Higher(bits, i), r)
  }

  /** What the best bit, or the next bit of a scan, says about the rest of the queue. */
  ghost predicate Remaining(side: Side, c: Core, idx: Option<nat>, rest: seq<Resting>)
    requires AllIn(c.pool, c.mine.queues)
  {
    match idx
    case None => rest == []
    case Some(i) => i < |c.mine.queues| && c.mine.queues[i] != [] && rest == From(side, c, i)
  }

  /** A bit that is not set stands for an empty level. */
  ghost predicate BitsTell(bits: set<nat>, c: Core) {
    && (forall i: nat :: i in bits ==> i < |c.mine.queues| && c.mine.queues[i] != [])
    && (forall i: nat {:trigger c.mine.queues[i]} :: i < |c.mine.queues| && i !in bits ==> c.mine.queues[i] == [])
  }

  lemma EmptyLevels(band: Band, side: Side, c: Core, bits: set<nat>)
    requires CoreOk(band, side, c, NIL) && BitsTell(bits, c)
    ensures forall i: nat :: i < |MyLevels(c)| && i !in bits ==> MyLevels(c)[i] == []
  {
    forall i: nat | i < |c.mine.queues| && i !in bits ensures MyLevels(c)[i] == [] {
      LevelTells(band, side, c, NIL, i);
    }
  }

  lemma NoneBetween(side: Side, bits: set<nat>, i: nat, r: Option<nat>, k: nat)
    requires IsNext(side, bits, i, r) && Precedes(side, i, k) && (r.Some? ==> Precedes(side, k, r.value))
    ensures k !in bits
  {
    assert k in bits ==> k in Lower(bits, i) || k in Higher(bits, i);
  }

  lemma ScanTells(band: Band, side: Side, c: Core, bits: set<nat>, i: nat, r: Option<nat>)
    requires CoreOk(band, side, c, NIL) && BitsTell(bits, c) && i in bits && IsNext(side, bits, i, r)
    ensures Remaining(side, c, r, BehindOf(side, MyLevels(c), i))
  {
    var levels: seq<seq<Resting>> := MyLevels(c);
    EmptyLevels(band, side, c, bits);
    forall k: nat | k < |levels| && Precedes(side, i, k) && (r.Some? ==> Precedes(side, k, r.value))
      ensures levels[k] == []
    {
      NoneBetween(side, bits, i, r, k);
    }
    match r
    case None => NothingBehind(side, levels, i);
    case Some(j) => NextLevel(side, levels, i, j);
  }

  lemma StartTells(band: Band, side: Side, c: Core, bits: set<nat>, r: Option<nat>)
    requires CoreOk(band, side, c, NIL) && BitsTell(bits, c)
    requires if side.Buy? then IsHighest(bits, r) else IsLowest(bits, r)
    ensures Remaining(side, c, r, Flat(side, MyLevels(c)))
  {
    EmptyLevels(band, side, c, bits);
    StartOf(side, MyLevels(c), bits, r);
  }

  /** The level a walk starts at holds the best price. */
  lemma FrontPrice(band: Band, side: Side, c: Core, i: nat, price: int)
    requires CoreOk(band, side, c, NIL) && Remaining(side, c, Some(i), Flat(side, MyLevels(c)))
    requires price == band.base + i * band.tick
    ensures i < |c.mine.levels| && PriceAt(band, i) == price
    ensures BestPrice(Flat(side, MyLevels(c))) == Some(price)
  {
    PriceFormula(band, i);
    LevelTells(band, side, c, NIL, i);
    assert MyLevels(c)[i][0] in MyLevels(c)[i];
    LevelPrice(band, side, c, i, MyLevels(c)[i][0]);
    assert From(side, c, i)[0] == MyLevels(c)[i][0];
  }

  lemma StartOf(side: Side, levels: seq<seq<Resting>>, bits: set<nat>, r: Option<nat>)
    requires forall i: nat :: i < |levels| && i !in bits ==> levels[i] == []
    requires if side.Buy? then IsHighest(bits, r) else IsLowest(bits, r)
    ensures r.None? ==> Flat(side, levels) == []
    ensures r.Some? && r.value < |levels| ==>
      Flat(side, levels) == levels[r.value] + BehindOf(side, levels, r.value)
  {
    match r
    case None => FlatEmpty(side, levels);
    case Some(j) =>
      if j < |levels| {
        BestLevel(side, levels, j);
        FlatSplit(side, levels, j);
        assert [] + levels[j] == levels[j];
      }
  }

  /** The level array answers "how much at this price?" for the whole queue. */
  lemma LevelQuantity(band: Band, side: Side, c: Core, idx: nat)
    requires CoreOk(band, side, c, NIL) && idx < |c.mine.queues|
    ensures idx < |c.mine.levels|
    ensures c.mine.levels[idx].total == QuantityAtPrice(Flat(side, MyLevels(c)), PriceAt(band, idx))
  {
    var price := PriceAt(band, idx);
    var ahead, here, behind := AheadOf(side, MyLevels(c), idx), MyLevels(c)[idx], BehindOf(side, MyLevels(c), idx);
    LevelIs(band, side, c, idx);
    FlatSplit(side, MyLevels(c), idx);
    forall x: Resting
      ensures x in ahead || x in behind ==> x.price != price
      ensures x in here ==> x.price == price
    {
      RankOf(band, side, c, idx, x);
    }
    QuantityConcat(ahead + here, behind, price);
    QuantityConcat(ahead, here, price);
    QuantityAllAt(here, price);
    QuantityNoneAt(ahead, price);
    QuantityNoneAt(behind, price);
  }

  /** Off the grid there is nothing. */
  lemma NothingOffGrid(band: Band, side: Side, c: Core, price: int)
    requires CoreOk(band, side, c, NIL) && !band.Contains(price) && |c.mine.queues| == IndexOf(band, band.max) + 1
    ensures QuantityAtPrice(Flat(side, MyLevels(c)), price) == 0
  {
    forall x | x in Flat(side, MyLevels(c)) ensures x.price != price {
      FlatMember(side, MyLevels(c), x);
      var i :| 0 <= i < |MyLevels(c)| && x in MyLevels(c)[i];
      LevelPrice(band, side, c, i, x);
      OnGrid(band, i);
    }
    QuantityNoneAt(Flat(side, MyLevels(c)), price);
  }

  lemma OnGrid(band: Band, idx: nat)
    requires band.Valid() && idx <= IndexOf(band, band.max)
    ensures band.Contains(PriceAt(band, idx))
  {
    PriceFormula(band, idx);
    IndexOfPrice(band, idx);
    Arith.Euclid(PriceAt(band, idx) - band.base, band.tick);
    Arith.Euclid(band.max - band.base, band.tick);
    Arith.Scale(idx, IndexOf(band, band.max), band.tick);
    Arith.Commute(band.tick, idx);
    Arith.Commute(band.tick, IndexOf(band, band.max));
    var off := PriceAt(band, idx) - band.base;
    assert off % band.tick == off - band.tick * (off / band.tick);
    Arith.Scale(0, idx, band.tick);
  }
}

/** What a market order pays: sweeps compose, cost more with size, and are rounded against the aggressor. */
module SweepCost {
  import opened Options
  import opened Types
  import opened BookSpec
  import opened BookLaws
  import opened Arith

  function Notional(trades: seq<Trade>): int {
    if trades == [] then 0
    else Notional(trades[..|trades| - 1]) + trades[|trades| - 1].price * trades[|trades| - 1].quantity
  }

  /** The cost of taking q from the front of the queue. */
  function Cost(queue: seq<Resting>, q: int): int {
    if queue == [] || q <= 0 then 0
    else
      var traded := Min(q, queue[0].quantity);
      queue[0].price * traded + Cost(queue[1..], q - traded)
  }

  /** The queue with q taken from its front. */
  function Taken(queue: seq<Resting>, q: int): seq<Resting> {
    if queue == [] || q <= 0 then queue
    else if queue[0].quantity <= q then Taken(queue[1..], q - queue[0].quantity)
    else queue[0 := queue[0].(quantity := queue[0].quantity - q)]
  }

  /** How much of q the queue can supply. */
  function Supplied(queue: seq<Resting>, q: int): int {
    Min(Max(q, 0), Total(queue))
  }

  predicate IsMarket(a: Aggressor) {
    a.limit == None
  }

  /** Meeting the head of the queue takes what the closed forms say of it. */
  lemma HeadPays(a: Aggressor, s: Sweep)
    requires Positive(s.queue) && s.queue != [] && s.remaining > 0
    ensures var s', traded := Meet(a, NoPolicy, s), Min(s.remaining, s.queue[0].quantity);
      && s'.remaining == s.remaining - traded && s'.preventions == s.preventions && s'.stopped == s.stopped
      && Notional(s'.trades) == Notional(s.trades) + s.queue[0].price * traded
      && Taken(s.queue, s.remaining) == Taken(s'.queue, s'.remaining)
      && Supplied(s.queue, s.remaining) == traded + Supplied(s'.queue, s'.remaining)
      && Cost(s.queue, s.remaining) == s.queue[0].price * traded + Cost(s'.queue, s'.remaining)
  {
    var s' := Meet(a, NoPolicy, s);
    assert s'.trades[..|s.trades|] == s.trades;
    assert Cost(s'.queue, 0) == 0;
    TotalNonNegative(s.queue[1..]);
  }

  /** A sweep that has reached r has taken its quantity from the front of the queue, at the queue's prices. */
  ghost predicate Swept(s: Sweep, r: Sweep) {
    && r.queue == Taken(s.queue, s.remaining) && r.preventions == s.preventions
    && s.remaining - r.remaining == Supplied(s.queue, s.remaining)
    && Notional(r.trades) - Notional(s.trades) == Cost(s.queue, s.remaining)
  }

  lemma SweptOneMore(a: Aggressor, s: Sweep, r: Sweep)
    requires Positive(s.queue) && s.queue != [] && s.remaining > 0 && Swept(Meet(a, NoPolicy, s), r)
    ensures Swept(s, r)
  {
    HeadPays(a, s);
  }

  /** The sweep's queue, fill and notional, each in closed form. */
  lemma {:induction false} MarketSweep(a: Aggressor, s: Sweep)
    requires Positive(s.queue) && IsMarket(a) && !s.stopped && s.remaining >= 0
    ensures Swept(s, Run(a, NoPolicy, s))
    decreases |s.queue|, s.remaining > 0
  {
    if Done(a, s) {
      NothingTaken(s);
    } else {
      var s' := Meet(a, NoPolicy, s);
      MarketSweep(a, s');
      SweptOneMore(a, s, Run(a, NoPolicy, s'));
    }
  }

  lemma NothingTaken(s: Sweep)
    requires Positive(s.queue) && s.remaining >= 0 && (s.queue == [] || s.remaining == 0)
    ensures Swept(s, s)
  {
    TotalNonNegative(s.queue);
  }

  lemma {:induction false} TotalNonNegative(queue: seq<Resting>)
    requires Positive(queue)
    ensures Total(queue) >= 0
  {
    if queue != [] {
      TotalNonNegative(queue[1..]);
    }
  }

  /** Taking q1 and then q2 leaves the same queue, and costs the same, as taking q1 + q2. */
  lemma {:induction false} TakenComposes(queue: seq<Resting>, q1: nat, q2: nat)
    requires Positive(queue)
    ensures Taken(Taken(queue, q1), q2) == Taken(queue, q1 + q2)
    ensures Cost(queue, q1) + Cost(Taken(queue, q1), q2) == Cost(queue, q1 + q2)
  {
    if queue != [] && q1 > 0 {
      if queue[0].quantity <= q1 {
        TakenComposes(queue[1..], q1 - queue[0].quantity, q2);
      } else {
        var reduced := Taken(queue, q1);
        assert reduced[1..] == queue[1..];
        assert Cost(queue[1..], 0) == 0;
        assert Cost(queue, q1) == queue[0].price * q1;
        Distribute(queue[0].price, q1, Min(q2, reduced[0].quantity));
      }
    }
  }

  // ------------------------------------------------------------- larger is dearer

  lemma {:induction false} CostAtMost(queue: seq<Resting>, q: nat, m: int)
    requires Positive(queue) && forall i :: 0 <= i < |queue| ==> queue[i].price <= m
    ensures Cost(queue, q) <= m * Supplied(queue, q)
  {
    TotalNonNegative(queue);
    if queue != [] && q > 0 {
      var traded := Min(q, queue[0].quantity);
      CostAtMost(queue[1..], q - traded, m);
      TotalNonNegative(queue[1..]);
      Scale(queue[0].price, m, traded);
      Distribute(m, traded, Supplied(queue[1..], q - traded));
    }
  }

  lemma {:induction false} CostAtLeast(queue: seq<Resting>, q: nat, m: int)
    requires Positive(queue) && forall i :: 0 <= i < |queue| ==> m <= queue[i].price
    ensures m * Supplied(queue, q) <= Cost(queue, q)
  {
    TotalNonNegative(queue);
    if queue != [] && q > 0 {
      var traded := Min(q, queue[0].quantity);
      CostAtLeast(queue[1..], q - traded, m);
      TotalNonNegative(queue[1..]);
      Scale(m, queue[0].price, traded);
      Distribute(m, traded, Supplied(queue[1..], q - traded));
    }
  }

  /** What has been taken was no dearer than what is left at the front. */
  lemma {:induction false} TakenWasCheaper(queue: seq<Resting>, q: nat)
    requires Positive(queue) && Sorted(Sell, queue) && Taken(queue, q) != []
    ensures Cost(queue, q) <= Taken(queue, q)[0].price * q
    ensures forall i :: 0 <= i < |Taken(queue, q)| ==> Taken(queue, q)[0].price <= Taken(queue, q)[i].price
    ensures forall r :: r in Taken(queue, q) ==> queue[0].price <= r.price
    ensures Positive(Taken(queue, q)) && Total(Taken(queue, q)) == Total(queue) - q
  {
    if queue != [] && q > 0 {
      var h := queue[0];
      if h.quantity <= q {
        TakenWasCheaper(queue[1..], q - h.quantity);
        var m := Taken(queue, q)[0].price;
        assert queue[1].price <= m;
        Scale(h.price, m, h.quantity);
        Distribute(m, h.quantity, q - h.quantity);
      } else {
        assert Cost(queue[1..], 0) == 0;
        assert Taken(queue, q)[1..] == queue[1..];
      }
    }
  }

  /** Below what the queue holds, buying more never improves the average: cost(q1) / q1 <= cost(q1 + q2) / (q1 + q2). */
  lemma AverageWithin(queue: seq<Resting>, q1: nat, q2: nat)
    requires Positive(queue) && Sorted(Sell, queue) && q1 + q2 <= Total(queue)
    ensures Cost(queue, q1) * (q1 + q2) <= Cost(queue, q1 + q2) * q1
  {
    var rest := Taken(queue, q1);
    TakenComposes(queue, q1, q2);
    if rest == [] {
      TakenEmpty(queue, q1);
      assert q2 == 0;
    } else {
      var m := rest[0].price;
      TakenWasCheaper(queue, q1);
      CostAtLeast(rest, q2, m);
      CrossMultiply(Cost(queue, q1), Cost(rest, q2), m, q1, q2);
    }
  }

  /** An order for more than there is costs what all there is costs. */
  lemma {:induction false} CostOfAll(queue: seq<Resting>, q: nat)
    requires Positive(queue)
    ensures Total(queue) >= 0 && Cost(queue, q) == Cost(queue, Supplied(queue, q))
  {
    TotalNonNegative(queue);
    if queue != [] && q > 0 {
      TotalNonNegative(queue[1..]);
      CostOfAll(queue[1..], q - Min(q, queue[0].quantity));
    }
  }

  /** Buying more never improves the average paid for what fills, whatever the sizes: the cost of the smaller
      order over what it is supplied is at most that of the larger. */
  lemma AverageNeverImproves(queue: seq<Resting>, q1: nat, q2: nat)
    requires Positive(queue) && Sorted(Sell, queue)
    ensures Cost(queue, q1) * Supplied(queue, q1 + q2) <= Cost(queue, q1 + q2) * Supplied(queue, q1)
  {
    CostOfAll(queue, q1);
    CostOfAll(queue, q1 + q2);
    var s1, s := Supplied(queue, q1), Supplied(queue, q1 + q2);
    AverageWithin(queue, s1, s - s1);
  }

  lemma CrossMultiply(c1: int, c2: int, m: int, q1: nat, q2: nat)
    requires c1 <= m * q1 && m * q2 <= c2
    ensures c1 * (q1 + q2) <= (c1 + c2) * q1
  {
    assert c1 * q2 <= m * q1 * q2 == (m * q2) * q1 <= c2 * q1;
  }

  lemma {:induction false} TakenEmpty(queue: seq<Resting>, q: nat)
    requires Positive(queue) && Taken(queue, q) == []
    ensures Total(queue) <= q
  {
    if queue != [] {
      TakenEmpty(queue[1..], q - queue[0].quantity);
    }
  }

  /** The same queue with its prices reflected: what a seller gives up is what a buyer would pay. */
  function Mirror(queue: seq<Resting>): seq<Resting> {
    seq(|queue|, i requires 0 <= i < |queue| => queue[i].(price := -queue[i].price))
  }

  lemma {:induction false} MirrorCost(queue: seq<Resting>, q: int)
    ensures Cost(Mirror(queue), q) == -Cost(queue, q)
    ensures Total(Mirror(queue)) == Total(queue)
  {
    if queue != [] {
      var traded := Min(q, queue[0].quantity);
      assert Mirror(queue)[1..] == Mirror(queue[1..]);
      MirrorCost(queue[1..], q - traded);
      Negate(queue[0].price, traded);
    }
  }

  /** Selling more never improves the average received either. */
  lemma AverageNeverImprovesSelling(queue: seq<Resting>, q1: nat, q2: nat)
    requires Positive(queue) && Sorted(Buy, queue)
    ensures Cost(queue, q1) * Supplied(queue, q1 + q2) >= Cost(queue, q1 + q2) * Supplied(queue, q1)
  {
    MirrorCost(queue, q1);
    MirrorCost(queue, q1 + q2);
    AverageNeverImproves(Mirror(queue), q1, q2);
    Negate(Cost(queue, q1), Supplied(queue, q1 + q2));
    Negate(Cost(queue, q1 + q2), Supplied(queue, q1));
  }

  // -------------------------------------------------------- the reported price

  function CeilDiv(num: int, den: int): int
    requires den != 0
  {
    var q := TruncDiv(num, den);
    if TruncMod(num, den) != 0 && (num > 0) == (den > 0) then q + 1 else q
  }

  function FloorDiv(num: int, den: int): int
    requires den != 0
  {
    var q := TruncDiv(num, den);
    if TruncMod(num, den) != 0 && (num > 0) != (den > 0) then q - 1 else q
  }

  /** ceil_div rounds up and floor_div rounds down, for either sign of the numerator. */
  lemma Rounding(num: int, den: int)
    requires den > 0
    ensures 0 <= den * CeilDiv(num, den) - num < den
    ensures 0 <= num - den * FloorDiv(num, den) < den
  {
    if num >= 0 {
      Euclid(num, den);
      Distribute(den, num / den, 1);
    } else {
      Euclid(-num, den);
      Distribute(den, (-num) / den, 1);
      Distribute(den, 0, (-num) / den);
      Distribute(den, -((-num) / den), 1);
    }
  }

  /** The price a fill is reported at: the volume-weighted average, rounded against the aggressor. */
  function ReportedPrice(side: Side, notional: int, got: int): int
    requires got != 0
  {
    if side.Buy? then CeilDiv(notional, got) else FloorDiv(notional, got)
  }

  lemma {:induction false} NotionalBetween(trades: seq<Trade>, lo: int, hi: int)
    requires forall t :: t in trades ==> lo <= t.price <= hi && t.quantity > 0
    ensures Volume(trades) >= 0
    ensures lo * Volume(trades) <= Notional(trades) <= hi * Volume(trades)
  {
    if trades != [] {
      var t := trades[|trades| - 1];
      NotionalBetween(trades[..|trades| - 1], lo, hi);
      assert t in trades;
      Scale(lo, t.price, t.quantity);
      Scale(t.price, hi, t.quantity);
      Distribute(lo, Volume(trades[..|trades| - 1]), t.quantity);
      Distribute(hi, Volume(trades[..|trades| - 1]), t.quantity);
    }
  }

  /** The reported price lies between the best and the worst trade, and misses the exact average by
      less than a tick, never in the aggressor's favour. */
  lemma ReportedAgainstAggressor(side: Side, trades: seq<Trade>, lo: int, hi: int)
    requires trades != []
    requires forall t :: t in trades ==> lo <= t.price <= hi && t.quantity > 0
    ensures Volume(trades) > 0
    ensures var got, n := Volume(trades), Notional(trades);
      var p := ReportedPrice(side, n, got);
      && lo <= p <= hi
      && (side.Buy? ==> 0 <= got * p - n < got)
      && (side.Sell? ==> 0 <= n - got * p < got)
  {
    var got, n := Volume(trades), Notional(trades);
    NotionalBetween(trades[..|trades| - 1], lo, hi);
    NotionalBetween(trades, lo, hi);
    assert trades[|trades| - 1] in trades;
    Rounding(n, got);
    Squeezed(got, n, CeilDiv(n, got), lo, hi);
    Squeezed(got, n, FloorDiv(n, got), lo, hi);
  }

  /** A whole price within one tick of an average between lo and hi is itself between them. */
  lemma Squeezed(got: int, n: int, p: int, lo: int, hi: int)
    requires got > 0 && lo * got <= n <= hi * got
    requires -got < got * p - n < got
    ensures lo <= p <= hi
  {
    if p < lo {
      Scale(p + 1, lo, got);
      Commute(p + 1, got);
      Distribute(got, p, 1);
    }
    if hi < p {
      Scale(hi + 1, p, got);
      Commute(hi + 1, got);
      Distribute(got, hi, 1);
    }
  }
}

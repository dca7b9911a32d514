/** The simulated venue: an order crosses its instrument's book, is reported at a rounded average, and is
    booked at average cost. */
module PaperVenues {
  import opened Options
  import opened Types
  import opened OmsSpec
  import opened BookSpec
  import opened BookLaws
  import opened SweepCost
  import opened OrderBooks
  import opened PnlSpec

  /** No order on the book can be the aggressor's own in the eyes of the policy. */
  predicate Unrelated(policy: Policy, owner: nat) {
    policy == NoPolicy || owner == 0
  }

  /** An aggressor without an owner, as the venue's is, sweeps as if there were no self-match policy. */
  lemma {:induction false} NoOwnerNoPolicy(a: Aggressor, policy: Policy, s: Sweep)
    requires Unrelated(policy, a.owner)
    ensures Run(a, policy, s) == Run(a, NoPolicy, s)
    decreases |s.queue|, s.remaining > 0, !s.stopped
  {
    if !Done(a, s) {
      NoOwnerNoPolicy(a, policy, Meet(a, policy, s));
    }
  }

  lemma TakesNothing(queue: seq<Resting>, quantity: int)
    requires quantity <= 0
    ensures Taken(queue, quantity) == queue && Cost(queue, quantity) == 0
  {
  }

  lemma CrossFinds(b: Book, id: nat, side: Side, quantity: int, owner: nat)
    requires Positive(b.On(side.Opposite())) && Unrelated(b.policy, owner)
    ensures var queue, o := b.On(side.Opposite()), BookSpec.ExecuteMarket(b, id, side, quantity, owner);
      && o.result == Supplied(queue, quantity) && 0 <= o.result <= Max(quantity, 0)
      && Notional(o.trades) == Cost(queue, quantity)
      && o.book == b.With(side.Opposite(), Taken(queue, quantity))
  {
    var a := Aggressor(id, owner, side, None);
    var s := Sweep(b.On(side.Opposite()), quantity, [], b.preventions, false);
    TotalNonNegative(s.queue);
    if quantity > 0 {
      NoOwnerNoPolicy(a, b.policy, s);
      MarketSweep(a, s);
    } else {
      TakesNothing(s.queue, quantity);
    }
  }

  lemma {:induction false} TakenPositive(queue: seq<Resting>, q: int)
    requires Positive(queue)
    ensures Positive(Taken(queue, q)) && Total(Taken(queue, q)) == Total(queue) - Supplied(queue, q)
  {
    TotalNonNegative(queue);
    if queue != [] && q > 0 && queue[0].quantity <= q {
      TotalNonNegative(queue[1..]);
      TakenPositive(queue[1..], q - queue[0].quantity);
    } else if queue != [] && q > 0 {
      TotalNonNegative(queue[1..]);
    }
  }

  /** Executing q1 and then q2 leaves the book, the total fill and the total notional of executing q1 + q2. */
  lemma ExecutionsCompose(b: Book, id1: nat, id2: nat, id: nat, side: Side, q1: int, q2: int, owner: nat)
    requires q1 >= 0 && q2 >= 0 && Positive(b.On(side.Opposite())) && Unrelated(b.policy, owner)
    ensures var first := BookSpec.ExecuteMarket(b, id1, side, q1, owner);
      var second := BookSpec.ExecuteMarket(first.book, id2, side, q2, owner);
      var whole := BookSpec.ExecuteMarket(b, id, side, q1 + q2, owner);
      && second.book == whole.book && first.result + second.result == whole.result
      && Notional(first.trades) + Notional(second.trades) == Notional(whole.trades)
  {
    var queue := b.On(side.Opposite());
    CrossFinds(b, id1, side, q1, owner);
    TakenPositive(queue, q1);
    CrossFinds(BookSpec.ExecuteMarket(b, id1, side, q1, owner).book, id2, side, q2, owner);
    CrossFinds(b, id, side, q1 + q2, owner);
    TakenComposes(queue, q1, q2);
    TotalNonNegative(queue);
  }

  /** What the venue makes of a sweep of this queue: how much fills, and the price it is reported at. */
  datatype Quote = Quote(price: int, filled: int)

  function QuoteFor(queue: seq<Resting>, side: Side, quantity: int, reference: int): Quote {
    var got := Supplied(queue, quantity);
    Quote(if got > 0 then ReportedPrice(side, Cost(queue, quantity), got) else reference, got)
  }

  /** The venue never fills more than it was asked for, and reports a price between the queue's best and
      worst, rounded against the order by less than a tick. */
  lemma QuoteIsFair(queue: seq<Resting>, side: Side, quantity: int, reference: int, lo: int, hi: int)
    requires Positive(queue)
    requires forall i :: 0 <= i < |queue| ==> lo <= queue[i].price <= hi
    ensures var q, cost := QuoteFor(queue, side, quantity, reference), Cost(queue, quantity);
      && 0 <= q.filled <= Max(quantity, 0)
      && (q.filled > 0 ==> lo <= q.price <= hi)
      && (q.filled > 0 && side.Buy? ==> 0 <= q.filled * q.price - cost < q.filled)
      && (q.filled > 0 && side.Sell? ==> 0 <= cost - q.filled * q.price < q.filled)
  {
    TotalNonNegative(queue);
    if quantity > 0 {
      CostAtMost(queue, quantity, hi);
      CostAtLeast(queue, quantity, lo);
    }
    var got, cost := Supplied(queue, quantity), Cost(queue, quantity);
    if got > 0 {
      Rounding(cost, got);
      Squeezed(got, cost, CeilDiv(cost, got), lo, hi);
      Squeezed(got, cost, FloorDiv(cost, got), lo, hi);
    }
  }

  /** A floating-point price made an integer: halves go away from zero. */
  function Rounded(x: real): int {
    if x >= 0.0 then (x + 0.5).Floor else -(0.5 - x).Floor
  }

  function Slipped(side: Side, reference: int, slippageBps: real): real {
    var slip := reference as real * (slippageBps / 10000.0);
    if side.Buy? then reference as real + slip else reference as real - slip
  }

  /** The price of an instrument without a book: the slipped reference, to the nearest tick. */
  lemma FlatPriceIsNearest(side: Side, reference: int, slippageBps: real)
    ensures var x, p := Slipped(side, reference, slippageBps), Rounded(Slipped(side, reference, slippageBps)) as real;
      -0.5 <= p - x <= 0.5 && (p - x == 0.5 ==> x > 0.0) && (p - x == -0.5 ==> x < 0.0)
  {
  }

  /** fill_price_for(): the quote of the instrument's book, or everything at the slipped reference where it has none. */
  function VenueQuote(book: Option<Book>, order: Order, reference: int, slippageBps: real): Quote {
    match book
    case None => Quote(Rounded(Slipped(order.side, reference, slippageBps)), order.quantity)
    case Some(b) => QuoteFor(b.On(order.side.Opposite()), order.side, order.quantity, reference)
  }

  function FeeFor(price: int, filled: int, feeBps: real): real {
    price as real / 100.0 * filled as real * (feeBps / 10000.0)
  }

  function Filling(order: Order, q: Quote, feeBps: real, now: int): Fill {
    Fill(order.id, order.symbol, order.side, q.price, q.filled, FeeFor(q.price, q.filled, feeBps), now)
  }

  function Accounted(l: Ledger, order: Order, q: Quote, feeBps: real): Ledger {
    if q.filled > 0 then
      Booked(l, Execution(order.symbol, order.side, q.filled, q.price as real / 100.0, FeeFor(q.price, q.filled, feeBps)))
    else l
  }

  method SumNotional(trades: seq<Trade>) returns (n: int)
    ensures n == Notional(trades)
  {
    n := 0;
    var i := 0;
    while i < |trades|
      invariant i <= |trades| && n == Notional(trades[..i])
    {
      assert trades[..i + 1][..i] == trades[..i];
      n := n + trades[i].price * trades[i].quantity;
      i := i + 1;
    }
    assert trades[..|trades|] == trades;
  }

  /** What execution leaves of the book: the opposite queue less what was taken, and nothing else changed. */
  predicate Crossed(b: Book, order: Order, b': Book) {
    b' == b.With(order.side.Opposite(), Taken(b.On(order.side.Opposite()), order.quantity))
  }

  class PaperVenue {
    const feeBps: real
    const slippageBps: real
    var positions: seq<int>
    var costs: seq<real>
    var realized: real
    var fees: real
    var fillCount: nat
    var nextVenueOrderId: nat

    ghost function Books(): Ledger
      reads this
    {
      Ledger(positions, costs, realized, fees)
    }

    constructor (feeBps: real, slippageBps: real)
      ensures this.feeBps == feeBps && this.slippageBps == slippageBps && IsOpening(Books()) && fillCount == 0
    {
      this.feeBps, this.slippageBps := feeBps, slippageBps;
      positions, costs, realized, fees := [], [], 0.0, 0.0;
      fillCount, nextVenueOrderId := 0, 1_000_000_000;
    }

    /** The average over the trades, rounded against the order; where nothing traded, the reference. */
    static method PriceOf(side: Side, trades: seq<Trade>, filled: int, reference: int) returns (price: int)
      ensures price == if filled > 0 then ReportedPrice(side, Notional(trades), filled) else reference
    {
      if filled <= 0 {
        return reference;
      }
      var notional := SumNotional(trades);
      return if side.Buy? then CeilDiv(notional, filled) else FloorDiv(notional, filled);
    }

    /** fill_price_for(), on an instrument that has a book to cross. */
    method FillPriceFor(book: OrderBook, order: Order, reference: int) returns (price: int, filled: int)
      requires book.Valid() && Inv(book.View())
      modifies this`nextVenueOrderId, book, book.bids, book.asks, book.bids.bitmap, book.asks.bitmap, book.ids
      ensures book.Valid()
      ensures Quote(price, filled) == VenueQuote(Some(old(book.View())), order, reference, slippageBps)
      ensures Crossed(old(book.View()), order, book.View())
    {
      var id := nextVenueOrderId;
      nextVenueOrderId := nextVenueOrderId + 1;
      CrossFinds(book.View(), id, order.side, order.quantity, 0);
      var trades;
      filled, trades := book.ExecuteMarket(id, order.side, order.quantity, 0);
      price := PriceOf(order.side, trades, filled, reference);
    }

    /** fill_price_for(), without one. */
    method FlatPriceFor(order: Order, reference: int) returns (price: int, filled: int)
      ensures Quote(price, filled) == VenueQuote(None, order, reference, slippageBps)
    {
      var slip := reference as real * (slippageBps / 10000.0);
      var px := if order.side.Buy? then reference as real + slip else reference as real - slip;
      return Rounded(px), order.quantity;
    }

    /** The average-cost rule: what an execution realizes, and what is then held cost. */
    static method AverageCost(held: int, cost: real, signed: int, price: real) returns (profit: real, after: real)
      ensures profit == Realizes(held, cost, signed, price) && after == CostAfter(held, cost, signed, price)
    {
      if held == 0 || (held > 0) == (signed > 0) {
        return 0.0, cost + price * signed as real;
      }
      var closing := Min(Abs(signed), Abs(held));
      var entry := cost / held as real;
      var direction := if held > 0 then 1.0 else -1.0;
      profit := (price - entry) * closing as real * direction;
      var now := held + signed;
      if now == 0 {
        after := 0.0;
      } else if (now > 0) == (held > 0) {
        after := entry * now as real;
      } else {
        after := price * now as real;
      }
    }

    /** apply_pnl() */
    method ApplyPnl(x: Execution)
      modifies this`positions, this`costs, this`realized, this`fees
      ensures Books() == Booked(old(Books()), x)
    {
      positions, costs := Grown(positions, x.symbol), GrownReal(costs, x.symbol);
      var signed := x.side.Signed(x.quantity);
      var held := positions[x.symbol];
      var profit, after := AverageCost(held, costs[x.symbol], signed, x.price);
      costs := costs[x.symbol := after];
      realized := realized + profit - x.fee;
      fees := fees + x.fee;
      positions := positions[x.symbol := held + signed];
    }

    /** Books a fill of the order, if there was one. */
    method Account(order: Order, price: int, filled: int, now: int) returns (fill: Fill)
      modifies this`positions, this`costs, this`realized, this`fees, this`fillCount
      ensures fill == Filling(order, Quote(price, filled), feeBps, now)
      ensures Books() == Accounted(old(Books()), order, Quote(price, filled), feeBps)
      ensures fillCount == old(fillCount) + 1
    {
      var px := price as real / 100.0;
      var fee := px * filled as real * (feeBps / 10000.0);
      if filled > 0 {
        ApplyPnl(Execution(order.symbol, order.side, filled, px, fee));
      }
      fillCount := fillCount + 1;
      return Fill(order.id, order.symbol, order.side, price, filled, fee, now);
    }

    /** submit() of an order for an instrument that has a book. */
    method Submit(book: OrderBook, order: Order, reference: int, now: int) returns (fill: Fill)
      requires book.Valid() && Inv(book.View())
      modifies this, book, book.bids, book.asks, book.bids.bitmap, book.asks.bitmap, book.ids
      ensures book.Valid() && Crossed(old(book.View()), order, book.View())
      ensures var q := VenueQuote(Some(old(book.View())), order, reference, slippageBps);
        fill == Filling(order, q, feeBps, now) && Books() == Accounted(old(Books()), order, q, feeBps)
      ensures fillCount == old(fillCount) + 1
    {
      var price, filled := FillPriceFor(book, order, reference);
      fill := Account(order, price, filled, now);
    }

    /** submit() of an order for one that has none. */
    method SubmitFlat(order: Order, reference: int, now: int) returns (fill: Fill)
      modifies this
      ensures var q := VenueQuote(None, order, reference, slippageBps);
        fill == Filling(order, q, feeBps, now) && Books() == Accounted(old(Books()), order, q, feeBps)
      ensures fillCount == old(fillCount) + 1
    {
      var price, filled := FlatPriceFor(order, reference);
      fill := Account(order, price, filled, now);
    }

    /** equity() */
    method EquityAt(symbol: nat, mark: real) returns (r: real)
      ensures r == Equity(Books(), symbol, mark)
    {
      var held := At(positions, symbol);
      if held == 0 {
        return realized;
      }
      return realized + (mark * held as real - AtReal(costs, symbol));
    }
  }
}

/** Two runs the gate lets through that take a position to twice its limit. */
module FlightFailures {
  import opened Types
  import opened OmsSpec
  import opened OmsLaws
  import opened OmsRuns
  import opened RiskSpec
  import opened Dispatching
  import opened EngineSpec
  import opened InFlight
  import opened FlightRuns

  /** Limits under which nothing but the position limit of ten can turn the orders below away. */
  predicate Loose(config: Config, limits: Limits, price: int) {
    && config.history > 0 && config.maxOpen >= 2
    && limits.enabled && limits.maxPosition == 10 && limits.maxGross >= 10 && limits.maxQuantity >= 20
    && price > 0 && price as real / 100.0 * 20.0 <= limits.maxNotional && limits.collarBps <= 0.0
    && limits.maxPerSecond == 0 && limits.maxDaily >= 2
  }

  function AtPrice(y: nat, side: Side, price: int, quantity: int): Order {
    Order(0, y, side, Limit, price, quantity, 0)
  }

  function Filling(like: Landing, quantity: int): Landing {
    like.(answer := like.answer.(quantity := quantity))
  }

  /** One order of ten has been sent, from flat, at time zero. */
  ghost predicate OneOut(config: Config, limits: Limits, f: Flight, order: Order) {
    && Airborne(f) && |f.wire| == 1 && f.wire[0].1 == order && f.Position(order.symbol) == 0
    && f.engine.risk.gross == 0 && f.engine.risk.limits == limits && f.engine.risk.symbolLimits == []
    && f.engine.risk.daily == 1 && !f.engine.risk.Halted()
    && f.engine.oms.config == config && f.engine.oms.open == 1
    && f.wire[0].0 == 1 && f.engine.oms.orders == map[1 := NewRecord(1, order, 0)]
  }

  /** The gate lets an order of ten through. */
  lemma FirstLeaves(config: Config, limits: Limits, halts: bool, y: nat, side: Side, price: int)
    requires Loose(config, limits, price)
    ensures OneOut(config, limits, Sent(OnGround(config, limits, [], halts), AtPrice(y, side, price, 10), price, 0),
                   AtPrice(y, side, price, 10))
  {
    var ground, order := OnGround(config, limits, [], halts), AtPrice(y, side, price, 10);
    GroundIsAirborne(config, limits, [], halts);
    SentStaysAirborne(ground, order, price, 0);
    assert Check(ground.engine.risk, order, price, 0, 0, 0).reason == Accepted;
  }

  lemma LandedNext(f: Flight, landings: seq<Landing>, l: Landing)
    requires |landings| < |f.wire|
    ensures Landed(f, [l] + landings) == Landed(LandOne(f, l), landings)
  {
    assert ([l] + landings)[1..] == landings;
  }

  /** Where two landings take a position. */
  lemma LandedTwo(f: Flight, first: Landing, second: Landing, y: nat)
    requires |f.wire| == 2 && f.wire[0].1.symbol == f.wire[1].1.symbol == y
    requires 0 <= first.answer.quantity <= f.wire[0].1.quantity && 0 <= second.answer.quantity <= f.wire[1].1.quantity
    ensures Fills(f.wire, [first, second])
    ensures Landed(f, [first, second]).Position(y) == f.Position(y)
      + f.wire[0].1.side.Signed(first.answer.quantity) + f.wire[1].1.side.Signed(second.answer.quantity)
    ensures Landed(f, [first, second]).engine.risk.gross
         == f.engine.risk.gross + Abs(Landed(f, [first, second]).Position(y)) - Abs(f.Position(y))
  {
    assert [first, second] == [first] + [second] && [second] == [second] + [];
    LandedNext(f, [second], first);
    LandedNext(LandOne(f, first), [], second);
    LandingMoves(f, first, y);
    LandingMoves(LandOne(f, first), second, y);
    LandingGross(f, first);
    LandingGross(LandOne(f, first), second);
  }

  // ------------------------------------------------------------ the gate nets what is in flight

  /** A sell of ten counts as minus ten for the gate. */
  lemma SellCounts(config: Config, limits: Limits, f: Flight, y: nat, price: int)
    requires OneOut(config, limits, f, AtPrice(y, Sell, price, 10))
    ensures f.engine.oms.exposures.Net(y) == -10 && f.engine.oms.exposures.gross == 10
  {
    var x := f.engine.oms.exposures;
    var id := f.wire[0].0;
    assert StillWorking(f.engine.oms, id);
    assert f.wire[1..] == [];
    BookedIsFlying(f, y, Buy);
    BookedIsFlying(f, y, Sell);
    forall s: nat | s != y ensures x.Net(s) == 0 {
      BookedIsFlying(f, s, Buy);
      BookedIsFlying(f, s, Sell);
    }
    GrossOfOne(x, y, |x.buys|);
  }

  lemma {:induction false} GrossOfOne(x: Exposures, y: nat, n: nat)
    requires forall s: nat :: s != y ==> x.Net(s) == 0
    ensures GrossSum(x, n) == if y < n then Abs(x.Net(y)) else 0
  {
    if n > 0 {
      GrossOfOne(x, y, n - 1);
    }
  }

  /** On top of a sell of ten in flight the gate lets a buy of twenty through. */
  lemma BuyFollows(config: Config, limits: Limits, f: Flight, y: nat, price: int, now: int)
    requires Loose(config, limits, price) && OneOut(config, limits, f, AtPrice(y, Sell, price, 10))
    ensures var f' := Sent(f, AtPrice(y, Buy, price, 20), price, now);
      && |f'.wire| == 2 && f'.wire[0] == f.wire[0] && f'.wire[1].1 == AtPrice(y, Buy, price, 20)
      && f'.Position(y) == 0 && f'.engine.risk.SymbolLimit(y) == 10
  {
    var e, buy := f.engine, AtPrice(y, Buy, price, 20);
    SellCounts(config, limits, f, y, price);
    assert Check(e.risk, buy, price, now, -10, 10).reason == Accepted;
    NextIsFresh(e.oms.orders, e.oms.nextId);
  }

  /** A run the gate lets through all the way: sell ten, buy twenty while that is in the air, and when the sell
      fills nothing and the buy fills whole, the position is twice its limit of ten. */
  lemma GateLetsItPass(config: Config, limits: Limits, halts: bool, y: nat, price: int, now: int, like: Landing)
    requires Loose(config, limits, price)
    ensures var sell, buy := AtPrice(y, Sell, price, 10), AtPrice(y, Buy, price, 20);
      var f := Sent(Sent(OnGround(config, limits, [], halts), sell, price, 0), buy, price, now);
      && |f.wire| == 2 && f.wire[0].1 == sell && f.wire[1].1 == buy && f.engine.risk.SymbolLimit(y) == 10
      && Fills(f.wire, [Filling(like, 0), Filling(like, 20)])
      && Landed(f, [Filling(like, 0), Filling(like, 20)]).Position(y) == 20
      && Landed(f, [Filling(like, 0), Filling(like, 20)]).engine.risk.gross == 20
  {
    var sell, buy := AtPrice(y, Sell, price, 10), AtPrice(y, Buy, price, 20);
    var f1 := Sent(OnGround(config, limits, [], halts), sell, price, 0);
    FirstLeaves(config, limits, halts, y, Sell, price);
    BuyFollows(config, limits, f1, y, price, now);
    LandedTwo(Sent(f1, buy, price, now), Filling(like, 0), Filling(like, 20), y);
  }

  // ------------------------------------------------------------ the books forget what has timed out

  /** The sweep takes an order of ten that is overdue off the books, and leaves it on the wire. */
  lemma SweptOff(config: Config, limits: Limits, f: Flight, y: nat, price: int)
    requires config.ackTimeout == 5 && OneOut(config, limits, f, AtPrice(y, Buy, price, 10))
    ensures Collects(f.engine.oms, 5, [1])
    ensures var f' := Next(Swept(f, [1], 5), ReleaseIt);
      && Airborne(f') && f'.wire == f.wire && f'.engine.oms.open == 0 && f'.engine.oms.config == config
      && f'.engine.oms.exposures.Booked(y, Buy) == 0 && f'.engine.oms.exposures.Net(y) == 0
      && f'.engine.oms.exposures.gross == 0
      && !f'.engine.risk.Halted() && f'.engine.risk == f.engine.risk && (!f.halts ==> f' == Swept(f, [1], 5))
  {
    var s := f.engine.oms;
    assert IsDue(s, 1, 5);
    assert Collects(s, 5, [1]);
    var f' := Next(Swept(f, [1], 5), ReleaseIt);
    var s' := f'.engine.oms;
    SweepIsExact(s, [1], 5);
    SweptStaysAirborne(f, [1], 5);
    SwitchStaysAirborne(Swept(f, [1], 5), ReleaseIt);
    forall id ensures id !in WorkingIds(s'.orders) {
      if id in s'.orders {
        assert IsDue(s, id, 5);
      }
    }
    NothingWorking(s');
    assert !StillWorking(s', 1) && f'.wire[1..] == [];
    BookedIsFlying(f', y, Buy);
  }

  /** A second buy of ten: the books have room for it, and so does the gate. */
  lemma SecondFollows(config: Config, limits: Limits, f: Flight, y: nat, price: int, now: int)
    requires Loose(config, limits, price) && Airborne(f) && |f.wire| == 1 && f.Position(y) == 0
    requires f.engine.risk.gross == 0 && f.engine.risk.limits == limits && f.engine.risk.symbolLimits == []
    requires f.engine.risk.daily == 1 && !f.engine.risk.Halted()
    requires f.engine.oms.config == config && f.engine.oms.open == 0
    requires f.engine.oms.exposures.Net(y) == 0 && f.engine.oms.exposures.gross == 0
    ensures var f' := Sent(f, AtPrice(y, Buy, price, 10), price, now);
      && |f'.wire| == 2 && f'.wire[0] == f.wire[0] && f'.wire[1].1 == AtPrice(y, Buy, price, 10)
      && f'.Position(y) == 0 && f'.engine.risk.SymbolLimit(y) == 10
  {
    var e, buy := f.engine, AtPrice(y, Buy, price, 10);
    assert Check(e.risk, buy, price, now, 0, 0).reason == Accepted;
    NextIsFresh(e.oms.orders, e.oms.nextId);
  }

  /** The run of BooksForgetTheLate before anything lands: buy ten, let it time out on the wire, buy ten more. */
  function LateRun(config: Config, limits: Limits, halts: bool, y: nat, price: int): (Flight, Flight, Flight) {
    var buy := AtPrice(y, Buy, price, 10);
    var f1 := Sent(OnGround(config, limits, [], halts), buy, price, 0);
    var f2 := Next(Swept(f1, [1], 5), ReleaseIt);
    (f1, f2, Sent(f2, buy, price, 6))
  }

  lemma LateRunFlies(config: Config, limits: Limits, halts: bool, y: nat, price: int)
    requires Loose(config, limits, price) && config.ackTimeout == 5
    ensures var buy, (f1, f2, f3) := AtPrice(y, Buy, price, 10), LateRun(config, limits, halts, y, price);
      && Collects(f1.engine.oms, 5, [1]) && (!halts ==> f2 == Swept(f1, [1], 5))
      && ByTheBooks(f2, SendIt(buy, price, 6))
      && f3.Position(y) == 0 && f3.engine.risk.SymbolLimit(y) == 10
      && |f3.wire| == 2 && f3.wire[0].1 == f3.wire[1].1 == buy
  {
    var (f1, f2, f3) := LateRun(config, limits, halts, y, price);
    FirstLeaves(config, limits, halts, y, Buy, price);
    SweptOff(config, limits, f1, y, price);
    SecondFollows(config, limits, f2, y, price, 6);
  }

  /** A run that asks the books before each order, and still passes the limit, once timeouts do not stop trading or
      the stop is released: both orders land whole. */
  lemma BooksForgetTheLate(config: Config, limits: Limits, halts: bool, y: nat, price: int, like: Landing)
    requires Loose(config, limits, price) && config.ackTimeout == 5
    ensures var buy, (f1, f2, f3) := AtPrice(y, Buy, price, 10), LateRun(config, limits, halts, y, price);
      && Collects(f1.engine.oms, 5, [1]) && (!halts ==> f2 == Swept(f1, [1], 5))
      && ByTheBooks(f2, SendIt(buy, price, 6)) && f3.engine.risk.SymbolLimit(y) == 10
      && Fills(f3.wire, [Filling(like, 10), Filling(like, 10)])
      && Landed(f3, [Filling(like, 10), Filling(like, 10)]).Position(y) == 20
  {
    var (f1, f2, f3) := LateRun(config, limits, halts, y, price);
    LateRunFlies(config, limits, halts, y, price);
    LandedTwo(f3, Filling(like, 10), Filling(like, 10), y);
  }
}

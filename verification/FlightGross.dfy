/** The gross limit under latency: what a sender can ask before each order, and what that keeps. */
module FlightGross {
  import opened Types
  import opened OmsSpec
  import opened RiskSpec
  import opened EngineSpec
  import opened InFlight
  import opened FlightRuns

  /** Where a position can come to on one side, read off the books: held, booked, and late. */
  function Booking(f: Flight, y: nat, z: Side): int {
    f.Reach(y, z) + Late(f.engine.oms, f.wire, y, z)
  }

  function BookedWorst(f: Flight, y: nat): int {
    Max(Booking(f, y, Buy), Booking(f, y, Sell))
  }

  function BookedSum(f: Flight, n: nat): int {
    if n == 0 then 0 else BookedSum(f, n - 1) + BookedWorst(f, n - 1)
  }

  lemma BookingIsFarthest(f: Flight, y: nat)
    requires Airborne(f)
    ensures Booking(f, y, Buy) == Farthest(f, y, Buy) && Booking(f, y, Sell) == Farthest(f, y, Sell)
    ensures BookedWorst(f, y) == Worst(f, y)
  {
    BookedIsFlying(f, y, Buy);
    BookedIsFlying(f, y, Sell);
    FlyingNonNegative(f.wire, y, Buy);
    FlyingNonNegative(f.wire, y, Sell);
  }

  lemma {:induction false} BookedSumIsWorst(f: Flight, n: nat)
    requires Airborne(f)
    ensures BookedSum(f, n) == WorstSum(f, n)
  {
    if n > 0 {
      BookedSumIsWorst(f, n - 1);
      BookingIsFarthest(f, n - 1);
    }
  }

  /** What the positions together can come to once this order is out. */
  function GrossWith(f: Flight, order: Order, n: nat): int {
    BookedSum(f, n) - BookedWorst(f, order.symbol)
    + Max(BookedWorst(f, order.symbol), Booking(f, order.symbol, order.side) + order.quantity)
  }

  lemma SendingWorst(f: Flight, order: Order, reference: int, now: int, y: nat)
    requires Airborne(f) && GoesOut(f, order, reference, now)
    ensures Worst(Sent(f, order, reference, now), y)
         == if y == order.symbol then Max(Worst(f, y), Farthest(f, y, order.side) + order.quantity) else Worst(f, y)
  {
    var f' := Sent(f, order, reference, now);
    SentStaysAirborne(f, order, reference, now);
    SendingReaches(f, order, reference, now, y, Buy);
    SendingReaches(f, order, reference, now, y, Sell);
    BookingIsFarthest(f, y);
    BookingIsFarthest(f', y);
    SentIsPositive(f, order, reference, now);
  }

  lemma SentIsPositive(f: Flight, order: Order, reference: int, now: int)
    requires GoesOut(f, order, reference, now)
    ensures order.quantity > 0
  {
  }

  lemma {:induction false} SumsDiffer(f: Flight, f': Flight, y: nat, n: nat)
    requires forall x: nat :: x != y ==> Worst(f', x) == Worst(f, x)
    ensures WorstSum(f', n) == WorstSum(f, n) + (if y < n then Worst(f', y) - Worst(f, y) else 0)
  {
    if n > 0 {
      SumsDiffer(f, f', y, n - 1);
    }
  }

  lemma SendingSum(f: Flight, order: Order, reference: int, now: int, n: nat)
    requires Airborne(f) && GoesOut(f, order, reference, now) && order.symbol < n
    ensures WorstSum(Sent(f, order, reference, now), n) == GrossWith(f, order, n)
  {
    var f' := Sent(f, order, reference, now);
    forall x: nat | x != order.symbol ensures Worst(f', x) == Worst(f, x) {
      SendingWorst(f, order, reference, now, x);
    }
    SendingWorst(f, order, reference, now, order.symbol);
    SumsDiffer(f, f', order.symbol, n);
    BookedSumIsWorst(f, n);
    BookingIsFarthest(f, order.symbol);
  }

  /** Another order keeps whatever can land within the gross limit if and only if what the positions can come to
      together, with it, is within the limit: a sum to ask the books before sending. */
  lemma SendingKeepsGrossIff(f: Flight, order: Order, reference: int, now: int, n: nat, limit: int)
    requires Airborne(f) && GoesOut(f, order, reference, now) && order.symbol < n
    ensures KeepsGross(Sent(f, order, reference, now), n, limit) <==> GrossWith(f, order, n) <= limit
  {
    var f' := Sent(f, order, reference, now);
    SentStaysAirborne(f, order, reference, now);
    BookedIsFlying(f', order.symbol, Buy);
    GrossIff(f', n, limit);
    SendingSum(f, order, reference, now, n);
  }

  // ------------------------------------------------------------ senders that ask first

  /** Before an order goes out: it is for one of the n instruments, and the gross limit holds with it. */
  predicate CarefulOfGross(f: Flight, m: Move, n: nat) {
    m.SendIt? && GoesOut(f, m.order, m.reference, m.now) ==>
      m.order.symbol < n && GrossWith(f, m.order, n) <= f.engine.risk.limits.maxGross
  }

  ghost predicate FliesWithinGross(f: Flight, moves: seq<Move>, n: nat)
    decreases |moves|
  {
    moves != [] ==>
      CanMove(f, moves[0]) && CarefulOfGross(f, moves[0], n) && FliesWithinGross(Next(f, moves[0]), moves[1..], n)
  }

  /** Everything held or flying is in one of the first n instruments. */
  ghost predicate Within(f: Flight, n: nat) {
    |f.engine.risk.positions| <= n && forall i {:trigger f.wire[i]} :: 0 <= i < |f.wire| ==> f.wire[i].1.symbol < n
  }

  ghost predicate GrossInReach(f: Flight, n: nat) {
    Airborne(f) && Within(f, n) && WorstSum(f, n) <= f.engine.risk.limits.maxGross
  }

  lemma {:induction false} SumNoHigher(f: Flight, f': Flight, n: nat)
    requires forall x: nat :: Worst(f', x) <= Worst(f, x)
    ensures WorstSum(f', n) <= WorstSum(f, n)
  {
    if n > 0 {
      SumNoHigher(f, f', n - 1);
    }
  }

  /** No move but a send takes any symbol's worst case further. */
  lemma OthersRetreat(f: Flight, m: Move, x: nat)
    requires Airborne(f) && CanMove(f, m) && !m.SendIt?
    ensures Worst(Next(f, m), x) <= Worst(f, x)
  {
    var f' := Next(f, m);
    MoveStaysAirborne(f, m);
    BookingIsFarthest(f, x);
    BookingIsFarthest(f', x);
    match m {
      case LandIt(l) =>
        LandingRetreats(f, l, x, Buy);
        LandingRetreats(f, l, x, Sell);
      case ExitIt(symbol, exit, filed) =>
        ExitRetreats(f, symbol, exit, filed, x);
      case SweepIt(ids, now) =>
        SweepingMakesLate(f, ids, now, x, Buy);
        SweepingMakesLate(f, ids, now, x, Sell);
      case _ =>
    }
  }

  lemma SendStaysWithin(f: Flight, order: Order, reference: int, now: int, n: nat)
    requires Within(f, n) && (GoesOut(f, order, reference, now) ==> order.symbol < n)
    ensures Within(Sent(f, order, reference, now), n)
  {
    var e := f.engine;
    SameGate(e.risk, order, reference, now, e.oms.exposures.Net(order.symbol), e.oms.exposures.gross);
  }

  lemma LandStaysWithin(f: Flight, l: Landing, n: nat)
    requires Within(f, n) && f.wire != []
    ensures Within(LandOne(f, l), n)
  {
    var f' := LandOne(f, l);
    assert forall i {:trigger f'.wire[i]} :: 0 <= i < |f'.wire| ==> f'.wire[i] == f.wire[i + 1];
    assert f.wire[0].1.symbol < n;
  }

  lemma ExitStaysWithin(f: Flight, symbol: nat, x: Exit, filed: bool, n: nat)
    requires Airborne(f) && Within(f, n) && f.wire == []
    ensures Within(Next(f, ExitIt(symbol, x, filed)), n)
  {
    if At(f.engine.venue, symbol) != 0 && x.reference > 0 {
      assert SidesAgree(f, symbol);
      var left := Leaving(f, symbol, x);
      ExitLands(f, symbol, x, filed);
      if left.wire != [] {
        LandStaysWithin(left, Landing(x.answer, filed, NotHalted, x.now), n);
      }
    }
  }

  lemma MoveStaysWithin(f: Flight, m: Move, n: nat)
    requires Airborne(f) && Within(f, n) && CanMove(f, m) && CarefulOfGross(f, m, n)
    ensures Within(Next(f, m), n)
  {
    match m
    case SendIt(order, reference, now) => SendStaysWithin(f, order, reference, now, n);
    case LandIt(l) => LandStaysWithin(f, l, n);
    case ExitIt(symbol, x, filed) => ExitStaysWithin(f, symbol, x, filed, n);
    case _ =>
  }

  lemma UnsentSum(f: Flight, order: Order, reference: int, now: int, n: nat)
    requires Airborne(f) && !GoesOut(f, order, reference, now)
    ensures WorstSum(Sent(f, order, reference, now), n) <= WorstSum(f, n)
  {
    var f' := Sent(f, order, reference, now);
    SentStaysAirborne(f, order, reference, now);
    forall x: nat ensures Worst(f', x) <= Worst(f, x) {
      SendingReaches(f, order, reference, now, x, Buy);
      SendingReaches(f, order, reference, now, x, Sell);
      BookingIsFarthest(f, x);
      BookingIsFarthest(f', x);
    }
    SumNoHigher(f, f', n);
  }

  lemma MoveKeepsGross(f: Flight, m: Move, n: nat)
    requires GrossInReach(f, n) && CanMove(f, m) && CarefulOfGross(f, m, n)
    ensures GrossInReach(Next(f, m), n)
  {
    MoveStaysAirborne(f, m);
    MoveStaysWithin(f, m, n);
    LimitsStay(f, m);
    if m.SendIt? {
      if GoesOut(f, m.order, m.reference, m.now) {
        SendingSum(f, m.order, m.reference, m.now, n);
      } else {
        UnsentSum(f, m.order, m.reference, m.now, n);
      }
    } else {
      forall x: nat ensures Worst(Next(f, m), x) <= Worst(f, x) {
        OthersRetreat(f, m, x);
      }
      SumNoHigher(f, Next(f, m), n);
    }
  }

  lemma {:induction false} StaysWithinGross(f: Flight, moves: seq<Move>, n: nat)
    requires GrossInReach(f, n) && FliesWithinGross(f, moves, n)
    ensures CanFly(f, moves)
    ensures GrossInReach(Flown(f, moves), n) && SameSettings(f, Flown(f, moves))
    decreases |moves|
  {
    if moves != [] {
      MoveKeepsGross(f, moves[0], n);
      LimitsStay(f, moves[0]);
      StaysWithinGross(Next(f, moves[0]), moves[1..], n);
    }
  }

  lemma {:induction false} NothingWorst(f: Flight, n: nat)
    requires f.wire == [] && f.engine.risk.positions == []
    ensures WorstSum(f, n) == 0
  {
    if n > 0 {
      NothingWorst(f, n - 1);
    }
  }

  lemma {:induction false} HeldAtMostWorst(f: Flight, n: nat)
    requires Ordered(f.wire)
    ensures PositionSum(f.engine.risk.positions, n) <= WorstSum(f, n)
  {
    if n > 0 {
      HeldAtMostWorst(f, n - 1);
      FlyingNonNegative(f.wire, n - 1, Buy);
      FlyingNonNegative(f.wire, n - 1, Sell);
    }
  }

  /** Under latency, over every run whose sender asks that sum before each order, the gross position never passes its
      limit, and nothing in flight can take it there. */
  lemma AskingForGrossIsEnough(config: Config, limits: Limits, symbolLimits: seq<int>, halts: bool, moves: seq<Move>,
                               n: nat)
    requires config.history > 0 && limits.maxGross >= 0
    requires FliesWithinGross(OnGround(config, limits, symbolLimits, halts), moves, n)
    ensures CanFly(OnGround(config, limits, symbolLimits, halts), moves)
    ensures var f := Flown(OnGround(config, limits, symbolLimits, halts), moves);
      f.engine.risk.gross <= limits.maxGross && KeepsGross(f, n, limits.maxGross)
  {
    var ground := OnGround(config, limits, symbolLimits, halts);
    GroundIsAirborne(config, limits, symbolLimits, halts);
    NothingWorst(ground, n);
    StaysWithinGross(ground, moves, n);
    var f := Flown(ground, moves);
    BookedIsFlying(f, 0, Buy);
    GrossIff(f, n, limits.maxGross);
    HeldAtMostWorst(f, n);
    PositionSumBeyond(f.engine.risk.positions, n);
  }
}

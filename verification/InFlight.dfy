/** Orders in flight: what the engine's positions can become while orders it has sent have yet to land. */
module InFlight {
  import opened Types
  import opened OmsSpec
  import opened OmsLaws
  import opened RiskSpec
  import opened Dispatching
  import opened EngineSpec

  /** The engine, the orders on the wire to the venue in the order they were sent, and whether an order that
      times out engages the kill switch. */
  datatype Flight = Flight(engine: Engine, wire: seq<(nat, Order)>, halts: bool) {
    function Position(y: nat): int {
      engine.risk.Position(y)
    }

    /** How far towards this side the position goes if everything booked on the side fills and nothing on the
        other side does. */
    function Reach(y: nat, z: Side): int {
      z.Signed(Position(y)) + engine.oms.exposures.Booked(y, z)
    }
  }

  /** Stages 4 and 5 of process() with venue latency: gate, track, and put on the wire. */
  function Sent(f: Flight, order: Order, reference: int, now: int): Flight {
    var e := f.engine;
    var d := Gated(e, order, reference, now);
    if d.reason != Accepted then f.(engine := e.(risk := d.risk))
    else
      var c := Create(e.oms, order, now);
      f.(engine := e.(risk := d.risk, oms := c.oms), wire := if c.id == 0 then f.wire else f.wire + [(c.id, order)])
  }

  /** The head of the wire lands. */
  function LandOne(f: Flight, l: Landing): Flight
    requires f.wire != []
  {
    var (id, order) := f.wire[0];
    f.(engine := Complete(f.engine, id, order, l), wire := f.wire[1..])
  }

  /** sweep_orders(): what is overdue expires, and by default that stops trading.  The wire is not touched. */
  function Swept(f: Flight, ids: seq<nat>, now: int): Flight {
    var e := f.engine;
    f.(engine := e.(oms := ExpireAll(e.oms, ids, now),
                    risk := if ids != [] && f.halts then EngageKillSwitch(e.risk, OrderTimeout) else e.risk))
  }

  /** The venue fills no more of each order than it was asked for. */
  ghost predicate Fills(wire: seq<(nat, Order)>, landings: seq<Landing>) {
    && |landings| <= |wire|
    && forall i {:trigger landings[i]} :: 0 <= i < |landings| ==>
         0 <= landings[i].answer.quantity <= wire[i].1.quantity
  }

  function Landed(f: Flight, landings: seq<Landing>): Flight
    requires |landings| <= |f.wire|
    decreases |landings|
  {
    if landings == [] then f else Landed(LandOne(f, landings[0]), landings[1..])
  }

  // ------------------------------------------------------------ what is in the air

  function Share(order: Order, y: nat, z: Side): int {
    if order.symbol == y && order.side == z then order.quantity else 0
  }

  /** What the wire carries on one side of one symbol. */
  function Flying(wire: seq<(nat, Order)>, y: nat, z: Side): int {
    if wire == [] then 0 else Share(wire[0].1, y, z) + Flying(wire[1..], y, z)
  }

  /** What the wire carries of orders the order manager no longer counts as working: they timed out, but they are
      on their way. */
  function Late(s: Oms, wire: seq<(nat, Order)>, y: nat, z: Side): int {
    if wire == [] then 0
    else (if StillWorking(s, wire[0].0) then 0 else Share(wire[0].1, y, z)) + Late(s, wire[1..], y, z)
  }

  ghost predicate Ordered(wire: seq<(nat, Order)>) {
    forall i {:trigger wire[i]} :: 0 <= i < |wire| ==> wire[i].1.quantity > 0
  }

  lemma {:induction false} FlyingNonNegative(wire: seq<(nat, Order)>, y: nat, z: Side)
    requires Ordered(wire)
    ensures Flying(wire, y, z) >= 0
  {
    if wire != [] {
      FlyingNonNegative(wire[1..], y, z);
    }
  }

  /** What landed is held on both sides. */
  lemma LandingAgrees(f: Flight, l: Landing, y: nat)
    requires f.wire != [] && SidesAgree(f, y)
    ensures SidesAgree(LandOne(f, l), y)
  {
  }

  /** Gross follows the one position that moves. */
  lemma LandingGross(f: Flight, l: Landing)
    requires f.wire != []
    ensures var y := f.wire[0].1.symbol;
      LandOne(f, l).engine.risk.gross == f.engine.risk.gross + Abs(LandOne(f, l).Position(y)) - Abs(f.Position(y))
  {
  }

  /** A landing moves one position by what the venue filled. */
  lemma LandingMoves(f: Flight, l: Landing, y: nat)
    requires f.wire != [] && l.answer.quantity >= 0
    ensures LandOne(f, l).Position(y) == f.Position(y)
      + (if f.wire[0].1.symbol == y then f.wire[0].1.side.Signed(l.answer.quantity) else 0)
  {
  }

  /** However the venue answers, the position stays between what every sell in the air could make of it and
      what every buy could. */
  lemma {:induction false} StaysBetween(f: Flight, landings: seq<Landing>, y: nat)
    requires Ordered(f.wire) && Fills(f.wire, landings)
    ensures f.Position(y) - Flying(f.wire, y, Sell) <= Landed(f, landings).Position(y)
         <= f.Position(y) + Flying(f.wire, y, Buy)
    decreases |landings|
  {
    FlyingNonNegative(f.wire, y, Buy);
    FlyingNonNegative(f.wire, y, Sell);
    if landings != [] {
      LandingMoves(f, landings[0], y);
      StaysBetween(LandOne(f, landings[0]), landings[1..], y);
    }
  }

  /** The answer that fills an order whole if it is on the side picked for its symbol, and not at all if not. */
  function OnPicked(order: Order, pick: nat -> Side, like: Landing): Landing {
    like.(answer := like.answer.(quantity := if order.side == pick(order.symbol) then order.quantity else 0))
  }

  function Picked(wire: seq<(nat, Order)>, pick: nat -> Side, like: Landing): seq<Landing> {
    seq(|wire|, i requires 0 <= i < |wire| => OnPicked(wire[i].1, pick, like))
  }

  lemma PickedFills(wire: seq<(nat, Order)>, pick: nat -> Side, like: Landing)
    requires Ordered(wire)
    ensures Fills(wire, Picked(wire, pick, like))
  {
    var landings := Picked(wire, pick, like);
    forall i {:trigger landings[i]} | 0 <= i < |landings|
      ensures 0 <= landings[i].answer.quantity <= wire[i].1.quantity
    {
      assert wire[i].1.quantity > 0 && landings[i] == OnPicked(wire[i].1, pick, like);
    }
  }

  /** Under them every position goes as far towards its picked side as it can, all of them at once. */
  lemma {:induction false} EndsReached(f: Flight, pick: nat -> Side, like: Landing, y: nat)
    requires Ordered(f.wire)
    ensures Fills(f.wire, Picked(f.wire, pick, like))
    ensures var z := pick(y);
      z.Signed(Landed(f, Picked(f.wire, pick, like)).Position(y)) == z.Signed(f.Position(y)) + Flying(f.wire, y, z)
    decreases |f.wire|
  {
    PickedFills(f.wire, pick, like);
    if f.wire != [] {
      var landings := Picked(f.wire, pick, like);
      assert f.wire[0].1.quantity > 0;
      assert landings[1..] == Picked(f.wire[1..], pick, like);
      LandingMoves(f, landings[0], y);
      EndsReached(LandOne(f, landings[0]), pick, like, y);
    }
  }

  // ------------------------------------------------------------ one symbol's limit

  /** Whatever lands, in whatever part it fills, the position keeps to the limit. */
  ghost predicate KeepsWithin(f: Flight, y: nat, limit: int) {
    forall landings {:trigger Fills(f.wire, landings)} :: Fills(f.wire, landings) ==>
      Abs(Landed(f, landings).Position(y)) <= limit
  }

  function AnyLanding(): Landing {
    Landing(Answer(0, 0, 0, 0.0, 0), true, NotHalted, 0)
  }

  /** Whatever is on the wire, tracked or expired: the position is sure to keep to the limit if and only if each
      side alone would, filled whole. */
  lemma WireIff(f: Flight, y: nat, limit: int)
    requires Ordered(f.wire)
    ensures KeepsWithin(f, y, limit) <==>
      f.Position(y) + Flying(f.wire, y, Buy) <= limit && Flying(f.wire, y, Sell) - f.Position(y) <= limit
  {
    if KeepsWithin(f, y, limit) {
      EndsReached(f, _ => Buy, AnyLanding(), y);
      EndsReached(f, _ => Sell, AnyLanding(), y);
    }
    if f.Position(y) + Flying(f.wire, y, Buy) <= limit && Flying(f.wire, y, Sell) - f.Position(y) <= limit {
      forall landings | Fills(f.wire, landings) ensures Abs(Landed(f, landings).Position(y)) <= limit {
        StaysBetween(f, landings, y);
      }
    }
  }

  // ------------------------------------------------------------ the gross limit

  /** The most the position can come to, either way. */
  function Worst(f: Flight, y: nat): int {
    Max(Abs(f.Position(y) + Flying(f.wire, y, Buy)), Abs(f.Position(y) - Flying(f.wire, y, Sell)))
  }

  function WorstSum(f: Flight, n: nat): int {
    if n == 0 then 0 else WorstSum(f, n - 1) + Worst(f, n - 1)
  }

  /** Whatever lands, the first n positions together keep to the gross limit. */
  ghost predicate KeepsGross(f: Flight, n: nat, limit: int) {
    forall landings {:trigger Fills(f.wire, landings)} :: Fills(f.wire, landings) ==>
      PositionSum(Landed(f, landings).engine.risk.positions, n) <= limit
  }

  /** The side on which a symbol's position can go further. */
  function WorstSide(f: Flight, y: nat): Side {
    if Abs(f.Position(y) + Flying(f.wire, y, Buy)) >= Abs(f.Position(y) - Flying(f.wire, y, Sell)) then Buy else Sell
  }

  lemma {:induction false} SumAtMost(f: Flight, landings: seq<Landing>, n: nat)
    requires Ordered(f.wire) && Fills(f.wire, landings)
    ensures PositionSum(Landed(f, landings).engine.risk.positions, n) <= WorstSum(f, n)
  {
    if n > 0 {
      SumAtMost(f, landings, n - 1);
      StaysBetween(f, landings, n - 1);
    }
  }

  lemma {:induction false} SumReached(f: Flight, pick: nat -> Side, n: nat)
    requires Ordered(f.wire) && forall y: nat :: pick(y) == WorstSide(f, y)
    ensures Fills(f.wire, Picked(f.wire, pick, AnyLanding()))
    ensures PositionSum(Landed(f, Picked(f.wire, pick, AnyLanding())).engine.risk.positions, n) == WorstSum(f, n)
  {
    EndsReached(f, pick, AnyLanding(), n);
    if n > 0 {
      SumReached(f, pick, n - 1);
      EndsReached(f, pick, AnyLanding(), n - 1);
      assert pick(n - 1) == WorstSide(f, n - 1);
    }
  }

  /** Every landing and every partial fill keeps the positions together within the gross limit if and only if
      their worst cases, each symbol on its own worse side, add up to no more. */
  lemma GrossIff(f: Flight, n: nat, limit: int)
    requires Ordered(f.wire)
    ensures KeepsGross(f, n, limit) <==> WorstSum(f, n) <= limit
  {
    if KeepsGross(f, n, limit) {
      SumReached(f, (y: nat) => WorstSide(f, y), n);
    }
    if WorstSum(f, n) <= limit {
      forall landings | Fills(f.wire, landings)
        ensures PositionSum(Landed(f, landings).engine.risk.positions, n) <= limit
      {
        SumAtMost(f, landings, n);
      }
    }
  }

  // ------------------------------------------------- what is booked and what is in the air

  ghost function Ids(wire: seq<(nat, Order)>): set<nat> {
    set w | w in wire :: w.0
  }

  /** An order on the wire is tracked as it was created, unless it has timed out. */
  ghost predicate InAir(s: Oms, id: nat, order: Order) {
    && 0 < id < s.nextId && order.quantity > 0
    && (Untouched(s, id, order) || Gone(s, id))
  }

  /** Every working order is on the wire, each order there once. */
  ghost predicate AllOnWire(s: Oms, wire: seq<(nat, Order)>) {
    && (forall i {:trigger wire[i]} :: 0 <= i < |wire| ==> InAir(s, wire[i].0, wire[i].1))
    && (forall i, j {:trigger wire[i], wire[j]} :: 0 <= i < j < |wire| ==> wire[i].0 != wire[j].0)
    && WorkingIds(s.orders) <= Ids(wire)
  }

  lemma {:induction false} LateSame(s: Oms, s': Oms, wire: seq<(nat, Order)>, y: nat, z: Side)
    requires forall i {:trigger wire[i]} :: 0 <= i < |wire| ==> StillWorking(s, wire[i].0) == StillWorking(s', wire[i].0)
    ensures Late(s, wire, y, z) == Late(s', wire, y, z)
  {
    if wire != [] {
      assert forall i {:trigger wire[1..][i]} :: 0 <= i < |wire| - 1 ==> wire[1..][i] == wire[i + 1];
      LateSame(s, s', wire[1..], y, z);
    }
  }

  /** Once the head no longer works, the rest of the wire carries the other working orders. */
  lemma HeadOff(s: Oms, s': Oms, wire: seq<(nat, Order)>)
    requires wire != [] && AllOnWire(s, wire) && s'.nextId >= s.nextId
    requires forall x :: x in s'.orders && x != wire[0].0 ==> x in s.orders && s'.orders[x] == s.orders[x]
    requires !StillWorking(s', wire[0].0)
    ensures AllOnWire(s', wire[1..])
  {
    var rest := wire[1..];
    assert wire == [wire[0]] + rest;
    forall i {:trigger rest[i]} | 0 <= i < |rest| ensures InAir(s', rest[i].0, rest[i].1) {
      assert rest[i] == wire[i + 1] && wire[0].0 != wire[i + 1].0;
    }
    forall id | id in WorkingIds(s'.orders) ensures id in Ids(rest) {
      assert id in Ids(wire);
    }
  }

  /** What flies is what works plus what is late. */
  lemma {:induction false} FlyingSplits(s: Oms, wire: seq<(nat, Order)>, y: nat, z: Side)
    requires AllOnWire(s, wire)
    ensures Flying(wire, y, z) == Leaves(s.orders, y, z) + Late(s, wire, y, z)
    decreases |wire|
  {
    if wire == [] {
      NoLeaves(s.orders, y, z);
    } else {
      var (id, order) := wire[0];
      var s' := if StillWorking(s, id) then s.(orders := s.orders - {id}) else s;
      HeadOff(s, s', wire);
      FlyingSplits(s', wire[1..], y, z);
      forall i {:trigger wire[1..][i]} | 0 <= i < |wire| - 1
        ensures StillWorking(s, wire[1..][i].0) == StillWorking(s', wire[1..][i].0)
      {
        assert wire[1..][i] == wire[i + 1] && wire[0].0 != wire[i + 1].0;
      }
      LateSame(s, s', wire[1..], y, z);
      if StillWorking(s, id) {
        LeavesAt(s.orders, id, y, z);
      }
    }
  }

  /** The engine and the venue agree about the position in y. */
  ghost predicate SidesAgree(f: Flight, y: nat) {
    f.Position(y) == At(f.engine.venue, y)
  }

  /** Every order that works is in the air, the books are exact, and both sides hold the same. */
  ghost predicate Airborne(f: Flight) {
    && (forall y: nat {:trigger SidesAgree(f, y)} :: SidesAgree(f, y))
    && Tracked(f.engine.oms) && AllBalanced(f.engine.oms.orders) && Exposed(f.engine.oms.exposures, f.engine.oms.orders)
    && PositionsAddUp(f.engine.risk) && AllOnWire(f.engine.oms, f.wire)
  }

  lemma BookedIsFlying(f: Flight, y: nat, z: Side)
    requires Airborne(f)
    ensures f.engine.oms.exposures.Booked(y, z) + Late(f.engine.oms, f.wire, y, z) == Flying(f.wire, y, z)
    ensures Ordered(f.wire)
  {
    assert AddsUp(f.engine.oms.exposures, f.engine.oms.orders, y, z, 0);
    FlyingSplits(f.engine.oms, f.wire, y, z);
  }

  /** With orders in flight a position is sure to keep to its limit, whatever each of them fills, if and only if
      each side alone would: what is held, plus all that is booked on the side, plus what has timed out on it but
      has yet to land. */
  lemma WithinIff(f: Flight, y: nat, limit: int)
    requires Airborne(f)
    ensures KeepsWithin(f, y, limit) <==>
      forall z: Side :: f.Reach(y, z) + Late(f.engine.oms, f.wire, y, z) <= limit
  {
    BookedIsFlying(f, y, Buy);
    BookedIsFlying(f, y, Sell);
    WireIff(f, y, limit);
  }
}

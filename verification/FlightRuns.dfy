/** Whole runs under venue latency: sends, landings, exits, timeout sweeps, halts raised elsewhere and operator
    releases, in any order. */
module FlightRuns {
  import opened Types
  import opened OmsSpec
  import opened OmsLaws
  import opened OmsRuns
  import opened RiskSpec
  import opened Dispatching
  import opened EngineSpec
  import opened InFlight

  datatype Move =
    | SendIt(order: Order, reference: int, now: int)
    | LandIt(landing: Landing)
    | ExitIt(symbol: nat, exit: Exit, filed: bool)
    | SweepIt(ids: seq<nat>, now: int)
    | HaltIt(why: Halt)
    | ReleaseIt

  /** The venue fills no more than it was asked for, flatten() has the whole wire land before its exits, and a
      sweep collects what is overdue. */
  ghost predicate CanMove(f: Flight, m: Move) {
    match m
    case LandIt(l) => f.wire != [] && 0 <= l.answer.quantity <= f.wire[0].1.quantity
    case ExitIt(symbol, x, _) => f.wire == [] && 0 <= x.answer.quantity <= Abs(At(f.engine.venue, symbol))
    case SweepIt(ids, now) => Collects(f.engine.oms, now, ids)
    case _ => true
  }

  function Next(f: Flight, m: Move): Flight
    requires m.LandIt? ==> f.wire != []
  {
    match m
    case SendIt(order, reference, now) => Sent(f, order, reference, now)
    case LandIt(l) => LandOne(f, l)
    case ExitIt(symbol, x, filed) => f.(engine := CloseOut(f.engine, symbol, At(f.engine.venue, symbol), x, filed))
    case SweepIt(ids, now) => Swept(f, ids, now)
    case HaltIt(why) => f.(engine := f.engine.(risk := EngageKillSwitch(f.engine.risk, why)))
    case ReleaseIt => f.(engine := f.engine.(risk := f.engine.risk.(halt := NotHalted)))
  }

  ghost predicate CanFly(f: Flight, moves: seq<Move>)
    decreases |moves|
  {
    moves != [] ==> CanMove(f, moves[0]) && CanFly(Next(f, moves[0]), moves[1..])
  }

  ghost function Flown(f: Flight, moves: seq<Move>): Flight
    requires CanFly(f, moves)
    decreases |moves|
  {
    if moves == [] then f else Flown(Next(f, moves[0]), moves[1..])
  }

  function OnGround(config: Config, limits: Limits, symbolLimits: seq<int>, halts: bool): Flight {
    Flight(Start(config, limits, symbolLimits), [], halts)
  }

  // ------------------------------------------------------------ the books stay exact

  lemma SameGate(r: Risk, order: Order, reference: int, now: int, working: int, grossWorking: int)
    ensures SameBook(r, Check(r, order, reference, now, working, grossWorking).risk)
  {
  }

  /** Tracking an order leaves what is in the air as it was, under other ids. */
  lemma BoardsBeside(s: Oms, order: Order, now: int, id: nat, other: Order)
    requires InAir(s, id, other) && Create(s, order, now).id != 0
    ensures InAir(Create(s, order, now).oms, id, other) && id != Create(s, order, now).id
  {
  }

  lemma BoardsWorking(s: Oms, order: Order, now: int)
    requires Tracked(s) && Create(s, order, now).id != 0
    ensures var c := Create(s, order, now);
      InAir(c.oms, c.id, order) && WorkingIds(c.oms.orders) == WorkingIds(s.orders) + {c.id}
  {
    WorkingSet(s.orders, s.nextId, NewRecord(s.nextId, order, now));
  }

  lemma Boards(s: Oms, wire: seq<(nat, Order)>, order: Order, now: int)
    requires Tracked(s) && AllOnWire(s, wire) && Create(s, order, now).id != 0
    ensures var c := Create(s, order, now); AllOnWire(c.oms, wire + [(c.id, order)])
  {
    var c := Create(s, order, now);
    BoardsWorking(s, order, now);
    forall i | 0 <= i < |wire| ensures InAir(c.oms, wire[i].0, wire[i].1) && wire[i].0 != c.id {
      BoardsBeside(s, order, now, wire[i].0, wire[i].1);
    }
    Joins(c.oms, s, wire, c.id, order);
  }

  lemma Joins(s': Oms, s: Oms, wire: seq<(nat, Order)>, id: nat, order: Order)
    requires AllOnWire(s, wire) && InAir(s', id, order)
    requires WorkingIds(s'.orders) == WorkingIds(s.orders) + {id}
    requires forall i :: 0 <= i < |wire| ==> InAir(s', wire[i].0, wire[i].1) && wire[i].0 != id
    ensures AllOnWire(s', wire + [(id, order)])
  {
    IdsJoin(wire, (id, order));
  }

  lemma IdsJoin(wire: seq<(nat, Order)>, w: (nat, Order))
    ensures Ids(wire + [w]) == Ids(wire) + {w.0}
  {
    forall x ensures x in wire + [w] <==> x in wire || x == w {
    }
  }

  lemma RefusedStaysOnWire(s: Oms, wire: seq<(nat, Order)>, order: Order, now: int)
    requires AllOnWire(s, wire) && Create(s, order, now).id == 0
    ensures AllOnWire(Create(s, order, now).oms, wire)
  {
    var s' := Create(s, order, now).oms;
    forall i {:trigger wire[i]} | 0 <= i < |wire| ensures InAir(s', wire[i].0, wire[i].1) {
      assert InAir(s, wire[i].0, wire[i].1);
    }
  }

  lemma SendingAgrees(f: Flight, order: Order, reference: int, now: int, y: nat)
    requires SidesAgree(f, y)
    ensures SidesAgree(Sent(f, order, reference, now), y)
  {
    var e := f.engine;
    SameGate(e.risk, order, reference, now, e.oms.exposures.Net(order.symbol), e.oms.exposures.gross);
  }

  lemma SentStaysAirborne(f: Flight, order: Order, reference: int, now: int)
    requires Airborne(f)
    ensures Airborne(Sent(f, order, reference, now))
  {
    var e := f.engine;
    SameGate(e.risk, order, reference, now, e.oms.exposures.Net(order.symbol), e.oms.exposures.gross);
    forall y: nat ensures SidesAgree(Sent(f, order, reference, now), y) {
      assert SidesAgree(f, y);
      SendingAgrees(f, order, reference, now, y);
    }
    CreateKeeps(e.oms, e.oms.nextId, order, now);
    if Create(e.oms, order, now).id != 0 {
      Boards(e.oms, f.wire, order, now);
    } else {
      RefusedStaysOnWire(e.oms, f.wire, order, now);
    }
  }

  lemma LandedStaysAirborne(f: Flight, l: Landing)
    requires Airborne(f) && f.wire != []
    ensures Airborne(LandOne(f, l))
  {
    var (id, order) := f.wire[0];
    var s, s' := f.engine.oms, Dispatch(f.engine.oms, id, order, l.answer);
    assert InAir(s, id, order);
    DispatchEnds(s, id, order, l.answer);
    DispatchKeeps(s, id, order, l.answer);
    forall x | x in s'.orders && x != id ensures x in s.orders && s'.orders[x] == s.orders[x] {
      DispatchTouchesOne(s, id, order, l.answer, x);
    }
    HeadOff(s, s', f.wire);
    forall y: nat ensures SidesAgree(LandOne(f, l), y) {
      assert SidesAgree(f, y);
      LandingAgrees(f, l, y);
    }
    OnFillAddsUp(Stopped(f.engine.risk, l.filed), order.symbol, order.side, l.answer.quantity);
  }

  /** An exit, once it is tracked, is an order that lands at once. */
  function Leaving(f: Flight, symbol: nat, x: Exit): Flight {
    var order := ExitOrder(symbol, At(f.engine.venue, symbol), x.now);
    var c := Create(f.engine.oms, order, x.now);
    f.(engine := f.engine.(oms := c.oms), wire := if c.id == 0 then f.wire else f.wire + [(c.id, order)])
  }

  lemma ExitLands(f: Flight, symbol: nat, x: Exit, filed: bool)
    requires f.wire == [] && At(f.engine.venue, symbol) != 0 && x.reference > 0
    ensures var left, f' := Leaving(f, symbol, x), Next(f, ExitIt(symbol, x, filed));
      f' == if left.wire == [] then left else LandOne(left, Landing(x.answer, filed, NotHalted, x.now))
  {
  }

  lemma LeavingStaysAirborne(f: Flight, symbol: nat, x: Exit)
    requires Airborne(f)
    ensures Airborne(Leaving(f, symbol, x))
  {
    var e, order := f.engine, ExitOrder(symbol, At(f.engine.venue, symbol), x.now);
    forall y: nat ensures SidesAgree(Leaving(f, symbol, x), y) {
      assert SidesAgree(f, y);
    }
    CreateKeeps(e.oms, e.oms.nextId, order, x.now);
    if Create(e.oms, order, x.now).id != 0 {
      Boards(e.oms, f.wire, order, x.now);
    } else {
      RefusedStaysOnWire(e.oms, f.wire, order, x.now);
    }
  }

  lemma ExitStaysAirborne(f: Flight, symbol: nat, x: Exit, filed: bool)
    requires Airborne(f) && f.wire == []
    ensures Airborne(Next(f, ExitIt(symbol, x, filed)))
  {
    if At(f.engine.venue, symbol) != 0 && x.reference > 0 {
      var left := Leaving(f, symbol, x);
      ExitLands(f, symbol, x, filed);
      LeavingStaysAirborne(f, symbol, x);
      if left.wire != [] {
        LandedStaysAirborne(left, Landing(x.answer, filed, NotHalted, x.now));
      }
    }
  }

  lemma SweptStaysAirborne(f: Flight, ids: seq<nat>, now: int)
    requires Airborne(f) && Collects(f.engine.oms, now, ids)
    ensures Airborne(Swept(f, ids, now))
  {
    var s, s' := f.engine.oms, ExpireAll(f.engine.oms, ids, now);
    StepKeeps(s, SweepOp(ids, now));
    forall i {:trigger f.wire[i]} | 0 <= i < |f.wire| ensures InAir(s', f.wire[i].0, f.wire[i].1) {
      assert InAir(s, f.wire[i].0, f.wire[i].1);
      if f.wire[i].0 in s'.orders {
        QuietOps(s, SweepOp(ids, now), f.wire[i].0);
      }
    }
    forall id | id in WorkingIds(s'.orders) ensures id in Ids(f.wire) {
      QuietOps(s, SweepOp(ids, now), id);
      assert id in WorkingIds(s.orders);
    }
    SidesStay(f, Swept(f, ids, now));
  }

  lemma SidesStay(f: Flight, f': Flight)
    requires f'.engine.risk.positions == f.engine.risk.positions && f'.engine.venue == f.engine.venue
    requires forall y: nat {:trigger SidesAgree(f, y)} :: SidesAgree(f, y)
    ensures forall y: nat {:trigger SidesAgree(f', y)} :: SidesAgree(f', y)
  {
    forall y: nat ensures SidesAgree(f', y) {
      assert SidesAgree(f, y);
    }
  }

  /** A halt or a release touches neither orders nor positions. */
  lemma SwitchStaysAirborne(f: Flight, m: Move)
    requires Airborne(f) && (m.HaltIt? || m.ReleaseIt?)
    ensures Airborne(Next(f, m))
  {
    SidesStay(f, Next(f, m));
  }

  lemma MoveStaysAirborne(f: Flight, m: Move)
    requires Airborne(f) && CanMove(f, m)
    ensures Airborne(Next(f, m))
  {
    match m
    case SendIt(order, reference, now) => SentStaysAirborne(f, order, reference, now);
    case LandIt(l) => LandedStaysAirborne(f, l);
    case ExitIt(symbol, x, filed) => ExitStaysAirborne(f, symbol, x, filed);
    case SweepIt(ids, now) => SweptStaysAirborne(f, ids, now);
    case HaltIt(_) => SwitchStaysAirborne(f, m);
    case ReleaseIt => SwitchStaysAirborne(f, m);
  }

  lemma {:induction false} StaysAirborne(f: Flight, moves: seq<Move>)
    requires Airborne(f) && CanFly(f, moves)
    ensures Airborne(Flown(f, moves))
    decreases |moves|
  {
    if moves != [] {
      MoveStaysAirborne(f, moves[0]);
      StaysAirborne(Next(f, moves[0]), moves[1..]);
    }
  }

  lemma GroundIsAirborne(config: Config, limits: Limits, symbolLimits: seq<int>, halts: bool)
    requires config.history > 0
    ensures Airborne(OnGround(config, limits, symbolLimits, halts))
  {
    EmptyTracked(config);
    assert WorkingIds(map[]) == {};
  }

  /** After any sends, landings, exits, sweeps, halts and releases, under any answers: what is in flight keeps a
      position within a limit, in whatever part it fills, if and only if what is held, plus what is booked on a
      side, plus what has timed out on it in flight, is within the limit on each side alone. */
  lemma EveryFlightIff(config: Config, limits: Limits, symbolLimits: seq<int>, halts: bool, moves: seq<Move>, y: nat,
                       limit: int)
    requires config.history > 0 && CanFly(OnGround(config, limits, symbolLimits, halts), moves)
    ensures var f := Flown(OnGround(config, limits, symbolLimits, halts), moves);
      KeepsWithin(f, y, limit) <==> forall z: Side :: f.Reach(y, z) + Late(f.engine.oms, f.wire, y, z) <= limit
  {
    var ground := OnGround(config, limits, symbolLimits, halts);
    GroundIsAirborne(config, limits, symbolLimits, halts);
    StaysAirborne(ground, moves);
    WithinIff(Flown(ground, moves), y, limit);
  }

  // ------------------------------------------------------------ what a move does to the worst case

  /** Where the position goes if everything in the air on this side fills and nothing on the other does. */
  function Farthest(f: Flight, y: nat, z: Side): int {
    z.Signed(f.Position(y)) + Flying(f.wire, y, z)
  }

  lemma {:induction false} FlyingJoins(wire: seq<(nat, Order)>, w: (nat, Order), y: nat, z: Side)
    ensures Flying(wire + [w], y, z) == Flying(wire, y, z) + Share(w.1, y, z)
  {
    if wire != [] {
      assert (wire + [w])[1..] == wire[1..] + [w];
      FlyingJoins(wire[1..], w, y, z);
    } else {
      assert wire + [w] == [w];
    }
  }

  /** Whether the order passes the gate and can be tracked. */
  predicate GoesOut(f: Flight, order: Order, reference: int, now: int) {
    var e := f.engine;
    && Gated(e, order, reference, now).reason == Accepted
    && Create(e.oms, order, now).id != 0
  }

  /** Sending adds the order to its own side's worst case, and to nothing else. */
  lemma SendingReaches(f: Flight, order: Order, reference: int, now: int, y: nat, z: Side)
    ensures Farthest(Sent(f, order, reference, now), y, z)
         == Farthest(f, y, z) + (if GoesOut(f, order, reference, now) then Share(order, y, z) else 0)
  {
    var e := f.engine;
    SameGate(e.risk, order, reference, now, e.oms.exposures.Net(order.symbol), e.oms.exposures.gross);
    FlyingJoins(f.wire, (Create(e.oms, order, now).id, order), y, z);
  }

  /** A landing takes the whole order off its side's worst case and puts back what filled; nothing goes farther. */
  lemma LandingRetreats(f: Flight, l: Landing, y: nat, z: Side)
    requires CanMove(f, LandIt(l))
    ensures var order := f.wire[0].1;
      var moved := if order.symbol == y then order.side.Signed(l.answer.quantity) else 0;
      Farthest(LandOne(f, l), y, z) == Farthest(f, y, z) - Share(order, y, z) + z.Signed(moved)
    ensures Farthest(LandOne(f, l), y, z) <= Farthest(f, y, z)
  {
    LandingMoves(f, l, y);
  }

  /** A landing takes the whole order off what is booked or late on its side, whatever part of it filled. */
  lemma LandingUnbooks(f: Flight, l: Landing, y: nat, z: Side)
    requires Airborne(f) && f.wire != []
    ensures var f' := LandOne(f, l);
      f'.engine.oms.exposures.Booked(y, z) + Late(f'.engine.oms, f'.wire, y, z)
        == f.engine.oms.exposures.Booked(y, z) + Late(f.engine.oms, f.wire, y, z) - Share(f.wire[0].1, y, z)
  {
    LandedStaysAirborne(f, l);
    BookedIsFlying(f, y, z);
    BookedIsFlying(LandOne(f, l), y, z);
  }

  /** A sweep moves what it expires from booked to late, and the worst case not at all. */
  lemma SweepingMakesLate(f: Flight, ids: seq<nat>, now: int, y: nat, z: Side)
    requires Airborne(f) && Collects(f.engine.oms, now, ids)
    ensures var f' := Swept(f, ids, now);
      && Farthest(f', y, z) == Farthest(f, y, z)
      && f'.engine.oms.exposures.Booked(y, z) + Late(f'.engine.oms, f'.wire, y, z)
           == f.engine.oms.exposures.Booked(y, z) + Late(f.engine.oms, f.wire, y, z)
  {
    SweptStaysAirborne(f, ids, now);
    BookedIsFlying(f, y, z);
    BookedIsFlying(Swept(f, ids, now), y, z);
  }

  /** An order added to a flight that keeps within the limit keeps it so if and only if what is held, plus what is
      booked or late on its own side, plus the order itself is within it: a condition to ask before sending. */
  lemma SendingKeepsWithinIff(f: Flight, order: Order, reference: int, now: int, limit: int)
    requires Airborne(f) && KeepsWithin(f, order.symbol, limit) && GoesOut(f, order, reference, now)
    ensures KeepsWithin(Sent(f, order, reference, now), order.symbol, limit) <==>
      f.Reach(order.symbol, order.side) + Late(f.engine.oms, f.wire, order.symbol, order.side) + order.quantity <= limit
  {
    var f' := Sent(f, order, reference, now);
    SentStaysAirborne(f, order, reference, now);
    BookedIsFlying(f, order.symbol, order.side);
    BookedIsFlying(f', order.symbol, order.side);
    WireIff(f, order.symbol, limit);
    WireIff(f', order.symbol, limit);
    SendingReaches(f, order, reference, now, order.symbol, Buy);
    SendingReaches(f, order, reference, now, order.symbol, Sell);
  }

  // ------------------------------------------------------------ senders that ask first

  /** Before an order goes out: what is held, booked and late on its side, and the order itself, are within the
      limit. */
  predicate Careful(f: Flight, m: Move) {
    m.SendIt? && GoesOut(f, m.order, m.reference, m.now) ==>
      f.Reach(m.order.symbol, m.order.side) + Late(f.engine.oms, f.wire, m.order.symbol, m.order.side)
        + m.order.quantity <= f.engine.risk.SymbolLimit(m.order.symbol)
  }

  /** The same, asking the books alone. */
  predicate ByTheBooks(f: Flight, m: Move) {
    m.SendIt? && GoesOut(f, m.order, m.reference, m.now) ==>
      f.Reach(m.order.symbol, m.order.side) + m.order.quantity <= f.engine.risk.SymbolLimit(m.order.symbol)
  }

  ghost predicate FliesCarefully(f: Flight, moves: seq<Move>)
    decreases |moves|
  {
    moves != [] ==>
      CanMove(f, moves[0]) && Careful(f, moves[0]) && FliesCarefully(Next(f, moves[0]), moves[1..])
  }

  ghost predicate FliesByTheBooks(f: Flight, moves: seq<Move>)
    decreases |moves|
  {
    moves != [] ==>
      && CanMove(f, moves[0]) && ByTheBooks(f, moves[0]) && !moves[0].ReleaseIt?
      && FliesByTheBooks(Next(f, moves[0]), moves[1..])
  }

  ghost predicate InReach(f: Flight, y: nat, z: Side) {
    Farthest(f, y, z) <= f.engine.risk.SymbolLimit(y)
  }

  ghost predicate AllInReach(f: Flight) {
    forall y: nat, z: Side {:trigger InReach(f, y, z)} :: InReach(f, y, z)
  }

  lemma SendingInReach(f: Flight, order: Order, reference: int, now: int, y: nat, z: Side)
    requires Airborne(f) && InReach(f, y, z) && Careful(f, SendIt(order, reference, now))
    ensures InReach(Sent(f, order, reference, now), y, z)
  {
    var e := f.engine;
    SameGate(e.risk, order, reference, now, e.oms.exposures.Net(order.symbol), e.oms.exposures.gross);
    SendingReaches(f, order, reference, now, y, z);
    BookedIsFlying(f, order.symbol, order.side);
  }

  lemma LandingInReach(f: Flight, l: Landing, y: nat, z: Side)
    requires Airborne(f) && InReach(f, y, z) && CanMove(f, LandIt(l))
    ensures InReach(LandOne(f, l), y, z)
  {
    LandingRetreats(f, l, y, z);
  }

  /** An exit takes its position no farther from zero, and moves no other. */
  lemma ExitRetreats(f: Flight, symbol: nat, x: Exit, filed: bool, y: nat)
    requires Airborne(f) && CanMove(f, ExitIt(symbol, x, filed))
    ensures var f' := Next(f, ExitIt(symbol, x, filed));
      && f'.wire == [] && Abs(f'.Position(y)) <= Abs(f.Position(y)) && (y != symbol ==> f'.Position(y) == f.Position(y))
  {
    if At(f.engine.venue, symbol) != 0 && x.reference > 0 {
      var left := Leaving(f, symbol, x);
      assert SidesAgree(f, symbol);
      ExitLands(f, symbol, x, filed);
      if left.wire != [] {
        LandingMoves(left, Landing(x.answer, filed, NotHalted, x.now), y);
      }
    }
  }

  lemma ExitKeepsSettings(f: Flight, symbol: nat, x: Exit, filed: bool)
    requires f.wire == []
    ensures SameSettings(f, Next(f, ExitIt(symbol, x, filed)))
  {
    if At(f.engine.venue, symbol) != 0 && x.reference > 0 {
      var left := Leaving(f, symbol, x);
      ExitLands(f, symbol, x, filed);
      if left.wire != [] {
        LandKeepsSettings(left, Landing(x.answer, filed, NotHalted, x.now));
      }
    }
  }

  lemma ExitInReach(f: Flight, symbol: nat, x: Exit, filed: bool, y: nat, z: Side)
    requires Airborne(f) && InReach(f, y, Buy) && InReach(f, y, Sell) && CanMove(f, ExitIt(symbol, x, filed))
    ensures InReach(Next(f, ExitIt(symbol, x, filed)), y, z)
  {
    ExitRetreats(f, symbol, x, filed, y);
    ExitKeepsSettings(f, symbol, x, filed);
  }

  lemma SweepInReach(f: Flight, ids: seq<nat>, now: int, y: nat, z: Side)
    requires Airborne(f) && InReach(f, y, z) && CanMove(f, SweepIt(ids, now))
    ensures InReach(Swept(f, ids, now), y, z)
  {
    SweepingMakesLate(f, ids, now, y, z);
  }

  /** No move of a careful sender takes any position's worst case past its limit. */
  lemma CarefulInReach(f: Flight, m: Move, y: nat, z: Side)
    requires Airborne(f) && InReach(f, y, Buy) && InReach(f, y, Sell) && CanMove(f, m) && Careful(f, m)
    ensures InReach(Next(f, m), y, z)
  {
    match m
    case SendIt(order, reference, now) => SendingInReach(f, order, reference, now, y, z);
    case LandIt(l) => LandingInReach(f, l, y, z);
    case ExitIt(symbol, x, filed) => ExitInReach(f, symbol, x, filed, y, z);
    case SweepIt(ids, now) => SweepInReach(f, ids, now, y, z);
    case HaltIt(_) =>
    case ReleaseIt =>
  }

  ghost predicate SameSettings(f: Flight, f': Flight) {
    && f'.halts == f.halts && f'.engine.risk.limits == f.engine.risk.limits
    && f'.engine.risk.symbolLimits == f.engine.risk.symbolLimits
  }

  lemma SendKeepsSettings(f: Flight, order: Order, reference: int, now: int)
    ensures SameSettings(f, Sent(f, order, reference, now))
  {
    var e := f.engine;
    SameGate(e.risk, order, reference, now, e.oms.exposures.Net(order.symbol), e.oms.exposures.gross);
  }

  lemma LandKeepsSettings(f: Flight, l: Landing)
    requires f.wire != []
    ensures SameSettings(f, LandOne(f, l))
  {
  }

  lemma LimitsStay(f: Flight, m: Move)
    requires CanMove(f, m)
    ensures SameSettings(f, Next(f, m))
  {
    match m
    case SendIt(order, reference, now) => SendKeepsSettings(f, order, reference, now);
    case LandIt(l) => LandKeepsSettings(f, l);
    case ExitIt(symbol, x, filed) => ExitKeepsSettings(f, symbol, x, filed);
    case _ =>
  }

  lemma CarefulStaysInReach(f: Flight, m: Move)
    requires Airborne(f) && AllInReach(f) && CanMove(f, m) && Careful(f, m)
    ensures AllInReach(Next(f, m))
  {
    forall y: nat, z: Side ensures InReach(Next(f, m), y, z) {
      assert InReach(f, y, Buy) && InReach(f, y, Sell);
      CarefulInReach(f, m, y, z);
    }
  }

  lemma {:induction false} CarefulStaysWithin(f: Flight, moves: seq<Move>)
    requires Airborne(f) && AllInReach(f) && FliesCarefully(f, moves)
    ensures CanFly(f, moves)
    ensures var f' := Flown(f, moves);
      && Airborne(f') && AllInReach(f')
      && f'.engine.risk.limits == f.engine.risk.limits && f'.engine.risk.symbolLimits == f.engine.risk.symbolLimits
    decreases |moves|
  {
    if moves != [] {
      CarefulStaysInReach(f, moves[0]);
      MoveStaysAirborne(f, moves[0]);
      LimitsStay(f, moves[0]);
      CarefulStaysWithin(Next(f, moves[0]), moves[1..]);
    }
  }

  lemma WithinReach(f: Flight, y: nat)
    requires Airborne(f) && AllInReach(f)
    ensures Abs(f.Position(y)) <= f.engine.risk.SymbolLimit(y)
  {
    assert InReach(f, y, Buy) && InReach(f, y, Sell);
    BookedIsFlying(f, y, Buy);
    FlyingNonNegative(f.wire, y, Buy);
    FlyingNonNegative(f.wire, y, Sell);
  }

  /** Under latency, over every run whose sender asks first, exits, sweeps and releases included, no position ever passes
      its limit. */
  lemma AskingFirstIsEnough(config: Config, limits: Limits, symbolLimits: seq<int>, halts: bool, moves: seq<Move>, y: nat)
    requires config.history > 0 && limits.maxPosition >= 0
    requires FliesCarefully(OnGround(config, limits, symbolLimits, halts), moves)
    ensures CanFly(OnGround(config, limits, symbolLimits, halts), moves)
    ensures Abs(Flown(OnGround(config, limits, symbolLimits, halts), moves).Position(y))
         <= (if At(symbolLimits, y) > 0 then At(symbolLimits, y) else limits.maxPosition)
  {
    var ground := OnGround(config, limits, symbolLimits, halts);
    GroundIsAirborne(config, limits, symbolLimits, halts);
    forall x: nat, z: Side ensures InReach(ground, x, z) {
    }
    CarefulStaysWithin(ground, moves);
    WithinReach(Flown(ground, moves), y);
  }

  // ------------------------------------------------------------ when the books alone will do

  /** Every order on the wire still works. */
  ghost predicate NothingLate(f: Flight) {
    forall i {:trigger f.wire[i]} :: 0 <= i < |f.wire| ==> StillWorking(f.engine.oms, f.wire[i].0)
  }

  lemma {:induction false} LateIsNone(s: Oms, wire: seq<(nat, Order)>, y: nat, z: Side)
    requires forall i {:trigger wire[i]} :: 0 <= i < |wire| ==> StillWorking(s, wire[i].0)
    ensures Late(s, wire, y, z) == 0
  {
    if wire != [] {
      LateIsNone(s, wire[1..], y, z);
    }
  }

  /** While a timeout halts and nobody releases the halt, an order is late only under a halt. */
  ghost predicate LateHalts(f: Flight) {
    f.halts && f.engine.risk.limits.enabled && (f.engine.risk.Halted() || NothingLate(f))
  }

  lemma LateHaltsOnSend(f: Flight, order: Order, reference: int, now: int)
    requires Airborne(f) && LateHalts(f)
    ensures LateHalts(Sent(f, order, reference, now))
  {
    var f' := Sent(f, order, reference, now);
    if !f'.engine.risk.Halted() {
      forall i {:trigger f'.wire[i]} | 0 <= i < |f'.wire| ensures StillWorking(f'.engine.oms, f'.wire[i].0) {
        if i < |f.wire| {
          assert f'.wire[i] == f.wire[i] && StillWorking(f.engine.oms, f.wire[i].0);
        }
      }
    }
  }

  lemma LateHaltsOnLanding(f: Flight, l: Landing)
    requires Airborne(f) && LateHalts(f) && f.wire != []
    ensures LateHalts(LandOne(f, l))
  {
    var f' := LandOne(f, l);
    var (id, order) := f.wire[0];
    if !f'.engine.risk.Halted() {
      assert InAir(f.engine.oms, id, order) && StillWorking(f.engine.oms, id);
      DispatchCloses(f.engine.oms, id, order, l.answer);
      forall i {:trigger f'.wire[i]} | 0 <= i < |f'.wire| ensures StillWorking(f'.engine.oms, f'.wire[i].0) {
        assert f'.wire[i] == f.wire[i + 1] && f.wire[0].0 != f.wire[i + 1].0;
        assert f.wire[i + 1].0 in WorkingIds(f.engine.oms.orders);
        assert f.wire[i + 1].0 in WorkingIds(f'.engine.oms.orders);
      }
    }
  }

  lemma LateHaltsOnMove(f: Flight, m: Move)
    requires Airborne(f) && LateHalts(f) && CanMove(f, m) && !m.ReleaseIt?
    ensures LateHalts(Next(f, m))
  {
    match m
    case SendIt(order, reference, now) => LateHaltsOnSend(f, order, reference, now);
    case LandIt(l) => LateHaltsOnLanding(f, l);
    case ExitIt(symbol, x, filed) =>
      ExitKeepsSettings(f, symbol, x, filed);
      ExitRetreats(f, symbol, x, filed, symbol);
    case SweepIt(ids, now) =>
    case HaltIt(_) =>
  }

  /** With nothing late, or under a halt, asking the books is asking everything. */
  lemma BooksTellAll(f: Flight, m: Move)
    requires LateHalts(f) && ByTheBooks(f, m)
    ensures Careful(f, m)
  {
    if m.SendIt? && GoesOut(f, m.order, m.reference, m.now) {
      LateIsNone(f.engine.oms, f.wire, m.order.symbol, m.order.side);
    }
  }

  lemma {:induction false} BooksAreCareful(f: Flight, moves: seq<Move>)
    requires Airborne(f) && LateHalts(f) && FliesByTheBooks(f, moves)
    ensures FliesCarefully(f, moves)
    decreases |moves|
  {
    if moves != [] {
      BooksTellAll(f, moves[0]);
      MoveStaysAirborne(f, moves[0]);
      LateHaltsOnMove(f, moves[0]);
      BooksAreCareful(Next(f, moves[0]), moves[1..]);
    }
  }

  /** While an order that times out stops trading, as it does by default, and the stop is not released, asking the
      books alone keeps every position within its limit over every run. */
  lemma BooksAreEnoughWhileTimeoutsHalt(config: Config, limits: Limits, symbolLimits: seq<int>, moves: seq<Move>, y: nat)
    requires config.history > 0 && limits.maxPosition >= 0 && limits.enabled
    requires FliesByTheBooks(OnGround(config, limits, symbolLimits, true), moves)
    ensures CanFly(OnGround(config, limits, symbolLimits, true), moves)
    ensures Abs(Flown(OnGround(config, limits, symbolLimits, true), moves).Position(y))
         <= (if At(symbolLimits, y) > 0 then At(symbolLimits, y) else limits.maxPosition)
  {
    var ground := OnGround(config, limits, symbolLimits, true);
    GroundIsAirborne(config, limits, symbolLimits, true);
    BooksAreCareful(ground, moves);
    AskingFirstIsEnough(config, limits, symbolLimits, true, moves, y);
  }
}

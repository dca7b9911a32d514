/** The pre-trade gate and the positions it limits. */
module RiskSpec {
  import opened Types
  import opened OmsSpec
  import opened OmsLaws

  datatype Limits = Limits(maxQuantity: int, maxNotional: real, maxPosition: int, maxGross: int, collarBps: real,
                           maxPerSecond: nat, maxDaily: nat, enabled: bool)

  datatype Reason = Accepted | KillSwitchEngaged | InvalidOrder | QuantityTooLarge | NotionalTooLarge
                  | OutsideCollar | PositionLimitExceeded | GrossLimitExceeded | ThrottleExceeded
                  | DailyLimitExceeded

  datatype Halt = NotHalted | Manual | DrawdownBreach | DailyOrderLimit | OrderTimeout

  datatype Risk = Risk(limits: Limits, positions: seq<int>, symbolLimits: seq<int>, gross: int, halt: Halt,
                       windowStart: int, windowOrders: nat, daily: nat, accepted: nat, rejected: nat) {
    function Position(symbol: nat): int {
      At(positions, symbol)
    }

    /** symbol_limit() */
    function SymbolLimit(symbol: nat): int {
      if At(symbolLimits, symbol) > 0 then At(symbolLimits, symbol) else limits.maxPosition
    }

    predicate Halted() {
      !halt.NotHalted?
    }
  }

  /** set_symbol_limit(): clamped, never trusted. */
  function SetSymbolLimit(r: Risk, symbol: nat, max: int): Risk {
    r.(symbolLimits := Grown(r.symbolLimits, symbol)[symbol := if max <= 0 then 0 else Min(max, r.limits.maxPosition)])
  }

  function EngageKillSwitch(r: Risk, why: Halt): Risk {
    if why.NotHalted? || r.Halted() then r else r.(halt := why)
  }

  datatype Decision = Decision(risk: Risk, reason: Reason)

  function Reject(r: Risk, reason: Reason): Decision {
    Decision(r.(rejected := r.rejected + 1), reason)
  }

  function Accept(r: Risk): Decision {
    Decision(r.(accepted := r.accepted + 1, daily := r.daily + 1), Accepted)
  }

  /** The price an order is judged at. */
  function Px(order: Order, reference: int): int {
    if order.price > 0 then order.price else reference
  }

  function Distance(a: real, b: real): real {
    if a < b then b - a else a - b
  }

  predicate CollarBreached(r: Risk, px: int, reference: int) {
    reference > 0 && r.limits.collarBps > 0.0
    && Distance(px as real, reference as real) / reference as real * 10000.0 > r.limits.collarBps
  }

  /** Size, price and collar: the checks that look at the order alone. */
  function OrderFault(r: Risk, order: Order, reference: int): Reason {
    if order.quantity > r.limits.maxQuantity then QuantityTooLarge
    else if Px(order, reference) <= 0 then InvalidOrder
    else if Px(order, reference) as real / 100.0 * order.quantity as real > r.limits.maxNotional then NotionalTooLarge
    else if CollarBreached(r, Px(order, reference), reference) then OutsideCollar
    else Accepted
  }

  /** The position the order would create if everything in flight filled. */
  function Projected(r: Risk, order: Order, working: int): int {
    r.Position(order.symbol) + working + order.side.Signed(order.quantity)
  }

  /** The gate's gross: every other symbol's filled and working quantity, added up separately. */
  function ProjectedGross(r: Risk, order: Order, working: int, grossWorking: int): int {
    (r.gross - Abs(r.Position(order.symbol))) + (grossWorking - Abs(working)) + Abs(Projected(r, order, working))
  }

  /** The window the order falls into. */
  function Windowed(r: Risk, now: int): Risk {
    if r.windowStart == 0 || now - r.windowStart >= 1_000_000_000 then r.(windowStart := now, windowOrders := 0) else r
  }

  /** The rate limits. */
  function Throttle(r: Risk, now: int): Decision {
    if r.daily >= r.limits.maxDaily then Reject(EngageKillSwitch(r, DailyOrderLimit), DailyLimitExceeded)
    else if r.limits.maxPerSecond == 0 then Accept(r)
    else
      var w := Windowed(r, now);
      if w.windowOrders >= w.limits.maxPerSecond then Reject(w, ThrottleExceeded)
      else Accept(w.(windowOrders := w.windowOrders + 1))
  }

  /** check(), given what the order manager has working on the symbol and in gross. */
  function Check(r: Risk, order: Order, reference: int, now: int, working: int, grossWorking: int): Decision {
    if order.quantity <= 0 then Reject(r, InvalidOrder)
    else if !r.limits.enabled then Accept(r)
    else if r.Halted() then Reject(r, KillSwitchEngaged)
    else if OrderFault(r, order, reference) != Accepted then Reject(r, OrderFault(r, order, reference))
    else if Abs(Projected(r, order, working)) > r.SymbolLimit(order.symbol) then Reject(r, PositionLimitExceeded)
    else if ProjectedGross(r, order, working, grossWorking) > r.limits.maxGross then Reject(r, GrossLimitExceeded)
    else Throttle(r, now)
  }

  /** on_fill() */
  function OnFill(r: Risk, symbol: nat, side: Side, quantity: int): Risk {
    if quantity <= 0 then r
    else
      var positions := Grown(r.positions, symbol);
      var after := positions[symbol] + side.Signed(quantity);
      r.(positions := positions[symbol := after], gross := r.gross + Abs(after) - Abs(positions[symbol]))
  }

  // ------------------------------------------------------------ laws

  /** The sum of |position| over the first n symbols. */
  function PositionSum(positions: seq<int>, n: nat): int {
    if n == 0 then 0 else PositionSum(positions, n - 1) + Abs(At(positions, n - 1))
  }

  /** The sum of |position + working| over the first n symbols. */
  function TotalRisk(positions: seq<int>, x: Exposures, n: nat): int {
    if n == 0 then 0 else TotalRisk(positions, x, n - 1) + Abs(At(positions, n - 1) + x.Net(n - 1))
  }

  ghost predicate PositionsAddUp(r: Risk) {
    r.gross == PositionSum(r.positions, |r.positions|)
  }

  lemma {:induction false} PositionSumBounded(positions: seq<int>, n: nat)
    ensures 0 <= PositionSum(positions, n) <= PositionSum(positions, |positions|)
    decreases n
  {
    if n > |positions| {
      PositionSumBounded(positions, n - 1);
    } else {
      PositionSumPrefix(positions, n, |positions|);
    }
  }

  lemma {:induction false} PositionSumPrefix(positions: seq<int>, m: nat, n: nat)
    requires m <= n
    ensures 0 <= PositionSum(positions, m) <= PositionSum(positions, n)
    decreases n
  {
    if m < n {
      PositionSumPrefix(positions, m, n - 1);
    } else if n > 0 {
      PositionSumPrefix(positions, n - 1, n - 1);
    }
  }

  lemma {:induction false} GrossPrefix(x: Exposures, m: nat, n: nat)
    requires m <= n
    ensures 0 <= GrossSum(x, m) <= GrossSum(x, n)
    decreases n
  {
    if m < n {
      GrossPrefix(x, m, n - 1);
    } else if n > 0 {
      GrossPrefix(x, n - 1, n - 1);
    }
  }

  lemma GrossBounded(x: Exposures, n: nat)
    requires GrossOk(x)
    ensures 0 <= GrossSum(x, n) <= x.gross
  {
    if n > |x.buys| {
      GrossBeyond(x, n);
      GrossPrefix(x, |x.buys|, n);
    } else {
      GrossPrefix(x, n, |x.buys|);
    }
  }

  /** Moving one symbol's position moves the sum by the difference. */
  lemma {:induction false} PositionSumMoved(p: seq<int>, p': seq<int>, symbol: nat, n: nat)
    requires forall y: nat :: y != symbol ==> At(p', y) == At(p, y)
    ensures PositionSum(p', n) ==
      PositionSum(p, n) + (if symbol < n then Abs(At(p', symbol)) - Abs(At(p, symbol)) else 0)
  {
    if n > 0 {
      PositionSumMoved(p, p', symbol, n - 1);
    }
  }

  lemma {:induction false} PositionSumBeyond(p: seq<int>, n: nat)
    requires n >= |p|
    ensures PositionSum(p, n) == PositionSum(p, |p|)
  {
    if n > |p| {
      PositionSumBeyond(p, n - 1);
    }
  }

  /** A fill moves one symbol's position by its signed quantity, and gross stays the sum. */
  lemma OnFillAddsUp(r: Risk, symbol: nat, side: Side, quantity: int)
    requires PositionsAddUp(r)
    ensures var r' := OnFill(r, symbol, side, quantity);
      && PositionsAddUp(r') && r'.limits == r.limits && r'.symbolLimits == r.symbolLimits && r'.halt == r.halt
      && forall y: nat :: r'.Position(y) ==
           r.Position(y) + (if y == symbol && quantity > 0 then side.Signed(quantity) else 0)
  {
    if quantity > 0 {
      var r' := OnFill(r, symbol, side, quantity);
      var n := Max(|r.positions|, symbol + 1);
      PositionSumMoved(r.positions, r'.positions, symbol, n);
      PositionSumBeyond(r.positions, n);
    }
  }

  /** However often limits are set, no symbol's limit is ever wider than the global one. */
  lemma SymbolLimitNeverWider(r: Risk, symbol: nat, max: int, y: nat)
    requires r.SymbolLimit(y) <= r.limits.maxPosition
    ensures SetSymbolLimit(r, symbol, max).SymbolLimit(y) <= r.limits.maxPosition
    ensures symbol == y && 0 < max ==> SetSymbolLimit(r, symbol, max).SymbolLimit(y) <= max || r.limits.maxPosition <= 0
  {
  }

  /** Every total of |position + working| is at most filled plus working with one symbol taken out and its
      own term put back. */
  lemma {:induction false} TotalRiskBounded(positions: seq<int>, x: Exposures, x': Exposures, symbol: nat, n: nat)
    requires forall y: nat :: y != symbol ==> x'.Net(y) == x.Net(y)
    ensures TotalRisk(positions, x', n) <= PositionSum(positions, n) + GrossSum(x, n) +
      (if symbol < n then Abs(At(positions, symbol) + x'.Net(symbol)) - Abs(At(positions, symbol)) - Abs(x.Net(symbol))
       else 0)
  {
    if n > 0 {
      TotalRiskBounded(positions, x, x', symbol, n - 1);
    }
  }

  lemma {:induction false} TotalRiskGrows(positions: seq<int>, x: Exposures, m: nat, n: nat)
    requires m <= n
    ensures TotalRisk(positions, x, m) <= TotalRisk(positions, x, n)
  {
    if m < n {
      TotalRiskGrows(positions, x, m, n - 1);
    }
  }

  /** Booking the order moves its own symbol's net by its signed quantity. */
  lemma BookedNet(x: Exposures, order: Order)
    requires order.quantity > 0 && x.Booked(order.symbol, order.side) >= 0
    ensures var x' := AddExposure(x, order.symbol, order.side, order.quantity);
      && x'.Net(order.symbol) == x.Net(order.symbol) + order.side.Signed(order.quantity)
      && forall y: nat :: y != order.symbol ==> x'.Net(y) == x.Net(y)
  {
    var x' := AddExposure(x, order.symbol, order.side, order.quantity);
    AddExposureAt(x, order.symbol, order.side, order.quantity, order.symbol, Buy);
    AddExposureAt(x, order.symbol, order.side, order.quantity, order.symbol, Sell);
    forall y: nat | y != order.symbol ensures x'.Net(y) == x.Net(y) {
      AddExposureElsewhere(x, order.symbol, order.side, order.quantity, y);
    }
  }

  lemma AcceptedWithinLimits(r: Risk, order: Order, reference: int, now: int, working: int, grossWorking: int)
    requires r.limits.enabled && Check(r, order, reference, now, working, grossWorking).reason == Accepted
    ensures order.quantity > 0 && !r.Halted()
    ensures Abs(Projected(r, order, working)) <= r.SymbolLimit(order.symbol)
    ensures ProjectedGross(r, order, working, grossWorking) <= r.limits.maxGross
    ensures var r' := Check(r, order, reference, now, working, grossWorking).risk;
      r'.positions == r.positions && r'.limits == r.limits && r'.symbolLimits == r.symbolLimits && r'.gross == r.gross
  {
  }

  /** The cheap gross never under-states: right after an accepted order is tracked, the position every symbol
      would have if everything in flight filled is within the limits, alone and in total. */
  lemma GateNeverUnderstates(r: Risk, s: Oms, order: Order, reference: int, now: int, n: nat)
    requires r.limits.enabled && PositionsAddUp(r) && Tracked(s) && Exposed(s.exposures, s.orders)
    requires Check(r, order, reference, now, s.exposures.Net(order.symbol), s.exposures.gross).reason == Accepted
    requires Create(s, order, now).id != 0
    ensures var x := Create(s, order, now).oms.exposures;
      && Abs(r.Position(order.symbol) + x.Net(order.symbol)) <= r.SymbolLimit(order.symbol)
      && TotalRisk(r.positions, x, n) <= r.limits.maxGross
  {
    var x, symbol := s.exposures, order.symbol;
    AcceptedWithinLimits(r, order, reference, now, x.Net(symbol), x.gross);
    LeavesNonNegative(s.orders, s.nextId, 0, symbol, order.side);
    assert AddsUp(x, s.orders, symbol, order.side, 0);
    BookedNet(x, order);
    var x' := AddExposure(x, symbol, order.side, order.quantity);
    assert Create(s, order, now).oms.exposures == x';
    var m := Max(n, symbol + 1);
    TotalRiskBounded(r.positions, x, x', symbol, m);
    TotalRiskGrows(r.positions, x', n, m);
    PositionSumBounded(r.positions, m);
    GrossBounded(x, m);
  }

  /** A fill moves quantity from working to position and leaves their sum alone, unless the venue filled
      more than was working: then the sum moves by exactly the excess. */
  lemma FillMovesWorkingToPosition(r: Risk, x: Exposures, symbol: nat, side: Side, q: int, leaves: int, y: nat)
    requires PositionsAddUp(r) && q > 0 && 0 <= leaves <= x.Booked(symbol, side)
    ensures var x', r' := AddExposure(x, symbol, side, -Min(q, leaves)), OnFill(r, symbol, side, q);
      r'.Position(y) + x'.Net(y) ==
        r.Position(y) + x.Net(y) + (if y == symbol then side.Signed(q - Min(q, leaves)) else 0)
  {
    OnFillAddsUp(r, symbol, side, q);
    AddExposureAt(x, symbol, side, -Min(q, leaves), y, Buy);
    AddExposureAt(x, symbol, side, -Min(q, leaves), y, Sell);
  }

  /** While the kill switch is engaged it stays engaged for its first reason, and it stops every order exactly
      when limits are enabled: check() asks about the limits first. */
  lemma HaltIsSticky(r: Risk, order: Order, reference: int, now: int, working: int, grossWorking: int, why: Halt)
    requires r.Halted() && order.quantity > 0
    ensures Check(r, order, reference, now, working, grossWorking).reason == Accepted <==> !r.limits.enabled
    ensures Check(r, order, reference, now, working, grossWorking).risk.halt == r.halt
    ensures EngageKillSwitch(r, why).halt == r.halt
  {
  }
}

/** The risk manager: limits, positions and a sticky kill switch, updated in place. */
module RiskManagers {
  import opened Types
  import opened OmsSpec
  import opened RiskSpec

  class RiskManager {
    const limits: Limits
    var positions: seq<int>
    var symbolLimits: seq<int>
    var gross: int
    var halt: Halt
    var windowStart: int
    var windowOrders: nat
    var daily: nat
    var accepted: nat
    var rejected: nat

    ghost function State(): Risk
      reads this
    {
      Risk(limits, positions, symbolLimits, gross, halt, windowStart, windowOrders, daily, accepted, rejected)
    }

    constructor (limits: Limits)
      ensures State() == Risk(limits, [], [], 0, NotHalted, 0, 0, 0, 0, 0) && PositionsAddUp(State())
    {
      this.limits := limits;
      positions, symbolLimits, gross, halt := [], [], 0, NotHalted;
      windowStart, windowOrders, daily, accepted, rejected := 0, 0, 0, 0, 0;
    }

    method SetLimit(symbol: nat, max: int)
      modifies this`symbolLimits
      ensures State() == SetSymbolLimit(old(State()), symbol, max)
    {
      symbolLimits := Grown(symbolLimits, symbol);
      symbolLimits := symbolLimits[symbol := if max <= 0 then 0 else Min(max, limits.maxPosition)];
    }

    function LimitOf(symbol: nat): int
      reads this
    {
      var specific := At(symbolLimits, symbol);
      if specific > 0 then specific else limits.maxPosition
    }

    method Engage(why: Halt)
      modifies this`halt
      ensures State() == EngageKillSwitch(old(State()), why)
    {
      if why.NotHalted? {
        return;
      }
      if halt.NotHalted? {
        halt := why;
      }
    }

    method ReleaseKillSwitch()
      modifies this`halt
      ensures State() == old(State()).(halt := NotHalted)
    {
      halt := NotHalted;
    }

    method Refuse(why: Reason) returns (reason: Reason)
      modifies this`rejected
      ensures Decision(State(), reason) == Reject(old(State()), why)
    {
      rejected := rejected + 1;
      return why;
    }

    /** The rate limits of check(). */
    method Rate(now: int) returns (reason: Reason)
      modifies this
      ensures Decision(State(), reason) == Throttle(old(State()), now)
    {
      if daily >= limits.maxDaily {
        Engage(DailyOrderLimit);
        reason := Refuse(DailyLimitExceeded);
        return;
      }
      if limits.maxPerSecond > 0 {
        if windowStart == 0 || now - windowStart >= 1_000_000_000 {
          windowStart, windowOrders := now, 0;
        }
        if windowOrders >= limits.maxPerSecond {
          reason := Refuse(ThrottleExceeded);
          return;
        }
        windowOrders := windowOrders + 1;
      }
      accepted, daily := accepted + 1, daily + 1;
      return Accepted;
    }

    /** The inventory limits of check(). */
    method Inventory(order: Order, now: int, working: int, grossWorking: int) returns (reason: Reason)
      modifies this
      ensures Decision(State(), reason) ==
        var r := old(State());
        if Abs(Projected(r, order, working)) > r.SymbolLimit(order.symbol) then Reject(r, PositionLimitExceeded)
        else if ProjectedGross(r, order, working, grossWorking) > r.limits.maxGross then Reject(r, GrossLimitExceeded)
        else Throttle(r, now)
    {
      var filled := At(positions, order.symbol);
      var projected := filled + working + order.side.Signed(order.quantity);
      if Abs(projected) > LimitOf(order.symbol) {
        reason := Refuse(PositionLimitExceeded);
        return;
      }
      var others := (gross - Abs(filled)) + (grossWorking - Abs(working));
      if others + Abs(projected) > limits.maxGross {
        reason := Refuse(GrossLimitExceeded);
        return;
      }
      reason := Rate(now);
    }

    /** check() */
    method Gate(order: Order, reference: int, now: int, working: int, grossWorking: int) returns (reason: Reason)
      modifies this
      ensures Decision(State(), reason) == Check(old(State()), order, reference, now, working, grossWorking)
    {
      if order.quantity <= 0 {
        reason := Refuse(InvalidOrder);
        return;
      }
      if !limits.enabled {
        accepted, daily := accepted + 1, daily + 1;
        return Accepted;
      }
      if !halt.NotHalted? {
        reason := Refuse(KillSwitchEngaged);
        return;
      }
      if order.quantity > limits.maxQuantity {
        reason := Refuse(QuantityTooLarge);
        return;
      }
      var px := if order.price > 0 then order.price else reference;
      if px <= 0 {
        reason := Refuse(InvalidOrder);
        return;
      }
      if px as real / 100.0 * order.quantity as real > limits.maxNotional {
        reason := Refuse(NotionalTooLarge);
        return;
      }
      if reference > 0 && limits.collarBps > 0.0 {
        var deviation := Distance(px as real, reference as real) / reference as real * 10000.0;
        if deviation > limits.collarBps {
          reason := Refuse(OutsideCollar);
          return;
        }
      }
      reason := Inventory(order, now, working, grossWorking);
    }

    /** on_fill() */
    method Filled(symbol: nat, side: Side, quantity: int)
      modifies this`positions, this`gross
      ensures State() == OnFill(old(State()), symbol, side, quantity)
    {
      if quantity <= 0 {
        return;
      }
      positions := Grown(positions, symbol);
      var before := positions[symbol];
      var after := before + side.Signed(quantity);
      positions := positions[symbol := after];
      gross := gross + Abs(after) - Abs(before);
    }
  }
}

/** Average-cost profit and loss, over exact reals. */
module PnlSpec {
  import opened Types
  import opened OmsSpec

  function AtReal(q: seq<real>, symbol: nat): real {
    if symbol < |q| then q[symbol] else 0.0
  }

  function GrownReal(q: seq<real>, symbol: nat): (r: seq<real>)
    ensures |r| == Max(|q|, symbol + 1)
    ensures forall i :: 0 <= i < |r| ==> r[i] == AtReal(q, i)
    decreases symbol + 1 - |q|
  {
    if symbol < |q| then q else GrownReal(q + [0.0], symbol)
  }

  /** Positions, what they cost, and the profit and fees booked so far. */
  datatype Ledger = Ledger(positions: seq<int>, costs: seq<real>, realized: real, fees: real)

  /** A venue that has done nothing yet. */
  predicate IsOpening(l: Ledger) {
    l.positions == [] && l.costs == [] && l.realized == 0.0 && l.fees == 0.0
  }

  datatype Execution = Execution(symbol: nat, side: Side, quantity: int, price: real, fee: real)

  function SignedQuantity(x: Execution): int {
    x.side.Signed(x.quantity)
  }

  /** The execution adds to the position, or opens one. */
  predicate Adds(held: int, signed: int) {
    held == 0 || (held > 0) == (signed > 0)
  }

  function Closing(held: int, signed: int): int {
    Min(Abs(signed), Abs(held))
  }

  /** The profit on the part of the position an execution closes. */
  function Realizes(held: int, cost: real, signed: int, price: real): real {
    if Adds(held, signed) then 0.0
    else (price - cost / held as real) * Closing(held, signed) as real * (if held > 0 then 1.0 else -1.0)
  }

  /** The cost of what is held afterwards. */
  function CostAfter(held: int, cost: real, signed: int, price: real): real {
    if Adds(held, signed) then cost + price * signed as real
    else
      var now := held + signed;
      if now == 0 then 0.0
      else if (now > 0) == (held > 0) then cost / held as real * now as real
      else price * now as real
  }

  /** apply_pnl() */
  function Booked(l: Ledger, x: Execution): Ledger {
    var held, cost, signed := At(l.positions, x.symbol), AtReal(l.costs, x.symbol), SignedQuantity(x);
    Ledger(Grown(l.positions, x.symbol)[x.symbol := held + signed],
           GrownReal(l.costs, x.symbol)[x.symbol := CostAfter(held, cost, signed, x.price)],
           l.realized + Realizes(held, cost, signed, x.price) - x.fee,
           l.fees + x.fee)
  }

  function After(start: Ledger, history: seq<Execution>): Ledger {
    if history == [] then start else Booked(After(start, history[..|history| - 1]), history[|history| - 1])
  }

  /** What the executions paid out and took in, fees included. */
  function Cash(history: seq<Execution>): real {
    if history == [] then 0.0 else CashAfter(Cash(history[..|history| - 1]), history[|history| - 1])
  }

  function CashAfter(cash: real, x: Execution): real {
    cash - SignedQuantity(x) as real * x.price - x.fee
  }

  function CostSum(costs: seq<real>, n: nat): real {
    if n == 0 then 0.0 else CostSum(costs, n - 1) + AtReal(costs, n - 1)
  }

  /** equity() */
  function Equity(l: Ledger, symbol: nat, mark: real): real {
    var held := At(l.positions, symbol);
    if held == 0 then l.realized
    else l.realized + (mark * held as real - AtReal(l.costs, symbol))
  }

  // ------------------------------------------------------------ one execution

  lemma Quotient(cost: real, held: real)
    requires held != 0.0
    ensures cost / held * held == cost
  {
  }

  lemma SpreadOut(a: real, b: real, x: real)
    ensures (a - b) * x == a * x - b * x
    ensures a * (b + x) == a * b + a * x
  {
  }

  /** Whether it opens, adds, closes in part, closes or flips: profit booked less cost taken on is minus the
      money paid for the quantity. */
  lemma BookedAsCash(held: int, cost: real, signed: int, price: real)
    ensures Realizes(held, cost, signed, price) - (CostAfter(held, cost, signed, price) - cost)
         == -(signed as real * price)
  {
    if !Adds(held, signed) {
      var h, s, avg := held as real, signed as real, cost / held as real;
      Quotient(cost, h);
      if held + signed == 0 || (held + signed > 0) != (held > 0) {
        assert Closing(held, signed) as real * (if held > 0 then 1.0 else -1.0) == h;
        Reassociate(price - avg, Closing(held, signed) as real, if held > 0 then 1.0 else -1.0);
        SpreadOut(price, avg, h);
        SpreadOut(price, h, s);
      } else {
        assert Closing(held, signed) as real * (if held > 0 then 1.0 else -1.0) == -s;
        Reassociate(price - avg, Closing(held, signed) as real, if held > 0 then 1.0 else -1.0);
        SpreadOut(price, avg, -s);
        SpreadOut(avg, h, s);
      }
    }
  }

  lemma Reassociate(a: real, b: real, c: real)
    ensures a * b * c == a * (b * c)
  {
  }

  lemma {:induction false} CostSumSet(c: seq<real>, c': seq<real>, symbol: nat, n: nat)
    requires forall y: nat :: y != symbol ==> AtReal(c', y) == AtReal(c, y)
    ensures CostSum(c', n) ==
      CostSum(c, n) + (if symbol < n then AtReal(c', symbol) - AtReal(c, symbol) else 0.0)
  {
    if n > 0 {
      CostSumSet(c, c', symbol, n - 1);
    }
  }

  lemma {:induction false} CostSumBeyond(c: seq<real>, n: nat)
    requires n >= |c|
    ensures CostSum(c, n) == CostSum(c, |c|)
  {
    if n > |c| {
      CostSumBeyond(c, n - 1);
    }
  }

  // ------------------------------------------------------------ any history

  ghost predicate FlatCostsNothing(l: Ledger, y: nat) {
    At(l.positions, y) == 0 ==> AtReal(l.costs, y) == 0.0
  }

  lemma BookedElsewhere(l: Ledger, x: Execution, y: nat)
    requires y != x.symbol
    ensures AtReal(Booked(l, x).costs, y) == AtReal(l.costs, y) && At(Booked(l, x).positions, y) == At(l.positions, y)
  {
  }

  /** The total cost moves by the one symbol's change. */
  lemma BookedCosts(l: Ledger, x: Execution)
    ensures var l' := Booked(l, x);
      CostSum(l'.costs, |l'.costs|) ==
        CostSum(l.costs, |l.costs|) + AtReal(l'.costs, x.symbol) - AtReal(l.costs, x.symbol)
  {
    var l' := Booked(l, x);
    forall y: nat | y != x.symbol ensures AtReal(l'.costs, y) == AtReal(l.costs, y) {
      BookedElsewhere(l, x, y);
    }
    var n := Max(|l.costs|, x.symbol + 1);
    CostSumSet(l.costs, l'.costs, x.symbol, n);
    CostSumBeyond(l.costs, n);
  }

  lemma BookedOwn(l: Ledger, x: Execution)
    ensures var l' := Booked(l, x);
      && (l'.realized - l.realized) - (AtReal(l'.costs, x.symbol) - AtReal(l.costs, x.symbol))
         == -(SignedQuantity(x) as real * x.price) - x.fee
      && (x.quantity > 0 && FlatCostsNothing(l, x.symbol) ==> FlatCostsNothing(l', x.symbol))
  {
    BookedAsCash(At(l.positions, x.symbol), AtReal(l.costs, x.symbol), SignedQuantity(x), x.price);
  }

  /** Booking one execution moves profit less cost by exactly the cash it took. */
  lemma BookedCash(l: Ledger, x: Execution, cash: real)
    requires l.realized - CostSum(l.costs, |l.costs|) == cash
    ensures var l' := Booked(l, x); l'.realized - CostSum(l'.costs, |l'.costs|) == CashAfter(cash, x)
  {
    BookedCosts(l, x);
    BookedOwn(l, x);
  }

  /** Over any executions, flips included: profit booked less the cost of what is held is the net cash, and a
      symbol with no position costs nothing. */
  lemma {:induction false} ProfitIsCash(start: Ledger, history: seq<Execution>)
    requires IsOpening(start) && forall x :: x in history ==> x.quantity > 0
    ensures var l := After(start, history);
      && l.realized - CostSum(l.costs, |l.costs|) == Cash(history)
      && (forall y: nat :: FlatCostsNothing(l, y))
  {
    if history != [] {
      var before, x := After(start, history[..|history| - 1]), history[|history| - 1];
      ProfitIsCash(start, history[..|history| - 1]);
      BookedCash(before, x, Cash(history[..|history| - 1]));
      BookedOwn(before, x);
      forall y: nat ensures FlatCostsNothing(After(start, history), y) {
        assert FlatCostsNothing(before, y);
        if y != x.symbol {
          BookedElsewhere(before, x, y);
        }
      }
    }
  }

  lemma {:induction false} OneSymbolCost(start: Ledger, history: seq<Execution>, symbol: nat, n: nat)
    requires IsOpening(start) && forall x :: x in history ==> x.symbol == symbol
    ensures CostSum(After(start, history).costs, n) == if symbol < n then AtReal(After(start, history).costs, symbol) else 0.0
    decreases n
  {
    if n > 0 {
      OneSymbolCost(start, history, symbol, n - 1);
      if n - 1 != symbol {
        NoCostElsewhere(start, history, symbol, n - 1);
      }
    }
  }

  lemma {:induction false} NoCostElsewhere(start: Ledger, history: seq<Execution>, symbol: nat, y: nat)
    requires IsOpening(start) && (forall x :: x in history ==> x.symbol == symbol) && y != symbol
    ensures AtReal(After(start, history).costs, y) == 0.0
  {
    if history != [] {
      NoCostElsewhere(start, history[..|history| - 1], symbol, y);
    }
  }

  /** With one symbol traded, equity at any mark is the net cash plus the position at that mark. */
  lemma EquityIsCashPlusMark(start: Ledger, history: seq<Execution>, symbol: nat, mark: real)
    requires IsOpening(start) && forall x :: x in history ==> x.quantity > 0 && x.symbol == symbol
    ensures Equity(After(start, history), symbol, mark) ==
      Cash(history) + mark * At(After(start, history).positions, symbol) as real
  {
    var l := After(start, history);
    ProfitIsCash(start, history);
    OneSymbolCost(start, history, symbol, |l.costs|);
    assert FlatCostsNothing(l, symbol);
  }

  // ------------------------------------------------------------ several symbols

  function Unrealized(l: Ledger, y: nat, mark: real): real {
    mark * At(l.positions, y) as real - AtReal(l.costs, y)
  }

  /** The unrealized profit of the first n symbols, each at its own mark. */
  function OpenProfit(l: Ledger, marks: nat -> real, n: nat): real {
    if n == 0 then 0.0 else OpenProfit(l, marks, n - 1) + Unrealized(l, n - 1, marks(n - 1))
  }

  /** The same of every symbol but one. */
  function OpenProfitBut(l: Ledger, symbol: nat, marks: nat -> real, n: nat): real {
    if n == 0 then 0.0
    else OpenProfitBut(l, symbol, marks, n - 1) + (if n - 1 == symbol then 0.0 else Unrealized(l, n - 1, marks(n - 1)))
  }

  function MarkedValue(l: Ledger, marks: nat -> real, n: nat): real {
    if n == 0 then 0.0 else MarkedValue(l, marks, n - 1) + marks(n - 1) * At(l.positions, n - 1) as real
  }

  /** What the account is worth with every symbol marked. */
  function TotalEquity(l: Ledger, marks: nat -> real): real {
    l.realized + OpenProfit(l, marks, |l.costs|)
  }

  lemma {:induction false} SameSymbols(start: Ledger, history: seq<Execution>)
    requires IsOpening(start)
    ensures |After(start, history).positions| == |After(start, history).costs|
  {
    if history != [] {
      SameSymbols(start, history[..|history| - 1]);
    }
  }

  lemma {:induction false} ProfitSplits(l: Ledger, symbol: nat, marks: nat -> real, n: nat)
    ensures OpenProfit(l, marks, n)
         == OpenProfitBut(l, symbol, marks, n) + (if symbol < n then Unrealized(l, symbol, marks(symbol)) else 0.0)
    ensures OpenProfit(l, marks, n) == MarkedValue(l, marks, n) - CostSum(l.costs, n)
  {
    if n > 0 {
      ProfitSplits(l, symbol, marks, n - 1);
    }
  }

  /** Over any executions in any symbols: what equity() reports of one symbol is the net cash, plus its position at
      the mark, plus what every other symbol's position cost. */
  lemma EquityHoldsOthersAtCost(start: Ledger, history: seq<Execution>, symbol: nat, mark: real)
    requires IsOpening(start) && forall x :: x in history ==> x.quantity > 0
    ensures var l := After(start, history);
      Equity(l, symbol, mark) == Cash(history) + mark * At(l.positions, symbol) as real
                                 + (CostSum(l.costs, |l.costs|) - AtReal(l.costs, symbol))
  {
    ProfitIsCash(start, history);
    assert FlatCostsNothing(After(start, history), symbol);
  }

  /** The whole account is worth the net cash and every position at its mark; and equity() of one symbol is that
      exactly when the other symbols' unrealized profits cancel out. */
  lemma EquityIsTotalIff(start: Ledger, history: seq<Execution>, symbol: nat, marks: nat -> real)
    requires IsOpening(start) && forall x :: x in history ==> x.quantity > 0
    ensures var l := After(start, history);
      && |l.positions| == |l.costs|
      && TotalEquity(l, marks) == Cash(history) + MarkedValue(l, marks, |l.costs|)
      && TotalEquity(l, marks) - Equity(l, symbol, marks(symbol)) == OpenProfitBut(l, symbol, marks, |l.costs|)
      && (Equity(l, symbol, marks(symbol)) == TotalEquity(l, marks) <==>
            OpenProfitBut(l, symbol, marks, |l.costs|) == 0.0)
  {
    var l := After(start, history);
    ProfitIsCash(start, history);
    SameSymbols(start, history);
    ProfitSplits(l, symbol, marks, |l.costs|);
    assert FlatCostsNothing(l, symbol);
  }

  /** One unit of each of two symbols bought at a hundred, and the first falls to forty: equity() of the second
      shows no loss at all. */
  lemma LossElsewhereUnseen(start: Ledger, marks: nat -> real)
    requires IsOpening(start) && marks(0) == 40.0 && marks(1) == 100.0
    ensures var l := After(start, [Execution(0, Buy, 1, 100.0, 0.0), Execution(1, Buy, 1, 100.0, 0.0)]);
      Equity(l, 1, marks(1)) == 0.0 && TotalEquity(l, marks) == -60.0
  {
    var first, second := Execution(0, Buy, 1, 100.0, 0.0), Execution(1, Buy, 1, 100.0, 0.0);
    assert [first, second][..1] == [first] && [first][..0] == [];
    var l1 := Booked(start, first);
    var l2 := Booked(l1, second);
    assert After(start, []) == start;
    assert After(start, [first]) == l1;
    assert After(start, [first, second]) == l2;
    assert l2.costs == [100.0, 100.0] && l2.positions == [1, 1];
    assert OpenProfit(l2, marks, 1) == -60.0;
  }
}

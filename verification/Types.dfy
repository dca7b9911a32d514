/** Value types shared by every component. */
module Types {
  datatype Side = Buy | Sell {
    function Opposite(): Side {
      if Buy? then Sell else Buy
    }

    /** +quantity for a buy, -quantity for a sell. */
    function Signed(quantity: int): int {
      if Buy? then quantity else -quantity
    }
  }

  datatype OrderType = Limit | Market

  /** A match: the price is always the resting order's. */
  datatype Trade = Trade(aggressorId: nat, restingId: nat, aggressorSide: Side, price: int, quantity: int)

  datatype Order = Order(id: nat, symbol: nat, side: Side, orderType: OrderType, price: int,
                         quantity: int, createdTs: int)

  datatype Fill = Fill(orderId: nat, symbol: nat, side: Side, price: int, quantity: int, fee: real,
                       filledTs: int)

  function Abs(x: int): nat {
    if x < 0 then -x else x
  }

  function Min(a: int, b: int): int {
    if a < b then a else b
  }

  function Max(a: int, b: int): int {
    if a < b then b else a
  }

  ghost predicate Distinct(q: seq<nat>) {
    forall i, j :: 0 <= i < j < |q| ==> q[i] != q[j]
  }
}

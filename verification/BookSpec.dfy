/** What an order book is: two queues in price-then-arrival order, and greedy matching.

    This is the plain model the flat-array book of OrderBook.dfy is proved to refine. */
module BookSpec {
  import opened Options
  import opened Types
  import opened IdTables

  datatype Resting = Resting(id: nat, owner: nat, price: int, quantity: int)

  datatype Policy = NoPolicy | CancelResting | CancelAggressor

  /** The price grid: tradeable prices are base, base + tick, ... up to max. */
  datatype Band = Band(base: int, max: int, tick: int) {
    predicate Valid() {
      tick > 0 && base <= max
    }

    predicate Contains(p: int)
      requires Valid()
    {
      base <= p <= max && (p - base) % tick == 0
    }
  }

  /** Each side best price first, and within a price oldest first. */
  datatype Book = Book(band: Band, policy: Policy, bids: seq<Resting>, asks: seq<Resting>,
                       preventions: nat) {
    function On(side: Side): seq<Resting> {
      if side.Buy? then bids else asks
    }

    function With(side: Side, queue: seq<Resting>): Book {
      if side.Buy? then this.(bids := queue) else this.(asks := queue)
    }
  }

  datatype Aggressor = Aggressor(id: nat, owner: nat, side: Side, limit: Option<int>)

  /** A sweep in progress over the opposite queue. */
  datatype Sweep = Sweep(queue: seq<Resting>, remaining: int, trades: seq<Trade>, preventions: nat,
                         stopped: bool)

  /** Whether a resting order at this price is acceptable to the aggressor: any is, to a market order. */
  predicate Crosses(side: Side, price: int, limit: Option<int>) {
    match limit
    case None => true
    case Some(l) => if side.Buy? then price <= l else l <= price
  }

  predicate SelfMatch(policy: Policy, aggressor: nat, resting: nat) {
    policy != NoPolicy && aggressor != 0 && resting == aggressor
  }

  /** The sweep meets the order at the head of the queue. */
  function Meet(a: Aggressor, policy: Policy, s: Sweep): Sweep {
    if s.queue == [] then s
    else
      var head := s.queue[0];
      if SelfMatch(policy, a.owner, head.owner) then
        if policy == CancelResting then
          s.(queue := s.queue[1..], preventions := s.preventions + 1)
        else
          s.(stopped := true, preventions := s.preventions + 1)
      else
        var traded := Min(s.remaining, head.quantity);
        s.(queue := if traded == head.quantity then s.queue[1..]
                    else s.queue[0 := head.(quantity := head.quantity - traded)],
           remaining := s.remaining - traded,
           trades := s.trades + [Trade(a.id, head.id, a.side, head.price, traded)])
  }

  predicate Done(a: Aggressor, s: Sweep) {
    s.remaining <= 0 || s.stopped || s.queue == [] || !Crosses(a.side, s.queue[0].price, a.limit)
  }

  /** Greedy matching: meet the head for as long as it crosses and quantity remains. */
  function Run(a: Aggressor, policy: Policy, s: Sweep): Sweep
    decreases |s.queue|, s.remaining > 0, !s.stopped
  {
    if Done(a, s) then s else Run(a, policy, Meet(a, policy, s))
  }

  function Match(b: Book, a: Aggressor, quantity: int): Sweep {
    Run(a, b.policy, Sweep(b.On(a.side.Opposite()), quantity, [], b.preventions, false))
  }

  predicate HasId(queue: seq<Resting>, id: nat) {
    exists i :: 0 <= i < |queue| && queue[i].id == id
  }

  predicate Live(b: Book, id: nat) {
    HasId(b.bids, id) || HasId(b.asks, id)
  }

  /** p ranks strictly ahead of q on this side. */
  predicate Ahead(side: Side, p: int, q: int) {
    if side.Buy? then p > q else p < q
  }

  /** Joins the back of its own price level. */
  function Enqueue(side: Side, queue: seq<Resting>, r: Resting): seq<Resting> {
    if queue == [] || Ahead(side, r.price, queue[0].price) then [r] + queue
    else [queue[0]] + Enqueue(side, queue[1..], r)
  }

  function Without(queue: seq<Resting>, id: nat): seq<Resting> {
    if queue == [] then []
    else if queue[0].id == id then Without(queue[1..], id)
    else [queue[0]] + Without(queue[1..], id)
  }

  /** Reduces one order in place. */
  function Resized(queue: seq<Resting>, id: nat, quantity: int): seq<Resting> {
    if queue == [] then []
    else [if queue[0].id == id then queue[0].(quantity := quantity) else queue[0]]
         + Resized(queue[1..], id, quantity)
  }

  datatype Outcome = Outcome(book: Book, result: int, trades: seq<Trade>)

  const REJECTED := -1

  function Accepts(b: Book, id: nat, price: int, quantity: int): bool
    requires b.band.Valid()
  {
    quantity > 0 && IsId(id) && b.band.Contains(price) && !Live(b, id)
  }

  /** add_limit(): cross what crosses, rest what remains unless self-match prevention stopped it. */
  function AddLimit(b: Book, id: nat, side: Side, price: int, quantity: int, owner: nat): Outcome
    requires b.band.Valid()
  {
    if !Accepts(b, id, price, quantity) then Outcome(b, REJECTED, [])
    else
      var s := Match(b, Aggressor(id, owner, side, Some(price)), quantity);
      var swept := b.With(side.Opposite(), s.queue).(preventions := s.preventions);
      if s.remaining <= 0 || s.stopped then Outcome(swept, quantity - s.remaining, s.trades)
      else
        var rested := Enqueue(side, swept.On(side), Resting(id, owner, price, s.remaining));
        Outcome(swept.With(side, rested), quantity - s.remaining, s.trades)
  }

  /** execute_market(): never rests. */
  function ExecuteMarket(b: Book, id: nat, side: Side, quantity: int, owner: nat): Outcome {
    if quantity <= 0 then Outcome(b, 0, [])
    else
      var s := Match(b, Aggressor(id, owner, side, None), quantity);
      Outcome(b.With(side.Opposite(), s.queue).(preventions := s.preventions),
              quantity - s.remaining, s.trades)
  }

  function Cancel(b: Book, id: nat): Book {
    b.(bids := Without(b.bids, id), asks := Without(b.asks, id))
  }

  /** The side a live order rests on. */
  function SideOf(b: Book, id: nat): Side
    requires Live(b, id)
  {
    if HasId(b.bids, id) then Buy else Sell
  }

  function Lookup(queue: seq<Resting>, id: nat): Resting
    requires HasId(queue, id)
  {
    if queue[0].id == id then queue[0] else Lookup(queue[1..], id)
  }

  function OrderOf(b: Book, id: nat): Resting
    requires Live(b, id)
  {
    Lookup(b.On(SideOf(b, id)), id)
  }

  /** modify(): a pure reduction keeps its place; anything else is cancel and replace.
      The result is 1 for true and 0 for false. */
  function Modify(b: Book, id: nat, price: int, quantity: int): Outcome
    requires b.band.Valid()
  {
    if !Live(b, id) then Outcome(b, 0, [])
    else if quantity <= 0 then Outcome(Cancel(b, id), 1, [])
    else if !b.band.Contains(price) then Outcome(b, 0, [])
    else
      var side, r := SideOf(b, id), OrderOf(b, id);
      if price == r.price && quantity <= r.quantity then
        Outcome(b.With(side, Resized(b.On(side), id, quantity)), 1, [])
      else
        var replaced := AddLimit(Cancel(b, id), id, side, price, quantity, r.owner);
        Outcome(replaced.book, 1, replaced.trades)
  }
}

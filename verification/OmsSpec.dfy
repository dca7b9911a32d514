/** Order management: the life of an order from "we decided to trade" to "the venue is done with it". */
module OmsSpec {
  import opened Types

  datatype OrderState = PendingNew | New | PartiallyFilled | PendingCancel
                      | Filled | Cancelled | Rejected | Expired

  predicate Terminal(s: OrderState) {
    s.Filled? || s.Cancelled? || s.Rejected? || s.Expired?
  }

  predicate Working(s: OrderState) {
    !Terminal(s)
  }

  datatype Record = Record(id: nat, venueId: nat, symbol: nat, side: Side, orderType: OrderType, price: int,
                           quantity: int, filled: int, leaves: int, avgPrice: real, fees: real,
                           state: OrderState, created: int, acked: int, updated: int)

  datatype Exec = Acked | VenueRejected | Executed | CancelDone | CancelRejected

  datatype Report = Report(id: nat, venueId: nat, symbol: nat, side: Side, exec: Exec, price: int,
                           quantity: int, fee: real, ts: int)

  datatype Stats = Stats(created: int, acked: nat, fills: nat, filledOrders: nat, cancelsRequested: nat,
                         cancelled: nat, cancelRejected: nat, venueRejected: nat, expired: nat, adopted: nat,
                         unknown: nat, late: nat, invalid: nat, overfills: nat, capacityRejects: nat)

  const NO_STATS := Stats(0, 0, 0, 0, 0, 0, 0, 0, 0, 0, 0, 0, 0, 0, 0)

  // ---------------------------------------------------------------- exposure

  /** Working quantity per symbol, buys and sells apart, and the gross kept beside them. */
  datatype Exposures = Exposures(buys: seq<int>, sells: seq<int>, gross: int) {
    /** working_quantity() */
    function Booked(symbol: nat, side: Side): int {
      if side.Buy? then At(buys, symbol) else At(sells, symbol)
    }

    /** working_exposure() */
    function Net(symbol: nat): int {
      At(buys, symbol) - At(sells, symbol)
    }
  }

  function At(q: seq<int>, symbol: nat): int {
    if symbol < |q| then q[symbol] else 0
  }

  /** exposure_for(): room for the symbol. */
  function Grown(q: seq<int>, symbol: nat): (r: seq<int>)
    ensures |r| == Max(|q|, symbol + 1)
    ensures forall i :: 0 <= i < |r| ==> r[i] == At(q, i)
    decreases symbol + 1 - |q|
  {
    if symbol < |q| then q else Grown(q + [0], symbol)
  }

  /** One symbol's entry moved by delta. */
  function Moved(q: seq<int>, symbol: nat, delta: int): seq<int> {
    Grown(q, symbol)[symbol := At(q, symbol) + delta]
  }

  /** add_exposure(), with its clamps at zero. */
  function AddExposure(x: Exposures, symbol: nat, side: Side, delta: int): Exposures {
    if delta == 0 then x
    else
      var before := Abs(x.Net(symbol));
      var moved := Max(x.Booked(symbol, side) + delta, 0);
      var buys, sells := Grown(x.buys, symbol), Grown(x.sells, symbol);
      var x' := if side.Buy? then Exposures(buys[symbol := moved], sells, x.gross)
                else Exposures(buys, sells[symbol := moved], x.gross);
      x'.(gross := x.gross + Abs(x'.Net(symbol)) - before)
  }

  // ---------------------------------------------------------------- the manager

  datatype Config = Config(ackTimeout: int, maxOpen: nat, history: nat)

  /** The tracked orders, those of them that are finished (oldest first), and what is counted beside them. */
  datatype Oms = Oms(config: Config, orders: map<nat, Record>, retired: seq<nat>, nextId: nat, open: nat,
                     exposures: Exposures, stats: Stats)

  function Empty(config: Config): Oms {
    Oms(config, map[], [], 1, 0, Exposures([], [], 0), NO_STATS)
  }

  datatype Created = Created(oms: Oms, id: nat)

  datatype Applied = Applied(oms: Oms, ok: bool)

  function NewRecord(id: nat, order: Order, now: int): Record {
    Record(id, 0, order.symbol, order.side, order.orderType, order.price, order.quantity, 0, order.quantity,
           0.0, 0.0, PendingNew, now, 0, now)
  }

  predicate Accepts(s: Oms, id: nat, order: Order) {
    id != 0 && id !in s.orders && order.quantity > 0 && s.open < s.config.maxOpen
  }

  function Refused(s: Oms): Oms {
    s.(stats := s.stats.(capacityRejects := s.stats.capacityRejects + 1))
  }

  function Accepted(s: Oms, id: nat, order: Order, now: int): Oms {
    s.(nextId := Max(s.nextId, id + 1),
       orders := s.orders[id := NewRecord(id, order, now)],
       open := s.open + 1,
       exposures := AddExposure(s.exposures, order.symbol, order.side, order.quantity),
       stats := s.stats.(created := s.stats.created + 1))
  }

  /** create_with_id() */
  function CreateWithId(s: Oms, id: nat, order: Order, now: int): Created {
    if !Accepts(s, id, order) then Created(Refused(s), 0) else Created(Accepted(s, id, order, now), id)
  }

  function Create(s: Oms, order: Order, now: int): Created {
    CreateWithId(s, s.nextId, order, now)
  }

  function Clamp(x: int, top: int): int {
    Min(Max(x, 0), top)
  }

  /** What adopt() makes of the snapshot's own fields. */
  function AdoptedRecord(snapshot: Record, now: int): Record {
    snapshot.(leaves := Clamp(snapshot.leaves, snapshot.quantity),
              filled := Clamp(snapshot.filled, snapshot.quantity),
              created := if snapshot.created != 0 then snapshot.created else now,
              acked := now, updated := now)
  }

  function OrderFor(snapshot: Record, now: int): Order {
    Order(0, snapshot.symbol, snapshot.side, snapshot.orderType, snapshot.price, snapshot.quantity, now)
  }

  /** The correction adopt() makes to what create_with_id() booked. */
  function Corrects(s: Oms, snapshot: Record, now: int): Oms
    requires snapshot.id in s.orders
  {
    var rec := AdoptedRecord(snapshot, now);
    s.(orders := s.orders[rec.id := rec],
       exposures := AddExposure(s.exposures, rec.symbol, rec.side, rec.leaves - s.orders[rec.id].leaves),
       stats := s.stats.(created := s.stats.created - 1, adopted := s.stats.adopted + 1))
  }

  /** adopt() */
  function Adopt(s: Oms, snapshot: Record, now: int): Created {
    if Terminal(snapshot.state) then Created(Refused(s), 0)
    else
      var c := CreateWithId(s, snapshot.id, OrderFor(snapshot, now), now);
      if c.id == 0 then c else Created(Corrects(c.oms, snapshot, now), c.id)
  }

  /** What was still working is not working any more. */
  function Released(s: Oms, id: nat): Oms
    requires id in s.orders
  {
    var rec := s.orders[id];
    s.(orders := s.orders[id := rec.(leaves := if rec.leaves > 0 then 0 else rec.leaves)],
       open := if s.open > 0 then s.open - 1 else 0,
       exposures := if rec.leaves > 0 then AddExposure(s.exposures, rec.symbol, rec.side, -rec.leaves)
                    else s.exposures)
  }

  function Pushed(retired: seq<nat>, id: nat, full: bool): seq<nat>
    requires full ==> retired != []
  {
    (if full then retired[1..] else retired) + [id]
  }

  /** retire(): release what was still working, and remember the order until the ring forgets it. */
  function Retire(s: Oms, id: nat): Oms
    requires id in s.orders
  {
    var r := Released(s, id);
    var full := |s.retired| == s.config.history && s.retired != [];
    r.(orders := if full then r.orders - {s.retired[0]} else r.orders, retired := Pushed(s.retired, id, full))
  }

  // ---------------------------------------------------------------- reports

  function Invalid(s: Oms): Applied {
    Applied(s.(stats := s.stats.(invalid := s.stats.invalid + 1)), false)
  }

  function With(s: Oms, rec: Record): Oms {
    s.(orders := s.orders[rec.id := rec])
  }

  /** Prices are in ticks of one hundredth. */
  function AverageAfter(avg: real, filled: int, price: int, quantity: int): real {
    var n := (filled + quantity) as real;
    if n == 0.0 then avg else (avg * filled as real + price as real / 100.0 * quantity as real) / n
  }

  function LeavesAfter(rec: Record, q: int): int {
    if rec.quantity > rec.filled + q then rec.quantity - (rec.filled + q) else 0
  }

  /** What a fill does to the record, before its state is decided. */
  function FilledRecord(rec: Record, rep: Report): Record {
    rec.(avgPrice := AverageAfter(rec.avgPrice, rec.filled, rep.price, rep.quantity),
         filled := rec.filled + rep.quantity,
         leaves := LeavesAfter(rec, rep.quantity),
         fees := rec.fees + rep.fee,
         updated := rep.ts)
  }

  function StateAfterFill(before: OrderState, leaves: int): OrderState {
    if leaves == 0 then Filled else if before.PendingCancel? then before else PartiallyFilled
  }

  /** A fill: the record, the exposure it consumes and the counters. */
  function ApplyFill(s: Oms, rec: Record, rep: Report): Oms {
    var filled := FilledRecord(rec, rep);
    var filled' := filled.(state := StateAfterFill(rec.state, filled.leaves));
    var stats := s.stats.(fills := s.stats.fills + 1,
                          overfills := s.stats.overfills + (if rep.quantity > rec.leaves then 1 else 0),
                          filledOrders := s.stats.filledOrders + (if filled.leaves == 0 then 1 else 0));
    var consumed := Min(rep.quantity, rec.leaves);
    With(s, filled').(exposures := AddExposure(s.exposures, rec.symbol, rec.side, -consumed), stats := stats)
  }

  predicate Cancellable(s: OrderState) {
    s.PendingCancel? || s.New? || s.PartiallyFilled?
  }

  function UnknownOrLate(s: Oms, id: nat): Oms {
    if id != 0 && id < s.nextId then s.(stats := s.stats.(late := s.stats.late + 1))
    else s.(stats := s.stats.(unknown := s.stats.unknown + 1))
  }

  /** The switch of apply(): what the report does to the tracked order rec. */
  function ApplyTo(s: Oms, rec: Record, rep: Report): Applied
    requires rec.id == rep.id
  {
    match rep.exec
    case Acked =>
      if !rec.state.PendingNew? then Invalid(s)
      else Applied(With(s, rec.(state := New, acked := rep.ts, updated := rep.ts))
                     .(stats := s.stats.(acked := s.stats.acked + 1)), true)
    case VenueRejected =>
      if !rec.state.PendingNew? then Invalid(s)
      else Applied(Retire(With(s, rec.(state := Rejected, updated := rep.ts))
                            .(stats := s.stats.(venueRejected := s.stats.venueRejected + 1)), rep.id), true)
    case Executed =>
      if Terminal(rec.state) || rep.quantity <= 0 then Invalid(s)
      else
        var s2 := ApplyFill(s, rec, rep);
        Applied(if s2.orders[rep.id].state.Filled? then Retire(s2, rep.id) else s2, true)
    case CancelDone =>
      if !Cancellable(rec.state) then Invalid(s)
      else Applied(Retire(With(s, rec.(state := Cancelled, updated := rep.ts))
                            .(stats := s.stats.(cancelled := s.stats.cancelled + 1)), rep.id), true)
    case CancelRejected =>
      if !rec.state.PendingCancel? then Invalid(s)
      else Applied(With(s, rec.(state := if rec.filled > 0 then PartiallyFilled else New, updated := rep.ts))
                     .(stats := s.stats.(cancelRejected := s.stats.cancelRejected + 1)), true)
  }

  /** The record as apply() first rewrites it: with the venue's id, if the report carries one. */
  function Named(s: Oms, rep: Report): Record
    requires rep.id in s.orders
  {
    s.orders[rep.id].(id := rep.id, venueId := if rep.venueId != 0 then rep.venueId else s.orders[rep.id].venueId)
  }

  /** apply() */
  function ApplyReport(s: Oms, rep: Report): Applied {
    if rep.id !in s.orders then Applied(UnknownOrLate(s, rep.id), false)
    else ApplyTo(With(s, Named(s, rep)), Named(s, rep), rep)
  }

  /** request_cancel() */
  function RequestCancel(s: Oms, id: nat, now: int): Applied {
    if id !in s.orders || !(s.orders[id].state.New? || s.orders[id].state.PartiallyFilled?) then Applied(s, false)
    else
      Applied(s.(orders := s.orders[id := s.orders[id].(state := PendingCancel, updated := now)],
                 stats := s.stats.(cancelsRequested := s.stats.cancelsRequested + 1)), true)
  }

  // ---------------------------------------------------------------- timeouts

  /** Sent, never answered, and out of time. */
  predicate IsDue(s: Oms, id: nat, now: int) {
    id in s.orders && s.orders[id].state.PendingNew? && now - s.orders[id].created >= s.config.ackTimeout
  }

  ghost function Due(s: Oms, now: int): set<nat> {
    set id | id in s.orders && IsDue(s, id, now)
  }

  function Expire(s: Oms, id: nat, now: int): Oms
    requires id in s.orders
  {
    Retire(s.(orders := s.orders[id := s.orders[id].(state := Expired, updated := now)],
              stats := s.stats.(expired := s.stats.expired + 1)), id)
  }

  /** The second loop of sweep_timeouts(): expire the collected ids that are still tracked. */
  function ExpireAll(s: Oms, ids: seq<nat>, now: int): Oms
    decreases |ids|
  {
    if ids == [] then s
    else ExpireAll(if ids[0] in s.orders then Expire(s, ids[0], now) else s, ids[1..], now)
  }

  /** The ids the first loop may collect: exactly the due ones, each once, in whatever order the table holds them. */
  ghost predicate Collects(s: Oms, now: int, ids: seq<nat>) {
    && (forall id :: id in ids <==> IsDue(s, id, now))
    && (forall i, j :: 0 <= i < j < |ids| ==> ids[i] != ids[j])
  }

  function SetNextId(s: Oms, next: nat): Oms {
    if next > s.nextId then s.(nextId := next) else s
  }
}

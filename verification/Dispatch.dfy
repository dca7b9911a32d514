/** What the engine does with one order once it is tracked: ask the venue, and report its answer to the
    order manager as the sequence of events a real venue would send. */
module Dispatching {
  import opened Types
  import opened OmsSpec
  import opened OmsLaws
  import opened OmsRuns

  /** The venue's synchronous answer. */
  datatype Answer = Answer(venueId: nat, price: int, quantity: int, fee: real, ts: int)

  /** The venue's positions after it has filled quantity. */
  function VenueAfter(venue: seq<int>, symbol: nat, side: Side, quantity: int): seq<int> {
    if quantity <= 0 then venue else Moved(venue, symbol, side.Signed(quantity))
  }

  function AckReport(id: nat, order: Order, a: Answer): Report {
    Report(id, a.venueId, order.symbol, order.side, Acked, 0, 0, 0.0, a.ts)
  }

  function FillReport(id: nat, order: Order, a: Answer): Report {
    Report(id, a.venueId, order.symbol, order.side, Executed, a.price, a.quantity, a.fee, a.ts)
  }

  /** The remainder of a marketable order is dead as soon as the venue answers. */
  function CancelReport(id: nat, order: Order, a: Answer): Report {
    Report(id, a.venueId, order.symbol, order.side, CancelDone, if a.quantity > 0 then a.price else 0, 0, 0.0, a.ts)
  }

  function Apply(s: Oms, rep: Report): Oms {
    ApplyReport(s, rep).oms
  }

  /** The order manager after the acknowledgement and the fill. */
  function AfterFill(s: Oms, id: nat, order: Order, a: Answer): Oms {
    var acked := Apply(s, AckReport(id, order, a));
    if a.quantity > 0 then Apply(acked, FillReport(id, order, a)) else acked
  }

  predicate StillWorking(s: Oms, id: nat) {
    id in s.orders && Working(s.orders[id].state)
  }

  /** dispatch(): acknowledged, filled as far as the venue went, the rest cancelled. */
  function Dispatch(s: Oms, id: nat, order: Order, a: Answer): Oms {
    var filled := AfterFill(s, id, order, a);
    if StillWorking(filled, id) then Apply(filled, CancelReport(id, order, a)) else filled
  }

  /** The order manager holds the order as it was created. */
  ghost predicate Untouched(live: Oms, id: nat, order: Order) {
    id in live.orders && live.orders[id] == NewRecord(id, order, live.orders[id].created)
  }

  /** The order manager does not know the order as working: the sweep has expired it, and it may be forgotten. */
  ghost predicate Gone(live: Oms, id: nat) {
    id in live.orders ==> Terminal(live.orders[id].state)
  }

  /** A dispatch leaves every other order as it was or forgets it. */
  lemma DispatchTouchesOne(s: Oms, id: nat, order: Order, a: Answer, x: nat)
    requires x != id && x in Dispatch(s, id, order, a).orders
    ensures x in s.orders && Dispatch(s, id, order, a).orders[x] == s.orders[x]
  {
    var acked, filled := Apply(s, AckReport(id, order, a)), AfterFill(s, id, order, a);
    if StillWorking(filled, id) {
      ReportTouchesOne(filled, CancelReport(id, order, a), x);
    }
    if a.quantity > 0 {
      ReportTouchesOne(acked, FillReport(id, order, a), x);
    }
    ReportTouchesOne(s, AckReport(id, order, a), x);
  }

  /** Whatever the venue answers, dispatching keeps every invariant of the order manager. */
  lemma DispatchKeeps(s: Oms, id: nat, order: Order, a: Answer)
    requires Tracked(s)
    ensures Kept(s, Dispatch(s, id, order, a))
  {
    ReportKeeps(s, AckReport(id, order, a));
    var acked := Apply(s, AckReport(id, order, a));
    ReportKeeps(acked, FillReport(id, order, a));
    var filled := AfterFill(s, id, order, a);
    if a.quantity > 0 {
      Chained(s, acked, filled);
    }
    ReportKeeps(filled, CancelReport(id, order, a));
    if StillWorking(filled, id) {
      Chained(s, filled, Apply(filled, CancelReport(id, order, a)));
    }
  }

  lemma AckOpens(s: Oms, rep: Report)
    requires Tracked(s) && rep.exec.Acked? && rep.id in s.orders && s.orders[rep.id].state.PendingNew?
    ensures var s' := Apply(s, rep);
      && rep.id in s'.orders && s'.orders[rep.id].state.New? && s'.nextId == s.nextId
      && s'.orders[rep.id].quantity == s.orders[rep.id].quantity && s'.orders[rep.id].filled == s.orders[rep.id].filled
      && s'.orders[rep.id].leaves == s.orders[rep.id].leaves
      && WorkingIds(s'.orders) == WorkingIds(s.orders)
  {
    assert RecordOk(rep.id, s.orders[rep.id]);
  }

  lemma FillMovesNamed(s: Oms, rec: Record, rep: Report)
    requires Tracked(s) && rep.exec.Executed? && rep.quantity > 0
    requires rep.id in s.orders && s.orders[rep.id] == rec && rec.id == rep.id
    requires rec.state.PendingNew? || rec.state.New?
    ensures var s' := ApplyTo(s, rec, rep).oms;
      && rep.id in s'.orders && s'.nextId == s.nextId
      && s'.orders[rep.id].state == (if LeavesAfter(rec, rep.quantity) == 0 then OrderState.Filled else PartiallyFilled)
      && WorkingIds(s'.orders) ==
           (if LeavesAfter(rec, rep.quantity) == 0 then WorkingIds(s.orders) - {rep.id} else WorkingIds(s.orders))
  {
    FillTracked(s, rep);
    var s2 := ApplyFill(s, rec, rep);
    if s2.orders[rep.id].state.Filled? {
      RetireTracked(s2, rep.id);
      if s2.retired != [] {
        assert s2.retired[0] in s2.retired;
      }
    }
  }

  lemma FillMoves(s: Oms, rep: Report)
    requires Tracked(s) && rep.exec.Executed? && rep.quantity > 0
    requires rep.id in s.orders && (s.orders[rep.id].state.PendingNew? || s.orders[rep.id].state.New?)
    ensures var s' := Apply(s, rep);
      && rep.id in s'.orders && s'.nextId == s.nextId
      && s'.orders[rep.id].state ==
           (if LeavesAfter(s.orders[rep.id], rep.quantity) == 0 then OrderState.Filled else PartiallyFilled)
      && WorkingIds(s'.orders) ==
           (if LeavesAfter(s.orders[rep.id], rep.quantity) == 0 then WorkingIds(s.orders) - {rep.id}
            else WorkingIds(s.orders))
  {
    NamedKeeps(s, rep);
    var s1, rec := With(s, Named(s, rep)), Named(s, rep);
    assert WorkingIds(s1.orders) == WorkingIds(s.orders);
    FillMovesNamed(s1, rec, rep);
  }

  lemma CancelEnds(s: Oms, rep: Report)
    requires Tracked(s) && rep.exec.CancelDone? && rep.id in s.orders && Cancellable(s.orders[rep.id].state)
    ensures var s' := Apply(s, rep);
      && WorkingIds(s'.orders) == WorkingIds(s.orders) - {rep.id} && s'.nextId == s.nextId
      && rep.id in s'.orders && s'.orders[rep.id].state.Cancelled?
  {
    NamedKeeps(s, rep);
    var s1, rec := With(s, Named(s, rep)), Named(s, rep);
    assert WorkingIds(s1.orders) == WorkingIds(s.orders);
    if s1.retired != [] {
      assert s1.retired[0] in s1.retired;
    }
    FinishAndRetire(s1, rec.(state := Cancelled, updated := rep.ts), s.stats.(cancelled := s.stats.cancelled + 1));
  }

  lemma AckAndFill(s: Oms, id: nat, order: Order, a: Answer)
    requires Tracked(s) && id in s.orders && s.orders[id].state.PendingNew?
    ensures var filled := AfterFill(s, id, order, a);
      && Tracked(filled) && filled.nextId == s.nextId
      && (if StillWorking(filled, id) then Cancellable(filled.orders[id].state) && WorkingIds(filled.orders) == WorkingIds(s.orders)
          else WorkingIds(filled.orders) == WorkingIds(s.orders) - {id})
  {
    AckOpens(s, AckReport(id, order, a));
    ReportKeeps(s, AckReport(id, order, a));
    var acked := Apply(s, AckReport(id, order, a));
    if a.quantity > 0 {
      FillMoves(acked, FillReport(id, order, a));
      ReportKeeps(acked, FillReport(id, order, a));
    }
  }

  /** An order still pending when it is dispatched is finished when dispatch returns, whatever the venue
      answered: no phantom exposure is left behind, and no other order is touched. */
  lemma DispatchCloses(s: Oms, id: nat, order: Order, a: Answer)
    requires Tracked(s) && id in s.orders && s.orders[id].state.PendingNew?
    ensures var s' := Dispatch(s, id, order, a);
      && Kept(s, s') && s'.nextId == s.nextId
      && WorkingIds(s'.orders) == WorkingIds(s.orders) - {id}
  {
    DispatchKeeps(s, id, order, a);
    AckAndFill(s, id, order, a);
    var filled := AfterFill(s, id, order, a);
    if StillWorking(filled, id) {
      CancelEnds(filled, CancelReport(id, order, a));
    }
  }

  lemma IgnoredWhenFinished(live: Oms, id: nat, order: Order, a: Answer)
    requires Gone(live, id)
    ensures !StillWorking(AfterFill(live, id, order, a), id)
  {
  }

  /** Whether or not the order manager still knew the order as working, it does not afterwards. */
  lemma DispatchEnds(live: Oms, id: nat, order: Order, a: Answer)
    requires Tracked(live) && (Untouched(live, id, order) || Gone(live, id))
    ensures var s' := Dispatch(live, id, order, a);
      Tracked(s') && s'.nextId >= live.nextId && Gone(s', id)
  {
    DispatchKeeps(live, id, order, a);
    if Untouched(live, id, order) {
      DispatchCloses(live, id, order, a);
      assert id !in WorkingIds(Dispatch(live, id, order, a).orders);
    } else {
      IgnoredWhenFinished(live, id, order, a);
    }
  }

  /** With nothing working, nothing is booked anywhere. */
  lemma NothingWorking(s: Oms)
    requires Tracked(s) && Exposed(s.exposures, s.orders) && WorkingIds(s.orders) == {}
    ensures s.open == 0 && s.exposures.gross == 0
    ensures forall y: nat :: s.exposures.Net(y) == 0
  {
    forall y: nat ensures s.exposures.Net(y) == 0 {
      NoLeaves(s.orders, y, Buy);
      NoLeaves(s.orders, y, Sell);
      assert AddsUp(s.exposures, s.orders, y, Buy, 0) && AddsUp(s.exposures, s.orders, y, Sell, 0);
      assert s.exposures.Net(y) == s.exposures.Booked(y, Buy) - s.exposures.Booked(y, Sell);
    }
    NoGross(s.exposures, |s.exposures.buys|);
  }

  lemma {:induction false} NoLeaves(orders: map<nat, Record>, y: nat, z: Side)
    requires WorkingIds(orders) == {}
    ensures Leaves(orders, y, z) == 0
    decreases |orders|
  {
    if orders != map[] {
      var id :| id in orders;
      LeavesAt(orders, id, y, z);
      assert id !in WorkingIds(orders);
      assert WorkingIds(orders - {id}) == {};
      NoLeaves(orders - {id}, y, z);
    }
  }

  lemma {:induction false} NoGross(x: Exposures, n: nat)
    requires forall y: nat :: x.Net(y) == 0
    ensures GrossSum(x, n) == 0
  {
    if n > 0 {
      NoGross(x, n - 1);
    }
  }
}

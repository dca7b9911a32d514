/** What every history of the order manager keeps true. */
module OmsLaws {
  import opened Types
  import opened OmsSpec

  // ------------------------------------------------------------ working leaves

  function Contribution(r: Record, symbol: nat, side: Side): int {
    if Working(r.state) && r.symbol == symbol && r.side == side then r.leaves else 0
  }

  /** The leaves of every working order on one side of one symbol. */
  ghost function Leaves(orders: map<nat, Record>, symbol: nat, side: Side): int
    decreases |orders|
  {
    if orders == map[] then 0
    else
      var id :| id in orders;
      Contribution(orders[id], symbol, side) + Leaves(orders - {id}, symbol, side)
  }

  lemma {:induction false} LeavesAt(orders: map<nat, Record>, id: nat, symbol: nat, side: Side)
    requires id in orders
    ensures Leaves(orders, symbol, side) == Contribution(orders[id], symbol, side) + Leaves(orders - {id}, symbol, side)
    decreases |orders|
  {
    var x :| x in orders && Leaves(orders, symbol, side) ==
      Contribution(orders[x], symbol, side) + Leaves(orders - {x}, symbol, side);
    if x != id {
      LeavesAt(orders - {x}, id, symbol, side);
      LeavesAt(orders - {id}, x, symbol, side);
      assert orders - {x} - {id} == orders - {id} - {x};
    }
  }

  /** Replacing one record moves the sum by the difference. */
  lemma LeavesSet(orders: map<nat, Record>, id: nat, r: Record, symbol: nat, side: Side)
    ensures Leaves(orders[id := r], symbol, side) == Leaves(orders, symbol, side) + Contribution(r, symbol, side)
              - (if id in orders then Contribution(orders[id], symbol, side) else 0)
  {
    LeavesAt(orders[id := r], id, symbol, side);
    assert orders[id := r] - {id} == orders - {id};
    if id in orders {
      LeavesAt(orders, id, symbol, side);
    } else {
      assert orders - {id} == orders;
    }
  }

  lemma LeavesDrop(orders: map<nat, Record>, id: nat, symbol: nat, side: Side)
    requires id in orders && Terminal(orders[id].state)
    ensures Leaves(orders - {id}, symbol, side) == Leaves(orders, symbol, side)
  {
    LeavesAt(orders, id, symbol, side);
  }

  lemma {:induction false} LeavesAtLeast(orders: map<nat, Record>, id: nat, symbol: nat, side: Side)
    requires forall x :: x in orders ==> orders[x].leaves >= 0
    ensures Leaves(orders, symbol, side) >= 0
    ensures id in orders ==> Contribution(orders[id], symbol, side) <= Leaves(orders, symbol, side)
    decreases |orders|
  {
    if orders != map[] {
      var x := if id in orders then id else var y :| y in orders; y;
      LeavesAt(orders, x, symbol, side);
      LeavesAtLeast(orders - {x}, x, symbol, side);
    }
  }

  // ------------------------------------------------------------ gross

  /** The sum of |buy - sell| over the first n symbols. */
  function GrossSum(x: Exposures, n: nat): int {
    if n == 0 then 0 else GrossSum(x, n - 1) + Abs(x.Net(n - 1))
  }

  /** Moving one symbol moves the sum by that symbol's difference. */
  lemma {:induction false} GrossSet(x: Exposures, x': Exposures, symbol: nat, n: nat)
    requires forall y: nat :: y != symbol ==> x'.Net(y) == x.Net(y)
    ensures GrossSum(x', n) ==
      GrossSum(x, n) + (if symbol < n then Abs(x'.Net(symbol)) - Abs(x.Net(symbol)) else 0)
  {
    if n > 0 {
      GrossSet(x, x', symbol, n - 1);
    }
  }

  /** Symbols past the end contribute nothing. */
  lemma {:induction false} GrossBeyond(x: Exposures, n: nat)
    requires n >= |x.buys| == |x.sells|
    ensures GrossSum(x, n) == GrossSum(x, |x.buys|)
  {
    if n > |x.buys| {
      GrossBeyond(x, n - 1);
    }
  }

  ghost predicate GrossOk(x: Exposures) {
    |x.buys| == |x.sells| && x.gross == GrossSum(x, |x.buys|)
  }

  /** Where the clamp at zero does not fire, add_exposure() is plain addition. */
  lemma AddExposureAt(x: Exposures, symbol: nat, side: Side, delta: int, y: nat, z: Side)
    requires x.Booked(symbol, side) + delta >= 0
    ensures AddExposure(x, symbol, side, delta).Booked(y, z) ==
      x.Booked(y, z) + (if y == symbol && z == side then delta else 0)
  {
  }

  lemma AddExposureElsewhere(x: Exposures, symbol: nat, side: Side, delta: int, y: nat)
    requires y != symbol
    ensures AddExposure(x, symbol, side, delta).Net(y) == x.Net(y)
  {
  }

  /** Gross stays the sum of the symbols' nets, clamp or no clamp. */
  lemma AddExposureGross(x: Exposures, symbol: nat, side: Side, delta: int)
    requires GrossOk(x)
    ensures GrossOk(AddExposure(x, symbol, side, delta))
  {
    if delta != 0 {
      var x' := AddExposure(x, symbol, side, delta);
      var n := Max(|x.buys|, symbol + 1);
      forall y: nat | y != symbol ensures x'.Net(y) == x.Net(y) {
        AddExposureElsewhere(x, symbol, side, delta, y);
      }
      GrossSet(x, x', symbol, n);
      GrossBeyond(x, n);
    }
  }

  // ------------------------------------------------------------ the invariants

  ghost predicate RecordOk(id: nat, r: Record) {
    && r.id == id != 0 && r.quantity > 0 && r.filled >= 0
    && 0 <= r.leaves <= r.quantity
    && (Terminal(r.state) ==> r.leaves == 0)
  }

  ghost function WorkingIds(orders: map<nat, Record>): set<nat> {
    set id | id in orders && Working(orders[id].state)
  }

  ghost predicate RecordsOk(orders: map<nat, Record>, nextId: nat) {
    forall id {:trigger RecordOk(id, orders[id])} :: id in orders ==> RecordOk(id, orders[id]) && id < nextId
  }

  ghost predicate Finished(orders: map<nat, Record>, id: nat) {
    id in orders && Terminal(orders[id].state)
  }

  /** The retired ring holds exactly the tracked orders that are finished. */
  ghost predicate RetiredOk(orders: map<nat, Record>, retired: seq<nat>) {
    && (forall id {:trigger Finished(orders, id)} {:trigger id in retired} :: id in retired <==> Finished(orders, id))
    && Distinct(retired)
  }

  /** Everything but the exposure: holds in every history. */
  ghost predicate Tracked(s: Oms) {
    && s.config.history > 0 && s.nextId > 0
    && RecordsOk(s.orders, s.nextId) && RetiredOk(s.orders, s.retired)
    && |s.retired| <= s.config.history
    && s.open == |WorkingIds(s.orders)| <= s.config.maxOpen
  }

  ghost predicate Accounted(st: Stats, open: nat) {
    st.created + st.adopted == open + st.filledOrders + st.cancelled + st.venueRejected + st.expired
  }

  /** A later fill will recompute leaves from quantity and filled.  This is when that agrees: filled and leaves
      add up to the quantity, or leaves and quantity - filled are both at most one. */
  predicate Balanced(r: Record) {
    Max(r.leaves, 1) == Max(r.quantity - r.filled, 1)
  }

  ghost predicate AllBalanced(orders: map<nat, Record>) {
    forall id {:trigger Balanced(orders[id])} :: id in orders && Working(orders[id].state) ==> Balanced(orders[id])
  }

  ghost predicate AddsUp(x: Exposures, orders: map<nat, Record>, y: nat, z: Side, extra: int) {
    x.Booked(y, z) == Leaves(orders, y, z) + extra
  }

  /** Exposure is the sum of working leaves, and gross the sum of the symbols' nets. */
  ghost predicate Exposed(x: Exposures, orders: map<nat, Record>) {
    && GrossOk(x)
    && forall y: nat, z: Side {:trigger AddsUp(x, orders, y, z, 0)} :: AddsUp(x, orders, y, z, 0)
  }

  /** The same with one order's leaves still booked although it no longer works. */
  ghost predicate StillBooked(x: Exposures, orders: map<nat, Record>, r: Record) {
    && GrossOk(x)
    && forall y: nat, z: Side {:trigger AddsUp(x, orders, y, z, Own(r, y, z))} :: AddsUp(x, orders, y, z, Own(r, y, z))
  }

  function Own(r: Record, y: nat, z: Side): int {
    if y == r.symbol && z == r.side then r.leaves else 0
  }

  ghost function Members(q: seq<nat>): set<nat> {
    set i | i in q
  }

  lemma {:induction false} DistinctCard(q: seq<nat>)
    requires Distinct(q)
    ensures |Members(q)| == |q|
  {
    if q != [] {
      DistinctCard(q[1..]);
      assert Members(q) == {q[0]} + Members(q[1..]);
    }
  }

  /** Every tracked order is open or in the retired ring: the slots in use. */
  lemma SlotsInUse(s: Oms)
    requires Tracked(s)
    ensures |s.orders| == s.open + |s.retired|
  {
    DistinctCard(s.retired);
    forall id ensures id in Members(s.retired) <==> Finished(s.orders, id) {
      assert id in s.retired <==> Finished(s.orders, id);
    }
    assert s.orders.Keys == WorkingIds(s.orders) + Members(s.retired);
    assert WorkingIds(s.orders) !! Members(s.retired);
    assert |s.orders| == |s.orders.Keys|;
  }

  // ------------------------------------------------------------ creating and adopting

  lemma WorkingSet(orders: map<nat, Record>, id: nat, r: Record)
    ensures WorkingIds(orders[id := r]) ==
      if Working(r.state) then WorkingIds(orders) + {id} else WorkingIds(orders) - {id}
  {
  }

  /** Adding a working order, or replacing a record without finishing it, disturbs neither the records
      nor the ring. */
  lemma SetWorking(orders: map<nat, Record>, retired: seq<nat>, nextId: nat, nextId': nat, r: Record)
    requires RecordsOk(orders, nextId) && RetiredOk(orders, retired) && nextId <= nextId'
    requires RecordOk(r.id, r) && r.id < nextId'
    requires Working(r.state) == (r.id in orders ==> Working(orders[r.id].state))
    ensures RecordsOk(orders[r.id := r], nextId') && RetiredOk(orders[r.id := r], retired)
    ensures AllBalanced(orders) && (Working(r.state) ==> Balanced(r)) ==> AllBalanced(orders[r.id := r])
  {
    var orders' := orders[r.id := r];
    forall x | x in orders' ensures RecordOk(x, orders'[x]) && x < nextId' {
      assert x != r.id ==> RecordOk(x, orders[x]);
    }
    forall x ensures x in retired <==> Finished(orders', x) {
      assert x in retired <==> Finished(orders, x);
    }
  }

  lemma CreateTracked(s: Oms, id: nat, order: Order, now: int)
    requires Tracked(s)
    ensures var c := CreateWithId(s, id, order, now);
      && Tracked(c.oms) && c.oms.nextId >= s.nextId
      && (c.id != 0 ==> c.id == id && id < c.oms.nextId && id !in s.orders)
      && (Accounted(s.stats, s.open) ==> Accounted(c.oms.stats, c.oms.open))
      && (AllBalanced(s.orders) ==> AllBalanced(c.oms.orders))
  {
    if Accepts(s, id, order) {
      WorkingSet(s.orders, id, NewRecord(id, order, now));
      SetWorking(s.orders, s.retired, s.nextId, Max(s.nextId, id + 1), NewRecord(id, order, now));
    }
  }

  lemma LeavesNonNegative(orders: map<nat, Record>, nextId: nat, id: nat, y: nat, z: Side)
    requires RecordsOk(orders, nextId)
    ensures Leaves(orders, y, z) >= 0
    ensures id in orders ==> Contribution(orders[id], y, z) <= Leaves(orders, y, z)
  {
    forall x | x in orders ensures orders[x].leaves >= 0 {
      assert RecordOk(x, orders[x]);
    }
    LeavesAtLeast(orders, id, y, z);
  }

  /** Booking the change in one working order's leaves keeps exposure the sum. */
  lemma ExposedAfter(x: Exposures, orders: map<nat, Record>, nextId: nat, r: Record, delta: int)
    requires Exposed(x, orders) && RecordsOk(orders, nextId) && Working(r.state) && r.leaves >= 0
    requires r.id in orders ==> var was := orders[r.id];
      Working(was.state) && was.symbol == r.symbol && was.side == r.side
    requires delta == r.leaves - (if r.id in orders then orders[r.id].leaves else 0)
    ensures Exposed(AddExposure(x, r.symbol, r.side, delta), orders[r.id := r])
  {
    AddExposureGross(x, r.symbol, r.side, delta);
    LeavesNonNegative(orders, nextId, r.id, r.symbol, r.side);
    assert AddsUp(x, orders, r.symbol, r.side, 0);
    var x', orders' := AddExposure(x, r.symbol, r.side, delta), orders[r.id := r];
    forall y: nat, z: Side ensures AddsUp(x', orders', y, z, 0) {
      assert AddsUp(x, orders, y, z, 0);
      AddExposureAt(x, r.symbol, r.side, delta, y, z);
      LeavesSet(orders, r.id, r, y, z);
    }
  }

  lemma CreateExposed(s: Oms, id: nat, order: Order, now: int)
    requires Tracked(s) && Exposed(s.exposures, s.orders)
    ensures var c := CreateWithId(s, id, order, now); Exposed(c.oms.exposures, c.oms.orders)
  {
    if Accepts(s, id, order) {
      ExposedAfter(s.exposures, s.orders, s.nextId, NewRecord(id, order, now), order.quantity);
    }
  }

  lemma AdoptTracked(s: Oms, snapshot: Record, now: int)
    requires Tracked(s)
    ensures var c := Adopt(s, snapshot, now);
      && Tracked(c.oms) && c.oms.nextId >= s.nextId
      && (c.id != 0 ==> c.id == snapshot.id && c.id < c.oms.nextId && c.id !in s.orders)
      && (Accounted(s.stats, s.open) ==> Accounted(c.oms.stats, c.oms.open))
      && (AllBalanced(s.orders) && Balanced(AdoptedRecord(snapshot, now)) ==> AllBalanced(c.oms.orders))
  {
    if Working(snapshot.state) {
      CreateTracked(s, snapshot.id, OrderFor(snapshot, now), now);
      var c := CreateWithId(s, snapshot.id, OrderFor(snapshot, now), now);
      if c.id != 0 {
        var rec := AdoptedRecord(snapshot, now);
        SetWorking(c.oms.orders, c.oms.retired, c.oms.nextId, c.oms.nextId, rec);
        WorkingSet(c.oms.orders, rec.id, rec);
        assert WorkingIds(c.oms.orders[rec.id := rec]) == WorkingIds(c.oms.orders);
      }
    }
  }

  lemma CorrectsExposed(s: Oms, snapshot: Record, now: int)
    requires Exposed(s.exposures, s.orders) && RecordsOk(s.orders, s.nextId) && snapshot.id in s.orders
    requires Working(snapshot.state) && snapshot.quantity >= 0
    requires var was := s.orders[snapshot.id];
      Working(was.state) && was.symbol == snapshot.symbol && was.side == snapshot.side
    ensures Exposed(Corrects(s, snapshot, now).exposures, Corrects(s, snapshot, now).orders)
  {
    var rec := AdoptedRecord(snapshot, now);
    ExposedAfter(s.exposures, s.orders, s.nextId, rec, rec.leaves - s.orders[rec.id].leaves);
  }

  lemma AdoptExposed(s: Oms, snapshot: Record, now: int)
    requires Tracked(s) && Exposed(s.exposures, s.orders)
    ensures var c := Adopt(s, snapshot, now); Exposed(c.oms.exposures, c.oms.orders)
  {
    if Working(snapshot.state) {
      CreateExposed(s, snapshot.id, OrderFor(snapshot, now), now);
      CreateTracked(s, snapshot.id, OrderFor(snapshot, now), now);
      var c := CreateWithId(s, snapshot.id, OrderFor(snapshot, now), now);
      if c.id != 0 {
        CorrectsExposed(c.oms, snapshot, now);
      }
    }
  }

  // ------------------------------------------------------------ retiring

  /** An order that has just finished, on its way to the retired ring. */
  ghost predicate Finishing(s: Oms, id: nat) {
    && s.config.history > 0 && s.nextId > 0
    && Finished(s.orders, id) && id !in s.retired
    && id == s.orders[id].id != 0 && id < s.nextId && s.orders[id].quantity > 0 && s.orders[id].filled >= 0
    && 0 <= s.orders[id].leaves <= s.orders[id].quantity
    && RecordsOk(s.orders - {id}, s.nextId) && RetiredOk(s.orders - {id}, s.retired)
    && |s.retired| <= s.config.history
    && s.open == |WorkingIds(s.orders)| + 1 <= s.config.maxOpen
  }

  /** Finishing a working order leaves it on its way to the ring. */
  lemma FinishStarts(s: Oms, rec: Record)
    requires Tracked(s) && rec.id in s.orders && Working(s.orders[rec.id].state) && Terminal(rec.state)
    requires rec.quantity > 0 && rec.filled >= 0 && 0 <= rec.leaves <= rec.quantity
    ensures Finishing(With(s, rec), rec.id)
    ensures AllBalanced(s.orders) ==> AllBalanced(With(s, rec).orders)
  {
    assert RecordOk(rec.id, s.orders[rec.id]);
    assert !Finished(s.orders, rec.id);
    WorkingSet(s.orders, rec.id, rec);
    assert rec.id in WorkingIds(s.orders);
    WithoutOrder(s.orders, s.retired, s.nextId, rec.id);
    assert With(s, rec).orders - {rec.id} == s.orders - {rec.id};
  }

  lemma WithoutOrder(orders: map<nat, Record>, retired: seq<nat>, nextId: nat, id: nat)
    requires RecordsOk(orders, nextId) && RetiredOk(orders, retired)
    requires id in orders && Working(orders[id].state)
    ensures RecordsOk(orders - {id}, nextId) && RetiredOk(orders - {id}, retired)
  {
    forall x | x in orders - {id} ensures RecordOk(x, (orders - {id})[x]) && x < nextId {
      assert RecordOk(x, orders[x]);
    }
    forall x ensures x in retired <==> Finished(orders - {id}, x) {
      assert x in retired <==> Finished(orders, x);
    }
  }

  lemma RingPush(retired: seq<nat>, id: nat, full: bool)
    requires id !in retired && (full ==> retired != []) && Distinct(retired)
    ensures Distinct(Pushed(retired, id, full))
    ensures |Pushed(retired, id, full)| == |retired| + (if full then 0 else 1)
    ensures forall x :: x in Pushed(retired, id, full) <==> x == id || (x in retired && !(full && x == retired[0]))
  {
    if full {
      assert retired == [retired[0]] + retired[1..];
    }
  }

  /** The record map after the order has been finished off and the oldest forgotten. */
  lemma RetireMap(orders: map<nat, Record>, retired: seq<nat>, nextId: nat, rec: Record, full: bool)
    requires RecordsOk(orders - {rec.id}, nextId) && RetiredOk(orders - {rec.id}, retired)
    requires rec.id !in retired && (full ==> retired != [])
    requires RecordOk(rec.id, rec) && Terminal(rec.state) && rec.id < nextId
    ensures var orders' := if full then orders[rec.id := rec] - {retired[0]} else orders[rec.id := rec];
      && RecordsOk(orders', nextId) && RetiredOk(orders', Pushed(retired, rec.id, full))
      && WorkingIds(orders') == WorkingIds(orders - {rec.id})
      && (AllBalanced(orders) ==> AllBalanced(orders'))
  {
    RingPush(retired, rec.id, full);
    var orders' := if full then orders[rec.id := rec] - {retired[0]} else orders[rec.id := rec];
    forall x | x in orders' ensures RecordOk(x, orders'[x]) && x < nextId {
      assert x != rec.id ==> RecordOk(x, (orders - {rec.id})[x]);
    }
    assert full ==> Finished(orders - {rec.id}, retired[0]);
    forall x ensures x in Pushed(retired, rec.id, full) <==> Finished(orders', x) {
      assert x in retired <==> Finished(orders - {rec.id}, x);
    }
  }

  lemma RetireTracked(s: Oms, id: nat)
    requires Finishing(s, id)
    ensures Tracked(Retire(s, id))
    ensures Retire(s, id).open == s.open - 1 && Retire(s, id).stats == s.stats
    ensures Retire(s, id).nextId == s.nextId
    ensures WorkingIds(Retire(s, id).orders) == WorkingIds(s.orders)
    ensures AllBalanced(s.orders) ==> AllBalanced(Retire(s, id).orders)
  {
    var full := |s.retired| == s.config.history && s.retired != [];
    var rec := s.orders[id];
    RingPush(s.retired, id, full);
    RetireMap(s.orders, s.retired, s.nextId, rec.(leaves := if rec.leaves > 0 then 0 else rec.leaves), full);
    assert WorkingIds(s.orders - {id}) == WorkingIds(s.orders);
  }

  /** Retiring releases exactly what the order still had booked. */
  lemma RetireExposed(s: Oms, id: nat)
    requires Finishing(s, id) && StillBooked(s.exposures, s.orders, s.orders[id])
    ensures Exposed(Retire(s, id).exposures, Retire(s, id).orders)
  {
    var rec, x', orders' := s.orders[id], Retire(s, id).exposures, Retire(s, id).orders;
    RetireBooks(s, id);
    AddExposureGross(s.exposures, rec.symbol, rec.side, -rec.leaves);
    assert GrossOk(x');
    forall y: nat, z: Side ensures AddsUp(x', orders', y, z, 0) {
      RetireAt(s, id, y, z);
    }
    assert Exposed(x', orders');
  }

  lemma RetireAt(s: Oms, id: nat, y: nat, z: Side)
    requires Finishing(s, id) && StillBooked(s.exposures, s.orders, s.orders[id])
    ensures AddsUp(Retire(s, id).exposures, Retire(s, id).orders, y, z, 0)
  {
    var rec := s.orders[id];
    RetireBooks(s, id);
    RetireLeaves(s, id, y, z);
    assert AddsUp(s.exposures, s.orders, y, z, Own(rec, y, z));
    StillThere(s, id);
    AddExposureAt(s.exposures, rec.symbol, rec.side, -rec.leaves, y, z);
  }

  lemma RetireBooks(s: Oms, id: nat)
    requires id in s.orders && s.orders[id].leaves >= 0
    ensures var rec := s.orders[id];
      Retire(s, id).exposures == AddExposure(s.exposures, rec.symbol, rec.side, -rec.leaves)
  {
    if s.orders[id].leaves > 0 {
      assert Retire(s, id).exposures == AddExposure(s.exposures, s.orders[id].symbol, s.orders[id].side, -s.orders[id].leaves);
    } else {
      assert Retire(s, id).exposures == s.exposures;
    }
  }

  lemma StillThere(s: Oms, id: nat)
    requires Finishing(s, id) && StillBooked(s.exposures, s.orders, s.orders[id])
    ensures s.exposures.Booked(s.orders[id].symbol, s.orders[id].side) >= s.orders[id].leaves
  {
    var rec := s.orders[id];
    assert AddsUp(s.exposures, s.orders, rec.symbol, rec.side, Own(rec, rec.symbol, rec.side));
    LeavesNonNegative(s.orders - {id}, s.nextId, id, rec.symbol, rec.side);
    LeavesAt(s.orders, id, rec.symbol, rec.side);
  }

  lemma RetireLeaves(s: Oms, id: nat, y: nat, z: Side)
    requires Finishing(s, id)
    ensures Leaves(Retire(s, id).orders, y, z) == Leaves(s.orders, y, z)
  {
    var rec := s.orders[id];
    var orders := s.orders[id := rec.(leaves := if rec.leaves > 0 then 0 else rec.leaves)];
    LeavesSet(s.orders, id, orders[id], y, z);
    if |s.retired| == s.config.history && s.retired != [] {
      assert Finished(s.orders - {id}, s.retired[0]);
      LeavesDrop(orders, s.retired[0], y, z);
    }
  }

  // ------------------------------------------------------------ reports

  /** Rewriting a record without finishing it. */
  lemma Rewritten(s: Oms, r: Record)
    requires Tracked(s) && r.id in s.orders && RecordOk(r.id, r)
    requires Working(r.state) == Working(s.orders[r.id].state)
    ensures Tracked(With(s, r))
    ensures AllBalanced(s.orders) && (Working(r.state) ==> Balanced(r)) ==> AllBalanced(With(s, r).orders)
  {
    assert RecordOk(r.id, s.orders[r.id]);
    SetWorking(s.orders, s.retired, s.nextId, s.nextId, r);
    WorkingSet(s.orders, r.id, r);
    assert WorkingIds(s.orders[r.id := r]) == WorkingIds(s.orders);
  }

  /** A rewrite that moves no leaves needs no booking. */
  lemma SameLeaves(x: Exposures, orders: map<nat, Record>, r: Record)
    requires Exposed(x, orders) && r.id in orders && Working(r.state) == Working(orders[r.id].state)
    requires var was := orders[r.id]; r.symbol == was.symbol && r.side == was.side && r.leaves == was.leaves
    ensures Exposed(x, orders[r.id := r])
  {
    var orders' := orders[r.id := r];
    forall y: nat, z: Side ensures AddsUp(x, orders', y, z, 0) {
      assert AddsUp(x, orders, y, z, 0);
      LeavesSet(orders, r.id, r, y, z);
    }
  }

  /** Finishing an order with some of its leaves still booked. */
  lemma FinishBooked(x: Exposures, orders: map<nat, Record>, nextId: nat, r: Record, delta: int)
    requires Exposed(x, orders) && RecordsOk(orders, nextId) && r.id in orders
    requires Working(orders[r.id].state) && Terminal(r.state) && r.leaves >= 0
    requires var was := orders[r.id]; r.symbol == was.symbol && r.side == was.side && delta == r.leaves - was.leaves
    ensures StillBooked(AddExposure(x, r.symbol, r.side, delta), orders[r.id := r], r)
  {
    AddExposureGross(x, r.symbol, r.side, delta);
    LeavesNonNegative(orders, nextId, r.id, r.symbol, r.side);
    assert AddsUp(x, orders, r.symbol, r.side, 0);
    var x', orders' := AddExposure(x, r.symbol, r.side, delta), orders[r.id := r];
    forall y: nat, z: Side ensures AddsUp(x', orders', y, z, Own(r, y, z)) {
      assert AddsUp(x, orders, y, z, 0);
      AddExposureAt(x, r.symbol, r.side, delta, y, z);
      LeavesSet(orders, r.id, r, y, z);
    }
  }

  /** What is left after a fill is what was left less what the fill consumed, for every size of fill,
      exactly when the order is balanced. */
  lemma BalancedIff(r: Record)
    requires r.leaves >= 0
    ensures Balanced(r) <==> forall q: int :: q > 0 ==> LeavesAfter(r, q) == r.leaves - Min(q, r.leaves)
  {
    if forall q: int :: q > 0 ==> LeavesAfter(r, q) == r.leaves - Min(q, r.leaves) {
      assert LeavesAfter(r, 1) == r.leaves - Min(1, r.leaves);
    }
  }

  lemma NamedKeeps(s: Oms, rep: Report)
    requires Tracked(s) && rep.id in s.orders
    ensures var s1 := With(s, Named(s, rep));
      && Tracked(s1) && RecordOk(rep.id, Named(s, rep))
      && (AllBalanced(s.orders) ==> AllBalanced(s1.orders))
      && (Exposed(s.exposures, s.orders) ==> Exposed(s.exposures, s1.orders))
  {
    assert RecordOk(rep.id, s.orders[rep.id]);
    var r := Named(s, rep);
    if AllBalanced(s.orders) && Working(r.state) {
      assert Balanced(s.orders[rep.id]);
    }
    Rewritten(s, r);
    if Exposed(s.exposures, s.orders) {
      SameLeaves(s.exposures, s.orders, r);
    }
  }

  lemma FillTracked(s: Oms, rep: Report)
    requires Tracked(s) && rep.id in s.orders && Working(s.orders[rep.id].state)
    requires s.orders[rep.id].id == rep.id && rep.quantity > 0
    ensures var s2 := ApplyFill(s, s.orders[rep.id], rep);
      && rep.id in s2.orders && s2.nextId == s.nextId && s2.open == s.open
      && (s2.orders[rep.id].state.Filled? ==> Finishing(s2, rep.id))
      && (!s2.orders[rep.id].state.Filled? ==> Tracked(s2))
      && (s2.orders[rep.id].state.Filled? ==> WorkingIds(s2.orders) == WorkingIds(s.orders) - {rep.id})
      && (!s2.orders[rep.id].state.Filled? ==> WorkingIds(s2.orders) == WorkingIds(s.orders))
      && (AllBalanced(s.orders) ==> AllBalanced(s2.orders))
  {
    var rec := s.orders[rep.id];
    assert RecordOk(rep.id, rec);
    var rec' := ApplyFill(s, rec, rep).orders[rep.id];
    WorkingSet(s.orders, rep.id, rec');
    if rec'.state.Filled? {
      FinishStarts(s, rec');
    } else {
      Rewritten(s, rec');
    }
  }

  lemma FillExposed(s: Oms, rep: Report)
    requires Tracked(s) && rep.id in s.orders && Working(s.orders[rep.id].state)
    requires s.orders[rep.id].id == rep.id && rep.quantity > 0
    requires Exposed(s.exposures, s.orders) && Balanced(s.orders[rep.id])
    ensures var s2 := ApplyFill(s, s.orders[rep.id], rep); rep.id in s2.orders
    ensures var s2 := ApplyFill(s, s.orders[rep.id], rep);
      if s2.orders[rep.id].state.Filled? then StillBooked(s2.exposures, s2.orders, s2.orders[rep.id])
      else Exposed(s2.exposures, s2.orders)
  {
    var rec := s.orders[rep.id];
    assert RecordOk(rep.id, rec);
    var rec' := ApplyFill(s, rec, rep).orders[rep.id];
    var consumed := Min(rep.quantity, rec.leaves);
    if rec'.state.Filled? {
      FinishBooked(s.exposures, s.orders, s.nextId, rec', -consumed);
    } else {
      ExposedAfter(s.exposures, s.orders, s.nextId, rec', -consumed);
    }
  }

  /** Finishing a working order and retiring it. */
  lemma FinishAndRetire(s: Oms, rec: Record, stats: Stats)
    requires Tracked(s) && rec.id in s.orders && Working(s.orders[rec.id].state) && Terminal(rec.state)
    requires rec == s.orders[rec.id].(state := rec.state, updated := rec.updated)
    ensures var s' := Retire(With(s, rec).(stats := stats), rec.id);
      && Tracked(s') && s'.open == s.open - 1 && s'.stats == stats && s'.nextId == s.nextId
      && WorkingIds(s'.orders) == WorkingIds(s.orders) - {rec.id}
      && (AllBalanced(s.orders) ==> AllBalanced(s'.orders))
      && (Exposed(s.exposures, s.orders) ==> Exposed(s'.exposures, s'.orders))
  {
    assert RecordOk(rec.id, s.orders[rec.id]);
    FinishStarts(s, rec);
    WorkingSet(s.orders, rec.id, rec);
    var s1 := With(s, rec).(stats := stats);
    RetireTracked(s1, rec.id);
    if Exposed(s.exposures, s.orders) {
      FinishBooked(s.exposures, s.orders, s.nextId, rec, 0);
      RetireExposed(s1, rec.id);
    }
  }

  /** What one report keeps. */
  ghost predicate Kept(s: Oms, s': Oms) {
    && Tracked(s') && s'.nextId >= s.nextId && s'.config == s.config
    && (Accounted(s.stats, s.open) ==> Accounted(s'.stats, s'.open))
    && (AllBalanced(s.orders) ==> AllBalanced(s'.orders))
    && (AllBalanced(s.orders) && Exposed(s.exposures, s.orders) ==> Exposed(s'.exposures, s'.orders))
  }

  /** A fill of a working order, retired if that fills it. */
  lemma FillKeeps(s: Oms, rep: Report)
    requires Tracked(s) && rep.id in s.orders && Working(s.orders[rep.id].state)
    requires s.orders[rep.id].id == rep.id && rep.quantity > 0
    ensures rep.id in ApplyFill(s, s.orders[rep.id], rep).orders
    ensures var s2 := ApplyFill(s, s.orders[rep.id], rep);
      var s' := if s2.orders[rep.id].state.Filled? then Retire(s2, rep.id) else s2;
      && Tracked(s') && s'.nextId == s.nextId && s'.config == s.config
      && (Accounted(s.stats, s.open) ==> Accounted(s'.stats, s'.open))
      && (AllBalanced(s.orders) ==> AllBalanced(s'.orders))
      && (Exposed(s.exposures, s.orders) && Balanced(s.orders[rep.id]) ==> Exposed(s'.exposures, s'.orders))
  {
    FillTracked(s, rep);
    if Balanced(s.orders[rep.id]) && Exposed(s.exposures, s.orders) {
      FillExposed(s, rep);
    }
    FillEnds(ApplyFill(s, s.orders[rep.id], rep), rep.id);
  }

  lemma ExecutedKeeps(s: Oms, rep: Report)
    requires Tracked(s) && rep.exec.Executed?
    ensures Kept(s, ApplyReport(s, rep).oms)
    ensures Exposed(s.exposures, s.orders) && (rep.id in s.orders ==> Balanced(s.orders[rep.id])) ==>
      Exposed(ApplyReport(s, rep).oms.exposures, ApplyReport(s, rep).oms.orders)
  {
    if rep.id in s.orders {
      NamedKeeps(s, rep);
      var s1, rec := With(s, Named(s, rep)), Named(s, rep);
      if Working(rec.state) && rep.quantity > 0 {
        assert AllBalanced(s.orders) ==> Balanced(s.orders[rep.id]);
        FillKeeps(s1, rep);
      }
    }
  }

  lemma FillEnds(s: Oms, id: nat)
    requires id in s.orders
    requires s.orders[id].state.Filled? ==> Finishing(s, id)
    ensures s.orders[id].state.Filled? ==>
      var s' := Retire(s, id);
      && Tracked(s') && s'.nextId == s.nextId && s'.config == s.config && s'.stats == s.stats && s'.open == s.open - 1
      && (AllBalanced(s.orders) ==> AllBalanced(s'.orders))
      && (StillBooked(s.exposures, s.orders, s.orders[id]) ==> Exposed(s'.exposures, s'.orders))
  {
    if s.orders[id].state.Filled? {
      RetireTracked(s, id);
      if StillBooked(s.exposures, s.orders, s.orders[id]) {
        RetireExposed(s, id);
      }
    }
  }

  lemma Chained(s: Oms, s1: Oms, s2: Oms)
    requires Kept(s, s1) && Kept(s1, s2)
    ensures Kept(s, s2)
  {
  }

  /** Noting the venue's id keeps everything. */
  lemma NamedKept(s: Oms, rep: Report)
    requires Tracked(s) && rep.id in s.orders
    ensures Kept(s, With(s, Named(s, rep)))
  {
    NamedKeeps(s, rep);
  }

  /** So does ending a working order that is counted under how it ended. */
  lemma FinishKept(s: Oms, rec: Record, stats: Stats)
    requires Tracked(s) && rec.id in s.orders && Working(s.orders[rec.id].state) && Terminal(rec.state)
    requires rec == s.orders[rec.id].(state := rec.state, updated := rec.updated)
    requires s.open > 0 && Accounted(s.stats, s.open) ==> Accounted(stats, s.open - 1)
    ensures Kept(s, Retire(With(s, rec).(stats := stats), rec.id))
  {
    FinishAndRetire(s, rec, stats);
  }

  /** A report keeps what its effect on the named order keeps. */
  lemma KeptThroughName(s: Oms, rep: Report)
    requires Tracked(s) && rep.id in s.orders
    requires var s1 := With(s, Named(s, rep)); Kept(s1, ApplyTo(s1, Named(s, rep), rep).oms)
    ensures Kept(s, ApplyReport(s, rep).oms)
  {
    var s1 := With(s, Named(s, rep));
    NamedKept(s, rep);
    Chained(s, s1, ApplyTo(s1, Named(s, rep), rep).oms);
  }

  lemma RejectedKept(s: Oms, rec: Record, rep: Report)
    requires Tracked(s) && rep.id in s.orders && s.orders[rep.id] == rec && rec.id == rep.id
    requires rep.exec.VenueRejected? && rec.state.PendingNew?
    ensures Kept(s, ApplyTo(s, rec, rep).oms)
  {
    var ended, stats := rec.(state := Rejected, updated := rep.ts), s.stats.(venueRejected := s.stats.venueRejected + 1);
    FinishKept(s, ended, stats);
    assert ApplyTo(s, rec, rep).oms == Retire(With(s, ended).(stats := stats), ended.id);
  }

  lemma CancelledKept(s: Oms, rec: Record, rep: Report)
    requires Tracked(s) && rep.id in s.orders && s.orders[rep.id] == rec && rec.id == rep.id
    requires rep.exec.CancelDone? && Cancellable(rec.state)
    ensures Kept(s, ApplyTo(s, rec, rep).oms)
  {
    var ended, stats := rec.(state := Cancelled, updated := rep.ts), s.stats.(cancelled := s.stats.cancelled + 1);
    FinishKept(s, ended, stats);
    assert ApplyTo(s, rec, rep).oms == Retire(With(s, ended).(stats := stats), ended.id);
  }

  lemma EndedKept(s: Oms, rec: Record, rep: Report)
    requires Tracked(s) && rep.id in s.orders && s.orders[rep.id] == rec && rec.id == rep.id
    requires rep.exec.VenueRejected? || rep.exec.CancelDone?
    ensures Kept(s, ApplyTo(s, rec, rep).oms)
  {
    if rep.exec.VenueRejected? && rec.state.PendingNew? {
      RejectedKept(s, rec, rep);
    } else if rep.exec.CancelDone? && Cancellable(rec.state) {
      CancelledKept(s, rec, rep);
    }
  }

  /** Rejected by the venue, or cancelled. */
  lemma EndKeeps(s: Oms, rep: Report)
    requires Tracked(s) && (rep.exec.VenueRejected? || rep.exec.CancelDone?)
    ensures Kept(s, ApplyReport(s, rep).oms)
  {
    if rep.id in s.orders {
      NamedKept(s, rep);
      EndedKept(With(s, Named(s, rep)), Named(s, rep), rep);
      KeptThroughName(s, rep);
    }
  }

  /** A working order that answers stays working, with the same leaves. */
  lemma StillWorks(s: Oms, rec: Record)
    requires Tracked(s) && rec.id in s.orders && Working(s.orders[rec.id].state) && Working(rec.state)
    requires rec == s.orders[rec.id].(state := rec.state, acked := rec.acked, updated := rec.updated)
    ensures Tracked(With(s, rec))
    ensures AllBalanced(s.orders) ==> AllBalanced(With(s, rec).orders)
    ensures Exposed(s.exposures, s.orders) ==> Exposed(s.exposures, With(s, rec).orders)
  {
    assert RecordOk(rec.id, s.orders[rec.id]);
    if AllBalanced(s.orders) {
      assert Balanced(s.orders[rec.id]);
    }
    Rewritten(s, rec);
    if Exposed(s.exposures, s.orders) {
      SameLeaves(s.exposures, s.orders, rec);
    }
  }

  lemma AckedKeeps(s: Oms, rep: Report)
    requires Tracked(s) && rep.exec.Acked?
    ensures Kept(s, ApplyReport(s, rep).oms)
  {
    if rep.id in s.orders {
      NamedKeeps(s, rep);
      var s1, rec := With(s, Named(s, rep)), Named(s, rep);
      if rec.state.PendingNew? {
        StillWorks(s1, rec.(state := New, acked := rep.ts, updated := rep.ts));
      }
    }
  }

  lemma CancelRejectedKeeps(s: Oms, rep: Report)
    requires Tracked(s) && rep.exec.CancelRejected?
    ensures Kept(s, ApplyReport(s, rep).oms)
  {
    if rep.id in s.orders {
      NamedKeeps(s, rep);
      var s1, rec := With(s, Named(s, rep)), Named(s, rep);
      if rec.state.PendingCancel? {
        StillWorks(s1, rec.(state := if rec.filled > 0 then PartiallyFilled else New, updated := rep.ts));
      }
    }
  }

  /** Any report, for any order, in any state. */
  lemma ReportKeeps(s: Oms, rep: Report)
    requires Tracked(s)
    ensures Kept(s, ApplyReport(s, rep).oms)
  {
    match rep.exec
    case Acked => AckedKeeps(s, rep);
    case VenueRejected => EndKeeps(s, rep);
    case Executed => ExecutedKeeps(s, rep);
    case CancelDone => EndKeeps(s, rep);
    case CancelRejected => CancelRejectedKeeps(s, rep);
  }
}

/** Timeouts and whole histories of the order manager. */
module OmsRuns {
  import opened Types
  import opened OmsSpec
  import opened OmsLaws

  lemma CancelKeeps(s: Oms, id: nat, now: int)
    requires Tracked(s)
    ensures Kept(s, RequestCancel(s, id, now).oms)
  {
    if id in s.orders && (s.orders[id].state.New? || s.orders[id].state.PartiallyFilled?) {
      assert RecordOk(id, s.orders[id]);
      var rec := s.orders[id].(state := PendingCancel, updated := now);
      if AllBalanced(s.orders) {
        assert Balanced(s.orders[id]);
      }
      Rewritten(s, rec);
      if Exposed(s.exposures, s.orders) {
        SameLeaves(s.exposures, s.orders, rec);
      }
    }
  }

  // ---------------------------------------------------------------- timeouts

  /** Expiring one order: it is finished, and every other order is as it was or has been forgotten. */
  lemma ExpireOne(s: Oms, id: nat, now: int)
    requires Tracked(s) && id in s.orders && s.orders[id].state.PendingNew?
    ensures var s' := Expire(s, id, now);
      && Kept(s, s') && s'.stats == s.stats.(expired := s.stats.expired + 1)
      && id in s'.orders && s'.orders[id].state.Expired?
      && (forall x :: x in s'.orders && x != id ==> x in s.orders && s'.orders[x] == s.orders[x])
      && (forall x :: x in s.orders && x != id && Working(s.orders[x].state) ==> x in s'.orders)
  {
    assert RecordOk(id, s.orders[id]);
    FinishAndRetire(s, s.orders[id].(state := Expired, updated := now),
                    s.stats.(expired := s.stats.expired + 1));
    assert !Finished(s.orders, id);
    forall x | x in s.orders && x != id && Working(s.orders[x].state) ensures x in Expire(s, id, now).orders {
      assert !Finished(s.orders, x);
      if s.retired != [] {
        assert s.retired[0] in s.retired;
      }
    }
  }

  ghost predicate PendingEach(s: Oms, ids: seq<nat>) {
    && (forall id {:trigger id in ids} :: id in ids ==> id in s.orders && s.orders[id].state.PendingNew?)
    && Distinct(ids)
  }

  lemma PendingNext(s: Oms, ids: seq<nat>, now: int)
    requires Tracked(s) && PendingEach(s, ids) && ids != []
    ensures ids[0] in s.orders && s.orders[ids[0]].state.PendingNew?
    ensures PendingEach(Expire(s, ids[0], now), ids[1..])
  {
    assert ids[0] in ids;
    ExpireOne(s, ids[0], now);
    var s' := Expire(s, ids[0], now);
    forall id | id in ids[1..] ensures id in s'.orders && s'.orders[id].state.PendingNew? {
      assert id in ids && id != ids[0];
    }
  }

  /** Each of the collected orders expires, once, and no other order changes. */
  lemma {:induction false} ExpireAllKeeps(s: Oms, ids: seq<nat>, now: int)
    requires Tracked(s) && PendingEach(s, ids)
    ensures var s' := ExpireAll(s, ids, now);
      && Kept(s, s') && s'.stats == s.stats.(expired := s.stats.expired + |ids|)
      && (forall x :: x in s'.orders && x !in ids ==> x in s.orders && s'.orders[x] == s.orders[x])
      && (forall x :: x in s'.orders && x in ids ==> s'.orders[x].state.Expired?)
      && (forall x :: x in s.orders && x !in ids && Working(s.orders[x].state) ==> x in s'.orders)
    decreases |ids|
  {
    if ids != [] {
      PendingNext(s, ids, now);
      ExpireOne(s, ids[0], now);
      ExpireAllKeeps(Expire(s, ids[0], now), ids[1..], now);
      ExpireAllStep(s, ids, now);
    }
  }

  lemma ExpireAllStep(s: Oms, ids: seq<nat>, now: int)
    requires ids != [] && ids[0] in s.orders
    ensures ExpireAll(s, ids, now) == ExpireAll(Expire(s, ids[0], now), ids[1..], now)
    ensures forall x :: x in ids <==> x == ids[0] || x in ids[1..]
  {
  }

  /** sweep_timeouts() expires exactly the overdue orders, and doing it again changes nothing. */
  lemma SweepIsExact(s: Oms, ids: seq<nat>, now: int)
    requires Tracked(s) && Collects(s, now, ids)
    ensures var s' := ExpireAll(s, ids, now);
      && Kept(s, s') && s'.stats == s.stats.(expired := s.stats.expired + |Due(s, now)|)
      && Due(s', now) == {}
      && (forall x :: x in s'.orders && !IsDue(s, x, now) ==> x in s.orders && s'.orders[x] == s.orders[x])
      && (forall x :: x in s'.orders && IsDue(s, x, now) ==> s'.orders[x].state.Expired?)
      && (forall again :: Collects(s', now, again) ==> ExpireAll(s', again, now) == s')
  {
    ExpireAllKeeps(s, ids, now);
    DistinctCard(ids);
    assert Members(ids) == Due(s, now);
    var s' := ExpireAll(s, ids, now);
    forall x ensures !IsDue(s', x, now) {
      if x in s'.orders && x in ids {
        assert s'.orders[x].state.Expired?;
      } else if x in s'.orders {
        assert s'.orders[x] == s.orders[x] && !IsDue(s, x, now);
      }
    }
    forall again | Collects(s', now, again) ensures ExpireAll(s', again, now) == s' {
      DistinctCard(again);
      assert Members(again) == {};
    }
  }

  // ---------------------------------------------------------------- histories

  datatype Op =
    | CreateOp(order: Order, now: int)
    | CreateWithIdOp(id: nat, order: Order, now: int)
    | AdoptOp(snapshot: Record, now: int)
    | ReportOp(report: Report)
    | CancelOp(id: nat, now: int)
    | SweepOp(ids: seq<nat>, now: int)
    | NextIdOp(next: nat)

  /** A sweep expires what its first loop collected; nothing else is asked of an operation. */
  ghost predicate Possible(s: Oms, op: Op) {
    op.SweepOp? ==> Collects(s, op.now, op.ids)
  }

  function Step(s: Oms, op: Op): Oms {
    match op
    case CreateOp(order, now) => Create(s, order, now).oms
    case CreateWithIdOp(id, order, now) => CreateWithId(s, id, order, now).oms
    case AdoptOp(snapshot, now) => Adopt(s, snapshot, now).oms
    case ReportOp(report) => ApplyReport(s, report).oms
    case CancelOp(id, now) => RequestCancel(s, id, now).oms
    case SweepOp(ids, now) => ExpireAll(s, ids, now)
    case NextIdOp(next) => SetNextId(s, next)
  }

  /** Adopted snapshots that are balanced: filled and leaves add up to the quantity, or what is left and what
      the quantity leaves unfilled are both at most one. */
  predicate Whole(op: Op) {
    op.AdoptOp? && Working(op.snapshot.state) ==> Balanced(AdoptedRecord(op.snapshot, op.now))
  }

  ghost predicate History(s: Oms, ops: seq<Op>)
    decreases |ops|
  {
    ops != [] ==> Possible(s, ops[0]) && History(Step(s, ops[0]), ops[1..])
  }

  function After(s: Oms, ops: seq<Op>): Oms
    decreases |ops|
  {
    if ops == [] then s else After(Step(s, ops[0]), ops[1..])
  }

  lemma StepKeeps(s: Oms, op: Op)
    requires Tracked(s) && Possible(s, op)
    ensures var s' := Step(s, op);
      && Tracked(s') && s'.nextId >= s.nextId && s'.config == s.config
      && (Accounted(s.stats, s.open) ==> Accounted(s'.stats, s'.open))
      && (Whole(op) && AllBalanced(s.orders) ==> AllBalanced(s'.orders))
      && (AllBalanced(s.orders) && Exposed(s.exposures, s.orders) ==> Exposed(s'.exposures, s'.orders))
  {
    match op
    case CreateOp(order, now) =>
      CreateKeeps(s, s.nextId, order, now);
    case CreateWithIdOp(id, order, now) =>
      CreateKeeps(s, id, order, now);
    case AdoptOp(snapshot, now) =>
      AdoptTracked(s, snapshot, now);
      if Exposed(s.exposures, s.orders) {
        AdoptExposed(s, snapshot, now);
      }
    case ReportOp(report) => ReportKeeps(s, report);
    case CancelOp(id, now) => CancelKeeps(s, id, now);
    case SweepOp(ids, now) => SweepIsExact(s, ids, now);
    case NextIdOp(next) => NextIdKeeps(s, next);
  }

  lemma CreateKeeps(s: Oms, id: nat, order: Order, now: int)
    requires Tracked(s)
    ensures Kept(s, CreateWithId(s, id, order, now).oms)
  {
    CreateTracked(s, id, order, now);
    if Exposed(s.exposures, s.orders) {
      CreateExposed(s, id, order, now);
    }
  }

  lemma NextIdKeeps(s: Oms, next: nat)
    requires Tracked(s)
    ensures Kept(s, SetNextId(s, next))
  {
    forall id | id in s.orders ensures RecordOk(id, s.orders[id]) && id < SetNextId(s, next).nextId {
      assert RecordOk(id, s.orders[id]);
    }
  }

  lemma EmptyTracked(config: Config)
    requires config.history > 0
    ensures var s := Empty(config);
      Tracked(s) && Accounted(s.stats, s.open) && AllBalanced(s.orders) && Exposed(s.exposures, s.orders)
  {
    assert WorkingIds(map[]) == {};
  }

  lemma {:induction false} HistoryKeeps(s: Oms, ops: seq<Op>)
    requires Tracked(s) && Accounted(s.stats, s.open) && History(s, ops)
    ensures var s' := After(s, ops);
      && Tracked(s') && Accounted(s'.stats, s'.open) && s'.nextId >= s.nextId && s'.config == s.config
      && ((forall op :: op in ops ==> Whole(op)) && AllBalanced(s.orders) && Exposed(s.exposures, s.orders)
          ==> AllBalanced(s'.orders) && Exposed(s'.exposures, s'.orders))
    decreases |ops|
  {
    if ops != [] {
      StepKeeps(s, ops[0]);
      HistoryKeeps(Step(s, ops[0]), ops[1..]);
    }
  }

  /** Lifecycle accounting: every order created or adopted is open or in one of the four final states. */
  lemma EveryOrderAccountedFor(config: Config, ops: seq<Op>)
    requires config.history > 0 && History(Empty(config), ops)
    ensures var s := After(Empty(config), ops);
      && s.stats.created + s.stats.adopted
         == s.open + s.stats.filledOrders + s.stats.cancelled + s.stats.venueRejected + s.stats.expired
      && s.open == |WorkingIds(s.orders)| <= config.maxOpen
      && |s.orders| == s.open + |s.retired| && |s.retired| <= config.history
  {
    EmptyTracked(config);
    HistoryKeeps(Empty(config), ops);
    SlotsInUse(After(Empty(config), ops));
  }

  /** Exposure is exact in every history whose adopted orders are balanced, overfills
      and all: each side of each symbol is the leaves of its working orders, and gross the sum of the nets. */
  lemma ExposureIsExact(config: Config, ops: seq<Op>, symbol: nat, side: Side)
    requires config.history > 0 && History(Empty(config), ops)
    requires forall op :: op in ops ==> Whole(op)
    ensures var s := After(Empty(config), ops);
      && s.exposures.Booked(symbol, side) == Leaves(s.orders, symbol, side) >= 0
      && s.exposures.gross == GrossSum(s.exposures, |s.exposures.buys|)
  {
    EmptyTracked(config);
    HistoryKeeps(Empty(config), ops);
    var s := After(Empty(config), ops);
    assert AddsUp(s.exposures, s.orders, symbol, side, 0);
    LeavesNonNegative(s.orders, s.nextId, 0, symbol, side);
  }

  /** The clamps at zero never fire: what is booked covers every working order's leaves, and so covers
      what any fill consumes and what any retirement releases. */
  lemma ClampNeverFires(s: Oms, id: nat, q: int)
    requires Tracked(s) && Exposed(s.exposures, s.orders) && id in s.orders && Working(s.orders[id].state) && q > 0
    ensures var r := s.orders[id];
      s.exposures.Booked(r.symbol, r.side) - Min(q, r.leaves) >= s.exposures.Booked(r.symbol, r.side) - r.leaves >= 0
  {
    var r := s.orders[id];
    LeavesNonNegative(s.orders, s.nextId, id, r.symbol, r.side);
    assert AddsUp(s.exposures, s.orders, r.symbol, r.side, 0);
  }

  /** A fill that recomputes leaves to something else than what it consumed parts exposure from leaves. */
  lemma UnevenFillParts(s: Oms, rep: Report)
    requires Tracked(s) && Exposed(s.exposures, s.orders)
    requires rep.id in s.orders && Working(s.orders[rep.id].state) && rep.exec.Executed? && rep.quantity > 0
    requires var r := s.orders[rep.id]; LeavesAfter(r, rep.quantity) != r.leaves - Min(rep.quantity, r.leaves)
    ensures var s' := ApplyReport(s, rep).oms; !Exposed(s'.exposures, s'.orders)
  {
    NamedKeeps(s, rep);
    var s1, rec := With(s, Named(s, rep)), Named(s, rep);
    var symbol, side := rec.symbol, rec.side;
    FillTracked(s1, rep);
    UnevenFill(s1, rep);
    var s2 := ApplyFill(s1, rec, rep);
    if s2.orders[rep.id].state.Filled? {
      RetireLeaves(s2, rep.id, symbol, side);
      RetireBooks(s2, rep.id);
      assert ApplyReport(s, rep).oms == Retire(s2, rep.id);
    } else {
      assert ApplyReport(s, rep).oms == s2;
    }
    assert !AddsUp(ApplyReport(s, rep).oms.exposures, ApplyReport(s, rep).oms.orders, symbol, side, 0);
  }

  lemma UnevenFill(s: Oms, rep: Report)
    requires Tracked(s) && Exposed(s.exposures, s.orders) && rep.quantity > 0
    requires rep.id in s.orders && Working(s.orders[rep.id].state) && s.orders[rep.id].id == rep.id
    requires var r := s.orders[rep.id]; LeavesAfter(r, rep.quantity) != r.leaves - Min(rep.quantity, r.leaves)
    ensures var r, s2 := s.orders[rep.id], ApplyFill(s, s.orders[rep.id], rep);
      && rep.id in s2.orders
      && s2.exposures.Booked(r.symbol, r.side) != Leaves(s2.orders, r.symbol, r.side)
  {
    var r := s.orders[rep.id];
    var r' := ApplyFill(s, r, rep).orders[rep.id];
    ClampNeverFires(s, rep.id, rep.quantity);
    assert AddsUp(s.exposures, s.orders, r.symbol, r.side, 0);
    AddExposureAt(s.exposures, r.symbol, r.side, -Min(rep.quantity, r.leaves), r.symbol, r.side);
    LeavesSet(s.orders, rep.id, r', r.symbol, r.side);
  }

  /** A working order keeps exposure exact under every fill the venue might send if and only if it is balanced:
      adopt() does not check that it is. */
  lemma FillsKeepExposureIff(s: Oms, id: nat)
    requires Tracked(s) && Exposed(s.exposures, s.orders) && id in s.orders && Working(s.orders[id].state)
    ensures Balanced(s.orders[id]) <==>
      forall rep: Report :: rep.id == id && rep.exec.Executed? && rep.quantity > 0 ==>
        Exposed(ApplyReport(s, rep).oms.exposures, ApplyReport(s, rep).oms.orders)
  {
    assert RecordOk(id, s.orders[id]);
    BalancedIff(s.orders[id]);
    if Balanced(s.orders[id]) {
      forall rep: Report | rep.id == id && rep.exec.Executed? && rep.quantity > 0
        ensures Exposed(ApplyReport(s, rep).oms.exposures, ApplyReport(s, rep).oms.orders)
      {
        ExecutedKeeps(s, rep);
      }
    } else {
      var r := s.orders[id];
      var q :| q > 0 && LeavesAfter(r, q) != r.leaves - Min(q, r.leaves);
      UnevenFillParts(s, Report(id, 0, r.symbol, r.side, Executed, r.price, q, r.fees, r.created));
    }
  }

  /** Ten ordered, nothing filled, four left: after a fill of two the book says eight can still trade while
      exposure says two. */
  lemma AdoptedPartsExposure(s: Oms, snapshot: Record, now: int, fill: Report)
    requires Tracked(s) && Exposed(s.exposures, s.orders) && Adopt(s, snapshot, now).id != 0
    requires snapshot.quantity == 10 && snapshot.filled == 0 && snapshot.leaves == 4
    requires fill.id == snapshot.id && fill.exec.Executed? && fill.quantity == 2
    ensures var s1 := Adopt(s, snapshot, now).oms;
      var s2 := ApplyReport(s1, fill).oms;
      && fill.id in s2.orders && s2.orders[fill.id].leaves == 8
      && s2.exposures.Booked(snapshot.symbol, snapshot.side)
         == s.exposures.Booked(snapshot.symbol, snapshot.side) + 2
  {
    var s1 := Adopt(s, snapshot, now).oms;
    AdoptTracked(s, snapshot, now);
    AdoptExposed(s, snapshot, now);
    ClampNeverFires(s1, fill.id, 2);
    AdoptBooks(s, snapshot, now);
    AddExposureAt(s1.exposures, snapshot.symbol, snapshot.side, -2, snapshot.symbol, snapshot.side);
  }

  lemma AdoptBooks(s: Oms, snapshot: Record, now: int)
    requires Tracked(s) && Exposed(s.exposures, s.orders) && Adopt(s, snapshot, now).id != 0
    ensures var rec := AdoptedRecord(snapshot, now);
      && Adopt(s, snapshot, now).oms.orders == s.orders[rec.id := rec]
      && Adopt(s, snapshot, now).oms.exposures.Booked(rec.symbol, rec.side)
         == s.exposures.Booked(rec.symbol, rec.side) + rec.leaves
  {
    var rec := AdoptedRecord(snapshot, now);
    var c := CreateWithId(s, snapshot.id, OrderFor(snapshot, now), now).oms;
    LeavesNonNegative(s.orders, s.nextId, 0, rec.symbol, rec.side);
    assert AddsUp(s.exposures, s.orders, rec.symbol, rec.side, 0);
    AddExposureAt(s.exposures, rec.symbol, rec.side, rec.quantity, rec.symbol, rec.side);
    AddExposureAt(c.exposures, rec.symbol, rec.side, rec.leaves - rec.quantity, rec.symbol, rec.side);
    assert s.orders[rec.id := NewRecord(rec.id, OrderFor(snapshot, now), now)][rec.id := rec] == s.orders[rec.id := rec];
  }

  /** Final states are final: whatever happens, an order that is finished and still tracked stays as it is. */
  lemma FinalIsFinal(s: Oms, op: Op, id: nat)
    requires Tracked(s) && Possible(s, op) && id in s.orders && Terminal(s.orders[id].state)
    requires id in Step(s, op).orders
    ensures Step(s, op).orders[id] == s.orders[id].(venueId := Step(s, op).orders[id].venueId)
  {
    assert RecordOk(id, s.orders[id]);
    if op.ReportOp? {
      FinalUnderReport(s, op.report, id);
    } else if op.SweepOp? {
      SweepIsExact(s, op.ids, op.now);
    }
  }

  /** A report finds a finished order final, and says so. */
  lemma FinalIsInvalid(s: Oms, rep: Report)
    requires rep.id in s.orders && Terminal(s.orders[rep.id].state)
    ensures ApplyReport(s, rep).oms.orders == s.orders[rep.id := Named(s, rep)]
  {
  }

  /** A report leaves every other order as it was or forgets it. */
  lemma ReportTouchesOne(s: Oms, rep: Report, x: nat)
    requires x != rep.id && x in ApplyReport(s, rep).oms.orders
    ensures x in s.orders && ApplyReport(s, rep).oms.orders[x] == s.orders[x]
  {
  }

  lemma FinalUnderReport(s: Oms, rep: Report, id: nat)
    requires id in s.orders && Terminal(s.orders[id].state) && s.orders[id].id == id
    requires id in ApplyReport(s, rep).oms.orders
    ensures ApplyReport(s, rep).oms.orders[id] == s.orders[id].(venueId := ApplyReport(s, rep).oms.orders[id].venueId)
  {
    if rep.id == id {
      FinalIsInvalid(s, rep);
    } else {
      ReportTouchesOne(s, rep, id);
    }
  }

  /** Cancels, sweeps and a moved id sequence bring back no forgotten order, reopen none, and leave a pending
      order as it was or expire it. */
  lemma QuietOps(s: Oms, op: Op, id: nat)
    requires Tracked(s) && Possible(s, op) && (op.CancelOp? || op.SweepOp? || op.NextIdOp?)
    requires id in Step(s, op).orders
    ensures id in s.orders
    ensures Terminal(s.orders[id].state) ==> Terminal(Step(s, op).orders[id].state)
    ensures s.orders[id].state.PendingNew? ==>
      Step(s, op).orders[id] == s.orders[id] || Terminal(Step(s, op).orders[id].state)
  {
    if op.SweepOp? {
      SweepIsExact(s, op.ids, op.now);
    }
  }

  /** A slot is free whenever an order may be opened, so nothing is ever evicted to make room. */
  lemma RoomToOpen(s: Oms)
    requires Tracked(s) && s.open < s.config.maxOpen
    ensures |s.orders| < s.config.maxOpen + s.config.history
  {
    SlotsInUse(s);
  }

  /** A report about an id that was ever issued is never counted as unknown, however long ago it was
      forgotten. */
  lemma UnknownWasNeverIssued(s: Oms, ops: seq<Op>, rep: Report)
    requires Tracked(s) && Accounted(s.stats, s.open) && History(s, ops)
    requires 0 < rep.id < s.nextId
    ensures var s' := After(s, ops); ApplyReport(s', rep).oms.stats.unknown == s'.stats.unknown
  {
    HistoryKeeps(s, ops);
    KeepsUnknown(After(s, ops), rep);
  }

  lemma KeepsUnknown(s: Oms, rep: Report)
    requires 0 < rep.id < s.nextId
    ensures ApplyReport(s, rep).oms.stats.unknown == s.stats.unknown
  {
  }
}

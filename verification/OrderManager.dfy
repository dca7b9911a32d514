/** The order manager: a slab of records with a free list, an id index, a ring of finished ids and exposure
    kept incrementally.  Every operation is proved to do to View() what OmsSpec says it does. */
module OrderManagers {
  import opened Options
  import opened Types
  import opened Arith
  import opened IdTables
  import opened OmsSpec
  import opened OmsLaws
  import opened OmsRuns
  import opened OmsSlots

  /** The wanted ids that a walk over the first i slots of a table meets, each once. */
  ghost predicate Found(wanted: set<nat>, at: map<nat, nat>, i: nat, ids: seq<nat>) {
    Distinct(ids) && forall id: nat {:trigger id in ids} :: id in ids <==> id in at && at[id] < i && id in wanted
  }

  lemma FoundNext(wanted: set<nat>, at: map<nat, nat>, i: nat, ids: seq<nat>, key: nat, here: bool)
    requires Found(wanted, at, i, ids)
    requires forall id :: id in at && at[id] == i ==> here && id == key
    requires here ==> key in at && at[key] == i
    ensures Found(wanted, at, i + 1, if here && key in wanted then ids + [key] else ids)
  {
    assert here ==> key !in ids;
  }

  lemma ExpireNext(s: Oms, ids: seq<nat>, j: nat, now: int)
    requires j < |ids|
    ensures ExpireAll(s, ids[j..], now) ==
      ExpireAll(if ids[j] in s.orders then Expire(s, ids[j], now) else s, ids[j + 1..], now)
  {
    assert ids[j..][1..] == ids[j + 1..];
  }

  ghost predicate Ascending(q: seq<nat>) {
    forall i, j {:trigger q[i], q[j]} :: 0 <= i < j < |q| ==> q[i] < q[j]
  }

  /** An ordered list with one more member, in its place. */
  function Inserted(q: seq<nat>, x: nat): seq<nat> {
    if q == [] || x <= q[0] then [x] + q else [q[0]] + Inserted(q[1..], x)
  }

  lemma AscendingFrom(x: nat, q: seq<nat>)
    requires Ascending(q) && forall y :: y in q ==> x < y
    ensures Ascending([x] + q)
  {
    var r := [x] + q;
    forall i, j {:trigger r[i], r[j]} | 0 <= i < j < |r| ensures r[i] < r[j] {
      assert r[j] == q[j - 1] && q[j - 1] in q;
      if i > 0 {
        assert r[i] == q[i - 1];
      }
    }
  }

  lemma {:induction false} InsertedKeeps(q: seq<nat>, x: nat)
    requires Ascending(q) && x !in q
    ensures Ascending(Inserted(q, x)) && forall y :: y in Inserted(q, x) <==> y in q || y == x
  {
    if q == [] || x <= q[0] {
      AscendingFrom(x, q);
    } else {
      var rest := q[1..];
      assert q == [q[0]] + rest && forall i :: 0 <= i < |rest| ==> rest[i] == q[i + 1];
      InsertedKeeps(rest, x);
      AscendingFrom(q[0], Inserted(rest, x));
    }
  }

  /** sort(), on distinct ids. */
  method Sort(q: seq<nat>) returns (r: seq<nat>)
    requires Distinct(q)
    ensures Ascending(r) && forall y :: y in r <==> y in q
  {
    r := [];
    for i := 0 to |q|
      invariant Ascending(r) && forall y :: y in r <==> y in q[..i]
    {
      InsertedKeeps(r, q[i]);
      r := Inserted(r, q[i]);
      assert q[..i + 1] == q[..i] + [q[i]];
    }
    assert q[..|q|] == q;
  }

  class OrderManager {
    const config: Config
    const ids: IdTable
    var pool: seq<Record>
    var freeSlots: seq<nat>
    var open: nat
    var nextId: nat
    var buys: seq<int>
    var sells: seq<int>
    var gross: int
    var ring: seq<nat>
    var cursor: nat
    var retiredSize: nat
    var stats: Stats

    ghost function Slots(): map<nat, nat>
      requires ids.Valid()
      reads this, ids
    {
      ids.Contents()
    }

    /** Slab, index and ring fit together. */
    ghost predicate Shaped()
      reads this, ids
    {
      && ids.Valid()
      && config.history > 0 && |pool| == config.maxOpen + config.history
      && |ids.keys| >= 4 * |pool|
      && SlotsOk(pool, Slots(), freeSlots)
      && |ring| == config.history && cursor < |ring| && retiredSize <= |ring|
    }

    ghost function Booking(): Exposures
      reads this
    {
      Exposures(buys, sells, gross)
    }

    ghost function Retired(): seq<nat>
      requires cursor < |ring| && retiredSize <= |ring|
      reads this
    {
      RingView(ring, cursor, retiredSize)
    }

    /** The manager this data structure stands for. */
    ghost function View(): Oms
      requires Shaped()
      reads this, ids
    {
      Oms(config, OrdersOf(pool, Slots()), Retired(), nextId, open, Booking(), stats)
    }

    ghost predicate Valid()
      reads this, ids
    {
      Shaped() && Tracked(View())
    }

    /** The constructor's corrections to a configuration. */
    static function Corrected(c: Config): Config {
      Config(Max(c.ackTimeout, 0), if c.maxOpen == 0 then 1 else c.maxOpen, if c.history == 0 then 1 else c.history)
    }

    constructor (c: Config, blank: Record, hash: nat -> nat)
      ensures Valid() && View() == Empty(Corrected(c)) && fresh(ids)
    {
      var cfg := Corrected(c);
      config := cfg;
      var capacity := cfg.maxOpen + cfg.history;
      var size := 64;
      while size < capacity * 4
      {
        size := size * 2;
      }
      ids := new IdTable(hash, size);
      pool := seq(capacity, _ => blank);
      freeSlots := seq(capacity, i requires 0 <= i < capacity => capacity - 1 - i);
      open, nextId, buys, sells, gross := 0, 1, [], [], 0;
      ring, cursor, retiredSize := seq(cfg.history, _ => 0), 0, 0;
      stats := NO_STATS;
      new;
      assert View().orders == map[];
      EmptyTracked(config);
    }

    method AddExposure(symbol: nat, side: Side, delta: int)
      modifies this`buys, this`sells, this`gross
      ensures Booking() == OmsSpec.AddExposure(old(Booking()), symbol, side, delta)
    {
      if delta == 0 {
        return;
      }
      buys, sells := Grown(buys, symbol), Grown(sells, symbol);
      var before := Abs(buys[symbol] - sells[symbol]);
      if side.Buy? {
        buys := buys[symbol := buys[symbol] + delta];
        if buys[symbol] < 0 {
          buys := buys[symbol := 0];
        }
      } else {
        sells := sells[symbol := sells[symbol] + delta];
        if sells[symbol] < 0 {
          sells := sells[symbol := 0];
        }
      }
      gross := gross + Abs(buys[symbol] - sells[symbol]) - before;
    }

    lemma Lookup(id: nat)
      requires Shaped()
      ensures id in Slots() <==> id in View().orders
      ensures id in Slots() ==> Slots()[id] < |pool| && pool[Slots()[id]] == View().orders[id]
      ensures id in Slots() ==> pool[Slots()[id]].id == id
      ensures |View().orders| == |Slots()|
    {
      OrdersAt(pool, Slots(), freeSlots, id);
    }

    /** Overwrites the record of a tracked order. */
    method Rewrite(slot: nat, rec: Record)
      requires Shaped() && rec.id in Slots() && Slots()[rec.id] == slot < |pool|
      modifies this`pool
      ensures Shaped() && View() == With(old(View()), rec)
      ensures pool == old(pool)[slot := rec]
    {
      SlotRewritten(pool, Slots(), freeSlots, rec);
      pool := pool[slot := rec];
    }

    /** Moves an order to another state, and counts it. */
    method Move(slot: nat, rec: Record, s: Stats)
      requires Shaped() && rec.id in Slots() && Slots()[rec.id] == slot < |pool|
      modifies this`pool, this`stats
      ensures Shaped() && View() == With(old(View()), rec).(stats := s)
      ensures pool == old(pool)[slot := rec]
    {
      Rewrite(slot, rec);
      stats := s;
    }

    /** find() */
    method Find(id: nat) returns (r: Option<Record>)
      requires Shaped()
      ensures r == if id in View().orders then Some(View().orders[id]) else None
    {
      Lookup(id);
      var slot := ids.Find(id);
      return if slot.None? then None else Some(pool[slot.value]);
    }

    // ---------------------------------------------------------------- creating

    /** Takes a slot, fills it in and indexes it. */
    method Track(rec: Record)
      requires Shaped() && freeSlots != [] && IsId(rec.id) && rec.id !in Slots()
      modifies this`pool, this`freeSlots, ids
      ensures Shaped() && View() == With(old(View()), rec)
    {
      SlotTaken(pool, Slots(), freeSlots, rec);
      var slot := freeSlots[|freeSlots| - 1];
      freeSlots := freeSlots[..|freeSlots| - 1];
      pool := pool[slot := rec];
      ids.InsertCompacting(rec.id, slot);
    }

    /** Books a change of working quantity. */
    method Book(symbol: nat, side: Side, delta: int)
      requires Shaped()
      modifies this`buys, this`sells, this`gross
      ensures Shaped() && View() == old(View()).(exposures := OmsSpec.AddExposure(old(Booking()), symbol, side, delta))
    {
      AddExposure(symbol, side, delta);
    }

    /** The counters an accepted order moves. */
    method Opened(id: nat)
      requires Shaped()
      modifies this`nextId, this`open, this`stats
      ensures Shaped() && View() == old(View()).(nextId := Max(old(nextId), id + 1), open := old(open) + 1,
                                                 stats := old(stats).(created := old(stats).created + 1))
    {
      nextId := if id >= nextId then id + 1 else nextId;
      open := open + 1;
      stats := stats.(created := stats.created + 1);
    }

    /** create_with_id(), once the order has been accepted. */
    method Open(id: nat, order: Order, now: int)
      requires Shaped() && freeSlots != [] && IsId(id) && id !in Slots()
      modifies this, ids
      ensures Shaped() && View() == Accepted(old(View()), id, order, now)
    {
      Track(NewRecord(id, order, now));
      Opened(id);
      Book(order.symbol, order.side, order.quantity);
    }

    /** There is always a free slot for an order that may be opened. */
    lemma HasRoom()
      requires Valid() && open < config.maxOpen
      ensures freeSlots != []
    {
      RoomToOpen(View());
      Lookup(0);
    }

    method Refuse()
      requires Shaped()
      modifies this`stats
      ensures Shaped() && View() == Refused(old(View()))
    {
      stats := stats.(capacityRejects := stats.capacityRejects + 1);
    }

    /** create_with_id() */
    method CreateWithId(id: nat, order: Order, now: int) returns (r: nat)
      requires Valid() && id != TOMBSTONE
      modifies this, ids
      ensures Valid() && Created(View(), r) == OmsSpec.CreateWithId(old(View()), id, order, now)
    {
      CreateTracked(View(), id, order, now);
      Lookup(id);
      var found := ids.Find(id);
      if id == 0 || found.Some? || order.quantity <= 0 || open >= config.maxOpen {
        Refuse();
        return 0;
      }
      HasRoom();
      if freeSlots == [] {
        // the program would evict the oldest finished order here
        assert false;
      }
      Open(id, order, now);
      return id;
    }

    method Create(order: Order, now: int) returns (r: nat)
      requires Valid() && nextId != TOMBSTONE
      modifies this, ids
      ensures Valid() && Created(View(), r) == OmsSpec.Create(old(View()), order, now)
    {
      r := CreateWithId(nextId, order, now);
    }

    /** Books exposure and overwrites a record. */
    method Rebook(slot: nat, rec: Record, symbol: nat, side: Side, delta: int, s: Stats)
      requires Shaped() && rec.id in Slots() && Slots()[rec.id] == slot < |pool|
      modifies this`pool, this`stats, this`buys, this`sells, this`gross
      ensures Shaped() && pool == old(pool)[slot := rec]
      ensures View() == With(old(View()), rec)
                          .(exposures := OmsSpec.AddExposure(old(Booking()), symbol, side, delta), stats := s)
    {
      Book(symbol, side, delta);
      Move(slot, rec, s);
    }

    method CorrectSlot(slot: nat, rec: Record)
      requires Shaped() && rec.id in Slots() && Slots()[rec.id] == slot < |pool|
      modifies this`pool, this`stats, this`buys, this`sells, this`gross
      ensures Shaped()
      ensures var s := old(View());
        View() == With(s, rec).(
          exposures := OmsSpec.AddExposure(s.exposures, rec.symbol, rec.side, rec.leaves - old(pool)[slot].leaves),
          stats := s.stats.(created := s.stats.created - 1, adopted := s.stats.adopted + 1))
    {
      Rebook(slot, rec, rec.symbol, rec.side, rec.leaves - pool[slot].leaves,
             stats.(created := stats.created - 1, adopted := stats.adopted + 1));
    }

    /** The second half of adopt(): correct what create_with_id() booked to what the venue says is left. */
    method Correct(snapshot: Record, now: int)
      requires Shaped() && snapshot.id in Slots() && IsId(snapshot.id)
      modifies this`pool, this`stats, this`buys, this`sells, this`gross
      ensures Shaped() && snapshot.id in old(View()).orders
      ensures View() == Corrects(old(View()), snapshot, now)
    {
      Lookup(snapshot.id);
      var found := ids.Find(snapshot.id);
      CorrectSlot(found.value, AdoptedRecord(snapshot, now));
    }

    /** adopt() */
    method Adopt(snapshot: Record, now: int) returns (r: nat)
      requires Valid() && snapshot.id != TOMBSTONE
      modifies this, ids
      ensures Valid() && Created(View(), r) == OmsSpec.Adopt(old(View()), snapshot, now)
    {
      AdoptTracked(View(), snapshot, now);
      if Terminal(snapshot.state) {
        Refuse();
        return 0;
      }
      r := CreateWithId(snapshot.id, OrderFor(snapshot, now), now);
      if r != 0 {
        Lookup(r);
        Correct(snapshot, now);
      }
    }

    // ---------------------------------------------------------------- retiring

    /** Takes an id off the index and hands its slot back. */
    method Vacate(id: nat, slot: nat)
      requires Shaped() && id in Slots() && Slots()[id] == slot
      modifies this`freeSlots, ids
      ensures Shaped() && View() == old(View()).(orders := old(View()).orders - {id})
    {
      SlotFreed(pool, Slots(), freeSlots, id);
      ids.PositionOf(id);
      ids.Erase(id);
      freeSlots := freeSlots + [slot];
    }

    /** Forgets a finished order: its id leaves the index and its slot is free again. */
    method Forget(id: nat)
      requires Shaped()
      modifies this`freeSlots, ids
      ensures Shaped() && View() == old(View()).(orders := old(View()).orders - {id})
    {
      Lookup(id);
      var slot := ids.Find(id);
      if slot.Some? {
        Vacate(id, slot.value);
      } else {
        assert View().orders - {id} == View().orders;
      }
    }

    /** Pushes a finished id onto the ring, forgetting the oldest if it is full. */
    method Push(id: nat)
      requires Shaped()
      modifies this`freeSlots, this`ring, this`cursor, this`retiredSize, ids
      ensures Shaped()
      ensures var was, full := old(View()), old(retiredSize) == old(|ring|);
        && (full ==> was.retired != [])
        && View() == was.(orders := if full then was.orders - {was.retired[0]} else was.orders,
                          retired := Pushed(was.retired, id, full))
    {
      RingPushed(ring, cursor, retiredSize, id);
      if retiredSize == |ring| {
        Forget(ring[cursor]);
        retiredSize := retiredSize - 1;
      }
      ring := ring[cursor := id];
      cursor := Advance(|ring|, cursor);
      retiredSize := retiredSize + 1;
    }

    /** Books the leaves of a finished order out. */
    method Unbook(slot: nat)
      requires Shaped() && slot < |pool| && pool[slot].id in Slots() && Slots()[pool[slot].id] == slot
      requires pool[slot].leaves > 0
      modifies this`pool, this`buys, this`sells, this`gross
      ensures Shaped() && Slots() == old(Slots())
      ensures var was, rec := old(View()), old(pool)[slot];
        View() == was.(orders := was.orders[rec.id := rec.(leaves := 0)],
                       exposures := OmsSpec.AddExposure(was.exposures, rec.symbol, rec.side, -rec.leaves))
    {
      var rec := pool[slot];
      Book(rec.symbol, rec.side, -rec.leaves);
      Rewrite(slot, rec.(leaves := 0));
    }

    /** ... if it has any. */
    method UnbookAny(slot: nat)
      requires Shaped() && slot < |pool| && pool[slot].id in Slots() && Slots()[pool[slot].id] == slot
      modifies this`pool, this`buys, this`sells, this`gross
      ensures Shaped() && old(pool)[slot].id in old(View()).orders
      ensures View() == Unbooked(old(View()), old(pool)[slot].id)
    {
      Lookup(pool[slot].id);
      if pool[slot].leaves > 0 {
        Unbook(slot);
      }
    }

    method Closed()
      requires Shaped()
      modifies this`open
      ensures Shaped() && View() == old(View()).(open := if old(open) > 0 then old(open) - 1 else 0)
    {
      if open > 0 {
        open := open - 1;
      }
    }

    /** retire() up to the ring: what was still working is not working any more. */
    method Release(slot: nat)
      requires Shaped() && slot < |pool| && pool[slot].id in Slots() && Slots()[pool[slot].id] == slot
      modifies this`pool, this`buys, this`sells, this`gross, this`open
      ensures Shaped() && old(pool)[slot].id in old(View()).orders
      ensures View() == Released(old(View()), old(pool)[slot].id)
    {
      Lookup(pool[slot].id);
      ReleasedIs(View(), pool[slot].id);
      UnbookAny(slot);
      Closed();
    }

    /** retire() */
    method Retire(slot: nat)
      requires Shaped() && slot < |pool| && pool[slot].id in Slots() && Slots()[pool[slot].id] == slot
      modifies this, ids
      ensures Shaped() && old(pool)[slot].id in old(View()).orders
      ensures View() == OmsSpec.Retire(old(View()), old(pool)[slot].id)
    {
      var id := pool[slot].id;
      Release(slot);
      Push(id);
    }

    // ---------------------------------------------------------------- reports

    /** Moves an order to a final state, counts it, and retires it. */
    method Finish(slot: nat, rec: Record, s: Stats)
      requires Shaped() && rec.id in Slots() && Slots()[rec.id] == slot < |pool|
      modifies this, ids
      ensures Shaped() && View() == OmsSpec.Retire(With(old(View()), rec).(stats := s), rec.id)
    {
      Move(slot, rec, s);
      Retire(slot);
    }

    /** The body of a fill, up to retiring the order. */
    method Fill(slot: nat, rep: Report)
      requires Shaped() && rep.id in Slots() && Slots()[rep.id] == slot < |pool| && pool[slot].id == rep.id
      modifies this`pool, this`stats, this`buys, this`sells, this`gross
      ensures Shaped() && View() == ApplyFill(old(View()), old(pool)[slot], rep)
      ensures |pool| == old(|pool|) && pool[slot] == View().orders[rep.id] && pool[slot].id == rep.id
    {
      var rec := pool[slot];
      var filled := FilledRecord(rec, rep);
      Rebook(slot, filled.(state := StateAfterFill(rec.state, filled.leaves)),
             rec.symbol, rec.side, -Min(rep.quantity, rec.leaves),
             stats.(fills := stats.fills + 1,
                    overfills := stats.overfills + (if rep.quantity > rec.leaves then 1 else 0),
                    filledOrders := stats.filledOrders + (if filled.leaves == 0 then 1 else 0)));
    }

    method Misfit() returns (ok: bool)
      requires Shaped()
      modifies this`stats
      ensures Shaped() && Applied(View(), ok) == Invalid(old(View()))
    {
      stats := stats.(invalid := stats.invalid + 1);
      return false;
    }

    /** The Fill case of the switch. */
    method Execute(slot: nat, rep: Report) returns (ok: bool)
      requires Shaped() && rep.id in Slots() && Slots()[rep.id] == slot < |pool| && pool[slot].id == rep.id
      requires rep.exec.Executed?
      modifies this, ids
      ensures Shaped() && Applied(View(), ok) == ApplyTo(old(View()), old(pool)[slot], rep)
    {
      if Terminal(pool[slot].state) || rep.quantity <= 0 {
        ok := Misfit();
        return;
      }
      Fill(slot, rep);
      if pool[slot].state.Filled? {
        Retire(slot);
      }
      return true;
    }

    /** The Rejected case: the venue refuses an order that was never acknowledged. */
    method EndRejected(slot: nat, rep: Report) returns (ok: bool)
      requires Shaped() && rep.id in Slots() && Slots()[rep.id] == slot < |pool| && pool[slot].id == rep.id
      requires rep.exec.VenueRejected?
      modifies this, ids
      ensures Shaped() && Applied(View(), ok) == ApplyTo(old(View()), old(pool)[slot], rep)
    {
      var rec := pool[slot];
      if !rec.state.PendingNew? {
        ok := Misfit();
        return;
      }
      Finish(slot, rec.(state := Rejected, updated := rep.ts), stats.(venueRejected := stats.venueRejected + 1));
      return true;
    }

    /** The Cancelled case. */
    method EndCancelled(slot: nat, rep: Report) returns (ok: bool)
      requires Shaped() && rep.id in Slots() && Slots()[rep.id] == slot < |pool| && pool[slot].id == rep.id
      requires rep.exec.CancelDone?
      modifies this, ids
      ensures Shaped() && Applied(View(), ok) == ApplyTo(old(View()), old(pool)[slot], rep)
    {
      var rec := pool[slot];
      if !Cancellable(rec.state) {
        ok := Misfit();
        return;
      }
      Finish(slot, rec.(state := Cancelled, updated := rep.ts), stats.(cancelled := stats.cancelled + 1));
      return true;
    }

    /** The cases that leave an order working: acknowledged, or its cancel refused. */
    method Answer(slot: nat, rep: Report) returns (ok: bool)
      requires Shaped() && rep.id in Slots() && Slots()[rep.id] == slot < |pool| && pool[slot].id == rep.id
      requires rep.exec.Acked? || rep.exec.CancelRejected?
      modifies this, ids
      ensures Shaped() && Applied(View(), ok) == ApplyTo(old(View()), old(pool)[slot], rep)
    {
      var rec := pool[slot];
      if rep.exec.Acked? && rec.state.PendingNew? {
        Move(slot, rec.(state := New, acked := rep.ts, updated := rep.ts), stats.(acked := stats.acked + 1));
        return true;
      }
      if rep.exec.CancelRejected? && rec.state.PendingCancel? {
        Move(slot, rec.(state := if rec.filled > 0 then PartiallyFilled else New, updated := rep.ts),
             stats.(cancelRejected := stats.cancelRejected + 1));
        return true;
      }
      ok := Misfit();
    }

    /** The switch of apply(), for a report about a tracked order. */
    method Switch(slot: nat, rep: Report) returns (ok: bool)
      requires Shaped() && rep.id in Slots() && Slots()[rep.id] == slot < |pool| && pool[slot].id == rep.id
      modifies this, ids
      ensures Shaped() && Applied(View(), ok) == ApplyTo(old(View()), old(pool)[slot], rep)
    {
      match rep.exec {
        case Acked => ok := Answer(slot, rep);
        case VenueRejected => ok := EndRejected(slot, rep);
        case Executed => ok := Execute(slot, rep);
        case CancelDone => ok := EndCancelled(slot, rep);
        case CancelRejected => ok := Answer(slot, rep);
      }
    }

    method Uncounted(id: nat)
      requires Shaped()
      modifies this`stats
      ensures Shaped() && View() == UnknownOrLate(old(View()), id)
    {
      if id != 0 && id < nextId {
        stats := stats.(late := stats.late + 1);
      } else {
        stats := stats.(unknown := stats.unknown + 1);
      }
    }

    /** Notes the venue's own id. */
    method Name(slot: nat, rep: Report)
      requires Shaped() && rep.id in Slots() && Slots()[rep.id] == slot < |pool| && pool[slot].id == rep.id
      modifies this`pool
      ensures Shaped() && rep.id in old(View()).orders && View() == With(old(View()), Named(old(View()), rep))
      ensures slot < |pool| && pool[slot] == Named(old(View()), rep)
    {
      Lookup(rep.id);
      if rep.venueId != 0 {
        Rewrite(slot, pool[slot].(venueId := rep.venueId));
      } else {
        assert View().orders[rep.id := View().orders[rep.id]] == View().orders;
      }
    }

    /** apply() */
    method Apply(rep: Report) returns (ok: bool)
      requires Valid()
      modifies this, ids
      ensures Valid() && Applied(View(), ok) == ApplyReport(old(View()), rep)
    {
      ReportKeeps(View(), rep);
      Lookup(rep.id);
      var found := ids.Find(rep.id);
      if found.None? {
        Uncounted(rep.id);
        return false;
      }
      Name(found.value, rep);
      ok := Switch(found.value, rep);
    }

    /** request_cancel() */
    method RequestCancel(id: nat, now: int) returns (ok: bool)
      requires Valid()
      modifies this, ids
      ensures Valid() && Applied(View(), ok) == OmsSpec.RequestCancel(old(View()), id, now)
    {
      CancelKeeps(View(), id, now);
      Lookup(id);
      var found := ids.Find(id);
      if found.None? {
        return false;
      }
      var slot := found.value;
      if pool[slot].state.New? || pool[slot].state.PartiallyFilled? {
        Move(slot, pool[slot].(state := PendingCancel, updated := now),
             stats.(cancelsRequested := stats.cancelsRequested + 1));
        return true;
      }
      return false;
    }

    method SetNextId(next: nat)
      requires Valid()
      modifies this`nextId
      ensures Valid() && View() == OmsSpec.SetNextId(old(View()), next)
    {
      NextIdKeeps(View(), next);
      if next > nextId {
        nextId := next;
      }
    }

    // ---------------------------------------------------------------- timeouts

    /** Every tracked id sits in exactly one slot of the table. */
    lemma AllIndexed()
      requires Shaped()
      ensures forall id :: id in View().orders ==> id in ids.at && ids.at[id] < |ids.keys|
    {
      forall id | id in View().orders ensures id in ids.at && ids.at[id] < |ids.keys| {
        Lookup(id);
        ids.PositionOf(id);
      }
    }

    /** One slot of the table: its record, if it holds a live id. */
    method SlotAt(i: nat, ghost wanted: set<nat>, ghost met: seq<nat>) returns (rec: Option<Record>)
      requires Shaped() && i < |ids.keys| && Found(wanted, ids.at, i, met)
      ensures rec.Some? ==> rec.value.id in View().orders && rec.value == View().orders[rec.value.id]
      ensures Found(wanted, ids.at, i + 1,
                    if rec.Some? && rec.value.id in wanted then met + [rec.value.id] else met)
    {
      var key := ids.keys[i];
      ids.KeyAt(i);
      forall id | id in ids.at && ids.at[id] == i ensures id == key && IsId(key) {
        assert KeyOk(ids.hash, ids.keys, ids.at, id);
      }
      FoundNext(wanted, ids.at, i, met, key, IsId(key));
      Lookup(key);
      return if IsId(key) then Some(pool[ids.vals[i]]) else None;
    }

    /** The first loop of sweep_timeouts(): walk the table and collect what is overdue. */
    method CollectDue(now: int) returns (due: seq<nat>)
      requires Shaped()
      ensures Collects(View(), now, due)
    {
      due := [];
      ghost var wanted := Due(View(), now);
      for i := 0 to |ids.keys|
        invariant Found(wanted, ids.at, i, due)
      {
        var rec := SlotAt(i, wanted, due);
        if rec.Some? && rec.value.state.PendingNew? && now - rec.value.created >= config.ackTimeout {
          due := due + [rec.value.id];
        }
      }
      AllIndexed();
    }

    /** The loop of open_orders(). */
    method CollectOpen() returns (r: seq<nat>)
      requires Shaped()
      ensures forall id :: id in r <==> id in WorkingIds(View().orders)
      ensures Distinct(r)
    {
      r := [];
      ghost var wanted := WorkingIds(View().orders);
      for i := 0 to |ids.keys|
        invariant Found(wanted, ids.at, i, r)
      {
        var rec := SlotAt(i, wanted, r);
        if rec.Some? && Working(rec.value.state) {
          r := r + [rec.value.id];
        }
      }
      AllIndexed();
    }

    /** open_orders() */
    method OpenOrders() returns (r: seq<nat>)
      requires Shaped()
      ensures Ascending(r) && forall id :: id in r <==> id in WorkingIds(View().orders)
    {
      var found := CollectOpen();
      r := Sort(found);
    }

    /** Expires one order the sweep collected. */
    method ExpireSlot(id: nat, slot: nat, now: int)
      requires Shaped() && id in Slots() && Slots()[id] == slot < |pool| && pool[slot].id == id
      modifies this, ids
      ensures Shaped() && id in old(View()).orders && View() == Expire(old(View()), id, now)
    {
      Lookup(id);
      var rec, counted := pool[slot].(state := Expired, updated := now), stats.(expired := stats.expired + 1);
      assert Expire(View(), id, now) == OmsSpec.Retire(With(View(), rec).(stats := counted), id);
      Finish(slot, rec, counted);
    }

    /** sweep_timeouts() */
    method SweepTimeouts(now: int) returns (due: seq<nat>)
      requires Valid()
      modifies this, ids
      ensures Valid() && Collects(old(View()), now, due) && View() == ExpireAll(old(View()), due, now)
    {
      due := CollectDue(now);
      SweepIsExact(View(), due, now);
      ghost var target := ExpireAll(View(), due, now);
      for j := 0 to |due|
        invariant Shaped() && ExpireAll(View(), due[j..], now) == target
      {
        ghost var before := View();
        var id := due[j];
        Lookup(id);
        var found := ids.Find(id);
        ExpireNext(before, due, j, now);
        if found.Some? {
          ExpireSlot(id, found.value, now);
        }
      }
      assert due[|due|..] == [];
    }
  }
}

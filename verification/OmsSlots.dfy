/** How the order manager stores what it tracks: records in a slab, an id index, and a ring of finished ids. */
module OmsSlots {
  import opened Types
  import opened Arith
  import opened OmsSpec

  ghost predicate EntryOk(pool: seq<Record>, index: map<nat, nat>, free: seq<nat>, id: nat) {
    id in index ==> index[id] < |pool| && pool[index[id]].id == id && index[id] !in free
  }

  /** Each indexed id has its own slot, no free slot is indexed, and together they are all the slots. */
  ghost predicate SlotsOk(pool: seq<Record>, index: map<nat, nat>, free: seq<nat>) {
    && (forall id: nat {:trigger EntryOk(pool, index, free, id)} :: EntryOk(pool, index, free, id))
    && (forall i {:trigger free[i]} :: 0 <= i < |free| ==> free[i] < |pool|)
    && Distinct(free)
    && |free| + |index| == |pool|
  }

  ghost function OrdersOf(pool: seq<Record>, index: map<nat, nat>): map<nat, Record> {
    map id | id in index && index[id] < |pool| :: pool[index[id]]
  }

  lemma OrdersAt(pool: seq<Record>, index: map<nat, nat>, free: seq<nat>, id: nat)
    requires SlotsOk(pool, index, free)
    ensures id in OrdersOf(pool, index) <==> id in index
    ensures id in index ==> index[id] < |pool| && OrdersOf(pool, index)[id] == pool[index[id]] && pool[index[id]].id == id
    ensures |OrdersOf(pool, index)| == |index|
  {
    assert EntryOk(pool, index, free, id);
    forall x | x in index ensures x in OrdersOf(pool, index) {
      assert EntryOk(pool, index, free, x);
    }
    assert OrdersOf(pool, index).Keys == index.Keys;
  }

  /** A new order goes into a slot taken off the free list. */
  lemma SlotTaken(pool: seq<Record>, index: map<nat, nat>, free: seq<nat>, rec: Record)
    requires SlotsOk(pool, index, free) && free != [] && rec.id !in index
    ensures var slot := free[|free| - 1];
      && slot < |pool|
      && SlotsOk(pool[slot := rec], index[rec.id := slot], free[..|free| - 1])
      && OrdersOf(pool[slot := rec], index[rec.id := slot]) == OrdersOf(pool, index)[rec.id := rec]
  {
    var slot, free' := free[|free| - 1], free[..|free| - 1];
    var pool', index' := pool[slot := rec], index[rec.id := slot];
    forall id: nat ensures EntryOk(pool', index', free', id) && (id in index ==> index[id] != slot) {
      assert EntryOk(pool, index, free, id);
    }
    assert OrdersOf(pool', index') == OrdersOf(pool, index)[rec.id := rec];
  }

  /** Rewriting the record of an indexed id. */
  lemma SlotRewritten(pool: seq<Record>, index: map<nat, nat>, free: seq<nat>, rec: Record)
    requires SlotsOk(pool, index, free) && rec.id in index
    ensures index[rec.id] < |pool|
    ensures SlotsOk(pool[index[rec.id] := rec], index, free)
    ensures OrdersOf(pool[index[rec.id] := rec], index) == OrdersOf(pool, index)[rec.id := rec]
  {
    assert EntryOk(pool, index, free, rec.id);
    var pool' := pool[index[rec.id] := rec];
    forall id: nat ensures EntryOk(pool', index, free, id) && (id in index && id != rec.id ==> index[id] != index[rec.id]) {
      assert EntryOk(pool, index, free, id);
    }
    assert OrdersOf(pool', index) == OrdersOf(pool, index)[rec.id := rec];
  }

  /** Forgetting an id gives its slot back. */
  lemma SlotFreed(pool: seq<Record>, index: map<nat, nat>, free: seq<nat>, id: nat)
    requires SlotsOk(pool, index, free) && id in index
    ensures SlotsOk(pool, index - {id}, free + [index[id]])
    ensures OrdersOf(pool, index - {id}) == OrdersOf(pool, index) - {id}
  {
    var index', free' := index - {id}, free + [index[id]];
    assert EntryOk(pool, index, free, id);
    assert index == index'[id := index[id]];
    forall x: nat ensures EntryOk(pool, index', free', x) {
      assert EntryOk(pool, index, free, x);
    }
  }

  // ---------------------------------------------------------------- the ring

  /** The slot k places after the cursor minus size: oldest first. */
  function RingAt(n: nat, cursor: nat, size: nat, k: nat): (r: nat)
    requires cursor < n && k < size <= n
    ensures r < n
  {
    if cursor + k < size then n + cursor + k - size else cursor + k - size
  }

  /** The ids the ring remembers, oldest first. */
  ghost function RingView(ring: seq<nat>, cursor: nat, size: nat): seq<nat>
    requires cursor < |ring| && size <= |ring|
  {
    seq(size, k requires 0 <= k < size => ring[RingAt(|ring|, cursor, size, k)])
  }

  /** Writing at the cursor pushes the newest id, and drops the oldest once the ring is full. */
  lemma RingPushed(ring: seq<nat>, cursor: nat, size: nat, id: nat)
    requires cursor < |ring| && size <= |ring|
    ensures var full := size == |ring|;
      && (full ==> RingView(ring, cursor, size)[0] == ring[cursor])
      && RingView(ring[cursor := id], Advance(|ring|, cursor), if full then size else size + 1)
         == Pushed(RingView(ring, cursor, size), id, full)
  {
    var full := size == |ring|;
    var a := RingView(ring[cursor := id], Advance(|ring|, cursor), if full then size else size + 1);
    var b := Pushed(RingView(ring, cursor, size), id, full);
    assert |a| == |b|;
    forall k | 0 <= k < |a| ensures a[k] == b[k] {
    }
  }

  /** The leaves of an order that ends, taken off what is booked. */
  function Unbooked(s: Oms, id: nat): Oms
    requires id in s.orders
  {
    var rec := s.orders[id];
    if rec.leaves <= 0 then s
    else
      s.(orders := s.orders[id := rec.(leaves := 0)],
         exposures := AddExposure(s.exposures, rec.symbol, rec.side, -rec.leaves))
  }

  lemma ReleasedIs(s: Oms, id: nat)
    requires id in s.orders
    ensures Released(s, id) == Unbooked(s, id).(open := if s.open > 0 then s.open - 1 else 0)
  {
    assert s.orders[id := s.orders[id]] == s.orders;
  }
}

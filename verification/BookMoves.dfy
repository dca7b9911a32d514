/** The three moves that change the slab: consume from a resting order, drop one, rest a new one. */
module BookMoves {
  import opened Types
  import opened BookSpec
  import opened BookLaws
  import opened BookSlab

  lemma {:induction false} TotalConcat(a: seq<Resting>, b: seq<Resting>)
    ensures Total(a + b) == Total(a) + Total(b)
  {
    if a == [] {
      assert a + b == b;
    } else {
      assert (a + b)[1..] == a[1..] + b;
      TotalConcat(a[1..], b);
    }
  }

  lemma TotalSplit(a: seq<Resting>, k: nat)
    requires k < |a|
    ensures Total(a) == Total(a[..k]) + a[k].quantity + Total(a[k + 1..])
    ensures Total(a[..k] + a[k + 1..]) == Total(a) - a[k].quantity
  {
    assert a == a[..k] + ([a[k]] + a[k + 1..]);
    TotalConcat(a[..k], [a[k]] + a[k + 1..]);
    TotalConcat([a[k]], a[k + 1..]);
    TotalConcat(a[..k], a[k + 1..]);
    assert [a[k]][1..] == [];
  }

  // ------------------------------------------------------ changing one level

  /** pool' differs from pool only in the queue q0 and in slots that are not live. */
  ghost predicate Local(pool: seq<OrderNode>, pool': seq<OrderNode>, q0: seq<nat>) {
    && |pool| <= |pool'|
    && forall x: nat {:trigger pool'[x]} :: x < |pool| && pool[x].live && x !in q0 ==> pool'[x] == pool[x]
  }

  ghost predicate SameView(pool: seq<OrderNode>, pool': seq<OrderNode>, queues: seq<seq<nat>>) {
    AllIn(pool, queues) && AllIn(pool', queues) && AllOrders(pool', queues) == AllOrders(pool, queues)
  }

  /** Of all the orders on one side, those of level idx are now orders, and the rest are as they were. */
  ghost predicate ViewChanged(pool: seq<OrderNode>, pool': seq<OrderNode>, queues: seq<seq<nat>>,
                              queues': seq<seq<nat>>, idx: nat, orders: seq<Resting>)
  {
    && idx < |queues| && AllIn(pool, queues) && AllIn(pool', queues')
    && AllOrders(pool', queues') == AllOrders(pool, queues)[idx := orders]
  }

  /** The other side is untouched. */
  lemma TheirsAfter(band: Band, pool: seq<OrderNode>, pool': seq<OrderNode>, side: Side, mine: Ladder,
                    theirs: Ladder, idx: nat, spent: int, spent': int)
    requires LadderOk(band, pool, mine, side, spent) && LadderOk(band, pool, theirs, side.Opposite(), spent)
    requires idx < |mine.levels| && Local(pool, pool', mine.queues[idx])
    requires spent == spent' || spent == NIL || spent in mine.queues[idx]
    ensures LadderOk(band, pool', theirs, side.Opposite(), spent')
    ensures AllIn(pool, theirs.queues) && AllIn(pool', theirs.queues)
    ensures AllOrders(pool', theirs.queues) == AllOrders(pool, theirs.queues)
  {
    LadderIn(band, pool, theirs, side.Opposite(), spent);
    assert TotalOk(pool, mine.levels[idx], mine.queues[idx]);
    forall i: nat | i < |theirs.levels|
      ensures InPool(pool', theirs.queues[i]) && Orders(pool', theirs.queues[i]) == Orders(pool, theirs.queues[i])
      ensures TotalOk(pool', theirs.levels[i], theirs.queues[i])
      ensures LevelOk(pool', theirs.levels[i], theirs.queues[i], side.Opposite(), PriceAt(band, i), spent')
    {
      assert TotalOk(pool, theirs.levels[i], theirs.queues[i]);
      OtherLevelOk(pool, pool', spent, spent', mine.levels[idx], mine.queues[idx], side, PriceAt(band, idx),
                   theirs.levels[i], theirs.queues[i], side.Opposite(), PriceAt(band, i));
    }
  }

  function Replaced(l: Ladder, idx: nat, level: PriceLevel, q: seq<nat>): Ladder
    requires idx < |l.levels| == |l.queues|
  {
    Ladder(l.levels[idx := level], l.queues[idx := q])
  }

  /** On this side only the one level has changed. */
  lemma MineAfter(band: Band, pool: seq<OrderNode>, pool': seq<OrderNode>, side: Side, mine: Ladder,
                  idx: nat, level': PriceLevel, q': seq<nat>, spent: int, spent': int)
    requires band.Valid() && LadderOk(band, pool, mine, side, spent)
    requires idx < |mine.levels| && Local(pool, pool', mine.queues[idx])
    requires spent == spent' || spent == NIL || spent in mine.queues[idx]
    requires LevelOk(pool', level', q', side, PriceAt(band, idx), spent') && TotalOk(pool', level', q')
    ensures LadderOk(band, pool', Replaced(mine, idx, level', q'), side, spent')
    ensures AllIn(pool, mine.queues) && AllIn(pool', mine.queues[idx := q'])
    ensures AllOrders(pool', mine.queues[idx := q']) == AllOrders(pool, mine.queues)[idx := Orders(pool', q')]
  {
    LadderIn(band, pool, mine, side, spent);
    var after := Replaced(mine, idx, level', q');
    assert TotalOk(pool, mine.levels[idx], mine.queues[idx]);
    forall i: nat | i < |after.levels|
      ensures InPool(pool', after.queues[i])
      ensures i != idx ==> Orders(pool', after.queues[i]) == Orders(pool, mine.queues[i])
      ensures TotalOk(pool', after.levels[i], after.queues[i])
      ensures LevelOk(pool', after.levels[i], after.queues[i], side, PriceAt(band, i), spent')
    {
      if i != idx {
        if PriceAt(band, i) == PriceAt(band, idx) {
          PriceInjective(band, i, idx);
        }
        assert TotalOk(pool, mine.levels[i], mine.queues[i]);
        OtherLevelOk(pool, pool', spent, spent', mine.levels[idx], mine.queues[idx], side, PriceAt(band, idx),
                     mine.levels[i], mine.queues[i], side, PriceAt(band, i));
      }
    }
  }

  // ---------------------------------------------------------------- consume

  /** The slot a trade leaves with nothing, if it does. */
  function SpentBy(pool: seq<OrderNode>, slot: nat, traded: int): int
    requires slot < |pool|
  {
    if pool[slot].quantity == traded then slot else NIL
  }

  function Consumed(pool: seq<OrderNode>, slot: nat, traded: int): seq<OrderNode>
    requires slot < |pool|
  {
    pool[slot := pool[slot].(quantity := pool[slot].quantity - traded)]
  }

  function ConsumedLevel(level: PriceLevel, traded: int): PriceLevel {
    level.(total := level.total - traded)
  }

  lemma ConsumeLevel(pool: seq<OrderNode>, level: PriceLevel, q: seq<nat>, side: Side, price: int,
                     k: nat, traded: int)
    requires LevelOk(pool, level, q, side, price, NIL) && TotalOk(pool, level, q) && k < |q|
    requires 0 <= traded <= pool[q[k]].quantity
    ensures var pool' := Consumed(pool, q[k], traded);
      && LevelOk(pool', ConsumedLevel(level, traded), q, side, price, SpentBy(pool, q[k], traded))
      && TotalOk(pool', ConsumedLevel(level, traded), q)
      && Orders(pool', q) == Orders(pool, q)[k := AsResting(pool'[q[k]])]
  {
    var pool' := Consumed(pool, q[k], traded);
    var a, a' := Orders(pool, q), Orders(pool', q);
    assert a' == a[k := AsResting(pool'[q[k]])];
    TotalSplit(a, k);
    TotalSplit(a', k);
    assert a'[..k] == a[..k] && a'[k + 1..] == a[k + 1..];
  }

  /** Where a slot belongs depends only on its life, side and price. */
  lemma PlacedFrame(band: Band, pool: seq<OrderNode>, pool': seq<OrderNode>, side: Side, mine: seq<seq<nat>>,
                    theirs: seq<seq<nat>>, free: seq<nat>)
    requires |pool'| == |pool| && AllPlaced(band, pool, side, mine, theirs, free)
    requires forall x: nat {:trigger pool'[x]} :: x < |pool| ==>
      pool'[x].live == pool[x].live && pool'[x].side == pool[x].side && pool'[x].price == pool[x].price
    ensures AllPlaced(band, pool', side, mine, theirs, free)
  {
    forall x: nat | x < |pool'| ensures Placed(band, side, mine, theirs, free, x, pool'[x]) {
      assert Placed(band, side, mine, theirs, free, x, pool[x]);
    }
  }

  lemma FreeFrame(pool: seq<OrderNode>, pool': seq<OrderNode>, head: int, f: seq<nat>)
    requires FreeChain(pool, head, f) && |pool| <= |pool'|
    requires forall x: nat {:trigger pool'[x]} :: x < |pool| && !pool[x].live ==> pool'[x] == pool[x]
    ensures FreeChain(pool', head, f)
  {
  }

  lemma SameLadder(l: Ladder, idx: nat, level: PriceLevel)
    requires idx < |l.levels| == |l.queues|
    ensures Replaced(l, idx, level, l.queues[idx]) == l.(levels := l.levels[idx := level])
  {
  }

  /** Trading against a resting order takes the same quantity from it and from its level. */
  lemma ConsumeOk(band: Band, pool: seq<OrderNode>, freeHead: int, free: seq<nat>, side: Side, mine: Ladder,
                  theirs: Ladder, idx: nat, k: nat, traded: int)
    requires SlabOk(band, pool, freeHead, free, side, mine, theirs, NIL)
    requires idx < |mine.levels| && k < |mine.queues[idx]| && mine.queues[idx][k] < |pool|
    requires 0 <= traded <= pool[mine.queues[idx][k]].quantity
    ensures SlabOk(band, Consumed(pool, mine.queues[idx][k], traded), freeHead, free, side,
                   mine.(levels := mine.levels[idx := ConsumedLevel(mine.levels[idx], traded)]), theirs,
                   SpentBy(pool, mine.queues[idx][k], traded))
    ensures InPool(pool, mine.queues[idx])
    ensures var pool' := Consumed(pool, mine.queues[idx][k], traded);
      && SameView(pool, pool', theirs.queues)
      && ViewChanged(pool, pool', mine.queues, mine.queues, idx,
                     Orders(pool, mine.queues[idx])[k := AsResting(pool'[mine.queues[idx][k]])])
  {
    var q, level := mine.queues[idx], mine.levels[idx];
    var pool', spent' := Consumed(pool, q[k], traded), SpentBy(pool, q[k], traded);
    assert TotalOk(pool, level, q);
    ConsumeLevel(pool, level, q, side, PriceAt(band, idx), k, traded);
    FreeFrame(pool, pool', freeHead, free);
    PlacedFrame(band, pool, pool', side, mine.queues, theirs.queues, free);
    TheirsAfter(band, pool, pool', side, mine, theirs, idx, NIL, spent');
    MineAfter(band, pool, pool', side, mine, idx, ConsumedLevel(level, traded), q, NIL, spent');
    SameLadder(mine, idx, ConsumedLevel(level, traded));
    assert mine.queues[idx := q] == mine.queues;
  }

  // ---------------------------------------------------------------- drop

  /** free_node() */
  function Freed(pool: seq<OrderNode>, slot: nat, freeHead: int): seq<OrderNode>
    requires slot < |pool|
  {
    pool[slot := pool[slot].(live := false, next := freeHead)]
  }

  predicate LinksInRange(pool: seq<OrderNode>, slot: nat)
    requires slot < |pool|
  {
    && (pool[slot].prev == NIL || 0 <= pool[slot].prev < |pool|)
    && (pool[slot].next == NIL || 0 <= pool[slot].next < |pool|)
  }

  /** Unlink, then give the slot to the free list. */
  function Dropped(pool: seq<OrderNode>, slot: nat, freeHead: int): seq<OrderNode>
    requires slot < |pool| && LinksInRange(pool, slot)
  {
    UnlinkedAt(pool, slot, slot);
    Freed(Unlinked(pool, slot), slot, freeHead)
  }

  function DroppedLevel(level: PriceLevel, node: OrderNode): PriceLevel
    requires level.count > 0
  {
    UnlinkedLevel(level.(total := level.total - node.quantity), node)
  }

  /** What dropping the k-th node of a list does to each slot. */
  lemma DroppedAt(pool: seq<OrderNode>, head: int, tail: int, q: seq<nat>, k: nat, freeHead: int, x: nat)
    requires Chain(pool, head, tail, q) && k < |q| && x < |pool|
    ensures LinksInRange(pool, q[k])
    ensures var pool' := Dropped(pool, q[k], freeHead);
      && |pool'| == |pool|
      && (x !in q ==> pool'[x] == pool[x])
      && (x == q[k] ==> pool'[x] == pool[x].(live := false, next := freeHead))
      && (x != q[k] ==> pool'[x] == pool[x].(prev := pool'[x].prev, next := pool'[x].next))
  {
    UnlinkFrame(pool, q, head, tail, k, x);
    UnlinkFrame(pool, q, head, tail, k, q[k]);
  }

  lemma FreedFrame(pool: seq<OrderNode>, slot: nat, freeHead: int, head: int, tail: int, q: seq<nat>)
    requires Chain(pool, head, tail, q) && slot < |pool| && slot !in q
    ensures Chain(Freed(pool, slot, freeHead), head, tail, q)
  {
  }

  lemma DropChain(pool: seq<OrderNode>, level: PriceLevel, q: seq<nat>, k: nat, freeHead: int)
    requires Chain(pool, level.head, level.tail, q) && k < |q| && level.count == |q|
    ensures LinksInRange(pool, q[k])
    ensures var level' := DroppedLevel(level, pool[q[k]]);
      Chain(Dropped(pool, q[k], freeHead), level'.head, level'.tail, Remove(q, k))
  {
    DroppedAt(pool, level.head, level.tail, q, k, freeHead, q[k]);
    UnlinkChain(pool, level, q, k);
    RemoveDistinct(q, k);
    var level' := UnlinkedLevel(level, pool[q[k]]);
    FreedFrame(Unlinked(pool, q[k]), q[k], freeHead, level'.head, level'.tail, Remove(q, k));
  }

  /** The rest of the queue is as it was, links apart. */
  lemma DroppedOthers(pool: seq<OrderNode>, level: PriceLevel, q: seq<nat>, side: Side, price: int, spent: int,
                      k: nat, freeHead: int)
    requires LevelOk(pool, level, q, side, price, spent) && k < |q|
    requires spent == NIL || spent == q[k]
    ensures LinksInRange(pool, q[k]) && |Dropped(pool, q[k], freeHead)| == |pool|
    ensures var pool', q' := Dropped(pool, q[k], freeHead), Remove(q, k);
      forall i {:trigger pool'[q'[i]]} :: 0 <= i < |q'| ==>
        Queued(pool'[q'[i]], side, price, false) && AsResting(pool'[q'[i]]) == AsResting(pool[q'[i]])
  {
    DroppedAt(pool, level.head, level.tail, q, k, freeHead, q[k]);
    RemoveDistinct(q, k);
    var pool', q' := Dropped(pool, q[k], freeHead), Remove(q, k);
    forall i {:trigger pool'[q'[i]]} | 0 <= i < |q'|
      ensures Queued(pool'[q'[i]], side, price, false)
      ensures AsResting(pool'[q'[i]]) == AsResting(pool[q'[i]])
    {
      DroppedAt(pool, level.head, level.tail, q, k, freeHead, q'[i]);
    }
  }

  lemma DropLevel(pool: seq<OrderNode>, level: PriceLevel, q: seq<nat>, side: Side, price: int, spent: int,
                  k: nat, freeHead: int)
    requires LevelOk(pool, level, q, side, price, spent) && TotalOk(pool, level, q) && k < |q|
    requires spent == NIL || spent == q[k]
    ensures LinksInRange(pool, q[k])
    ensures var pool', level' := Dropped(pool, q[k], freeHead), DroppedLevel(level, pool[q[k]]);
      && LevelOk(pool', level', Remove(q, k), side, price, NIL)
      && TotalOk(pool', level', Remove(q, k))
      && Orders(pool', Remove(q, k)) == Orders(pool, q)[..k] + Orders(pool, q)[k + 1..]
  {
    DropChain(pool, level, q, k, freeHead);
    DroppedOthers(pool, level, q, side, price, spent, k, freeHead);
    DropTotal(pool, Dropped(pool, q[k], freeHead), level, q, k);
  }

  lemma DropTotal(pool: seq<OrderNode>, pool': seq<OrderNode>, level: PriceLevel, q: seq<nat>, k: nat)
    requires TotalOk(pool, level, q) && k < |q| && InPool(pool', Remove(q, k))
    requires forall i {:trigger pool'[Remove(q, k)[i]]} :: 0 <= i < |q| - 1 ==>
      AsResting(pool'[Remove(q, k)[i]]) == AsResting(pool[Remove(q, k)[i]])
    ensures Orders(pool', Remove(q, k)) == Orders(pool, q)[..k] + Orders(pool, q)[k + 1..]
    ensures Total(Orders(pool', Remove(q, k))) == level.total - pool[q[k]].quantity
  {
    var a, a' := Orders(pool, q), Orders(pool', Remove(q, k));
    forall i | 0 <= i < |a'| ensures a'[i] == (a[..k] + a[k + 1..])[i] {
      assert a'[i] == AsResting(pool'[Remove(q, k)[i]]);
    }
    assert a' == a[..k] + a[k + 1..];
    TotalSplit(a, k);
  }

  lemma FreePush(pool: seq<OrderNode>, pool': seq<OrderNode>, freeHead: int, free: seq<nat>, slot: nat)
    requires FreeChain(pool, freeHead, free) && slot < |pool| == |pool'| && pool[slot].live
    requires forall x: nat {:trigger pool'[x]} :: x < |pool| && !pool[x].live ==> pool'[x] == pool[x]
    requires !pool'[slot].live && pool'[slot].next == freeHead
    ensures FreeChain(pool', slot, [slot] + free)
  {
  }

  lemma DropPlaced(band: Band, pool: seq<OrderNode>, pool': seq<OrderNode>, side: Side, mine: seq<seq<nat>>,
                   theirs: seq<seq<nat>>, free: seq<nat>, idx: nat, k: nat)
    requires |pool'| == |pool| && AllPlaced(band, pool, side, mine, theirs, free)
    requires idx < |mine| && k < |mine[idx]| && mine[idx][k] < |pool| && !pool'[mine[idx][k]].live
    requires Distinct(mine[idx])
    requires forall x: nat {:trigger pool'[x]} :: x < |pool| && x != mine[idx][k] ==>
      pool'[x].live == pool[x].live && pool'[x].side == pool[x].side && pool'[x].price == pool[x].price
    ensures AllPlaced(band, pool', side, mine[idx := Remove(mine[idx], k)], theirs, [mine[idx][k]] + free)
  {
    var mine', free' := mine[idx := Remove(mine[idx], k)], [mine[idx][k]] + free;
    RemoveDistinct(mine[idx], k);
    forall x: nat | x < |pool'| ensures Placed(band, side, mine', theirs, free', x, pool'[x]) {
      if x != mine[idx][k] {
        assert Placed(band, side, mine, theirs, free, x, pool[x]);
        if pool[x].live && pool[x].side == side {
          var i: nat :| i < |mine| && PriceAt(band, i) == pool[x].price && x in mine[i];
          assert x in mine'[i];
        }
      }
    }
  }

  /** Dropping an order moves its slot from its level's queue to the free list. */
  lemma DropOk(band: Band, pool: seq<OrderNode>, freeHead: int, free: seq<nat>, side: Side, mine: Ladder,
               theirs: Ladder, idx: nat, k: nat, spent: int)
    requires SlabOk(band, pool, freeHead, free, side, mine, theirs, spent)
    requires idx < |mine.levels| && k < |mine.queues[idx]| && mine.queues[idx][k] < |pool|
    requires spent == NIL || spent == mine.queues[idx][k]
    ensures var slot := mine.queues[idx][k];
      && LinksInRange(pool, slot) && mine.levels[idx].count > 0
      && SlabOk(band, Dropped(pool, slot, freeHead), slot, [slot] + free, side,
                Replaced(mine, idx, DroppedLevel(mine.levels[idx], pool[slot]), Remove(mine.queues[idx], k)),
                theirs, NIL)
      && InPool(pool, mine.queues[idx])
      && SameView(pool, Dropped(pool, slot, freeHead), theirs.queues)
      && ViewChanged(pool, Dropped(pool, slot, freeHead), mine.queues, mine.queues[idx := Remove(mine.queues[idx], k)], idx,
                     Orders(pool, mine.queues[idx])[..k] + Orders(pool, mine.queues[idx])[k + 1..])
  {
    var q, level := mine.queues[idx], mine.levels[idx];
    assert TotalOk(pool, level, q);
    DropLevel(pool, level, q, side, PriceAt(band, idx), spent, k, freeHead);
    var pool', level' := Dropped(pool, q[k], freeHead), DroppedLevel(level, pool[q[k]]);
    forall x: nat | x < |pool|
      ensures |pool'| == |pool|
      ensures x !in q ==> pool'[x] == pool[x]
      ensures x == q[k] ==> pool'[x] == pool[x].(live := false, next := freeHead)
      ensures x != q[k] ==> pool'[x] == pool[x].(prev := pool'[x].prev, next := pool'[x].next)
    {
      DroppedAt(pool, level.head, level.tail, q, k, freeHead, x);
    }
    DropRest(band, pool, freeHead, free, side, mine, theirs, idx, k, spent, pool', level');
  }

  lemma DropRest(band: Band, pool: seq<OrderNode>, freeHead: int, free: seq<nat>, side: Side, mine: Ladder,
                 theirs: Ladder, idx: nat, k: nat, spent: int, pool': seq<OrderNode>, level': PriceLevel)
    requires SlabOk(band, pool, freeHead, free, side, mine, theirs, spent)
    requires idx < |mine.levels| && k < |mine.queues[idx]| && mine.queues[idx][k] < |pool| == |pool'|
    requires spent == NIL || spent == mine.queues[idx][k]
    requires LevelOk(pool', level', Remove(mine.queues[idx], k), side, PriceAt(band, idx), NIL)
    requires TotalOk(pool', level', Remove(mine.queues[idx], k))
    requires forall x: nat {:trigger pool'[x]} :: x < |pool| ==>
      && (x !in mine.queues[idx] ==> pool'[x] == pool[x])
      && (x == mine.queues[idx][k] ==> pool'[x] == pool[x].(live := false, next := freeHead))
      && (x != mine.queues[idx][k] ==> pool'[x] == pool[x].(prev := pool'[x].prev, next := pool'[x].next))
    ensures SlabOk(band, pool', mine.queues[idx][k], [mine.queues[idx][k]] + free, side,
                   Replaced(mine, idx, level', Remove(mine.queues[idx], k)), theirs, NIL)
    ensures SameView(pool, pool', theirs.queues) && InPool(pool', Remove(mine.queues[idx], k))
    ensures ViewChanged(pool, pool', mine.queues, mine.queues[idx := Remove(mine.queues[idx], k)], idx,
                        Orders(pool', Remove(mine.queues[idx], k)))
  {
    var q, level := mine.queues[idx], mine.levels[idx];
    assert TotalOk(pool, level, q);
    assert pool[q[k]].live;
    forall x: nat {:trigger pool'[x]} | x < |pool| && !pool[x].live ensures pool'[x] == pool[x] {
      assert x !in q;
    }
    FreePush(pool, pool', freeHead, free, q[k]);
    DropPlaced(band, pool, pool', side, mine.queues, theirs.queues, free, idx, k);
    TheirsAfter(band, pool, pool', side, mine, theirs, idx, spent, NIL);
    MineAfter(band, pool, pool', side, mine, idx, level', Remove(q, k), spent, NIL);
  }

  // ---------------------------------------------------------------- rest

  /** alloc_node() followed by filling in the node: reuse a free slot or grow the slab. */
  function Seated(pool: seq<OrderNode>, slot: nat, node: OrderNode): (r: seq<OrderNode>)
    requires slot <= |pool|
    ensures slot < |r| && r[slot] == node && |pool| <= |r| <= |pool| + 1
    ensures forall x: nat {:trigger r[x]} :: x < |pool| && x != slot ==> r[x] == pool[x]
  {
    if slot == |pool| then pool + [node] else pool[slot := node]
  }

  function NodeFor(r: Resting, side: Side): OrderNode {
    OrderNode(r.id, r.price, r.quantity, NIL, NIL, r.owner, side, true)
  }

  function RestedLevel(level: PriceLevel, slot: nat, quantity: int): PriceLevel {
    var linked := LinkedLevel(level, slot);
    linked.(total := linked.total + quantity)
  }

  lemma RestLevel(pool: seq<OrderNode>, level: PriceLevel, q: seq<nat>, side: Side, price: int, slot: nat, r: Resting)
    requires LevelOk(pool, level, q, side, price, NIL) && TotalOk(pool, level, q)
    requires slot <= |pool| && (slot < |pool| ==> !pool[slot].live)
    requires r.price == price && r.quantity > 0
    ensures level.tail == NIL || 0 <= level.tail < |Seated(pool, slot, NodeFor(r, side))|
    ensures var pool' := Linked(Seated(pool, slot, NodeFor(r, side)), level.tail, slot);
      && |pool'| == |Seated(pool, slot, NodeFor(r, side))|
      && Chain(pool', RestedLevel(level, slot, r.quantity).head, RestedLevel(level, slot, r.quantity).tail, q + [slot])
      && (forall x: nat {:trigger pool'[x]} :: x < |pool| && x != slot ==>
            pool'[x] == pool[x].(prev := pool'[x].prev, next := pool'[x].next))
      && (forall x: nat {:trigger pool'[x]} :: x < |pool| && x != slot && x !in q ==> pool'[x] == pool[x])
      && pool'[slot] == NodeFor(r, side).(prev := pool'[slot].prev, next := pool'[slot].next)
  {
    var pool1 := Seated(pool, slot, NodeFor(r, side));
    assert slot !in q;
    ChainFrame(pool, pool1, level.head, level.tail, q);
    LinkChain(pool1, level, q, slot);
    var pool' := Linked(pool1, level.tail, slot);
    forall x: nat | x < |pool1|
      ensures |pool'| == |pool1|
      ensures pool'[x] == pool1[x].(prev := pool'[x].prev, next := pool'[x].next)
      ensures x !in q && x != slot ==> pool'[x] == pool1[x]
    {
      LinkFrame(pool1, q, level.head, level.tail, slot, x);
    }
  }

  /** The level after its newest order has joined. */
  lemma RestTotals(pool: seq<OrderNode>, pool': seq<OrderNode>, level: PriceLevel, q: seq<nat>, side: Side,
                   price: int, slot: nat, r: Resting)
    requires LevelOk(pool, level, q, side, price, NIL) && TotalOk(pool, level, q)
    requires slot < |pool'| && |pool| <= |pool'| && slot !in q && InPool(pool', q + [slot])
    requires forall x: nat {:trigger pool'[x]} :: x < |pool| && x != slot ==>
      pool'[x] == pool[x].(prev := pool'[x].prev, next := pool'[x].next)
    requires AsResting(pool'[slot]) == r && Queued(pool'[slot], side, price, false)
    ensures Orders(pool', q + [slot]) == Orders(pool, q) + [r]
    ensures TotalOk(pool', RestedLevel(level, slot, r.quantity), q + [slot])
    ensures forall i {:trigger pool'[(q + [slot])[i]]} :: 0 <= i < |q| + 1 ==>
      Queued(pool'[(q + [slot])[i]], side, price, false)
  {
    forall i | 0 <= i < |q| ensures AsResting(pool'[q[i]]) == AsResting(pool[q[i]]) {
      assert pool'[q[i]] == pool[q[i]].(prev := pool'[q[i]].prev, next := pool'[q[i]].next);
    }
    assert Orders(pool', q + [slot]) == Orders(pool, q) + [r];
    TotalConcat(Orders(pool, q), [r]);
    assert [r][1..] == [];
    forall i {:trigger pool'[(q + [slot])[i]]} | 0 <= i < |q| + 1
      ensures Queued(pool'[(q + [slot])[i]], side, price, false)
    {
      if i < |q| {
        assert Queued(pool[q[i]], side, price, false);
      }
    }
  }

  /** The free list after its first slot has been taken, if it had one. */
  lemma FreePop(pool: seq<OrderNode>, pool': seq<OrderNode>, freeHead: int, free: seq<nat>)
    requires FreeChain(pool, freeHead, free) && |pool| <= |pool'|
    requires forall x: nat {:trigger pool'[x]} :: x < |pool| && x != freeHead && !pool[x].live ==> pool'[x] == pool[x]
    ensures freeHead == NIL <==> free == []
    ensures freeHead != NIL ==> 0 <= freeHead < |pool| && !pool[freeHead].live && freeHead == free[0]
    ensures if freeHead == NIL then FreeChain(pool', NIL, [])
            else FreeChain(pool', pool[freeHead].next, free[1..])
  {
    if free != [] {
      assert !pool[free[0]].live;
      forall i {:trigger pool'[free[1..][i]]} | 0 <= i < |free| - 1
        ensures !pool'[free[1..][i]].live && pool'[free[1..][i]].next == Behind(free[1..], i)
      {
        assert pool[free[i + 1]].next == Behind(free, i + 1);
      }
    }
  }

  function SlotFor(pool: seq<OrderNode>, freeHead: int): int {
    if freeHead == NIL then |pool| else freeHead
  }

  function FreeAfter(free: seq<nat>): seq<nat> {
    if free == [] then [] else free[1..]
  }

  lemma RestPlaced(band: Band, pool: seq<OrderNode>, pool': seq<OrderNode>, side: Side, mine: seq<seq<nat>>,
                   theirs: seq<seq<nat>>, free: seq<nat>, idx: nat, slot: nat)
    requires AllPlaced(band, pool, side, mine, theirs, free)
    requires idx < |mine| && slot < |pool'| && |pool| <= |pool'| <= |pool| + 1
    requires slot == if free == [] then |pool| else free[0]
    requires |pool'| == |pool| + 1 ==> slot == |pool|
    requires pool'[slot].live && pool'[slot].side == side && pool'[slot].price == PriceAt(band, idx)
    requires forall x: nat {:trigger pool'[x]} :: x < |pool| && x != slot ==>
      pool'[x].live == pool[x].live && pool'[x].side == pool[x].side && pool'[x].price == pool[x].price
    ensures AllPlaced(band, pool', side, mine[idx := mine[idx] + [slot]], theirs, FreeAfter(free))
  {
    var mine' := mine[idx := mine[idx] + [slot]];
    forall x: nat | x < |pool'| ensures Placed(band, side, mine', theirs, FreeAfter(free), x, pool'[x]) {
      if x == slot {
        assert slot in mine'[idx];
      } else {
        assert Placed(band, side, mine, theirs, free, x, pool[x]);
        if pool[x].live && pool[x].side == side {
          var i: nat :| i < |mine| && PriceAt(band, i) == pool[x].price && x in mine[i];
          assert x in mine'[i];
        }
      }
    }
  }

  /** Resting an order takes a slot from the free list, or a new one, to the back of its level's queue. */
  lemma RestOk(band: Band, pool: seq<OrderNode>, freeHead: int, free: seq<nat>, side: Side, mine: Ladder,
               theirs: Ladder, idx: nat, r: Resting, pool': seq<OrderNode>, slot: nat)
    requires SlabOk(band, pool, freeHead, free, side, mine, theirs, NIL)
    requires idx < |mine.levels| && r.price == PriceAt(band, idx) && r.quantity > 0
    requires slot == SlotFor(pool, freeHead) <= |pool|
    requires var level := mine.levels[idx];
      && (level.tail == NIL || 0 <= level.tail < |Seated(pool, slot, NodeFor(r, side))|)
      && pool' == Linked(Seated(pool, slot, NodeFor(r, side)), level.tail, slot)
    ensures SlabOk(band, pool', if freeHead == NIL then NIL else pool[freeHead].next, FreeAfter(free), side,
                   Replaced(mine, idx, RestedLevel(mine.levels[idx], slot, r.quantity), mine.queues[idx] + [slot]),
                   theirs, NIL)
    ensures InPool(pool, mine.queues[idx])
    ensures SameView(pool, pool', theirs.queues)
    ensures ViewChanged(pool, pool', mine.queues, mine.queues[idx := mine.queues[idx] + [slot]], idx,
                        Orders(pool, mine.queues[idx]) + [r])
  {
    var q, level := mine.queues[idx], mine.levels[idx];
    assert TotalOk(pool, level, q);
    FreePop(pool, pool, freeHead, free);
    RestLevel(pool, level, q, side, PriceAt(band, idx), slot, r);
    RestTotals(pool, pool', level, q, side, PriceAt(band, idx), slot, r);
    FreePop(pool, pool', freeHead, free);
    RestPlaced(band, pool, pool', side, mine.queues, theirs.queues, free, idx, slot);
    var level' := RestedLevel(level, slot, r.quantity);
    TheirsAfter(band, pool, pool', side, mine, theirs, idx, NIL, NIL);
    MineAfter(band, pool, pool', side, mine, idx, level', q + [slot], NIL, NIL);
  }
}

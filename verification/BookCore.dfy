/** The book's data structures as one value, and what each move does to the orders they stand for. */
module BookCore {
  import opened Types
  import opened IdTables
  import opened BookSpec
  import opened BookSlab
  import opened BookMoves
  import opened BookFlat

  /** Slab, free list, both ladders and the id index, seen from one side. */
  datatype Core = Core(pool: seq<OrderNode>, freeHead: int, free: seq<nat>, mine: Ladder, theirs: Ladder,
                       ids: map<nat, nat>, live: int) {
    function Turned(): Core {
      this.(mine := theirs, theirs := mine)
    }
  }

  /** An indexed id leads to the live node that carries it. */
  ghost predicate IdOk(pool: seq<OrderNode>, ids: map<nat, nat>, id: nat) {
    id in ids ==> IsId(id) && ids[id] < |pool| && pool[ids[id]].live && pool[ids[id]].id == id
  }

  /** A live node is indexed under its own id. */
  ghost predicate NodeOk(pool: seq<OrderNode>, ids: map<nat, nat>, x: nat) {
    x < |pool| && pool[x].live ==> pool[x].id in ids && ids[pool[x].id] == x
  }

  /** The id index holds exactly the live nodes, each under its own id. */
  ghost predicate IdsMatch(pool: seq<OrderNode>, ids: map<nat, nat>) {
    && (forall id: nat {:trigger IdOk(pool, ids, id)} :: IdOk(pool, ids, id))
    && (forall x: nat {:trigger NodeOk(pool, ids, x)} :: NodeOk(pool, ids, x))
  }

  ghost predicate CoreOk(band: Band, side: Side, c: Core, spent: int) {
    && SlabOk(band, c.pool, c.freeHead, c.free, side, c.mine, c.theirs, spent)
    && AllIn(c.pool, c.mine.queues) && AllIn(c.pool, c.theirs.queues)
    && IdsMatch(c.pool, c.ids) && c.live == |c.ids|
  }

  lemma CoreTurned(band: Band, side: Side, c: Core, spent: int)
    requires CoreOk(band, side, c, spent)
    ensures CoreOk(band, side.Opposite(), c.Turned(), spent)
  {
    SeenFromOtherSide(band, c.pool, c.freeHead, c.free, side, c.mine, c.theirs, spent);
  }

  /** The orders of each level of this side. */
  ghost function MyLevels(c: Core): seq<seq<Resting>>
    requires AllIn(c.pool, c.mine.queues)
  {
    AllOrders(c.pool, c.mine.queues)
  }

  ghost function TheirLevels(c: Core): seq<seq<Resting>>
    requires AllIn(c.pool, c.theirs.queues)
  {
    AllOrders(c.pool, c.theirs.queues)
  }

  /** There is an order at place k of level idx. */
  ghost predicate At(c: Core, idx: nat, k: nat) {
    && idx < |c.mine.levels| == |c.mine.queues| && k < |c.mine.queues[idx]|
    && c.mine.queues[idx][k] < |c.pool|
  }

  function SlotAt(c: Core, idx: nat, k: nat): nat
    requires At(c, idx, k)
  {
    c.mine.queues[idx][k]
  }

  // ---------------------------------------------------------------- consume

  function ConsumeAt(c: Core, idx: nat, k: nat, traded: int): Core
    requires At(c, idx, k)
  {
    c.(pool := Consumed(c.pool, SlotAt(c, idx, k), traded),
       mine := c.mine.(levels := c.mine.levels[idx := ConsumedLevel(c.mine.levels[idx], traded)]))
  }

  lemma IdsAfterConsume(pool: seq<OrderNode>, slot: nat, traded: int, ids: map<nat, nat>)
    requires IdsMatch(pool, ids) && slot < |pool|
    ensures IdsMatch(Consumed(pool, slot, traded), ids)
  {
    var pool' := Consumed(pool, slot, traded);
    forall id: nat ensures IdOk(pool', ids, id) {
      assert IdOk(pool, ids, id);
    }
    forall x: nat ensures NodeOk(pool', ids, x) {
      assert NodeOk(pool, ids, x);
    }
  }

  lemma ConsumeAtOk(band: Band, side: Side, c: Core, idx: nat, k: nat, traded: int)
    requires CoreOk(band, side, c, NIL) && At(c, idx, k)
    requires 0 <= traded <= c.pool[SlotAt(c, idx, k)].quantity
    ensures var c' := ConsumeAt(c, idx, k, traded);
      && CoreOk(band, side, c', SpentBy(c.pool, SlotAt(c, idx, k), traded))
      && TheirLevels(c') == TheirLevels(c)
      && MyLevels(c') == MyLevels(c)[idx := MyLevels(c)[idx][k := AsResting(c'.pool[SlotAt(c, idx, k)])]]
  {
    ConsumeOk(band, c.pool, c.freeHead, c.free, side, c.mine, c.theirs, idx, k, traded);
    IdsAfterConsume(c.pool, SlotAt(c, idx, k), traded, c.ids);
  }

  // ---------------------------------------------------------------- drop

  ghost predicate Droppable(c: Core, idx: nat, k: nat) {
    && At(c, idx, k) && LinksInRange(c.pool, SlotAt(c, idx, k)) && c.mine.levels[idx].count > 0
  }

  function DropAt(c: Core, idx: nat, k: nat): Core
    requires Droppable(c, idx, k)
  {
    var slot := SlotAt(c, idx, k);
    Core(Dropped(c.pool, slot, c.freeHead), slot, [slot] + c.free,
         Replaced(c.mine, idx, DroppedLevel(c.mine.levels[idx], c.pool[slot]), Remove(c.mine.queues[idx], k)),
         c.theirs, c.ids - {c.pool[slot].id}, c.live - 1)
  }

  lemma IdsAfterDrop(pool: seq<OrderNode>, pool': seq<OrderNode>, ids: map<nat, nat>, slot: nat)
    requires IdsMatch(pool, ids) && slot < |pool| == |pool'| && pool[slot].live
    requires !pool'[slot].live
    requires forall x: nat {:trigger pool'[x]} :: x < |pool| && x != slot ==>
      pool'[x].live == pool[x].live && pool'[x].id == pool[x].id
    ensures pool[slot].id in ids && IsId(pool[slot].id)
    ensures IdsMatch(pool', ids - {pool[slot].id})
    ensures |ids - {pool[slot].id}| == |ids| - 1
  {
    var rest := ids - {pool[slot].id};
    assert NodeOk(pool, ids, slot) && IdOk(pool, ids, pool[slot].id);
    assert ids == rest[pool[slot].id := slot];
    forall id: nat ensures IdOk(pool', rest, id) {
      assert IdOk(pool, ids, id);
    }
    forall x: nat ensures NodeOk(pool', rest, x) {
      assert NodeOk(pool, ids, x);
      if x < |pool| && pool[x].live && pool[x].id == pool[slot].id {
        assert x == slot;
      }
    }
  }

  lemma DropIds(pool: seq<OrderNode>, level: PriceLevel, q: seq<nat>, side: Side, price: int, spent: int,
                k: nat, freeHead: int, ids: map<nat, nat>)
    requires LevelOk(pool, level, q, side, price, spent) && k < |q| && IdsMatch(pool, ids)
    ensures LinksInRange(pool, q[k]) && pool[q[k]].id in ids && IsId(pool[q[k]].id)
    ensures IdsMatch(Dropped(pool, q[k], freeHead), ids - {pool[q[k]].id})
    ensures |ids - {pool[q[k]].id}| == |ids| - 1
  {
    DroppedAt(pool, level.head, level.tail, q, k, freeHead, q[k]);
    var pool' := Dropped(pool, q[k], freeHead);
    forall x: nat {:trigger pool'[x]} | x < |pool| && x != q[k]
      ensures pool'[x].live == pool[x].live && pool'[x].id == pool[x].id
    {
      DroppedAt(pool, level.head, level.tail, q, k, freeHead, x);
    }
    IdsAfterDrop(pool, pool', ids, q[k]);
  }

  lemma DropAtOk(band: Band, side: Side, c: Core, idx: nat, k: nat, spent: int)
    requires CoreOk(band, side, c, spent) && At(c, idx, k)
    requires spent == NIL || spent == SlotAt(c, idx, k)
    ensures Droppable(c, idx, k) && c.live > 0 && IsId(c.pool[SlotAt(c, idx, k)].id)
    ensures var c' := DropAt(c, idx, k);
      && CoreOk(band, side, c', NIL)
      && TheirLevels(c') == TheirLevels(c)
      && MyLevels(c') == MyLevels(c)[idx := MyLevels(c)[idx][..k] + MyLevels(c)[idx][k + 1..]]
  {
    assert TotalOk(c.pool, c.mine.levels[idx], c.mine.queues[idx]);
    DropOk(band, c.pool, c.freeHead, c.free, side, c.mine, c.theirs, idx, k, spent);
    DropIds(c.pool, c.mine.levels[idx], c.mine.queues[idx], side, PriceAt(band, idx), spent, k, c.freeHead, c.ids);
  }

  // ---------------------------------------------------------------- rest

  ghost predicate Restable(c: Core, side: Side, idx: nat, r: Resting) {
    && idx < |c.mine.levels| == |c.mine.queues|
    && 0 <= SlotFor(c.pool, c.freeHead) <= |c.pool| && (c.freeHead == NIL || c.freeHead < |c.pool|)
    && (c.mine.levels[idx].tail == NIL
        || 0 <= c.mine.levels[idx].tail < |Seated(c.pool, SlotFor(c.pool, c.freeHead), NodeFor(r, side))|)
  }

  function RestAt(c: Core, side: Side, idx: nat, r: Resting): Core
    requires Restable(c, side, idx, r)
  {
    var slot: nat := SlotFor(c.pool, c.freeHead);
    var level := c.mine.levels[idx];
    Core(Linked(Seated(c.pool, slot, NodeFor(r, side)), level.tail, slot),
         if c.freeHead == NIL then NIL else c.pool[c.freeHead].next, FreeAfter(c.free),
         Replaced(c.mine, idx, RestedLevel(level, slot, r.quantity), c.mine.queues[idx] + [slot]),
         c.theirs, c.ids[r.id := slot], c.live + 1)
  }

  lemma IdsAfterRest(pool: seq<OrderNode>, pool': seq<OrderNode>, ids: map<nat, nat>, slot: nat)
    requires IdsMatch(pool, ids) && slot < |pool'| && |pool| <= |pool'| <= |pool| + 1
    requires slot <= |pool| && (slot < |pool| ==> !pool[slot].live) && (|pool'| > |pool| ==> slot == |pool|)
    requires pool'[slot].live && IsId(pool'[slot].id) && pool'[slot].id !in ids
    requires forall x: nat {:trigger pool'[x]} :: x < |pool| && x != slot ==>
      pool'[x].live == pool[x].live && pool'[x].id == pool[x].id
    ensures IdsMatch(pool', ids[pool'[slot].id := slot])
  {
    var ids' := ids[pool'[slot].id := slot];
    forall id: nat ensures IdOk(pool', ids', id) {
      assert IdOk(pool, ids, id);
    }
    forall x: nat ensures NodeOk(pool', ids', x) {
      assert NodeOk(pool, ids, x);
    }
  }

  lemma RestAtOk(band: Band, side: Side, c: Core, idx: nat, r: Resting)
    requires CoreOk(band, side, c, NIL) && idx < |c.mine.levels|
    requires r.price == PriceAt(band, idx) && r.quantity > 0 && IsId(r.id) && r.id !in c.ids
    ensures Restable(c, side, idx, r)
    ensures var c' := RestAt(c, side, idx, r);
      && CoreOk(band, side, c', NIL)
      && TheirLevels(c') == TheirLevels(c)
      && MyLevels(c') == MyLevels(c)[idx := MyLevels(c)[idx] + [r]]
  {
    var level, q := c.mine.levels[idx], c.mine.queues[idx];
    assert TotalOk(c.pool, level, q);
    FreePop(c.pool, c.pool, c.freeHead, c.free);
    var slot: nat := SlotFor(c.pool, c.freeHead);
    RestLevel(c.pool, level, q, side, PriceAt(band, idx), slot, r);
    var pool' := Linked(Seated(c.pool, slot, NodeFor(r, side)), level.tail, slot);
    RestOk(band, c.pool, c.freeHead, c.free, side, c.mine, c.theirs, idx, r, pool', slot);
    IdsAfterRest(c.pool, pool', c.ids, slot);
  }

  // ------------------------------------------------------------ empty book

  ghost function EmptyLadder(n: nat): Ladder {
    Ladder(seq(n, _ => EMPTY_LEVEL), seq(n, _ => []))
  }

  lemma EmptyLevelOk(pool: seq<OrderNode>, level: PriceLevel, side: Side, price: int)
    requires level == EMPTY_LEVEL
    ensures TotalOk(pool, level, []) && LevelOk(pool, level, [], side, price, NIL)
  {
    assert Orders(pool, []) == [];
  }

  lemma EmptyLadderOk(band: Band, pool: seq<OrderNode>, l: Ladder, side: Side)
    requires l == EmptyLadder(|l.levels|)
    ensures LadderOk(band, pool, l, side, NIL) && AllIn(pool, l.queues)
    ensures Flat(side, AllOrders(pool, l.queues)) == []
  {
    forall idx: nat | idx < |l.levels|
      ensures TotalOk(pool, l.levels[idx], l.queues[idx])
      ensures LevelOk(pool, l.levels[idx], l.queues[idx], side, PriceAt(band, idx), NIL)
    {
      EmptyLevelOk(pool, l.levels[idx], side, PriceAt(band, idx));
    }
    FlatEmpty(side, AllOrders(pool, l.queues));
  }

  lemma EmptyOk(band: Band, n: nat)
    requires band.Valid()
    ensures |EmptyLadder(n).levels| == n
    ensures var c := Core([], NIL, [], EmptyLadder(n), EmptyLadder(n), map[], 0);
      && CoreOk(band, Buy, c, NIL)
      && Flat(Buy, MyLevels(c)) == [] && Flat(Sell, TheirLevels(c)) == []
  {
    var l, pool := EmptyLadder(n), [];
    EmptyLadderOk(band, pool, l, Buy);
    EmptyLadderOk(band, pool, l, Sell);
  }

  // ------------------------------------------------------- meeting the best order

  /** The sweep this state of the data structures stands for. */
  ghost function SweepOf(side: Side, c: Core, remaining: int, trades: seq<Trade>, preventions: nat, stop: bool): Sweep
    requires AllIn(c.pool, c.mine.queues)
  {
    Sweep(Flat(side, MyLevels(c)), remaining, trades, preventions, stop)
  }

  /** Every level that ranks before idx is empty. */
  ghost predicate NothingAhead(side: Side, c: Core, idx: nat) {
    && idx < |c.mine.queues| && AllIn(c.pool, c.mine.queues)
    && AheadOf(side, MyLevels(c), idx) == []
  }

  lemma HeadIs(band: Band, side: Side, c: Core, idx: nat)
    requires CoreOk(band, side, c, NIL) && NothingAhead(side, c, idx) && c.mine.queues[idx] != []
    ensures At(c, idx, 0)
    ensures c.mine.levels[idx].head == SlotAt(c, idx, 0)
    ensures var n := c.pool[SlotAt(c, idx, 0)];
      && n.price == PriceAt(band, idx) && n.quantity > 0
      && Flat(side, MyLevels(c)) != [] && Flat(side, MyLevels(c))[0] == AsResting(n)
  {
    assert TotalOk(c.pool, c.mine.levels[idx], c.mine.queues[idx]);
    BestLevelHead(side, MyLevels(c), idx, []);
  }

  /** Self-match prevention drops the aggressor's own resting order. */
  lemma SkipOwnOk(band: Band, side: Side, c: Core, idx: nat, a: Aggressor, policy: Policy,
                  remaining: int, trades: seq<Trade>, preventions: nat)
    requires CoreOk(band, side, c, NIL) && NothingAhead(side, c, idx) && c.mine.queues[idx] != []
    requires At(c, idx, 0) && SelfMatch(policy, a.owner, c.pool[SlotAt(c, idx, 0)].owner)
    requires policy == CancelResting
    ensures Droppable(c, idx, 0)
    ensures var c' := DropAt(c, idx, 0);
      && CoreOk(band, side, c', NIL) && NothingAhead(side, c', idx) && TheirLevels(c') == TheirLevels(c)
      && SweepOf(side, c', remaining, trades, preventions + 1, false)
         == Meet(a, policy, SweepOf(side, c, remaining, trades, preventions, false))
  {
    HeadIs(band, side, c, idx);
    DropAtOk(band, side, c, idx, 0, NIL);
    HeadGone(side, MyLevels(c), MyLevels(DropAt(c, idx, 0)), idx);
  }

  /** A trade that leaves something on the resting order reduces the head of the queue. */
  lemma TradePartOk(band: Band, side: Side, c: Core, idx: nat, a: Aggressor, policy: Policy,
                    remaining: int, trades: seq<Trade>, preventions: nat)
    requires CoreOk(band, side, c, NIL) && NothingAhead(side, c, idx) && c.mine.queues[idx] != []
    requires At(c, idx, 0) && !SelfMatch(policy, a.owner, c.pool[SlotAt(c, idx, 0)].owner)
    requires 0 < remaining < c.pool[SlotAt(c, idx, 0)].quantity
    ensures var n, c' := c.pool[SlotAt(c, idx, 0)], ConsumeAt(c, idx, 0, remaining);
      && CoreOk(band, side, c', NIL) && NothingAhead(side, c', idx) && TheirLevels(c') == TheirLevels(c)
      && SweepOf(side, c', 0, trades + [Trade(a.id, n.id, a.side, n.price, remaining)], preventions, false)
         == Meet(a, policy, SweepOf(side, c, remaining, trades, preventions, false))
  {
    HeadIs(band, side, c, idx);
    ConsumeAtOk(band, side, c, idx, 0, remaining);
    var c' := ConsumeAt(c, idx, 0, remaining);
    HeadReduced(side, MyLevels(c), MyLevels(c'), idx, AsResting(c'.pool[SlotAt(c, idx, 0)]));
  }

  /** A trade that completes the resting order takes the head off the queue. */
  lemma TradeAllOk(band: Band, side: Side, c: Core, idx: nat, a: Aggressor, policy: Policy,
                   remaining: int, trades: seq<Trade>, preventions: nat)
    requires CoreOk(band, side, c, NIL) && NothingAhead(side, c, idx) && c.mine.queues[idx] != []
    requires At(c, idx, 0) && !SelfMatch(policy, a.owner, c.pool[SlotAt(c, idx, 0)].owner)
    requires 0 < c.pool[SlotAt(c, idx, 0)].quantity <= remaining
    ensures var n := c.pool[SlotAt(c, idx, 0)];
      var c1 := ConsumeAt(c, idx, 0, n.quantity);
      && CoreOk(band, side, c1, SlotAt(c, idx, 0)) && Droppable(c1, idx, 0)
      && CoreOk(band, side, DropAt(c1, idx, 0), NIL) && NothingAhead(side, DropAt(c1, idx, 0), idx)
      && TheirLevels(DropAt(c1, idx, 0)) == TheirLevels(c)
      && SweepOf(side, DropAt(c1, idx, 0), remaining - n.quantity,
                 trades + [Trade(a.id, n.id, a.side, n.price, n.quantity)], preventions, false)
         == Meet(a, policy, SweepOf(side, c, remaining, trades, preventions, false))
  {
    HeadIs(band, side, c, idx);
    var n := c.pool[SlotAt(c, idx, 0)];
    ConsumeAtOk(band, side, c, idx, 0, n.quantity);
    var c1 := ConsumeAt(c, idx, 0, n.quantity);
    HeadReduced(side, MyLevels(c), MyLevels(c1), idx, AsResting(c1.pool[SlotAt(c, idx, 0)]));
    DropAtOk(band, side, c1, idx, 0, SlotAt(c, idx, 0));
    HeadGone(side, MyLevels(c1), MyLevels(DropAt(c1, idx, 0)), idx);
  }

  /** One encounter, as the data structures see it. */
  datatype Meeting = Meeting(core: Core, remaining: int, trades: seq<Trade>, preventions: nat, stop: bool)

  ghost function MeetCore(a: Aggressor, policy: Policy, idx: nat, m: Meeting): Meeting
    requires At(m.core, idx, 0)
    requires Droppable(m.core, idx, 0)
  {
    var n := m.core.pool[SlotAt(m.core, idx, 0)];
    if SelfMatch(policy, a.owner, n.owner) then
      if policy == CancelResting then m.(core := DropAt(m.core, idx, 0), preventions := m.preventions + 1)
      else m.(stop := true, preventions := m.preventions + 1)
    else
      var traded := Min(m.remaining, n.quantity);
      var c := ConsumeAt(m.core, idx, 0, traded);
      m.(core := if traded == n.quantity then DropAt(c, idx, 0) else c,
         remaining := m.remaining - traded,
         trades := m.trades + [Trade(a.id, n.id, a.side, n.price, traded)])
  }

  ghost function Sweeping(side: Side, m: Meeting): Sweep
    requires AllIn(m.core.pool, m.core.mine.queues)
  {
    SweepOf(side, m.core, m.remaining, m.trades, m.preventions, m.stop)
  }

  /** Where a sweep in progress will end, and the orders it must leave alone. */
  datatype Fate = Fate(sweep: Sweep, opposite: seq<seq<Resting>>)

  ghost function FateOf(a: Aggressor, policy: Policy, side: Side, m: Meeting): Fate
    requires AllIn(m.core.pool, m.core.mine.queues) && AllIn(m.core.pool, m.core.theirs.queues)
  {
    Fate(Run(a, policy, Sweeping(side, m)), TheirLevels(m.core))
  }

  ghost predicate MeetingOk(band: Band, side: Side, m: Meeting, idx: nat) {
    CoreOk(band, side, m.core, NIL) && NothingAhead(side, m.core, idx)
  }

  /** Meeting the head of the best level is meeting the head of the queue. */
  lemma MeetCoreOk(band: Band, side: Side, a: Aggressor, policy: Policy, idx: nat, m: Meeting)
    requires MeetingOk(band, side, m, idx) && m.core.mine.queues[idx] != [] && m.remaining > 0 && !m.stop
    ensures Droppable(m.core, idx, 0)
    ensures IsId(m.core.pool[SlotAt(m.core, idx, 0)].id)
    ensures var m' := MeetCore(a, policy, idx, m);
      && MeetingOk(band, side, m', idx)
      && TheirLevels(m'.core) == TheirLevels(m.core)
      && Sweeping(side, m') == Meet(a, policy, Sweeping(side, m))
  {
    var c := m.core;
    HeadIs(band, side, c, idx);
    DropAtOk(band, side, c, idx, 0, NIL);
    var n := c.pool[SlotAt(c, idx, 0)];
    if SelfMatch(policy, a.owner, n.owner) {
      if policy == CancelResting {
        SkipOwnOk(band, side, c, idx, a, policy, m.remaining, m.trades, m.preventions);
      }
    } else if m.remaining < n.quantity {
      TradePartOk(band, side, c, idx, a, policy, m.remaining, m.trades, m.preventions);
    } else {
      TradeAllOk(band, side, c, idx, a, policy, m.remaining, m.trades, m.preventions);
    }
  }

  /** An encounter touches the queue of its own level only. */
  lemma MeetCoreQueues(a: Aggressor, policy: Policy, idx: nat, m: Meeting)
    requires Droppable(m.core, idx, 0)
    ensures var queues := MeetCore(a, policy, idx, m).core.mine.queues;
      && |queues| == |m.core.mine.queues|
      && queues == m.core.mine.queues[idx := queues[idx]]
    ensures MeetCore(a, policy, idx, m).core.theirs == m.core.theirs
  {
  }

  /** One encounter is one step of the plain sweep, and brings it closer to its end. */
  lemma MeetCoreRuns(band: Band, side: Side, a: Aggressor, policy: Policy, idx: nat, m: Meeting)
    requires MeetingOk(band, side, m, idx) && m.core.mine.queues[idx] != [] && m.remaining > 0 && !m.stop
    requires Crosses(a.side, PriceAt(band, idx), a.limit)
    ensures Droppable(m.core, idx, 0)
    ensures var m' := MeetCore(a, policy, idx, m);
      && MeetingOk(band, side, m', idx)
      && FateOf(a, policy, side, m') == FateOf(a, policy, side, m)
      && Weight(side, m') < Weight(side, m)
  {
    MeetCoreOk(band, side, a, policy, idx, m);
    HeadIs(band, side, m.core, idx);
  }

  /** How far a sweep is from its end. */
  ghost function Weight(side: Side, m: Meeting): nat
    requires AllIn(m.core.pool, m.core.mine.queues)
  {
    3 * |Flat(side, MyLevels(m.core))| + (if m.remaining > 0 then 1 else 0) + (if m.stop then 0 else 1)
  }

  /** The level's head and count tell whether its queue is empty, and an empty level totals zero. */
  lemma LevelTells(band: Band, side: Side, c: Core, spent: int, idx: nat)
    requires CoreOk(band, side, c, spent) && idx < |c.mine.queues|
    ensures idx < |c.mine.levels|
    ensures c.mine.levels[idx].head == NIL <==> c.mine.queues[idx] == []
    ensures c.mine.levels[idx].count == 0 <==> c.mine.queues[idx] == []
    ensures c.mine.levels[idx].count == 0 ==> c.mine.levels[idx].total == 0
    ensures c.mine.queues[idx] != [] ==> At(c, idx, 0) && c.mine.levels[idx].head == SlotAt(c, idx, 0)
    ensures MyLevels(c)[idx] == [] <==> c.mine.queues[idx] == []
  {
    assert TotalOk(c.pool, c.mine.levels[idx], c.mine.queues[idx]);
  }
}

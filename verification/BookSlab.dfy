/** The slab the book's orders live in: nodes joined into one FIFO per price level and one free list.

    Links are indices into the slab.  Everything here is about values: what the slab looks like
    before and after a node is linked, unlinked or freed, and which queues of slots it encodes. */
module BookSlab {
  import opened Types
  import opened BookSpec
  import opened BookLaws
  import opened Arith

  const NIL: int := -1

  datatype OrderNode = OrderNode(id: nat, price: int, quantity: int, prev: int, next: int, owner: nat,
                                 side: Side, live: bool)

  datatype PriceLevel = PriceLevel(total: int, count: nat, head: int, tail: int)

  const EMPTY_LEVEL := PriceLevel(0, 0, NIL, NIL)

  function First(q: seq<nat>): int {
    if q == [] then NIL else q[0]
  }

  function Last(q: seq<nat>): int {
    if q == [] then NIL else q[|q| - 1]
  }

  function Before(q: seq<nat>, i: nat): int
    requires i < |q|
  {
    if i == 0 then NIL else q[i - 1]
  }

  function Behind(q: seq<nat>, i: nat): int
    requires i < |q|
  {
    if i + 1 == |q| then NIL else q[i + 1]
  }

  function Remove(q: seq<nat>, k: nat): (r: seq<nat>)
    requires k < |q|
    ensures |r| == |q| - 1
    ensures forall i :: 0 <= i < |r| ==> r[i] == if i < k then q[i] else q[i + 1]
  {
    q[..k] + q[k + 1..]
  }

  ghost predicate InPool(pool: seq<OrderNode>, q: seq<nat>) {
    forall i :: 0 <= i < |q| ==> q[i] < |pool|
  }

  /** The doubly linked list from head to tail visits exactly the slots of q. */
  ghost predicate Chain(pool: seq<OrderNode>, head: int, tail: int, q: seq<nat>) {
    && InPool(pool, q) && Distinct(q)
    && head == First(q) && tail == Last(q)
    && (forall i {:trigger pool[q[i]]} :: 0 <= i < |q| ==>
          pool[q[i]].prev == Before(q, i) && pool[q[i]].next == Behind(q, i))
  }

  /** The singly linked free list visits exactly the slots of f. */
  ghost predicate FreeChain(pool: seq<OrderNode>, head: int, f: seq<nat>) {
    && InPool(pool, f) && Distinct(f) && head == First(f)
    && (forall i {:trigger pool[f[i]]} :: 0 <= i < |f| ==>
          !pool[f[i]].live && pool[f[i]].next == Behind(f, i))
  }

  // ---------------------------------------------------------------- linking

  function Unlinked(pool: seq<OrderNode>, slot: nat): seq<OrderNode>
    requires slot < |pool|
    requires pool[slot].prev == NIL || 0 <= pool[slot].prev < |pool|
    requires pool[slot].next == NIL || 0 <= pool[slot].next < |pool|
  {
    var prev, next := pool[slot].prev, pool[slot].next;
    var pool1 := if prev != NIL then pool[prev := pool[prev].(next := next)] else pool;
    if next != NIL then pool1[next := pool1[next].(prev := prev)] else pool1
  }

  function UnlinkedLevel(level: PriceLevel, node: OrderNode): PriceLevel
    requires level.count > 0
  {
    level.(head := if node.prev == NIL then node.next else level.head,
           tail := if node.next == NIL then node.prev else level.tail,
           count := level.count - 1)
  }

  /** Unlinking rewrites one link in each neighbour and nothing else. */
  lemma UnlinkedAt(pool: seq<OrderNode>, slot: nat, x: nat)
    requires slot < |pool| && x < |pool|
    requires pool[slot].prev == NIL || 0 <= pool[slot].prev < |pool|
    requires pool[slot].next == NIL || 0 <= pool[slot].next < |pool|
    ensures |Unlinked(pool, slot)| == |pool|
    ensures Unlinked(pool, slot)[x] == pool[x].(
      next := if x == pool[slot].prev then pool[slot].next else pool[x].next,
      prev := if x == pool[slot].next then pool[slot].prev else pool[x].prev)
  {
  }

  lemma RemoveDistinct(q: seq<nat>, k: nat)
    requires Distinct(q) && k < |q|
    ensures Distinct(Remove(q, k))
    ensures First(Remove(q, k)) == (if k == 0 then Behind(q, k) else First(q))
    ensures Last(Remove(q, k)) == (if k + 1 == |q| then Before(q, k) else Last(q))
    ensures forall x :: x in Remove(q, k) <==> x in q && x != q[k]
  {
    forall x | x in q && x != q[k] ensures x in Remove(q, k) {
      var i :| 0 <= i < |q| && q[i] == x;
      assert Remove(q, k)[if i < k then i else i - 1] == x;
    }
  }

  lemma UnlinkedLinks(pool: seq<OrderNode>, head: int, tail: int, q: seq<nat>, k: nat, j: nat)
    requires Chain(pool, head, tail, q) && k < |q| && j < |q| && j != k
    ensures var pool' := Unlinked(pool, q[k]);
      && |pool'| == |pool|
      && pool'[q[j]].prev == (if j == k + 1 then Before(q, k) else Before(q, j))
      && pool'[q[j]].next == (if j + 1 == k then Behind(q, k) else Behind(q, j))
  {
    UnlinkedAt(pool, q[k], q[j]);
  }

  lemma UnlinkedAllLinks(pool: seq<OrderNode>, head: int, tail: int, q: seq<nat>, k: nat)
    requires Chain(pool, head, tail, q) && k < |q|
    ensures |Unlinked(pool, q[k])| == |pool|
    ensures var pool', q' := Unlinked(pool, q[k]), Remove(q, k);
      forall i {:trigger pool'[q'[i]]} :: 0 <= i < |q'| ==>
        pool'[q'[i]].prev == Before(q', i) && pool'[q'[i]].next == Behind(q', i)
  {
    UnlinkedAt(pool, q[k], q[k]);
    var pool', q' := Unlinked(pool, q[k]), Remove(q, k);
    forall i | 0 <= i < |q'|
      ensures pool'[q'[i]].prev == Before(q', i) && pool'[q'[i]].next == Behind(q', i)
    {
      UnlinkedLinks(pool, head, tail, q, k, if i < k then i else i + 1);
    }
  }

  /** Taking the k-th node out of its list leaves the list without it. */
  lemma UnlinkChain(pool: seq<OrderNode>, level: PriceLevel, q: seq<nat>, k: nat)
    requires Chain(pool, level.head, level.tail, q) && k < |q| && level.count == |q|
    ensures var level' := UnlinkedLevel(level, pool[q[k]]);
      Chain(Unlinked(pool, q[k]), level'.head, level'.tail, Remove(q, k))
  {
    RemoveDistinct(q, k);
    UnlinkedAllLinks(pool, level.head, level.tail, q, k);
  }

  /** Unlinking writes only the links of the neighbours. */
  lemma UnlinkFrame(pool: seq<OrderNode>, q: seq<nat>, head: int, tail: int, k: nat, slot: nat)
    requires Chain(pool, head, tail, q) && k < |q| && slot < |pool|
    ensures var pool' := Unlinked(pool, q[k]);
      && |pool'| == |pool|
      && pool'[slot] == pool[slot].(prev := pool'[slot].prev, next := pool'[slot].next)
      && (slot !in q ==> pool'[slot] == pool[slot])
      && pool'[q[k]] == pool[q[k]]
  {
    UnlinkedAt(pool, q[k], slot);
    UnlinkedAt(pool, q[k], q[k]);
  }

  function Linked(pool: seq<OrderNode>, tail: int, slot: nat): seq<OrderNode>
    requires slot < |pool| && (tail == NIL || 0 <= tail < |pool|)
  {
    var pool1 := pool[slot := pool[slot].(prev := tail, next := NIL)];
    if tail != NIL then pool1[tail := pool1[tail].(next := slot)] else pool1
  }

  function LinkedLevel(level: PriceLevel, slot: nat): PriceLevel {
    level.(head := if level.tail == NIL then slot else level.head, tail := slot,
           count := level.count + 1)
  }

  /** A node linked at the back is the newest of its list. */
  lemma LinkChain(pool: seq<OrderNode>, level: PriceLevel, q: seq<nat>, slot: nat)
    requires Chain(pool, level.head, level.tail, q) && slot < |pool| && slot !in q
    ensures var level' := LinkedLevel(level, slot);
      Chain(Linked(pool, level.tail, slot), level'.head, level'.tail, q + [slot])
  {
  }

  lemma LinkFrame(pool: seq<OrderNode>, q: seq<nat>, head: int, tail: int, slot: nat, other: nat)
    requires Chain(pool, head, tail, q) && slot < |pool| && slot !in q && other < |pool|
    ensures var pool' := Linked(pool, tail, slot);
      && |pool'| == |pool|
      && pool'[other] == pool[other].(prev := pool'[other].prev, next := pool'[other].next)
      && (other !in q && other != slot ==> pool'[other] == pool[other])
  {
  }

  lemma ChainFrame(pool: seq<OrderNode>, pool': seq<OrderNode>, head: int, tail: int, q: seq<nat>)
    requires Chain(pool, head, tail, q)
    requires |pool| <= |pool'| && forall i :: 0 <= i < |q| ==>
      pool'[q[i]].prev == pool[q[i]].prev && pool'[q[i]].next == pool[q[i]].next
    ensures Chain(pool', head, tail, q)
  {
  }

  // ---------------------------------------------------------------- levels and queues

  function AsResting(n: OrderNode): Resting {
    Resting(n.id, n.owner, n.price, n.quantity)
  }

  ghost function Orders(pool: seq<OrderNode>, q: seq<nat>): (r: seq<Resting>)
    requires InPool(pool, q)
    ensures |r| == |q|
  {
    seq(|q|, i requires 0 <= i < |q| => AsResting(pool[q[i]]))
  }

  /** price_at(): base + idx * tick, written as the idx-th price of the grid. */
  function PriceAt(band: Band, idx: nat): int {
    if idx == 0 then band.base else PriceAt(band, idx - 1) + band.tick
  }

  function IndexOf(band: Band, p: int): int
    requires band.Valid()
  {
    (p - band.base) / band.tick
  }

  /** A node of this level's queue.  Only the node being consumed may be down to zero. */
  predicate Queued(n: OrderNode, side: Side, price: int, mayBeSpent: bool) {
    n.live && n.side == side && n.price == price && (n.quantity > 0 || mayBeSpent)
  }

  /** The level's head, tail and count spell out a FIFO of this level's live orders. */
  ghost predicate LevelOk(pool: seq<OrderNode>, level: PriceLevel, q: seq<nat>, side: Side, price: int,
                          spent: int)
  {
    && Chain(pool, level.head, level.tail, q)
    && level.count == |q|
    && (forall i {:trigger pool[q[i]]} :: 0 <= i < |q| ==>
          Queued(pool[q[i]], side, price, q[i] == spent))
  }

  /** The level's total is the quantity of its FIFO. */
  ghost predicate TotalOk(pool: seq<OrderNode>, level: PriceLevel, q: seq<nat>) {
    InPool(pool, q) && level.total == Total(Orders(pool, q))
  }

  ghost predicate AllIn(pool: seq<OrderNode>, queues: seq<seq<nat>>) {
    forall i {:trigger queues[i]} :: 0 <= i < |queues| ==> InPool(pool, queues[i])
  }

  /** The resting orders of every level. */
  ghost function AllOrders(pool: seq<OrderNode>, queues: seq<seq<nat>>): (r: seq<seq<Resting>>)
    requires AllIn(pool, queues)
    ensures |r| == |queues|
  {
    seq(|queues|, i requires 0 <= i < |queues| => Orders(pool, queues[i]))
  }

  /** One side of the book: its levels, and the queue of slots each level's links spell out. */
  datatype Ladder = Ladder(levels: seq<PriceLevel>, queues: seq<seq<nat>>)

  ghost predicate LadderOk(band: Band, pool: seq<OrderNode>, l: Ladder, side: Side, spent: int) {
    && |l.levels| == |l.queues|
    && (forall idx: nat {:trigger TotalOk(pool, l.levels[idx], l.queues[idx])} :: idx < |l.levels| ==>
          && TotalOk(pool, l.levels[idx], l.queues[idx])
          && LevelOk(pool, l.levels[idx], l.queues[idx], side, PriceAt(band, idx), spent))
  }

  lemma LadderIn(band: Band, pool: seq<OrderNode>, l: Ladder, side: Side, spent: int)
    requires LadderOk(band, pool, l, side, spent)
    ensures AllIn(pool, l.queues)
  {
    forall i | 0 <= i < |l.queues| ensures InPool(pool, l.queues[i]) {
      assert TotalOk(pool, l.levels[i], l.queues[i]);
    }
  }

  ghost predicate InLadder(band: Band, queues: seq<seq<nat>>, slot: nat, price: int) {
    exists idx: nat {:trigger queues[idx]} :: idx < |queues| && PriceAt(band, idx) == price && slot in queues[idx]
  }

  /** Where a slot belongs: its own level's queue while it is live, the free list otherwise. */
  ghost predicate Placed(band: Band, side: Side, mine: seq<seq<nat>>, theirs: seq<seq<nat>>, free: seq<nat>,
                         slot: nat, n: OrderNode)
  {
    if !n.live then slot in free
    else if n.side == side then InLadder(band, mine, slot, n.price)
    else InLadder(band, theirs, slot, n.price)
  }

  ghost predicate AllPlaced(band: Band, pool: seq<OrderNode>, side: Side, mine: seq<seq<nat>>,
                            theirs: seq<seq<nat>>, free: seq<nat>)
  {
    forall x: nat {:trigger Placed(band, side, mine, theirs, free, x, pool[x])} :: x < |pool| ==>
      Placed(band, side, mine, theirs, free, x, pool[x])
  }

  /** Every slot is in exactly one place: one level's FIFO or the free list.
      Seen from one side: mine is that side's ladder and theirs the opposite one's. */
  ghost predicate SlabOk(band: Band, pool: seq<OrderNode>, freeHead: int, free: seq<nat>,
                         side: Side, mine: Ladder, theirs: Ladder, spent: int)
  {
    && band.Valid()
    && LadderOk(band, pool, mine, side, spent)
    && LadderOk(band, pool, theirs, side.Opposite(), spent)
    && FreeChain(pool, freeHead, free)
    && AllPlaced(band, pool, side, mine.queues, theirs.queues, free)
  }

  /** It does not matter from which side the slab is seen. */
  lemma SeenFromOtherSide(band: Band, pool: seq<OrderNode>, freeHead: int, free: seq<nat>,
                          side: Side, mine: Ladder, theirs: Ladder, spent: int)
    requires SlabOk(band, pool, freeHead, free, side, mine, theirs, spent)
    ensures SlabOk(band, pool, freeHead, free, side.Opposite(), theirs, mine, spent)
  {
    forall x: nat | x < |pool|
      ensures Placed(band, side.Opposite(), theirs.queues, mine.queues, free, x, pool[x])
    {
      assert Placed(band, side, mine.queues, theirs.queues, free, x, pool[x]);
    }
  }

  lemma {:induction false} PriceFormula(band: Band, idx: nat)
    ensures PriceAt(band, idx) == band.base + band.tick * idx
  {
    if idx > 0 {
      PriceFormula(band, idx - 1);
      Distribute(band.tick, idx, 1);
    }
  }

  lemma {:induction false} PriceRises(band: Band, i: nat, j: nat)
    requires band.Valid() && i < j
    ensures PriceAt(band, i) < PriceAt(band, j)
  {
    if i + 1 < j {
      PriceRises(band, i, j - 1);
    }
  }

  lemma PriceInjective(band: Band, i: nat, j: nat)
    requires band.Valid() && PriceAt(band, i) == PriceAt(band, j)
    ensures i == j
  {
    if i < j {
      PriceRises(band, i, j);
    } else if j < i {
      PriceRises(band, j, i);
    }
  }

  /** index_of() inverts price_at(). */
  lemma IndexOfPrice(band: Band, idx: nat)
    requires band.Valid()
    ensures IndexOf(band, PriceAt(band, idx)) == idx
  {
    PriceFormula(band, idx);
    QuotientUnique(band.tick * idx, band.tick, idx);
  }

  /** Every price on the grid has its slot. */
  lemma PriceOfIndex(band: Band, p: int)
    requires band.Valid() && band.Contains(p)
    ensures 0 <= IndexOf(band, p) <= IndexOf(band, band.max)
    ensures PriceAt(band, IndexOf(band, p)) == p
  {
    var idx := IndexOf(band, p);
    Euclid(p - band.base, band.tick);
    Euclid(band.max - band.base, band.tick);
    if idx < 0 {
      Scale(idx, -1, band.tick);
      Commute(band.tick, idx);
    }
    PriceFormula(band, idx);
    var top := IndexOf(band, band.max);
    if top < idx {
      Scale(top + 1, idx, band.tick);
      Commute(band.tick, idx);
      Commute(band.tick, top + 1);
      Distribute(band.tick, top, 1);
    }
  }

  lemma LevelFrame(pool: seq<OrderNode>, pool': seq<OrderNode>, level: PriceLevel, q: seq<nat>, side: Side,
                   price: int, spent: int, spent': int)
    requires LevelOk(pool, level, q, side, price, spent)
    requires |pool| <= |pool'| && forall i {:trigger pool'[q[i]]} :: 0 <= i < |q| ==> pool'[q[i]] == pool[q[i]]
    requires spent == spent' || spent !in q
    ensures LevelOk(pool', level, q, side, price, spent')
    ensures Orders(pool', q) == Orders(pool, q)
    ensures TotalOk(pool, level, q) ==> TotalOk(pool', level, q)
  {
    assert Orders(pool', q) == Orders(pool, q);
  }

  /** A live node of one level is in no other level's queue. */
  lemma NotInBoth(pool: seq<OrderNode>, q: seq<nat>, side: Side, price: int, spent: int,
                  n: OrderNode, x: nat, side': Side, price': int)
    requires InPool(pool, q) && x < |pool| && pool[x] == n
    requires forall i {:trigger pool[q[i]]} :: 0 <= i < |q| ==> Queued(pool[q[i]], side, price, q[i] == spent)
    requires n.side == side' && n.price == price' && (side != side' || price != price')
    ensures x !in q
  {
  }

  /** A change that leaves live nodes outside one queue alone leaves every other level alone. */
  lemma OtherLevelOk(pool: seq<OrderNode>, pool': seq<OrderNode>, spent: int, spent': int,
                     level0: PriceLevel, q0: seq<nat>, side0: Side, price0: int,
                     level: PriceLevel, q: seq<nat>, side: Side, price: int)
    requires LevelOk(pool, level0, q0, side0, price0, spent)
    requires LevelOk(pool, level, q, side, price, spent) && TotalOk(pool, level, q)
    requires side0 != side || price0 != price
    requires |pool| <= |pool'|
    requires forall x: nat {:trigger pool'[x]} :: x < |pool| && pool[x].live && x !in q0 ==> pool'[x] == pool[x]
    requires spent == spent' || spent == NIL || spent in q0
    ensures LevelOk(pool', level, q, side, price, spent') && TotalOk(pool', level, q)
    ensures Orders(pool', q) == Orders(pool, q)
  {
    forall i {:trigger pool'[q[i]]} | 0 <= i < |q| ensures pool'[q[i]] == pool[q[i]] && q[i] !in q0 {
      NotInBoth(pool, q0, side0, price0, spent, pool[q[i]], q[i], side, price);
    }
    LevelFrame(pool, pool', level, q, side, price, spent, spent');
  }
}

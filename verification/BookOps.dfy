/** Reading the plain book off the data structures: which ids are live, and what cancelling, resizing
    and resting one order does to the joined queues. */
module BookOps {
  import opened Types
  import opened IdTables
  import opened BookSpec
  import opened BookLaws
  import opened BookSlab
  import opened BookFlat
  import opened BookCore

  /** What the data structures know of the order at place k of level idx. */
  lemma OrderAt(band: Band, side: Side, c: Core, spent: int, idx: nat, k: nat)
    requires CoreOk(band, side, c, spent) && idx < |c.mine.queues| && k < |c.mine.queues[idx]|
    ensures At(c, idx, k)
    ensures var n := c.pool[SlotAt(c, idx, k)];
      && Queued(n, side, PriceAt(band, idx), SlotAt(c, idx, k) == spent)
      && MyLevels(c)[idx][k] == AsResting(n)
      && n.id in c.ids && c.ids[n.id] == SlotAt(c, idx, k) && IsId(n.id)
  {
    assert TotalOk(c.pool, c.mine.levels[idx], c.mine.queues[idx]);
    var slot := c.mine.queues[idx][k];
    assert Queued(c.pool[slot], side, PriceAt(band, idx), slot == spent);
    assert NodeOk(c.pool, c.ids, slot) && IdOk(c.pool, c.ids, c.pool[slot].id);
  }

  /** An id rests in one place only. */
  lemma OnlyOnce(band: Band, side: Side, c: Core, spent: int, i: nat, j: nat, idx: nat, k: nat)
    requires CoreOk(band, side, c, spent)
    requires idx < |c.mine.queues| && k < |c.mine.queues[idx]| && i < |c.mine.queues| && j < |c.mine.queues[i]|
    requires MyLevels(c)[i][j].id == MyLevels(c)[idx][k].id
    ensures i == idx && j == k
  {
    OrderAt(band, side, c, spent, i, j);
    OrderAt(band, side, c, spent, idx, k);
    PriceInjective(band, i, idx);
    assert TotalOk(c.pool, c.mine.levels[idx], c.mine.queues[idx]);
    assert Distinct(c.mine.queues[idx]);
  }

  /** Only this side's queue mentions an id that rests on it. */
  lemma NotOpposite(band: Band, side: Side, c: Core, spent: int, idx: nat, k: nat, i: nat, j: nat)
    requires CoreOk(band, side, c, spent) && idx < |c.mine.queues| && k < |c.mine.queues[idx]|
    requires i < |c.theirs.queues| && j < |c.theirs.queues[i]|
    ensures MyLevels(c)[idx][k].id != TheirLevels(c)[i][j].id
  {
    OrderAt(band, side, c, spent, idx, k);
    CoreTurned(band, side, c, spent);
    OrderAt(band, side.Opposite(), c.Turned(), spent, i, j);
  }

  lemma InFlat(side: Side, levels: seq<seq<Resting>>, i: nat, j: nat)
    requires i < |levels| && j < |levels[i]|
    ensures levels[i][j] in Flat(side, levels) && HasId(Flat(side, levels), levels[i][j].id)
  {
    FlatMember(side, levels, levels[i][j]);
    assert levels[i][j] in levels[i];
    var n :| 0 <= n < |Flat(side, levels)| && Flat(side, levels)[n] == levels[i][j];
  }

  lemma FromFlat(side: Side, levels: seq<seq<Resting>>, id: nat) returns (i: nat, j: nat)
    requires HasId(Flat(side, levels), id)
    ensures i < |levels| && j < |levels[i]| && levels[i][j].id == id
  {
    var n :| 0 <= n < |Flat(side, levels)| && Flat(side, levels)[n].id == id;
    FlatMember(side, levels, Flat(side, levels)[n]);
    var i' :| 0 <= i' < |levels| && Flat(side, levels)[n] in levels[i'];
    var j' :| 0 <= j' < |levels[i']| && levels[i'][j'] == Flat(side, levels)[n];
    return i', j';
  }

  /** A live slot on this side stands somewhere in its own level's queue. */
  lemma FindSlot(band: Band, side: Side, c: Core, spent: int, slot: nat) returns (idx: nat, k: nat)
    requires CoreOk(band, side, c, spent)
    requires slot < |c.pool| && c.pool[slot].live && c.pool[slot].side == side
    ensures At(c, idx, k) && SlotAt(c, idx, k) == slot
    ensures idx == IndexOf(band, c.pool[slot].price)
  {
    assert Placed(band, side, c.mine.queues, c.theirs.queues, c.free, slot, c.pool[slot]);
    var i: nat :| i < |c.mine.queues| && PriceAt(band, i) == c.pool[slot].price && slot in c.mine.queues[i];
    var j :| 0 <= j < |c.mine.queues[i]| && c.mine.queues[i][j] == slot;
    IndexOfPrice(band, i);
    OrderAt(band, side, c, spent, i, j);
    return i, j;
  }

  /** An indexed id is live on the side its node says, and on no other. */
  lemma IndexedIsLive(band: Band, side: Side, c: Core, id: nat)
    requires CoreOk(band, side, c, NIL) && id in c.ids
    ensures c.ids[id] < |c.pool| && c.pool[c.ids[id]].live && c.pool[c.ids[id]].id == id && IsId(id)
    ensures c.pool[c.ids[id]].side == side ==>
      HasId(Flat(side, MyLevels(c)), id) && !HasId(Flat(side.Opposite(), TheirLevels(c)), id)
  {
    assert IdOk(c.pool, c.ids, id);
    if c.pool[c.ids[id]].side == side {
      var idx, k := FindSlot(band, side, c, NIL, c.ids[id]);
      OrderAt(band, side, c, NIL, idx, k);
      InFlat(side, MyLevels(c), idx, k);
      if HasId(Flat(side.Opposite(), TheirLevels(c)), id) {
        var i, j := FromFlat(side.Opposite(), TheirLevels(c), id);
        NotOpposite(band, side, c, NIL, idx, k, i, j);
      }
    }
  }

  /** The id index answers "is this order live?" for the plain book. */
  lemma LiveIff(band: Band, side: Side, c: Core, id: nat)
    requires CoreOk(band, side, c, NIL)
    ensures id in c.ids <==>
      HasId(Flat(side, MyLevels(c)), id) || HasId(Flat(side.Opposite(), TheirLevels(c)), id)
  {
    CoreTurned(band, side, c, NIL);
    if id in c.ids {
      IndexedIsLive(band, side, c, id);
      IndexedIsLive(band, side.Opposite(), c.Turned(), id);
    } else {
      if HasId(Flat(side, MyLevels(c)), id) {
        var i, j := FromFlat(side, MyLevels(c), id);
        OrderAt(band, side, c, NIL, i, j);
      }
      if HasId(Flat(side.Opposite(), TheirLevels(c)), id) {
        var i, j := FromFlat(side.Opposite(), TheirLevels(c), id);
        OrderAt(band, side.Opposite(), c.Turned(), NIL, i, j);
      }
    }
  }

  /** Nothing ahead of or behind a level carries an id that rests on it. */
  lemma NotAround(band: Band, side: Side, c: Core, idx: nat, k: nat)
    requires CoreOk(band, side, c, NIL) && At(c, idx, k)
    ensures var id := MyLevels(c)[idx][k].id;
      && !HasId(AheadOf(side, MyLevels(c), idx), id) && !HasId(BehindOf(side, MyLevels(c), idx), id)
      && !HasId(MyLevels(c)[idx][..k], id) && !HasId(MyLevels(c)[idx][k + 1..], id)
  {
    var levels: seq<seq<Resting>> := MyLevels(c);
    var id := levels[idx][k].id;
    if HasId(Flat(side, levels[..idx]), id) {
      var i, j := FromFlat(side, levels[..idx], id);
      OnlyOnce(band, side, c, NIL, i, j, idx, k);
    }
    if HasId(Flat(side, levels[idx + 1..]), id) {
      var i, j := FromFlat(side, levels[idx + 1..], id);
      OnlyOnce(band, side, c, NIL, idx + 1 + i, j, idx, k);
    }
    var before, after := levels[idx][..k], levels[idx][k + 1..];
    if HasId(before, id) {
      var j :| 0 <= j < |before| && before[j].id == id;
      OnlyOnce(band, side, c, NIL, idx, j, idx, k);
    }
    if HasId(after, id) {
      var j :| 0 <= j < |after| && after[j].id == id;
      OnlyOnce(band, side, c, NIL, idx, k + 1 + j, idx, k);
    }
  }

  /** The queue, taken apart around one order. */
  lemma Around(band: Band, side: Side, c: Core, idx: nat, k: nat) returns (a: seq<Resting>, b: seq<Resting>)
    requires CoreOk(band, side, c, NIL) && At(c, idx, k)
    ensures var x := MyLevels(c)[idx][k];
      && Flat(side, MyLevels(c)) == a + [x] + b
      && !HasId(a, x.id) && !HasId(b, x.id)
    ensures Flat(side, MyLevels(c)[idx := MyLevels(c)[idx][..k] + MyLevels(c)[idx][k + 1..]]) == a + b
    ensures forall r :: Flat(side, MyLevels(c)[idx := MyLevels(c)[idx][k := r]]) == a + [r] + b
  {
    var levels: seq<seq<Resting>> := MyLevels(c);
    NotAround(band, side, c, idx, k);
    NoIdConcat(AheadOf(side, levels, idx), levels[idx][..k], levels[idx][k].id);
    NoIdConcat(levels[idx][k + 1..], BehindOf(side, levels, idx), levels[idx][k].id);
    a, b := AheadOf(side, levels, idx) + levels[idx][..k], levels[idx][k + 1..] + BehindOf(side, levels, idx);
    FlatAround(side, levels, idx, k);
    forall r ensures Flat(side, levels[idx := levels[idx][k := r]]) == a + [r] + b {
      FlatReplaced(side, levels, idx, k, r);
    }
  }

  /** The joined queue with another order in one place of one level. */
  lemma FlatReplaced(side: Side, levels: seq<seq<Resting>>, idx: nat, k: nat, r: Resting)
    requires idx < |levels| && k < |levels[idx]|
    ensures Flat(side, levels[idx := levels[idx][k := r]])
         == (AheadOf(side, levels, idx) + levels[idx][..k]) + [r] + (levels[idx][k + 1..] + BehindOf(side, levels, idx))
  {
    FlatUpdate(side, levels, idx, levels[idx][k := r]);
    Rebracket(AheadOf(side, levels, idx), levels[idx], k, r, BehindOf(side, levels, idx));
  }

  /** ... as it is, and with that order taken out. */
  lemma FlatAround(side: Side, levels: seq<seq<Resting>>, idx: nat, k: nat)
    requires idx < |levels| && k < |levels[idx]|
    ensures var a, b := AheadOf(side, levels, idx) + levels[idx][..k], levels[idx][k + 1..] + BehindOf(side, levels, idx);
      && Flat(side, levels) == a + [levels[idx][k]] + b
      && Flat(side, levels[idx := levels[idx][..k] + levels[idx][k + 1..]]) == a + b
  {
    var level := levels[idx];
    var before, after := AheadOf(side, levels, idx), BehindOf(side, levels, idx);
    FlatReplaced(side, levels, idx, k, level[k]);
    assert level[k := level[k]] == level && levels[idx := level] == levels;
    FlatUpdate(side, levels, idx, level[..k] + level[k + 1..]);
    assert before + (level[..k] + level[k + 1..]) + after == (before + level[..k]) + (level[k + 1..] + after);
  }

  lemma Rebracket(before: seq<Resting>, level: seq<Resting>, k: nat, r: Resting, after: seq<Resting>)
    requires k < |level|
    ensures before + level[k := r] + after == (before + level[..k]) + [r] + (level[k + 1..] + after)
  {
  }

  lemma NoIdConcat(a: seq<Resting>, b: seq<Resting>, id: nat)
    requires !HasId(a, id) && !HasId(b, id)
    ensures !HasId(a + b, id)
  {
  }

  lemma WithoutAt(a: seq<Resting>, x: Resting, b: seq<Resting>)
    requires !HasId(a, x.id) && !HasId(b, x.id)
    ensures Without(a + [x] + b, x.id) == a + b
  {
    WithoutConcat(a + [x], b, x.id);
    WithoutConcat(a, [x], x.id);
    WithoutAbsent(a, x.id);
    WithoutAbsent(b, x.id);
    assert [x][1..] == [];
  }

  /** Dropping the order at (idx, k) is cancelling it in the plain book. */
  lemma DropIsCancel(band: Band, side: Side, c: Core, idx: nat, k: nat)
    requires CoreOk(band, side, c, NIL) && At(c, idx, k)
    ensures Droppable(c, idx, k) && CoreOk(band, side, DropAt(c, idx, k), NIL)
    ensures var c', id := DropAt(c, idx, k), c.pool[SlotAt(c, idx, k)].id;
      && Flat(side, MyLevels(c')) == Without(Flat(side, MyLevels(c)), id)
      && Flat(side.Opposite(), TheirLevels(c')) == Without(Flat(side.Opposite(), TheirLevels(c)), id)
  {
    var a, b := Around(band, side, c, idx, k);
    OrderAt(band, side, c, NIL, idx, k);
    WithoutAt(a, MyLevels(c)[idx][k], b);
    NotTheirs(band, side, c, idx, k);
    WithoutAbsent(Flat(side.Opposite(), TheirLevels(c)), MyLevels(c)[idx][k].id);
    DropAtOk(band, side, c, idx, k, NIL);
  }

  lemma NotTheirs(band: Band, side: Side, c: Core, idx: nat, k: nat)
    requires CoreOk(band, side, c, NIL) && At(c, idx, k)
    ensures !HasId(Flat(side.Opposite(), TheirLevels(c)), MyLevels(c)[idx][k].id)
  {
    OrderAt(band, side, c, NIL, idx, k);
    IndexedIsLive(band, side, c, MyLevels(c)[idx][k].id);
  }

  lemma ResizedAround(a: seq<Resting>, x: Resting, b: seq<Resting>, quantity: int)
    requires !HasId(a, x.id) && !HasId(b, x.id)
    ensures Resized(a + [x] + b, x.id, quantity) == a + [x.(quantity := quantity)] + b
  {
    ResizedConcat(a + [x], b, x.id, quantity);
    ResizedConcat(a, [x], x.id, quantity);
    ResizedAbsent(a, x.id, quantity);
    ResizedAbsent(b, x.id, quantity);
    assert [x][1..] == [];
  }

  /** Consuming part of the order at (idx, k) is resizing it in the plain book. */
  lemma ConsumeIsResize(band: Band, side: Side, c: Core, idx: nat, k: nat, traded: int)
    requires CoreOk(band, side, c, NIL) && At(c, idx, k)
    requires 0 <= traded < c.pool[SlotAt(c, idx, k)].quantity
    ensures var c', n := ConsumeAt(c, idx, k, traded), c.pool[SlotAt(c, idx, k)];
      && CoreOk(band, side, c', NIL) && TheirLevels(c') == TheirLevels(c)
      && Flat(side, MyLevels(c')) == Resized(Flat(side, MyLevels(c)), n.id, n.quantity - traded)
  {
    var a, b := Around(band, side, c, idx, k);
    OrderAt(band, side, c, NIL, idx, k);
    ConsumeAtOk(band, side, c, idx, k, traded);
    var x := MyLevels(c)[idx][k];
    ResizedAround(a, x, b, x.quantity - traded);
  }

  /** The node behind a live id is the plain book's order. */
  lemma LookupIs(band: Band, side: Side, c: Core, idx: nat, k: nat)
    requires CoreOk(band, side, c, NIL) && At(c, idx, k)
    ensures var n := c.pool[SlotAt(c, idx, k)];
      HasId(Flat(side, MyLevels(c)), n.id) && Lookup(Flat(side, MyLevels(c)), n.id) == AsResting(n)
  {
    var a, b := Around(band, side, c, idx, k);
    OrderAt(band, side, c, NIL, idx, k);
    LookupConcat(a, MyLevels(c)[idx][k], b);
  }

  /** Joining the back of its price level is joining the queue in price-time priority. */
  lemma RestIsEnqueue(band: Band, side: Side, c: Core, idx: nat, r: Resting)
    requires CoreOk(band, side, c, NIL) && idx < |c.mine.queues| && r.price == PriceAt(band, idx)
    ensures Flat(side, MyLevels(c)[idx := MyLevels(c)[idx] + [r]]) == Enqueue(side, Flat(side, MyLevels(c)), r)
  {
    var levels: seq<seq<Resting>> := MyLevels(c);
    forall x | x in AheadOf(side, levels, idx) + levels[idx] ensures !Ahead(side, r.price, x.price) {
      RankOf(band, side, c, idx, x);
    }
    forall x | x in BehindOf(side, levels, idx) ensures Ahead(side, r.price, x.price) {
      RankOf(band, side, c, idx, x);
    }
    FlatSplit(side, levels, idx);
    FlatUpdate(side, levels, idx, levels[idx] + [r]);
    EnqueueSplit(side, AheadOf(side, levels, idx) + levels[idx], BehindOf(side, levels, idx), r);
    assert AheadOf(side, levels, idx) + (levels[idx] + [r]) == AheadOf(side, levels, idx) + levels[idx] + [r];
  }

  /** Every order of a level is at the level's price. */
  lemma LevelPrice(band: Band, side: Side, c: Core, idx: nat, x: Resting)
    requires CoreOk(band, side, c, NIL) && idx < |c.mine.queues| && x in MyLevels(c)[idx]
    ensures x.price == PriceAt(band, idx)
  {
    var levels: seq<seq<Resting>> := MyLevels(c);
    var k :| 0 <= k < |levels[idx]| && levels[idx][k] == x;
    OrderAt(band, side, c, NIL, idx, k);
  }

  lemma LowerLevels(band: Band, side: Side, c: Core, idx: nat, x: Resting)
    requires CoreOk(band, side, c, NIL) && idx < |c.mine.queues| && x in Flat(side, MyLevels(c)[..idx])
    ensures x.price < PriceAt(band, idx)
  {
    var lower: seq<seq<Resting>> := MyLevels(c)[..idx];
    FlatMember(side, lower, x);
    var i :| 0 <= i < |lower| && x in lower[i];
    LevelPrice(band, side, c, i, x);
    PriceRises(band, i, idx);
  }

  lemma HigherLevels(band: Band, side: Side, c: Core, idx: nat, x: Resting)
    requires CoreOk(band, side, c, NIL) && idx < |c.mine.queues| && x in Flat(side, MyLevels(c)[idx + 1..])
    ensures PriceAt(band, idx) < x.price
  {
    var higher: seq<seq<Resting>> := MyLevels(c)[idx + 1..];
    FlatMember(side, higher, x);
    var i :| 0 <= i < |higher| && x in higher[i];
    LevelPrice(band, side, c, idx + 1 + i, x);
    PriceRises(band, idx, idx + 1 + i);
  }

  /** Levels ahead hold better prices, levels behind worse ones. */
  lemma RankOf(band: Band, side: Side, c: Core, idx: nat, x: Resting)
    requires CoreOk(band, side, c, NIL) && idx < |c.mine.queues|
    ensures x in MyLevels(c)[idx] ==> x.price == PriceAt(band, idx)
    ensures x in AheadOf(side, MyLevels(c), idx) ==> Ahead(side, x.price, PriceAt(band, idx))
    ensures x in BehindOf(side, MyLevels(c), idx) ==> Ahead(side, PriceAt(band, idx), x.price)
  {
    if x in MyLevels(c)[idx] {
      LevelPrice(band, side, c, idx, x);
    }
    if x in Flat(side, MyLevels(c)[..idx]) {
      LowerLevels(band, side, c, idx, x);
    }
    if x in Flat(side, MyLevels(c)[idx + 1..]) {
      HigherLevels(band, side, c, idx, x);
    }
  }

  lemma FlatPositive(band: Band, side: Side, c: Core)
    requires CoreOk(band, side, c, NIL)
    ensures Positive(Flat(side, MyLevels(c)))
  {
    var queue, levels: seq<seq<Resting>> := Flat(side, MyLevels(c)), MyLevels(c);
    forall n | 0 <= n < |queue| ensures queue[n].quantity > 0 {
      FlatMember(side, levels, queue[n]);
      var i :| 0 <= i < |levels| && queue[n] in levels[i];
      var k :| 0 <= k < |levels[i]| && levels[i][k] == queue[n];
      OrderAt(band, side, c, NIL, i, k);
    }
  }

  // ------------------------------------------------------------ the whole book

  /** The plain book the data structures stand for, seen from one side. */
  ghost function BookOf(band: Band, policy: Policy, preventions: nat, side: Side, c: Core): Book
    requires AllIn(c.pool, c.mine.queues) && AllIn(c.pool, c.theirs.queues)
  {
    var mine, theirs := Flat(side, MyLevels(c)), Flat(side.Opposite(), TheirLevels(c));
    if side.Buy? then Book(band, policy, mine, theirs, preventions)
    else Book(band, policy, theirs, mine, preventions)
  }

  /** A sweep of this side reaches the state the plain Match() describes. */
  lemma SweptBook(band: Band, policy: Policy, p: nat, p': nat, side: Side, c: Core, c': Core, a: Aggressor,
                  quantity: int, remaining: int, trades: seq<Trade>, stop: bool)
    requires CoreOk(band, side, c, NIL) && CoreOk(band, side, c', NIL) && side == a.side.Opposite()
    requires Fate(Sweeping(side, Meeting(c', remaining, trades, p', stop)), TheirLevels(c'))
          == FateOf(a, policy, side, Meeting(c, quantity, [], p, false))
    ensures var b, s := BookOf(band, policy, p, side, c), Match(BookOf(band, policy, p, side, c), a, quantity);
      && BookOf(band, policy, p', side, c') == b.With(side, s.queue).(preventions := s.preventions)
      && s.remaining == remaining && s.trades == trades && s.stopped == stop
  {
  }

  /** Sweeping brings no new id into the book. */
  lemma SweepAddsNoId(band: Band, policy: Policy, p: nat, side: Side, c: Core, c': Core, a: Aggressor,
                      quantity: int, id: nat)
    requires CoreOk(band, side, c, NIL) && CoreOk(band, side, c', NIL) && id !in c.ids
    requires Flat(side, MyLevels(c')) == FateOf(a, policy, side, Meeting(c, quantity, [], p, false)).sweep.queue
    requires TheirLevels(c') == TheirLevels(c)
    ensures id !in c'.ids
  {
    LiveIff(band, side, c, id);
    LiveIff(band, side, c', id);
    FlatPositive(band, side, c);
    var k := RunTrims(a, policy, Sweep(Flat(side, MyLevels(c)), quantity, [], p, false));
  }

  /** Resting at a level is joining that side of the plain book. */
  lemma RestedBook(band: Band, policy: Policy, p: nat, side: Side, c: Core, idx: nat, r: Resting)
    requires CoreOk(band, side, c, NIL) && idx < |c.mine.queues| && r.price == PriceAt(band, idx)
    requires r.quantity > 0 && IsId(r.id) && r.id !in c.ids
    ensures Restable(c, side, idx, r) && CoreOk(band, side, RestAt(c, side, idx, r), NIL)
    ensures var b := BookOf(band, policy, p, side, c);
      BookOf(band, policy, p, side, RestAt(c, side, idx, r)) == b.With(side, Enqueue(side, b.On(side), r))
  {
    RestAtOk(band, side, c, idx, r);
    RestIsEnqueue(band, side, c, idx, r);
  }

  /** What an indexed id leads to, and that cancelling or resizing there is doing so in the plain book. */
  lemma IndexedOrder(band: Band, policy: Policy, p: nat, side: Side, c: Core, id: nat)
    returns (idx: nat, k: nat)
    requires CoreOk(band, side, c, NIL) && id in c.ids
    requires c.ids[id] < |c.pool| && c.pool[c.ids[id]].side == side
    ensures At(c, idx, k) && SlotAt(c, idx, k) == c.ids[id]
    ensures idx == IndexOf(band, c.pool[c.ids[id]].price)
    ensures c.pool[c.ids[id]].id == id && IsId(id)
    ensures var b := BookOf(band, policy, p, side, c);
      Live(b, id) && SideOf(b, id) == side && OrderOf(b, id) == AsResting(c.pool[c.ids[id]])
  {
    IndexedIsLive(band, side, c, id);
    idx, k := FindSlot(band, side, c, NIL, c.ids[id]);
    LookupIs(band, side, c, idx, k);
  }

  lemma CancelledBook(band: Band, policy: Policy, p: nat, side: Side, c: Core, idx: nat, k: nat)
    requires CoreOk(band, side, c, NIL) && At(c, idx, k)
    ensures Droppable(c, idx, k) && CoreOk(band, side, DropAt(c, idx, k), NIL)
    ensures BookOf(band, policy, p, side, DropAt(c, idx, k))
         == Cancel(BookOf(band, policy, p, side, c), c.pool[SlotAt(c, idx, k)].id)
  {
    DropIsCancel(band, side, c, idx, k);
  }

  lemma ReducedBook(band: Band, policy: Policy, p: nat, side: Side, c: Core, idx: nat, k: nat, traded: int)
    requires CoreOk(band, side, c, NIL) && At(c, idx, k)
    requires 0 <= traded < c.pool[SlotAt(c, idx, k)].quantity
    ensures CoreOk(band, side, ConsumeAt(c, idx, k, traded), NIL)
    ensures var b, n := BookOf(band, policy, p, side, c), c.pool[SlotAt(c, idx, k)];
      BookOf(band, policy, p, side, ConsumeAt(c, idx, k, traded))
        == b.With(side, Resized(b.On(side), n.id, n.quantity - traded))
  {
    ConsumeIsResize(band, side, c, idx, k, traded);
  }

  /** ... for the order behind an id, down to a smaller quantity. */
  lemma ReducedById(band: Band, policy: Policy, p: nat, side: Side, c: Core, id: nat, quantity: int)
    returns (k: nat)
    requires CoreOk(band, side, c, NIL) && id in c.ids
    requires c.ids[id] < |c.pool| && c.pool[c.ids[id]].side == side && 0 < quantity <= c.pool[c.ids[id]].quantity
    ensures IndexOf(band, c.pool[c.ids[id]].price) >= 0
    ensures var n := c.pool[c.ids[id]];
      var idx: nat := IndexOf(band, n.price);
      && At(c, idx, k) && SlotAt(c, idx, k) == c.ids[id]
      && CoreOk(band, side, ConsumeAt(c, idx, k, n.quantity - quantity), NIL)
      && var b := BookOf(band, policy, p, side, c);
         BookOf(band, policy, p, side, ConsumeAt(c, idx, k, n.quantity - quantity))
           == b.With(side, Resized(b.On(side), id, quantity))
  {
    var idx;
    idx, k := IndexedOrder(band, policy, p, side, c, id);
    ReducedBook(band, policy, p, side, c, idx, k, c.pool[c.ids[id]].quantity - quantity);
  }
}

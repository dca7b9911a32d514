/** The order book: flat arrays of price levels, intrusive FIFOs in a slab, an id index and level bitmaps.

    Every public operation is proved to do to View() what BookSpec says it does. */
module OrderBooks {
  import opened Options
  import opened Types
  import opened BookSpec
  import opened BookLaws
  import opened BookSlab
  import opened BookMoves
  import opened BookFlat
  import opened BookCore
  import opened BookOps
  import opened BookDepth
  import opened LevelBitmaps
  import opened IdTables

  lemma Overwrite<T>(s: seq<T>, i: nat, a: T, b: T)
    requires i < |s|
    ensures s[i := a][i := b] == s[i := b]
  {
  }

  /** A bit is set exactly when its level is non-empty; at one level it may still be waiting to be cleared. */
  ghost predicate BitsMatch(bits: set<nat>, queues: seq<seq<nat>>, except: int) {
    && (forall idx: nat {:trigger idx in bits} :: idx in bits ==> idx < |queues|)
    && (forall idx: nat {:trigger queues[idx]} :: idx < |queues| && idx != except ==>
          (idx in bits <==> queues[idx] != []))
    && (0 <= except < |queues| ==> except in bits)
  }

  /** The best bit: highest for resting bids, lowest for resting asks. */
  ghost predicate IsBest(side: Side, bits: set<nat>, r: Option<nat>) {
    if side.Buy? then IsHighest(bits, r) else IsLowest(bits, r)
  }

  /** The bitmap's best bit is the best non-empty level, and without one the side is empty. */
  lemma BestBit(band: Band, side: Side, c: Core, bits: set<nat>, r: Option<nat>)
    requires CoreOk(band, side, c, NIL) && BitsMatch(bits, c.mine.queues, NIL) && IsBest(side, bits, r)
    ensures r.None? ==> Flat(side, MyLevels(c)) == []
    ensures r.Some? ==> NothingAhead(side, c, r.value) && c.mine.queues[r.value] != []
  {
    forall i: nat | i < |c.mine.queues| && i !in bits ensures MyLevels(c)[i] == [] {
      LevelTells(band, side, c, NIL, i);
    }
    match r
    case None => FlatEmpty(side, MyLevels(c));
    case Some(idx) => BestLevel(side, MyLevels(c), idx);
  }

  /** Only the queue of level idx may have changed. */
  ghost predicate SameBut(idx: nat, queues: seq<seq<nat>>, queues': seq<seq<nat>>) {
    && |queues'| == |queues|
    && forall j: nat {:trigger queues'[j]} :: j < |queues| && j != idx ==> queues'[j] == queues[j]
  }

  lemma BitsAfter(bits: set<nat>, queues: seq<seq<nat>>, queues': seq<seq<nat>>, idx: nat)
    requires BitsMatch(bits, queues, NIL) && SameBut(idx, queues, queues')
    requires idx < |queues| && queues[idx] != []
    ensures BitsMatch(bits, queues', idx)
  {
  }

  lemma BitsJoined(bits: set<nat>, queues: seq<seq<nat>>, idx: nat, slot: nat)
    requires BitsMatch(bits, queues, NIL) && idx < |queues|
    ensures BitsMatch(bits + {idx}, queues[idx := queues[idx] + [slot]], NIL)
  {
  }

  /** One side: side_levels(s) and side_bitmap(s). */
  class BookSide {
    var levels: seq<PriceLevel>
    const bitmap: LevelBitmap
    ghost var queues: seq<seq<nat>>

    constructor (n: nat)
      requires n <= 64 * 64 * 64
      ensures Rungs() == EmptyLadder(n) && MapOk(NIL)
      ensures fresh(bitmap)
    {
      levels := seq(n, _ => EMPTY_LEVEL);
      queues := seq(n, _ => []);
      bitmap := new LevelBitmap(n);
      new;
      assert levels == EmptyLadder(n).levels && queues == EmptyLadder(n).queues;
    }

    /** fill() and reset() */
    method Wipe()
      requires bitmap.Valid() && bitmap.n == |queues| == |levels|
      modifies this, bitmap
      ensures Rungs() == EmptyLadder(old(|queues|)) && MapOk(NIL)
    {
      levels := seq(|levels|, _ => EMPTY_LEVEL);
      queues := seq(|queues|, _ => []);
      bitmap.Reset();
      assert levels == EmptyLadder(|queues|).levels && queues == EmptyLadder(|queues|).queues;
    }

    ghost function Rungs(): Ladder
      reads this
    {
      Ladder(levels, queues)
    }

    ghost predicate MapOk(except: int)
      reads this, bitmap
    {
      bitmap.Valid() && bitmap.n == |queues| && BitsMatch(bitmap.Set(), queues, except)
    }
  }

  lemma NextOp(b: Book, ops: seq<Op>, i: nat, out: seq<(int, seq<Trade>)>)
    requires b.band.Valid() && i < |ops|
    ensures var o := Apply(b, ops[i]);
      && After(b, ops[i..]) == After(o.book, ops[i + 1..])
      && out + Outputs(b, ops[i..]) == (out + [(o.result, o.trades)]) + Outputs(o.book, ops[i + 1..])
  {
    assert ops[i..][0] == ops[i] && ops[i..][1..] == ops[i + 1..];
  }

  lemma NoMoreOps(b: Book, ops: seq<Op>, out: seq<(int, seq<Trade>)>)
    requires b.band.Valid()
    ensures After(b, ops[|ops|..]) == b && out + Outputs(b, ops[|ops|..]) == out
  {
  }

  /** What add_limit() makes of a book that has been crossed. */
  function Rested(swept: Book, id: nat, side: Side, price: int, quantity: int, owner: nat, remaining: int,
                  trades: seq<Trade>, stopped: bool): Outcome {
    if remaining <= 0 || stopped then Outcome(swept, quantity - remaining, trades)
    else
      Outcome(swept.With(side, Enqueue(side, swept.On(side), Resting(id, owner, price, remaining))),
              quantity - remaining, trades)
  }

  /** What adding an accepted order comes to once it has crossed. */
  lemma CrossingRests(b: Book, id: nat, side: Side, price: int, quantity: int, owner: nat, swept: Book,
                      remaining: int, trades: seq<Trade>, stopped: bool)
    requires b.band.Valid() && Accepts(b, id, price, quantity)
    requires var s := BookSpec.Match(b, Aggressor(id, owner, side, Some(price)), quantity);
      && swept == b.With(side.Opposite(), s.queue).(preventions := s.preventions)
      && s.remaining == remaining && s.trades == trades && s.stopped == stopped
    ensures BookSpec.AddLimit(b, id, side, price, quantity, owner)
         == Rested(swept, id, side, price, quantity, owner, remaining, trades, stopped)
  {
  }

  const BLANK := OrderNode(0, 0, 0, NIL, NIL, 0, Buy, false)

  class OrderBook {
    const band: Band
    const bids: BookSide
    const asks: BookSide
    const ids: IdTable
    var policy: Policy
    var preventions: nat
    var stopped: bool
    var pool: seq<OrderNode>
    var freeHead: int
    var liveOrders: int
    ghost var free: seq<nat>

    constructor (band: Band, hash: nat -> nat)
      requires band.Valid() && IndexOf(band, band.max) + 1 <= 64 * 64 * 64
      ensures Valid() && this.band == band && View() == Empty(band, NoPolicy)
    {
      this.band := band;
      var n := (band.max - band.base) / band.tick + 1;
      bids := new BookSide(n);
      asks := new BookSide(n);
      ids := new IdTable(hash, 1024);
      policy, preventions, stopped := NoPolicy, 0, false;
      pool, freeHead, liveOrders := [], NIL, 0;
      free := [];
      new;
      EmptyIsValid();
    }

    lemma EmptyIsValid()
      requires Separate() && pool == [] && freeHead == NIL && free == [] && liveOrders == 0
      requires preventions == 0
      requires ids.Valid() && ids.Contents() == map[]
      requires bids.Rungs() == asks.Rungs() == EmptyLadder((band.max - band.base) / band.tick + 1)
      requires bids.MapOk(NIL) && asks.MapOk(NIL)
      ensures Valid() && View() == Empty(band, policy)
    {
      EmptyOk(band, (band.max - band.base) / band.tick + 1);
    }

    function Of(side: Side): BookSide {
      if side.Buy? then bids else asks
    }

    ghost predicate Separate() {
      band.Valid() && bids != asks && bids.bitmap != asks.bitmap
    }

    /** The data structures as one value, seen from this side. */
    ghost function State(side: Side): Core
      requires ids.Valid()
      reads this, bids, asks, ids
    {
      Core(pool, freeHead, free, Of(side).Rungs(), Of(side.Opposite()).Rungs(), ids.Contents(), liveOrders)
    }

    ghost predicate Sound(side: Side, spent: int)
      reads this, bids, asks, ids
    {
      && Separate() && ids.Valid()
      && CoreOk(band, side, State(side), spent)
      && |bids.queues| == |asks.queues| == IndexOf(band, band.max) + 1
    }

    ghost predicate Valid()
      reads this, bids, asks, bids.bitmap, asks.bitmap, ids
    {
      Sound(Buy, NIL) && bids.MapOk(NIL) && asks.MapOk(NIL)
    }

    /** The book this data structure stands for. */
    ghost function View(): Book
      requires Sound(Buy, NIL)
      reads this, bids, asks, ids
    {
      Book(band, policy, Flat(Buy, MyLevels(State(Buy))), Flat(Sell, TheirLevels(State(Buy))), preventions)
    }

    lemma Turn(side: Side, spent: int)
      requires Sound(side, spent)
      ensures Sound(side.Opposite(), spent) && State(side.Opposite()) == State(side).Turned()
    {
      CoreTurned(band, side, State(side), spent);
    }

    // -------------------------------------------------------------- node slab

    method FreeNode(slot: nat)
      requires slot < |pool|
      modifies this`pool, this`freeHead
      ensures pool == Freed(old(pool), slot, old(freeHead)) && freeHead == slot
    {
      pool := pool[slot := pool[slot].(live := false, next := freeHead)];
      freeHead := slot;
    }

    method Unlink(book: BookSide, idx: nat, slot: nat)
      requires slot < |pool| && LinksInRange(pool, slot)
      requires idx < |book.levels| && book.levels[idx].count > 0
      modifies this`pool, book`levels
      ensures pool == Unlinked(old(pool), slot)
      ensures book.levels == old(book.levels)[idx := UnlinkedLevel(old(book.levels)[idx], old(pool)[slot])]
    {
      var prev, next := pool[slot].prev, pool[slot].next;
      var level := book.levels[idx];
      if prev != NIL {
        pool := pool[prev := pool[prev].(next := next)];
      } else {
        level := level.(head := next);
      }
      if next != NIL {
        pool := pool[next := pool[next].(prev := prev)];
      } else {
        level := level.(tail := prev);
      }
      level := level.(count := level.count - 1);
      book.levels := book.levels[idx := level];
    }

    method LinkBack(book: BookSide, idx: nat, slot: nat)
      requires slot < |pool| && idx < |book.levels|
      requires book.levels[idx].tail == NIL || 0 <= book.levels[idx].tail < |pool|
      modifies this`pool, book`levels
      ensures pool == Linked(old(pool), old(book.levels)[idx].tail, slot)
      ensures book.levels == old(book.levels)[idx := LinkedLevel(old(book.levels)[idx], slot)]
    {
      var level := book.levels[idx];
      pool := pool[slot := pool[slot].(prev := level.tail, next := NIL)];
      if level.tail != NIL {
        pool := pool[level.tail := pool[level.tail].(next := slot)];
      } else {
        level := level.(head := slot);
      }
      level := level.(tail := slot);
      level := level.(count := level.count + 1);
      book.levels := book.levels[idx := level];
    }

    /** What cancelling, self-match prevention and a completed fill share: take the order off its level,
        its id out of the index, and give its slot back. */
    method Detach(book: BookSide, idx: nat, slot: nat)
      requires slot < |pool| && LinksInRange(pool, slot) && IsId(pool[slot].id)
      requires idx < |book.levels| && book.levels[idx].count > 0 && ids.Valid()
      modifies this`pool, this`freeHead, this`liveOrders, book`levels, ids
      ensures pool == Dropped(old(pool), slot, old(freeHead)) && freeHead == slot
      ensures book.levels == old(book.levels)[idx := DroppedLevel(old(book.levels)[idx], old(pool)[slot])]
      ensures ids.Valid() && ids.Contents() == old(ids.Contents()) - {old(pool)[slot].id}
      ensures liveOrders == old(liveOrders) - 1
    {
      var id, level := pool[slot].id, book.levels[idx];
      UnlinkedAt(pool, slot, slot);
      Overwrite(book.levels, idx, level.(total := level.total - pool[slot].quantity), DroppedLevel(level, pool[slot]));
      book.levels := book.levels[idx := level.(total := level.total - pool[slot].quantity)];
      Unlink(book, idx, slot);
      FreeNode(slot);
      liveOrders := liveOrders - 1;
      ids.Erase(id);
    }

    method RemoveNode(side: Side, idx: nat, slot: nat, ghost k: nat)
      requires Separate() && ids.Valid()
      requires Droppable(State(side), idx, k) && slot == SlotAt(State(side), idx, k)
      requires IsId(pool[slot].id)
      modifies this`pool, this`freeHead, this`liveOrders, this`free, Of(side)`levels, Of(side)`queues, ids
      ensures ids.Valid() && State(side) == DropAt(old(State(side)), idx, k)
    {
      var book := Of(side);
      Detach(book, idx, slot);
      book.queues := book.queues[idx := Remove(book.queues[idx], k)];
      free := [slot] + free;
    }

    /** A trade takes the same quantity off the order and off its level. */
    method Consume(side: Side, idx: nat, slot: nat, ghost k: nat, traded: int)
      requires Separate() && ids.Valid()
      requires At(State(side), idx, k) && slot == SlotAt(State(side), idx, k)
      modifies this`pool, Of(side)`levels
      ensures State(side) == ConsumeAt(old(State(side)), idx, k, traded)
    {
      var book := Of(side);
      pool := pool[slot := pool[slot].(quantity := pool[slot].quantity - traded)];
      var level := book.levels[idx];
      book.levels := book.levels[idx := level.(total := level.total - traded)];
    }

    // --------------------------------------------------------------- matching

    ghost function Now(side: Side, remaining: int, trades: seq<Trade>, stop: bool): Meeting
      requires ids.Valid()
      reads this, bids, asks, ids
    {
      Meeting(State(side), remaining, trades, preventions, stop)
    }

    /** One turn of the inner loop of match(): the aggressor meets the oldest order of the best level. */
    method MeetHead(a: Aggressor, side: Side, idx: nat, quantity: int, trades: seq<Trade>)
      returns (remaining: int, trades': seq<Trade>, stop: bool)
      requires Separate() && ids.Valid() && quantity > 0
      requires Droppable(State(side), idx, 0) && IsId(pool[SlotAt(State(side), idx, 0)].id)
      requires Of(side).levels[idx].head == SlotAt(State(side), idx, 0)
      requires pool[SlotAt(State(side), idx, 0)].quantity > 0
      modifies this`pool, this`freeHead, this`liveOrders, this`free, this`preventions
      modifies Of(side)`levels, Of(side)`queues, ids
      ensures ids.Valid()
      ensures Now(side, remaining, trades', stop)
           == MeetCore(a, policy, idx, old(Now(side, quantity, trades, false)))
    {
      var slot := Of(side).levels[idx].head;
      var node := pool[slot];
      remaining, trades', stop := quantity, trades, false;
      if SelfMatch(policy, a.owner, node.owner) {
        preventions := preventions + 1;
        if policy == CancelResting {
          RemoveNode(side, idx, slot, 0);
        } else {
          stop := true;
        }
        return;
      }
      var traded := Min(quantity, node.quantity);
      Consume(side, idx, slot, 0, traded);
      remaining := quantity - traded;
      trades' := trades + [Trade(a.id, node.id, a.side, node.price, traded)];
      if pool[slot].quantity == 0 {
        RemoveNode(side, idx, slot, 0);
      }
    }

    /** The same turn, against the plain sweep. */
    method MeetBest(a: Aggressor, side: Side, idx: nat, quantity: int, trades: seq<Trade>)
      returns (remaining: int, trades': seq<Trade>, stop: bool)
      requires Sound(side, NIL) && NothingAhead(side, State(side), idx) && quantity > 0
      requires Of(side).queues[idx] != [] && Crosses(a.side, PriceAt(band, idx), a.limit)
      modifies this`pool, this`freeHead, this`liveOrders, this`free, this`preventions
      modifies Of(side)`levels, Of(side)`queues, ids
      ensures Sound(side, NIL) && NothingAhead(side, State(side), idx)
      ensures FateOf(a, policy, side, Now(side, remaining, trades', stop))
           == old(FateOf(a, policy, side, Now(side, quantity, trades, false)))
      ensures Weight(side, Now(side, remaining, trades', stop))
            < old(Weight(side, Now(side, quantity, trades, false)))
      ensures SameBut(idx, old(Of(side).queues), Of(side).queues)
      ensures stop ==> Of(side).queues[idx] != []
    {
      ghost var m := Now(side, quantity, trades, false);
      HeadIs(band, side, State(side), idx);
      MeetCoreOk(band, side, a, policy, idx, m);
      MeetCoreRuns(band, side, a, policy, idx, m);
      MeetCoreQueues(a, policy, idx, m);
      remaining, trades', stop := MeetHead(a, side, idx, quantity, trades);
    }

    /** How far the inner loop has come with level idx. */
    ghost predicate Midway(a: Aggressor, side: Side, idx: nat, remaining: int, trades: seq<Trade>, stop: bool,
                           target: Fate, queues: seq<seq<nat>>)
      reads this, bids, asks, ids
    {
      && Sound(side, NIL) && NothingAhead(side, State(side), idx)
      && FateOf(a, policy, side, Now(side, remaining, trades, stop)) == target
      && idx < |Of(side).levels| && idx < |Of(side).queues|
      && (Of(side).levels[idx].head == NIL <==> Of(side).queues[idx] == [])
      && (stop ==> Of(side).queues[idx] != [])
      && SameBut(idx, queues, Of(side).queues)
    }

    method MeetNext(a: Aggressor, side: Side, idx: nat, quantity: int, trades: seq<Trade>, ghost target: Fate,
                    ghost queues: seq<seq<nat>>) returns (remaining: int, trades': seq<Trade>, stop: bool)
      requires Midway(a, side, idx, quantity, trades, false, target, queues) && quantity > 0
      requires Of(side).levels[idx].head != NIL && Crosses(a.side, PriceAt(band, idx), a.limit)
      modifies this`pool, this`freeHead, this`liveOrders, this`free, this`preventions
      modifies Of(side)`levels, Of(side)`queues, ids
      ensures Midway(a, side, idx, remaining, trades', stop, target, queues)
      ensures Weight(side, Now(side, remaining, trades', stop))
            < old(Weight(side, Now(side, quantity, trades, false)))
    {
      remaining, trades', stop := MeetBest(a, side, idx, quantity, trades);
      LevelTells(band, side, State(side), NIL, idx);
    }

    /** The inner loop of match(): sweep one level until the aggressor is done or the level is empty. */
    method SweepLevel(a: Aggressor, side: Side, idx: nat, quantity: int, trades: seq<Trade>)
      returns (remaining: int, trades': seq<Trade>, stop: bool)
      requires Sound(side, NIL) && NothingAhead(side, State(side), idx) && quantity > 0
      requires Crosses(a.side, PriceAt(band, idx), a.limit)
      modifies this`pool, this`freeHead, this`liveOrders, this`free, this`preventions
      modifies Of(side)`levels, Of(side)`queues, ids
      ensures Sound(side, NIL) && NothingAhead(side, State(side), idx)
      ensures FateOf(a, policy, side, Now(side, remaining, trades', stop))
           == old(FateOf(a, policy, side, Now(side, quantity, trades, false)))
      ensures remaining <= 0 || stop || Of(side).queues[idx] == []
      ensures stop ==> Of(side).queues[idx] != []
      ensures SameBut(idx, old(Of(side).queues), Of(side).queues)
    {
      remaining, trades', stop := quantity, trades, false;
      ghost var target := FateOf(a, policy, side, Now(side, quantity, trades, false));
      ghost var queues := Of(side).queues;
      LevelTells(band, side, State(side), NIL, idx);
      while remaining > 0 && !stop && Of(side).levels[idx].head != NIL
        invariant Midway(a, side, idx, remaining, trades', stop, target, queues)
        decreases Weight(side, Now(side, remaining, trades', stop))
      {
        remaining, trades', stop := MeetNext(a, side, idx, remaining, trades', target, queues);
      }
    }

    method FindBest(side: Side) returns (r: Option<nat>)
      requires Of(side).bitmap.Valid()
      ensures IsBest(side, Of(side).bitmap.Set(), r)
    {
      if side.Buy? {
        r := Of(side).bitmap.FindHighest();
      } else {
        r := Of(side).bitmap.FindLowest();
      }
    }

    /** After a level has been swept: an empty one gives up its bit. */
    method Settle(side: Side, idx: nat)
      requires Sound(side, NIL) && idx < |Of(side).queues| && Of(side).MapOk(idx)
      modifies Of(side)`levels, Of(side).bitmap
      ensures State(side) == old(State(side)) && Sound(side, NIL) && Of(side).MapOk(NIL)
      ensures Of(side).queues[idx] == [] ==> Of(side).bitmap.Set() == old(Of(side).bitmap.Set()) - {idx}
      ensures Of(side).queues[idx] != [] ==> Of(side).bitmap.Set() == old(Of(side).bitmap.Set())
    {
      var book := Of(side);
      LevelTells(band, side, State(side), NIL, idx);
      if book.levels[idx].count == 0 {
        // defensive in the program: the total is already zero
        ghost var levels := book.levels;
        assert levels[idx].(total := 0) == levels[idx] && levels[idx := levels[idx]] == levels;
        book.levels := book.levels[idx := book.levels[idx].(total := 0)];
        assert book.levels == levels;
        book.bitmap.Clear(idx);
      }
    }

    /** One turn of the outer loop of match(): sweep the best level, then let it give up its bit if empty. */
    method SweepBest(a: Aggressor, side: Side, idx: nat, quantity: int, trades: seq<Trade>)
      returns (remaining: int, trades': seq<Trade>, stop: bool)
      requires Sound(side, NIL) && Of(side).MapOk(NIL) && quantity > 0
      requires NothingAhead(side, State(side), idx) && Of(side).queues[idx] != []
      requires Crosses(a.side, PriceAt(band, idx), a.limit)
      modifies this`pool, this`freeHead, this`liveOrders, this`free, this`preventions
      modifies Of(side)`levels, Of(side)`queues, Of(side).bitmap, ids
      ensures Sound(side, NIL) && Of(side).MapOk(NIL)
      ensures FateOf(a, policy, side, Now(side, remaining, trades', stop))
           == old(FateOf(a, policy, side, Now(side, quantity, trades, false)))
      ensures remaining <= 0 || stop || |Of(side).bitmap.Set()| < old(|Of(side).bitmap.Set()|)
      ensures |Of(side).bitmap.Set()| <= old(|Of(side).bitmap.Set()|)
    {
      ghost var bits, queues := Of(side).bitmap.Set(), Of(side).queues;
      remaining, trades', stop := SweepLevel(a, side, idx, quantity, trades);
      BitsAfter(bits, queues, Of(side).queues, idx);
      Settle(side, idx);
    }

    /** A sweep that is done is its own fate. */
    lemma DoneHere(a: Aggressor, side: Side, remaining: int, trades: seq<Trade>, stop: bool)
      requires Sound(side, NIL)
      requires Done(a, Sweeping(side, Now(side, remaining, trades, stop)))
      ensures Fate(Sweeping(side, Now(side, remaining, trades, stop)), TheirLevels(State(side)))
           == FateOf(a, policy, side, Now(side, remaining, trades, stop))
    {
    }

    /** The level the aggressor meets next, if its price is acceptable. */
    method NextLevel(a: Aggressor, side: Side, ghost quantity: int, ghost trades: seq<Trade>) returns (r: Option<nat>)
      requires Sound(side, NIL) && Of(side).MapOk(NIL)
      ensures r.Some? ==>
        && NothingAhead(side, State(side), r.value) && Of(side).queues[r.value] != []
        && Crosses(a.side, PriceAt(band, r.value), a.limit)
      ensures r.None? ==> Done(a, Sweeping(side, Now(side, quantity, trades, false)))
    {
      r := FindBest(side);
      BestBit(band, side, State(side), Of(side).bitmap.Set(), r);
      if r.Some? {
        HeadIs(band, side, State(side), r.value);
        PriceFormula(band, r.value);
        if !Crosses(a.side, band.base + r.value * band.tick, a.limit) {
          r := None;
        }
      }
    }

    /** One turn of the outer loop of match(), unless there is nothing left to meet. */
    method TakeBest(a: Aggressor, side: Side, quantity: int, trades: seq<Trade>)
      returns (remaining: int, trades': seq<Trade>, stop: bool, done: bool)
      requires Sound(side, NIL) && Of(side).MapOk(NIL) && quantity > 0
      modifies this`pool, this`freeHead, this`liveOrders, this`free, this`preventions
      modifies Of(side)`levels, Of(side)`queues, Of(side).bitmap, ids
      ensures Sound(side, NIL) && Of(side).MapOk(NIL)
      ensures FateOf(a, policy, side, Now(side, remaining, trades', stop))
           == old(FateOf(a, policy, side, Now(side, quantity, trades, false)))
      ensures done ==> Done(a, Sweeping(side, Now(side, remaining, trades', stop)))
      ensures !done ==> !stop
      ensures done || remaining <= 0 || |Of(side).bitmap.Set()| < old(|Of(side).bitmap.Set()|)
      ensures |Of(side).bitmap.Set()| <= old(|Of(side).bitmap.Set()|)
    {
      remaining, trades', stop, done := quantity, trades, false, true;
      var best := NextLevel(a, side, quantity, trades);
      if best.Some? {
        remaining, trades', stop := SweepBest(a, side, best.value, quantity, trades);
        done := stop;
      }
    }

    /** The outer loop of match(): consume resting liquidity, best level first, until the aggressor is done. */
    method Consumed(a: Aggressor, side: Side, quantity: int) returns (remaining: int, trades: seq<Trade>, stop: bool)
      requires Sound(side, NIL) && Of(side).MapOk(NIL)
      modifies this`pool, this`freeHead, this`liveOrders, this`free, this`preventions
      modifies Of(side)`levels, Of(side)`queues, Of(side).bitmap, ids
      ensures Sound(side, NIL) && Of(side).MapOk(NIL)
      ensures Fate(Sweeping(side, Now(side, remaining, trades, stop)), TheirLevels(State(side)))
           == old(FateOf(a, policy, side, Now(side, quantity, [], false)))
    {
      remaining, trades, stop := quantity, [], false;
      ghost var target := FateOf(a, policy, side, Now(side, quantity, [], false));
      var done := false;
      while remaining > 0 && !done
        invariant Sound(side, NIL) && Of(side).MapOk(NIL) && (!done ==> !stop)
        invariant FateOf(a, policy, side, Now(side, remaining, trades, stop)) == target
        invariant done ==> Done(a, Sweeping(side, Now(side, remaining, trades, stop)))
        decreases !done, |Of(side).bitmap.Set()| + (if remaining > 0 then 1 else 0)
      {
        remaining, trades, stop, done := TakeBest(a, side, remaining, trades);
      }
      DoneHere(a, side, remaining, trades, stop);
    }

    /** match(), which also notes whether self-match prevention stopped the aggressor. */
    method Match(a: Aggressor, side: Side, quantity: int) returns (remaining: int, trades: seq<Trade>)
      requires Sound(side, NIL) && Of(side).MapOk(NIL)
      modifies this`pool, this`freeHead, this`liveOrders, this`free, this`preventions, this`stopped
      modifies Of(side)`levels, Of(side)`queues, Of(side).bitmap, ids
      ensures Sound(side, NIL) && Of(side).MapOk(NIL)
      ensures Fate(Sweeping(side, Now(side, remaining, trades, stopped)), TheirLevels(State(side)))
           == old(FateOf(a, policy, side, Now(side, quantity, [], false)))
    {
      var stop;
      remaining, trades, stop := Consumed(a, side, quantity);
      stopped := stop;
    }

    // ------------------------------------------------------- public operations

    /** The same book from either side. */
    lemma FromSide(side: Side)
      requires Sound(Buy, NIL)
      ensures Sound(side, NIL)
      ensures View() == BookOf(band, policy, preventions, side, State(side))
    {
      Turn(Buy, NIL);
    }

    lemma ToView(side: Side)
      requires Sound(side, NIL)
      ensures Sound(Buy, NIL)
      ensures View() == BookOf(band, policy, preventions, side, State(side))
    {
      Turn(side, NIL);
    }

    lemma IsLive(id: nat)
      requires Sound(Buy, NIL)
      ensures id in ids.Contents() <==> Live(View(), id)
    {
      LiveIff(band, Buy, State(Buy), id);
    }

    method HasOrder(id: nat) returns (r: bool)
      requires Valid()
      ensures r == Live(View(), id)
    {
      IsLive(id);
      var slot := ids.Find(id);
      return slot.Some?;
    }

    /** match(), seen as a change of the plain book. */
    method Cross(a: Aggressor, quantity: int) returns (remaining: int, trades: seq<Trade>)
      requires Valid()
      modifies this`pool, this`freeHead, this`liveOrders, this`free, this`preventions, this`stopped
      modifies Of(a.side.Opposite())`levels, Of(a.side.Opposite())`queues, Of(a.side.Opposite()).bitmap, ids
      ensures Valid()
      ensures var b, s := old(View()), BookSpec.Match(old(View()), a, quantity);
        && View() == b.With(a.side.Opposite(), s.queue).(preventions := s.preventions)
        && s.remaining == remaining && s.trades == trades && s.stopped == stopped
      ensures forall id :: id !in old(ids.Contents()) ==> id !in ids.Contents()
    {
      var side := a.side.Opposite();
      FromSide(side);
      ghost var c, p := State(side), preventions;
      remaining, trades := Match(a, side, quantity);
      SweptBook(band, policy, p, preventions, side, c, State(side), a, quantity, remaining, trades, stopped);
      forall id | id !in c.ids ensures id !in State(side).ids {
        SweepAddsNoId(band, policy, p, side, c, State(side), a, quantity, id);
      }
      ToView(side);
    }

    method AllocNode() returns (slot: nat)
      requires freeHead == NIL || 0 <= freeHead < |pool|
      modifies this`pool, this`freeHead
      ensures slot == SlotFor(old(pool), old(freeHead))
      ensures pool == Seated(old(pool), slot, BLANK)
      ensures freeHead == if old(freeHead) == NIL then NIL else old(pool)[old(freeHead)].next
    {
      if freeHead != NIL {
        slot := freeHead;
        freeHead := pool[slot].next;
        pool := pool[slot := BLANK];
      } else {
        pool := pool + [BLANK];
        slot := |pool| - 1;
      }
    }

    /** The slab and level part of resting an order. */
    method Seat(book: BookSide, side: Side, idx: nat, r: Resting) returns (slot: nat)
      requires freeHead == NIL || 0 <= freeHead < |pool|
      requires idx < |book.levels|
      requires book.levels[idx].tail == NIL
            || 0 <= book.levels[idx].tail < |Seated(pool, SlotFor(pool, freeHead), NodeFor(r, side))|
      modifies this`pool, this`freeHead, book`levels
      ensures slot == SlotFor(old(pool), old(freeHead))
      ensures pool == Linked(Seated(old(pool), slot, NodeFor(r, side)), old(book.levels)[idx].tail, slot)
      ensures freeHead == if old(freeHead) == NIL then NIL else old(pool)[old(freeHead)].next
      ensures book.levels == old(book.levels)[idx := RestedLevel(old(book.levels)[idx], slot, r.quantity)]
    {
      slot := AllocNode();
      pool := pool[slot := pool[slot].(id := r.id, price := r.price, quantity := r.quantity, side := side,
                                       owner := r.owner, live := true)];
      assert pool == Seated(old(pool), slot, NodeFor(r, side));
      LinkBack(book, idx, slot);
      var level := book.levels[idx];
      book.levels := book.levels[idx := level.(total := level.total + r.quantity)];
    }

    /** The index, the count and the ghost queues follow. */
    method Rest(side: Side, idx: nat, r: Resting)
      requires Separate() && ids.Valid() && r.id !in ids.Contents() && IsId(r.id)
      requires Restable(State(side), side, idx, r)
      modifies this`pool, this`freeHead, this`liveOrders, this`free
      modifies Of(side)`levels, Of(side)`queues, ids
      ensures ids.Valid() && State(side) == RestAt(old(State(side)), side, idx, r)
    {
      var book := Of(side);
      var slot := Seat(book, side, idx, r);
      book.queues := book.queues[idx := book.queues[idx] + [slot]];
      free := FreeAfter(free);
      liveOrders := liveOrders + 1;
      ids.InsertGrowing(r.id, slot);
    }

    /** ... and so does the bitmap. */
    method Join(side: Side, idx: nat, r: Resting)
      requires Separate() && ids.Valid() && r.id !in ids.Contents() && IsId(r.id)
      requires Restable(State(side), side, idx, r) && Of(side).MapOk(NIL)
      modifies this`pool, this`freeHead, this`liveOrders, this`free
      modifies Of(side)`levels, Of(side)`queues, Of(side).bitmap, ids
      ensures ids.Valid() && State(side) == RestAt(old(State(side)), side, idx, r)
      ensures Of(side).MapOk(NIL)
    {
      BitsJoined(Of(side).bitmap.Set(), Of(side).queues, idx, SlotFor(pool, freeHead));
      Of(side).bitmap.Mark(idx);
      Rest(side, idx, r);
    }

    /** What is left of a limit order joins the back of its level: on its own side's state. */
    method RestOn(side: Side, r: Resting)
      requires Sound(side, NIL) && Of(side).MapOk(NIL) && band.Contains(r.price) && r.quantity > 0
      requires IsId(r.id) && r.id !in ids.Contents()
      modifies this`pool, this`freeHead, this`liveOrders, this`free
      modifies Of(side)`levels, Of(side)`queues, Of(side).bitmap, ids
      ensures Sound(side, NIL) && Of(side).MapOk(NIL)
      ensures var b := old(BookOf(band, policy, preventions, side, State(side)));
        BookOf(band, policy, preventions, side, State(side)) == b.With(side, Enqueue(side, b.On(side), r))
    {
      var idx := (r.price - band.base) / band.tick;
      PriceOfIndex(band, r.price);
      RestedBook(band, policy, preventions, side, State(side), idx, r);
      Join(side, idx, r);
    }

    method RestRemainder(side: Side, r: Resting)
      requires Valid() && band.Contains(r.price) && r.quantity > 0
      requires IsId(r.id) && r.id !in ids.Contents()
      modifies this`pool, this`freeHead, this`liveOrders, this`free
      modifies Of(side)`levels, Of(side)`queues, Of(side).bitmap, ids
      ensures Valid()
      ensures View() == old(View()).With(side, Enqueue(side, old(View()).On(side), r))
    {
      FromSide(side);
      RestOn(side, r);
      ToView(side);
    }

    /** add_limit() */
    method AddLimit(id: nat, side: Side, price: int, quantity: int, owner: nat)
      returns (filled: int, trades: seq<Trade>)
      requires Valid()
      modifies this, bids, asks, bids.bitmap, asks.bitmap, ids
      ensures Valid()
      ensures Outcome(View(), filled, trades) == BookSpec.AddLimit(old(View()), id, side, price, quantity, owner)
    {
      if quantity <= 0 || !IsId(id) || !band.Contains(price) {
        return REJECTED, [];
      }
      IsLive(id);
      var slot := ids.Find(id);
      if slot.Some? {
        return REJECTED, [];
      }
      filled, trades := CrossThenRest(id, side, price, quantity, owner);
    }

    /** Crosses, leaving what add_limit() still has to do. */
    method CrossFirst(id: nat, side: Side, price: int, quantity: int, owner: nat)
      returns (remaining: int, trades: seq<Trade>)
      requires Valid() && Accepts(View(), id, price, quantity) && id !in ids.Contents()
      modifies this, bids, asks, bids.bitmap, asks.bitmap, ids
      ensures Valid() && id !in ids.Contents()
      ensures BookSpec.AddLimit(old(View()), id, side, price, quantity, owner)
           == Rested(View(), id, side, price, quantity, owner, remaining, trades, stopped)
    {
      ghost var b := View();
      remaining, trades := Cross(Aggressor(id, owner, side, Some(price)), quantity);
      CrossingRests(b, id, side, price, quantity, owner, View(), remaining, trades, stopped);
    }

    /** What is left rests, unless nothing is or self-match prevention stopped the order. */
    method RestWhatIsLeft(id: nat, side: Side, price: int, quantity: int, owner: nat, remaining: int,
                          ghost trades: seq<Trade>) returns (filled: int)
      requires Valid() && band.Contains(price) && IsId(id) && id !in ids.Contents()
      modifies this, bids, asks, bids.bitmap, asks.bitmap, ids
      ensures Valid()
      ensures Outcome(View(), filled, trades)
           == Rested(old(View()), id, side, price, quantity, owner, remaining, trades, old(stopped))
    {
      filled := quantity - remaining;
      if remaining > 0 && !stopped {
        RestRemainder(side, Resting(id, owner, price, remaining));
      }
    }

    method CrossThenRest(id: nat, side: Side, price: int, quantity: int, owner: nat)
      returns (filled: int, trades: seq<Trade>)
      requires Valid() && Accepts(View(), id, price, quantity) && id !in ids.Contents()
      modifies this, bids, asks, bids.bitmap, asks.bitmap, ids
      ensures Valid()
      ensures Outcome(View(), filled, trades) == BookSpec.AddLimit(old(View()), id, side, price, quantity, owner)
    {
      var remaining;
      remaining, trades := CrossFirst(id, side, price, quantity, owner);
      filled := RestWhatIsLeft(id, side, price, quantity, owner, remaining, trades);
    }

    /** execute_market() */
    method ExecuteMarket(id: nat, side: Side, quantity: int, owner: nat)
      returns (filled: int, trades: seq<Trade>)
      requires Valid()
      modifies this, bids, asks, bids.bitmap, asks.bitmap, ids
      ensures Valid()
      ensures Outcome(View(), filled, trades) == BookSpec.ExecuteMarket(old(View()), id, side, quantity, owner)
    {
      if quantity <= 0 {
        return 0, [];
      }
      var remaining;
      remaining, trades := Cross(Aggressor(id, owner, side, None), quantity);
      filled := quantity - remaining;
    }

    // ------------------------------------------------------- cancel and modify

    /** Takes the order at (idx, k) off the book: level, bitmap, index and slab. */
    method Drop(side: Side, idx: nat, slot: nat, ghost k: nat)
      requires Sound(side, NIL) && Of(side).MapOk(NIL)
      requires At(State(side), idx, k) && slot == SlotAt(State(side), idx, k)
      modifies this`pool, this`freeHead, this`liveOrders, this`free
      modifies Of(side)`levels, Of(side)`queues, Of(side).bitmap, ids
      ensures Sound(side, NIL) && Of(side).MapOk(NIL)
      ensures Droppable(old(State(side)), idx, k) && State(side) == DropAt(old(State(side)), idx, k)
    {
      ghost var bits, queues := Of(side).bitmap.Set(), Of(side).queues;
      DropAtOk(band, side, State(side), idx, k, NIL);
      RemoveNode(side, idx, slot, k);
      BitsAfter(bits, queues, Of(side).queues, idx);
      Settle(side, idx);
    }

    /** cancel() on the side the order rests on. */
    method CancelOn(side: Side, id: nat, slot: nat)
      requires Sound(side, NIL) && Of(side).MapOk(NIL)
      requires id in ids.Contents() && ids.Contents()[id] == slot < |pool| && pool[slot].side == side
      modifies this`pool, this`freeHead, this`liveOrders, this`free
      modifies Of(side)`levels, Of(side)`queues, Of(side).bitmap, ids
      ensures Sound(side, NIL) && Of(side).MapOk(NIL)
      ensures BookOf(band, policy, preventions, side, State(side))
           == BookSpec.Cancel(old(BookOf(band, policy, preventions, side, State(side))), id)
      ensures ids.Contents() == old(ids.Contents()) - {id}
    {
      ghost var i, k := IndexedOrder(band, policy, preventions, side, State(side), id);
      var idx := (pool[slot].price - band.base) / band.tick;
      CancelledBook(band, policy, preventions, side, State(side), idx, k);
      Drop(side, idx, slot, k);
    }

    /** The same, saying what becomes of either side's bits. */
    method CancelThere(side: Side, id: nat, slot: nat)
      requires Sound(side, NIL) && bids.MapOk(NIL) && asks.MapOk(NIL)
      requires id in ids.Contents() && ids.Contents()[id] == slot < |pool| && pool[slot].side == side
      modifies this`pool, this`freeHead, this`liveOrders, this`free
      modifies Of(side)`levels, Of(side)`queues, Of(side).bitmap, ids
      ensures Sound(side, NIL) && bids.MapOk(NIL) && asks.MapOk(NIL)
      ensures BookOf(band, policy, preventions, side, State(side))
           == BookSpec.Cancel(old(BookOf(band, policy, preventions, side, State(side))), id)
      ensures id !in ids.Contents()
    {
      CancelOn(side, id, slot);
    }

    /** cancel(), for an id the index knows. */
    method CancelSlot(id: nat, slot: nat)
      requires Valid() && id in ids.Contents() && ids.Contents()[id] == slot
      modifies this`pool, this`freeHead, this`liveOrders, this`free
      modifies bids, asks, bids.bitmap, asks.bitmap, ids
      ensures Valid() && View() == BookSpec.Cancel(old(View()), id)
      ensures id !in ids.Contents()
    {
      IndexedIsLive(band, Buy, State(Buy), id);
      var side := pool[slot].side;
      FromSide(side);
      CancelThere(side, id, slot);
      ToView(side);
    }

    /** cancel() */
    method Cancel(id: nat) returns (r: bool)
      requires Valid()
      modifies this, bids, asks, bids.bitmap, asks.bitmap, ids
      ensures Valid() && View() == BookSpec.Cancel(old(View()), id)
      ensures r == Live(old(View()), id)
    {
      IsLive(id);
      var slot := ids.Find(id);
      if slot.None? {
        WithoutAbsent(View().bids, id);
        WithoutAbsent(View().asks, id);
        return false;
      }
      CancelSlot(id, slot.value);
      return true;
    }

    /** The in-place branch of modify(): the order shrinks where it stands. */
    method ReduceOn(side: Side, id: nat, slot: nat, quantity: int)
      requires Sound(side, NIL)
      requires id in ids.Contents() && ids.Contents()[id] == slot < |pool| && pool[slot].side == side
      requires 0 < quantity <= pool[slot].quantity
      modifies this`pool, Of(side)`levels
      ensures Sound(side, NIL)
      ensures var b := old(BookOf(band, policy, preventions, side, State(side)));
        BookOf(band, policy, preventions, side, State(side)) == b.With(side, Resized(b.On(side), id, quantity))
    {
      ghost var k := ReducedById(band, policy, preventions, side, State(side), id, quantity);
      var idx := (pool[slot].price - band.base) / band.tick;
      var delta := pool[slot].quantity - quantity;
      Consume(side, idx, slot, k, delta);
    }

    method Reduce(id: nat, slot: nat, quantity: int)
      requires Valid() && id in ids.Contents() && ids.Contents()[id] == slot
      requires slot < |pool| && 0 < quantity <= pool[slot].quantity
      modifies this`pool, bids`levels, asks`levels
      ensures Valid()
      ensures View() == old(View().With(pool[slot].side, Resized(View().On(pool[slot].side), id, quantity)))
    {
      var side := pool[slot].side;
      FromSide(side);
      ReduceOn(side, id, slot, quantity);
      ToView(side);
    }

    /** What the index leads to is what the plain book looks up. */
    lemma OrderBehind(id: nat)
      requires Sound(Buy, NIL) && id in ids.Contents()
      ensures ids.Contents()[id] < |pool| && Live(View(), id)
      ensures SideOf(View(), id) == pool[ids.Contents()[id]].side
      ensures OrderOf(View(), id) == AsResting(pool[ids.Contents()[id]])
    {
      IndexedIsLive(band, Buy, State(Buy), id);
      var side := pool[ids.Contents()[id]].side;
      FromSide(side);
      var idx, k := IndexedOrder(band, policy, preventions, side, State(side), id);
    }

    /** modify() */
    method Modify(id: nat, price: int, quantity: int) returns (r: bool, trades: seq<Trade>)
      requires Valid()
      modifies this, bids, asks, bids.bitmap, asks.bitmap, ids
      ensures Valid()
      ensures Outcome(View(), if r then 1 else 0, trades) == BookSpec.Modify(old(View()), id, price, quantity)
    {
      IsLive(id);
      var found := ids.Find(id);
      if found.None? {
        return false, [];
      }
      var slot := found.value;
      if quantity <= 0 {
        CancelSlot(id, slot);
        return true, [];
      }
      if !band.Contains(price) {
        return false, [];
      }
      OrderBehind(id);
      var node := pool[slot];
      if price == node.price && quantity <= node.quantity {
        Reduce(id, slot, quantity);
        return true, [];
      }
      CancelSlot(id, slot);
      var filled;
      filled, trades := AddLimit(id, node.side, price, quantity, node.owner);
      return true, trades;
    }

    method SetPolicy(p: Policy)
      requires Valid()
      modifies this`policy
      ensures Valid() && View() == old(View()).(policy := p)
    {
      policy := p;
    }

    method ClearSides()
      requires Separate() && bids.MapOk(NIL) && asks.MapOk(NIL)
      requires |bids.levels| == |bids.queues| == |asks.levels| == |asks.queues|
      modifies bids, asks, bids.bitmap, asks.bitmap
      ensures bids.Rungs() == asks.Rungs() == EmptyLadder(old(|bids.queues|))
      ensures bids.MapOk(NIL) && asks.MapOk(NIL)
    {
      bids.Wipe();
      asks.Wipe();
    }

    method ClearRest()
      requires Separate() && ids.Valid()
      modifies this, ids
      ensures pool == [] && freeHead == NIL && free == [] && liveOrders == 0 && preventions == 0
      ensures ids.Valid() && ids.Contents() == map[] && policy == old(policy)
    {
      pool, freeHead, liveOrders := [], NIL, 0;
      ids.Wipe(|ids.keys|);
      preventions, stopped := 0, false;
      free := [];
    }

    /** clear() */
    method Clear()
      requires Valid()
      modifies this, bids, asks, bids.bitmap, asks.bitmap, ids
      ensures Valid() && View() == Empty(band, policy)
      ensures policy == old(policy)
    {
      ClearSides();
      ClearRest();
      EmptyIsValid();
    }

    // --------------------------------------------------------------- accessors

    lemma BitsSay(side: Side)
      requires Sound(side, NIL) && Of(side).MapOk(NIL)
      ensures BitsTell(Of(side).bitmap.Set(), State(side))
    {
    }

    method QuantityAt(side: Side, price: int) returns (r: int)
      requires Valid()
      ensures r == QuantityAtPrice(View().On(side), price)
    {
      FromSide(side);
      if !band.Contains(price) {
        NothingOffGrid(band, side, State(side), price);
        return 0;
      }
      PriceOfIndex(band, price);
      var idx := (price - band.base) / band.tick;
      LevelQuantity(band, side, State(side), idx);
      return Of(side).levels[idx].total;
    }

    /** The next bit of the depth walk. */
    method NextBit(side: Side, i: nat) returns (r: Option<nat>)
      requires Of(side).bitmap.Valid() && i < Of(side).bitmap.n
      ensures IsNext(side, Of(side).bitmap.Set(), i, r)
    {
      if side.Buy? {
        r := Of(side).bitmap.ScanBelow(i);
      } else {
        r := Of(side).bitmap.ScanAbove(i);
      }
    }

    /** Where the depth walk starts, and where it goes from level i. */
    method First(side: Side) returns (r: Option<nat>)
      requires Sound(side, NIL) && Of(side).MapOk(NIL)
      ensures Remaining(side, State(side), r, Flat(side, MyLevels(State(side))))
      ensures r.Some? ==> r.value in Of(side).bitmap.Set()
    {
      BitsSay(side);
      r := FindBest(side);
      StartTells(band, side, State(side), Of(side).bitmap.Set(), r);
    }

    method Next(side: Side, i: nat) returns (r: Option<nat>)
      requires Sound(side, NIL) && Of(side).MapOk(NIL) && i in Of(side).bitmap.Set()
      ensures i < |Of(side).queues|
      ensures Remaining(side, State(side), r, BehindOf(side, MyLevels(State(side)), i))
      ensures r.Some? ==> r.value in Of(side).bitmap.Set()
    {
      BitsSay(side);
      r := NextBit(side, i);
      ScanTells(band, side, State(side), Of(side).bitmap.Set(), i, r);
    }

    /** The level at the front of this side, and its price. */
    method BestLevelOf(side: Side) returns (r: Option<nat>, price: int)
      requires Sound(side, NIL) && Of(side).MapOk(NIL)
      ensures r.None? ==> Flat(side, MyLevels(State(side))) == []
      ensures r.Some? ==> r.value < |Of(side).levels| && PriceAt(band, r.value) == price
      ensures r.Some? ==> BestPrice(Flat(side, MyLevels(State(side)))) == Some(price)
    {
      r := First(side);
      price := 0;
      if r.Some? {
        price := band.base + r.value * band.tick;
        FrontPrice(band, side, State(side), r.value, price);
      }
    }

    /** best_bid() and best_ask() */
    method BestOf(side: Side) returns (r: Option<int>)
      requires Valid()
      ensures r == BestPrice(View().On(side))
    {
      FromSide(side);
      var best, price := BestLevelOf(side);
      return if best.None? then None else Some(price);
    }

    /** best_bid_quantity() and best_ask_quantity() */
    method BestQuantityOf(side: Side) returns (r: int)
      requires Valid()
      ensures var queue := View().On(side); r == if queue == [] then 0 else QuantityAtPrice(queue, queue[0].price)
    {
      FromSide(side);
      var best, price := BestLevelOf(side);
      if best.None? {
        return 0;
      }
      LevelQuantity(band, side, State(side), best.value);
      return Of(side).levels[best.value].total;
    }

    /** spread(), absent when either side is empty. */
    method Spread() returns (r: Option<int>)
      requires Valid()
      ensures r == if View().bids == [] || View().asks == [] then None
                   else Some(View().asks[0].price - View().bids[0].price)
    {
      var bid := BestOf(Buy);
      var ask := BestOf(Sell);
      return if bid.None? || ask.None? then None else Some(ask.value - bid.value);
    }

    /** One more row of the report, and the walk moves on. */
    method Row(side: Side, i: nat, out: seq<LevelView>, ghost left: nat, ghost report: seq<LevelView>)
      returns (longer: seq<LevelView>, next: Option<nat>, ghost behind: seq<Resting>, ghost fewer: nat)
      requires Sound(side, NIL) && Of(side).MapOk(NIL) && i in Of(side).bitmap.Set() && left > 0
      requires i < |Of(side).queues| && Of(side).queues[i] != []
      requires Reports(out, From(side, State(side), i), left, report)
      ensures |longer| == |out| + 1 && fewer == left - 1
      ensures Remaining(side, State(side), next, behind)
      ensures next.Some? ==> next.value in Of(side).bitmap.Set()
      ensures Reports(longer, behind, fewer, report)
    {
      PriceFormula(band, i);
      LevelTells(band, side, State(side), NIL, i);
      var level := Of(side).levels[i];
      var row := LevelView(band.base + i * band.tick, level.total, level.count);
      longer, behind, fewer := out + [row], BehindOf(side, MyLevels(State(side)), i), left - 1;
      ReportsRow(band, side, State(side), i, row, out, left, report, longer, behind, fewer);
      next := Next(side, i);
    }

    /** The walk of depth(), from its first level on. */
    method Walk(side: Side, n: nat, start: Option<nat>, ghost queue: seq<Resting>, ghost report: seq<LevelView>)
      returns (out: seq<LevelView>, ghost rest: seq<Resting>, ghost left: nat)
      requires Sound(side, NIL) && Of(side).MapOk(NIL)
      requires Remaining(side, State(side), start, queue) && Reports([], queue, n, report)
      requires start.Some? ==> start.value in Of(side).bitmap.Set()
      ensures Reports(out, rest, left, report) && (rest == [] || left == 0)
    {
      var idx := start;
      out, rest, left := [], queue, n;
      while idx.Some? && |out| < n
        invariant |out| + left == n && Remaining(side, State(side), idx, rest)
        invariant idx.Some? ==> idx.value in Of(side).bitmap.Set()
        invariant Reports(out, rest, left, report)
        decreases n - |out|
      {
        out, idx, rest, left := Row(side, idx.value, out, left, report);
      }
    }

    /** depth() on one side's own state. */
    method DepthOn(side: Side, n: nat, ghost report: seq<LevelView>) returns (out: seq<LevelView>)
      requires Sound(side, NIL) && Of(side).MapOk(NIL)
      requires Reports([], Flat(side, MyLevels(State(side))), n, report)
      ensures out == report
    {
      if n == 0 {
        ReportsDone([], Flat(side, MyLevels(State(side))), n, report);
        return [];
      }
      var idx := First(side);
      ghost var rest, left;
      out, rest, left := Walk(side, n, idx, Flat(side, MyLevels(State(side))), report);
      ReportsDone(out, rest, left, report);
    }

    /** depth() */
    method Depth(side: Side, n: nat) returns (out: seq<LevelView>)
      requires Valid()
      ensures out == TopLevels(View().On(side), n)
    {
      FromSide(side);
      ReportsAll(View().On(side), n);
      out := DepthOn(side, n, TopLevels(View().On(side), n));
    }

    // ------------------------------------------------------------- whole runs

    /** One operation on the data structures is that operation on the plain book. */
    method Perform(op: Op) returns (result: int, trades: seq<Trade>)
      requires Valid()
      modifies this, bids, asks, bids.bitmap, asks.bitmap, ids
      ensures Valid() && Outcome(View(), result, trades) == Apply(old(View()), op)
    {
      match op
      case AddOp(id, side, price, quantity, owner) =>
        result, trades := AddLimit(id, side, price, quantity, owner);
      case MarketOp(id, side, quantity, owner) =>
        result, trades := ExecuteMarket(id, side, quantity, owner);
      case CancelOp(id) =>
        var r := Cancel(id);
        return if r then 1 else 0, [];
      case ModifyOp(id, price, quantity) =>
        var r;
        r, trades := Modify(id, price, quantity);
        result := if r then 1 else 0;
      case PolicyOp(p) =>
        SetPolicy(p);
        return 0, [];
      case ClearOp =>
        Clear();
        return 0, [];
    }

    /** Any flow of operations, run against both: the same results, the same trades, the same book. */
    method Replay(ops: seq<Op>) returns (outcomes: seq<(int, seq<Trade>)>)
      requires Valid()
      modifies this, bids, asks, bids.bitmap, asks.bitmap, ids
      ensures Valid() && View() == After(old(View()), ops)
      ensures outcomes == Outputs(old(View()), ops)
    {
      outcomes := [];
      ghost var start := View();
      for i := 0 to |ops|
        invariant Valid()
        invariant After(View(), ops[i..]) == After(start, ops)
        invariant outcomes + Outputs(View(), ops[i..]) == Outputs(start, ops)
      {
        ghost var before := View();
        NextOp(before, ops, i, outcomes);
        var result, trades := Perform(ops[i]);
        outcomes := outcomes + [(result, trades)];
      }
      NoMoreOps(View(), ops, outcomes);
    }
  }
}

/** What every sequence of operations keeps true of the plain book, and what matching delivers. */
module BookLaws {
  import opened Options
  import opened Types
  import opened IdTables
  import opened BookSpec

  // ---------------------------------------------------------------- invariant

  ghost predicate Sorted(side: Side, queue: seq<Resting>) {
    forall i, j :: 0 <= i < j < |queue| ==> !Ahead(side, queue[j].price, queue[i].price)
  }

  ghost predicate Sound(band: Band, queue: seq<Resting>)
    requires band.Valid()
  {
    && (forall i :: 0 <= i < |queue| ==>
          IsId(queue[i].id) && queue[i].quantity > 0 && band.Contains(queue[i].price))
    && (forall i, j :: 0 <= i < j < |queue| ==> queue[i].id != queue[j].id)
  }

  ghost predicate Uncrossed(bids: seq<Resting>, asks: seq<Resting>) {
    forall i, j :: 0 <= i < |bids| && 0 <= j < |asks| ==> bids[i].price < asks[j].price
  }

  ghost predicate Disjoint(bids: seq<Resting>, asks: seq<Resting>) {
    forall i, j :: 0 <= i < |bids| && 0 <= j < |asks| ==> bids[i].id != asks[j].id
  }

  /** Price-time order on both sides, positive sizes on the grid, one order per id, never crossed. */
  ghost predicate Inv(b: Book) {
    && b.band.Valid()
    && Sorted(Buy, b.bids) && Sorted(Sell, b.asks)
    && Sound(b.band, b.bids) && Sound(b.band, b.asks)
    && Disjoint(b.bids, b.asks)
    && Uncrossed(b.bids, b.asks)
  }

  // ------------------------------------------------- matching only trims the front

  /** queue' is queue with its first k orders gone and the next one perhaps reduced. */
  ghost predicate Trimmed(queue: seq<Resting>, k: nat, queue': seq<Resting>) {
    && |queue'| + k == |queue|
    && (forall i :: 0 < i < |queue'| ==> queue'[i] == queue[k + i])
    && (queue' != [] ==>
          queue'[0] == queue[k].(quantity := queue'[0].quantity)
          && 0 < queue'[0].quantity <= queue[k].quantity)
  }

  ghost predicate Positive(queue: seq<Resting>) {
    forall i :: 0 <= i < |queue| ==> queue[i].quantity > 0
  }

  lemma TrimmedTwice(q0: seq<Resting>, j: nat, q1: seq<Resting>, k: nat, q2: seq<Resting>)
    requires Trimmed(q0, j, q1) && Trimmed(q1, k, q2)
    ensures Trimmed(q0, j + k, q2)
  {
  }

  /** Whatever the limit, the policy and the size, a sweep takes orders from the front only. */
  lemma {:induction false} RunTrims(a: Aggressor, policy: Policy, s: Sweep) returns (k: nat)
    requires Positive(s.queue)
    ensures Trimmed(s.queue, k, Run(a, policy, s).queue)
    decreases |s.queue|, s.remaining > 0, !s.stopped
  {
    if Done(a, s) {
      k := 0;
    } else {
      var s' := Meet(a, policy, s);
      var j: nat := if |s'.queue| == |s.queue| then 0 else 1;
      k := RunTrims(a, policy, s');
      TrimmedTwice(s.queue, j, s'.queue, k, Run(a, policy, s').queue);
      k := k + j;
    }
  }

  lemma {:induction false} RunIsDone(a: Aggressor, policy: Policy, s: Sweep)
    ensures Done(a, Run(a, policy, s))
    decreases |s.queue|, s.remaining > 0, !s.stopped
  {
    if !Done(a, s) {
      RunIsDone(a, policy, Meet(a, policy, s));
    }
  }

  lemma TrimmedSound(band: Band, side: Side, queue: seq<Resting>, k: nat, queue': seq<Resting>)
    requires band.Valid() && Sound(band, queue) && Sorted(side, queue) && Trimmed(queue, k, queue')
    ensures Sound(band, queue') && Sorted(side, queue')
  {
  }

  // ---------------------------------------------------------------- resting

  /** An order rests behind everything at its price or better, and ahead of everything worse. */
  lemma {:induction false} EnqueuePlace(side: Side, queue: seq<Resting>, r: Resting) returns (k: nat)
    requires Sorted(side, queue)
    ensures k <= |queue| && Enqueue(side, queue, r) == queue[..k] + [r] + queue[k..]
    ensures forall i :: 0 <= i < k ==> !Ahead(side, r.price, queue[i].price)
    ensures forall i :: k <= i < |queue| ==> Ahead(side, r.price, queue[i].price)
  {
    if queue == [] || Ahead(side, r.price, queue[0].price) {
      k := 0;
    } else {
      k := EnqueuePlace(side, queue[1..], r);
      k := k + 1;
    }
  }

  lemma {:induction false} WithoutAbsent(queue: seq<Resting>, id: nat)
    requires !HasId(queue, id)
    ensures Without(queue, id) == queue
  {
    if queue != [] {
      assert queue[0].id != id;
      assert forall i :: 0 <= i < |queue[1..]| ==> queue[1..][i] == queue[i + 1];
      WithoutAbsent(queue[1..], id);
    }
  }

  /** Cancelling takes out exactly the order with that id and moves nothing else. */
  lemma {:induction false} WithoutPresent(queue: seq<Resting>, k: nat)
    requires k < |queue|
    requires forall i, j :: 0 <= i < j < |queue| ==> queue[i].id != queue[j].id
    ensures Without(queue, queue[k].id) == queue[..k] + queue[k + 1..]
  {
    if k == 0 {
      assert !HasId(queue[1..], queue[0].id);
      WithoutAbsent(queue[1..], queue[0].id);
    } else {
      WithoutPresent(queue[1..], k - 1);
      assert queue[1..][..k - 1] == queue[..k][1..];
    }
  }

  lemma LessOneSound(band: Band, side: Side, queue: seq<Resting>, k: nat)
    requires band.Valid() && Sound(band, queue) && Sorted(side, queue) && k < |queue|
    ensures var q := queue[..k] + queue[k + 1..];
      && Sound(band, q) && Sorted(side, q) && !HasId(q, queue[k].id)
      && forall r :: r in q ==> r in queue
  {
    var q := queue[..k] + queue[k + 1..];
    assert forall i :: 0 <= i < |q| ==> q[i] == queue[if i < k then i else i + 1];
  }

  lemma WithoutSound(band: Band, side: Side, queue: seq<Resting>, id: nat)
    requires band.Valid() && Sound(band, queue) && Sorted(side, queue)
    ensures Sound(band, Without(queue, id)) && Sorted(side, Without(queue, id))
    ensures !HasId(Without(queue, id), id)
    ensures forall r :: r in Without(queue, id) ==> r in queue
  {
    if HasId(queue, id) {
      var k :| 0 <= k < |queue| && queue[k].id == id;
      WithoutPresent(queue, k);
      LessOneSound(band, side, queue, k);
    } else {
      WithoutAbsent(queue, id);
    }
  }

  /** Resizing touches one order's quantity and nothing else. */
  lemma {:induction false} ResizedAt(queue: seq<Resting>, id: nat, quantity: int, i: nat)
    requires i < |queue|
    ensures |Resized(queue, id, quantity)| == |queue|
    ensures Resized(queue, id, quantity)[i] ==
      if queue[i].id == id then queue[i].(quantity := quantity) else queue[i]
  {
    if i > 0 {
      ResizedAt(queue[1..], id, quantity, i - 1);
    } else if |queue| > 1 {
      ResizedAt(queue[1..], id, quantity, 0);
    }
  }

  lemma ResizedSound(band: Band, side: Side, queue: seq<Resting>, id: nat, quantity: int)
    requires band.Valid() && Sound(band, queue) && Sorted(side, queue) && quantity > 0
    ensures var q := Resized(queue, id, quantity);
      Sound(band, q) && Sorted(side, q) && |q| == |queue|
    ensures var q := Resized(queue, id, quantity);
      forall i :: 0 <= i < |q| ==> q[i].id == queue[i].id && q[i].price == queue[i].price
  {
    if queue != [] {
      ResizedAt(queue, id, quantity, 0);
    }
    forall i | 0 <= i < |queue|
      ensures Resized(queue, id, quantity)[i] ==
        if queue[i].id == id then queue[i].(quantity := quantity) else queue[i]
    {
      ResizedAt(queue, id, quantity, i);
    }
  }

  // ------------------------------------------------------ every operation keeps it

  lemma TrimmedKeepsInv(b: Book, side: Side, k: nat, queue: seq<Resting>)
    requires Inv(b) && Trimmed(b.On(side), k, queue)
    ensures Inv(b.With(side, queue))
  {
    TrimmedSound(b.band, side, b.On(side), k, queue);
    forall i | 0 <= i < |queue|
      ensures queue[i].id == b.On(side)[k + i].id && queue[i].price == b.On(side)[k + i].price
    {
    }
  }

  lemma SweepKeepsInv(b: Book, a: Aggressor, quantity: int)
    requires Inv(b)
    ensures var s := Match(b, a, quantity);
      Inv(b.With(a.side.Opposite(), s.queue).(preventions := s.preventions))
  {
    var side := a.side.Opposite();
    var k := RunTrims(a, b.policy, Sweep(b.On(side), quantity, [], b.preventions, false));
    TrimmedKeepsInv(b, side, k, Match(b, a, quantity).queue);
  }

  /** The two sides share no id and no price of one reaches the other. */
  ghost predicate Apart(side: Side, mine: seq<Resting>, theirs: seq<Resting>) {
    if side.Buy? then Disjoint(mine, theirs) && Uncrossed(mine, theirs)
    else Disjoint(theirs, mine) && Uncrossed(theirs, mine)
  }

  /** The remainder of a limit order rests only where it no longer crosses. */
  lemma RestedApart(side: Side, mine: seq<Resting>, theirs: seq<Resting>, queue: seq<Resting>, r: Resting)
    requires Apart(side, mine, theirs) && Sorted(side.Opposite(), theirs) && !HasId(theirs, r.id)
    requires theirs == [] || !Crosses(side, theirs[0].price, Some(r.price))
    requires forall i :: 0 <= i < |queue| ==> queue[i] == r || queue[i] in mine
    ensures Apart(side, queue, theirs)
  {
    forall j | 0 <= j < |theirs| ensures !Crosses(side, theirs[j].price, Some(r.price)) {
      assert j > 0 ==> !Ahead(side.Opposite(), theirs[j].price, theirs[0].price);
    }
  }

  lemma RestingKeepsInv(b: Book, side: Side, r: Resting)
    requires Inv(b) && !Live(b, r.id) && IsId(r.id)
    requires r.quantity > 0 && b.band.Contains(r.price)
    requires b.On(side.Opposite()) == [] || !Crosses(side, b.On(side.Opposite())[0].price, Some(r.price))
    ensures Inv(b.With(side, Enqueue(side, b.On(side), r)))
  {
    var queue := b.On(side);
    var k := EnqueuePlace(side, queue, r);
    RestedApart(side, queue, b.On(side.Opposite()), Enqueue(side, queue, r), r);
    EnqueuedSound(b.band, side, queue, r, k);
  }

  lemma EnqueuedSound(band: Band, side: Side, queue: seq<Resting>, r: Resting, k: nat)
    requires band.Valid() && Sound(band, queue) && Sorted(side, queue) && !HasId(queue, r.id)
    requires IsId(r.id) && r.quantity > 0 && band.Contains(r.price) && k <= |queue|
    requires forall i :: 0 <= i < k ==> !Ahead(side, r.price, queue[i].price)
    requires forall i :: k <= i < |queue| ==> Ahead(side, r.price, queue[i].price)
    ensures var q := queue[..k] + [r] + queue[k..]; Sound(band, q) && Sorted(side, q)
  {
  }

  lemma AddKeepsInv(b: Book, id: nat, side: Side, price: int, quantity: int, owner: nat)
    requires Inv(b)
    ensures Inv(AddLimit(b, id, side, price, quantity, owner).book)
  {
    if Accepts(b, id, price, quantity) {
      var a := Aggressor(id, owner, side, Some(price));
      var s0 := Sweep(b.On(side.Opposite()), quantity, [], b.preventions, false);
      SweepKeepsInv(b, a, quantity);
      RunIsDone(a, b.policy, s0);
      var s := Match(b, a, quantity);
      var swept := b.With(side.Opposite(), s.queue).(preventions := s.preventions);
      var k := RunTrims(a, b.policy, s0);
      if s.remaining > 0 && !s.stopped {
        assert !Live(swept, id);
        RestingKeepsInv(swept, side, Resting(id, owner, price, s.remaining));
      }
    }
  }

  lemma CancelKeepsInv(b: Book, id: nat)
    requires Inv(b)
    ensures Inv(Cancel(b, id)) && !Live(Cancel(b, id), id)
  {
    WithoutSound(b.band, Buy, b.bids, id);
    WithoutSound(b.band, Sell, b.asks, id);
    var bids, asks := Without(b.bids, id), Without(b.asks, id);
    forall i, j | 0 <= i < |bids| && 0 <= j < |asks|
      ensures bids[i].price < asks[j].price && bids[i].id != asks[j].id
    {
      assert bids[i] in b.bids && asks[j] in b.asks;
    }
  }

  lemma ReducedKeepsInv(b: Book, id: nat, quantity: int)
    requires Inv(b) && Live(b, id) && quantity > 0
    ensures var side := SideOf(b, id); Inv(b.With(side, Resized(b.On(side), id, quantity)))
  {
    ResizedSound(b.band, SideOf(b, id), b.On(SideOf(b, id)), id, quantity);
  }

  lemma ModifyKeepsInv(b: Book, id: nat, price: int, quantity: int)
    requires Inv(b)
    ensures Inv(Modify(b, id, price, quantity).book)
  {
    if Live(b, id) {
      CancelKeepsInv(b, id);
      if quantity > 0 {
        ReducedKeepsInv(b, id, quantity);
        if b.band.Contains(price) {
          AddKeepsInv(Cancel(b, id), id, SideOf(b, id), price, quantity, OrderOf(b, id).owner);
        }
      }
    }
  }

  /** An order repriced or increased queues behind everything already at its new price. */
  lemma ReplacedLosesPriority(b: Book, id: nat, price: int, quantity: int) returns (k: nat)
    requires Inv(b) && Live(b, id) && quantity > 0 && b.band.Contains(price)
    requires !(price == OrderOf(b, id).price && quantity <= OrderOf(b, id).quantity)
    requires HasId(Modify(b, id, price, quantity).book.On(SideOf(b, id)), id)
    ensures var queue := Modify(b, id, price, quantity).book.On(SideOf(b, id));
      && k < |queue| && queue[k].id == id && queue[k].price == price
      && forall i :: k < i < |queue| ==> queue[i].price != price
  {
    var side, r := SideOf(b, id), OrderOf(b, id);
    var c := Cancel(b, id);
    CancelKeepsInv(b, id);
    var s := Match(c, Aggressor(id, r.owner, side, Some(price)), quantity);
    var resting := Resting(id, r.owner, price, s.remaining);
    if s.remaining > 0 && !s.stopped {
      k := EnqueuePlace(side, c.On(side), resting);
    }
  }

  /** A pure reduction keeps every order where it was. */
  lemma ReductionKeepsPlaces(b: Book, id: nat, quantity: int, i: nat)
    requires Inv(b) && Live(b, id) && 0 < quantity <= OrderOf(b, id).quantity
    requires i < |b.On(SideOf(b, id))|
    ensures var side := SideOf(b, id);
      var m := Modify(b, id, OrderOf(b, id).price, quantity);
      && m.trades == [] && |m.book.On(side)| == |b.On(side)|
      && m.book.On(side.Opposite()) == b.On(side.Opposite())
      && m.book.On(side)[i] == if b.On(side)[i].id == id
                               then b.On(side)[i].(quantity := quantity) else b.On(side)[i]
  {
    var side := SideOf(b, id);
    LookupFinds(b.On(side), id);
    ResizedAt(b.On(side), id, quantity, i);
  }

  lemma {:induction false} LookupFinds(queue: seq<Resting>, id: nat)
    requires HasId(queue, id)
    ensures Lookup(queue, id) in queue && Lookup(queue, id).id == id
  {
    if queue[0].id != id {
      assert HasId(queue[1..], id) by {
        var i :| 0 <= i < |queue| && queue[i].id == id;
        assert queue[1..][i - 1].id == id;
      }
      LookupFinds(queue[1..], id);
    }
  }

  // ---------------------------------------------------------------- whole runs

  datatype Op =
    | AddOp(id: nat, side: Side, price: int, quantity: int, owner: nat)
    | MarketOp(id: nat, side: Side, quantity: int, owner: nat)
    | CancelOp(id: nat)
    | ModifyOp(id: nat, price: int, quantity: int)
    | PolicyOp(policy: Policy)
    | ClearOp

  function Empty(band: Band, policy: Policy): Book {
    Book(band, policy, [], [], 0)
  }

  function Apply(b: Book, op: Op): Outcome
    requires b.band.Valid()
  {
    match op
    case AddOp(id, side, price, quantity, owner) => AddLimit(b, id, side, price, quantity, owner)
    case MarketOp(id, side, quantity, owner) => ExecuteMarket(b, id, side, quantity, owner)
    case CancelOp(id) => Outcome(Cancel(b, id), if Live(b, id) then 1 else 0, [])
    case ModifyOp(id, price, quantity) => Modify(b, id, price, quantity)
    case PolicyOp(policy) => Outcome(b.(policy := policy), 0, [])
    case ClearOp => Outcome(Empty(b.band, b.policy), 0, [])
  }

  function After(b: Book, ops: seq<Op>): (r: Book)
    requires b.band.Valid()
    ensures r.band == b.band
    decreases |ops|
  {
    if ops == [] then b else After(Apply(b, ops[0]).book, ops[1..])
  }

  /** What a run reports, operation by operation. */
  function Outputs(b: Book, ops: seq<Op>): seq<(int, seq<Trade>)>
    requires b.band.Valid()
    decreases |ops|
  {
    if ops == [] then []
    else
      var o := Apply(b, ops[0]);
      [(o.result, o.trades)] + Outputs(o.book, ops[1..])
  }

  lemma ApplyKeepsInv(b: Book, op: Op)
    requires Inv(b)
    ensures Inv(Apply(b, op).book)
  {
    match op
    case AddOp(id, side, price, quantity, owner) => AddKeepsInv(b, id, side, price, quantity, owner);
    case MarketOp(id, side, quantity, owner) =>
      SweepKeepsInv(b, Aggressor(id, owner, side, None), quantity);
    case CancelOp(id) => CancelKeepsInv(b, id);
    case ModifyOp(id, price, quantity) => ModifyKeepsInv(b, id, price, quantity);
    case PolicyOp(_) =>
    case ClearOp =>
  }

  lemma {:induction false} RunsKeepInv(b: Book, ops: seq<Op>)
    requires Inv(b)
    ensures Inv(After(b, ops))
    decreases |ops|
  {
    if ops != [] {
      ApplyKeepsInv(b, ops[0]);
      RunsKeepInv(Apply(b, ops[0]).book, ops[1..]);
    }
  }

  /** In every book any history of operations can reach, the best bid is below the best ask. */
  lemma NeverCrossed(band: Band, policy: Policy, ops: seq<Op>)
    requires band.Valid()
    ensures var b := After(Empty(band, policy), ops);
      b.bids != [] && b.asks != [] ==> b.bids[0].price < b.asks[0].price
    ensures var b := After(Empty(band, policy), ops);
      forall i, j :: 0 <= i < |b.bids| && 0 <= j < |b.asks| ==> b.bids[i].id != b.asks[j].id
  {
    RunsKeepInv(Empty(band, policy), ops);
  }

  // ---------------------------------------------------------- what matching delivers

  function Total(queue: seq<Resting>): int {
    if queue == [] then 0 else queue[0].quantity + Total(queue[1..])
  }

  function Volume(trades: seq<Trade>): int {
    if trades == [] then 0 else Volume(trades[..|trades| - 1]) + trades[|trades| - 1].quantity
  }

  /** Everything on the queue that the aggressor's limit reaches, wherever it stands. */
  function CrossingVolume(side: Side, limit: Option<int>, queue: seq<Resting>): int {
    if queue == [] then 0
    else (if Crosses(side, queue[0].price, limit) then queue[0].quantity else 0)
         + CrossingVolume(side, limit, queue[1..])
  }

  lemma {:induction false} NothingCrosses(side: Side, limit: Option<int>, queue: seq<Resting>)
    requires forall i :: 0 <= i < |queue| ==> !Crosses(side, queue[i].price, limit)
    ensures CrossingVolume(side, limit, queue) == 0
  {
    if queue != [] {
      NothingCrosses(side, limit, queue[1..]);
    }
  }

  lemma {:induction false} CrossingNonNegative(side: Side, limit: Option<int>, queue: seq<Resting>)
    requires Positive(queue)
    ensures CrossingVolume(side, limit, queue) >= 0
  {
    if queue != [] {
      CrossingNonNegative(side, limit, queue[1..]);
    }
  }

  /** With no self-match policy an aggressor gets all it asked for or all there is within its limit,
      whichever is less. */
  lemma {:induction false} FillsWhatCrosses(a: Aggressor, s: Sweep)
    requires Positive(s.queue) && Sorted(a.side.Opposite(), s.queue)
    requires s.remaining >= 0 && !s.stopped
    ensures var r := Run(a, NoPolicy, s);
      && !r.stopped && r.preventions == s.preventions
      && s.remaining - r.remaining == Min(s.remaining, CrossingVolume(a.side, a.limit, s.queue))
    decreases |s.queue|, s.remaining > 0
  {
    CrossingNonNegative(a.side, a.limit, s.queue);
    if Done(a, s) {
      if s.queue != [] && !Crosses(a.side, s.queue[0].price, a.limit) {
        NothingCrosses(a.side, a.limit, s.queue);
      }
    } else {
      CrossingNonNegative(a.side, a.limit, s.queue[1..]);
      FillsWhatCrosses(a, Meet(a, NoPolicy, s));
    }
  }

  /** The quantity the aggressor may not trade with: its owner's own orders, under a policy. */
  function OwnQuantity(policy: Policy, owner: nat, queue: seq<Resting>): int {
    if queue == [] then 0
    else (if SelfMatch(policy, owner, queue[0].owner) then queue[0].quantity else 0)
         + OwnQuantity(policy, owner, queue[1..])
  }

  function OwnOrders(policy: Policy, owner: nat, queue: seq<Resting>): nat {
    if queue == [] then 0
    else (if SelfMatch(policy, owner, queue[0].owner) then 1 else 0) + OwnOrders(policy, owner, queue[1..])
  }

  /** What leaves the queue is what traded, plus the own orders that self-match prevention cancelled: only
      CancelResting cancels any, each of them is one prevention, and no own quantity leaves another way. */
  lemma {:induction false} QuantityConserved(a: Aggressor, policy: Policy, s: Sweep)
    requires Positive(s.queue)
    ensures var r := Run(a, policy, s);
      var cancelled := OwnQuantity(policy, a.owner, s.queue) - OwnQuantity(policy, a.owner, r.queue);
      && s.remaining - r.remaining == Volume(r.trades) - Volume(s.trades)
      && Total(s.queue) == Total(r.queue) + (s.remaining - r.remaining) + cancelled
      && (policy != CancelResting ==> cancelled == 0)
      && (s.remaining >= 0 ==> r.remaining >= 0)
    ensures var r := Run(a, policy, s);
      policy == CancelResting ==>
        r.preventions - s.preventions == OwnOrders(policy, a.owner, s.queue) - OwnOrders(policy, a.owner, r.queue)
    decreases |s.queue|, s.remaining > 0, !s.stopped
  {
    if !Done(a, s) {
      var s' := Meet(a, policy, s);
      assert s'.trades != s.trades ==> s'.trades[..|s'.trades| - 1] == s.trades;
      QuantityConserved(a, policy, s');
    }
  }

  /** Trade t took quantity from this resting order, at its price, within the aggressor's limit,
      and not from the aggressor itself. */
  ghost predicate TookFrom(a: Aggressor, policy: Policy, t: Trade, r: Resting) {
    && t.aggressorId == a.id && t.aggressorSide == a.side
    && t.restingId == r.id && t.price == r.price && 0 < t.quantity <= r.quantity
    && Crosses(a.side, r.price, a.limit)
    && !SelfMatch(policy, a.owner, r.owner)
  }

  /** The trades took, one after another, from the orders at these places of the queue. */
  ghost predicate Follows(a: Aggressor, policy: Policy, queue: seq<Resting>, trades: seq<Trade>, at: seq<nat>) {
    && |trades| == |at|
    && (forall i :: 0 <= i < |at| ==> at[i] < |queue| && TookFrom(a, policy, trades[i], queue[at[i]]))
    && (forall i, j :: 0 <= i < j < |at| ==> at[i] < at[j])
  }

  lemma FollowsTail(a: Aggressor, policy: Policy, queue: seq<Resting>, trades: seq<Trade>, at: seq<nat>)
    returns (shifted: seq<nat>)
    requires queue != [] && Follows(a, policy, queue[1..], trades, at)
    ensures Follows(a, policy, queue, trades, shifted)
    ensures forall t :: TookFrom(a, policy, t, queue[0]) ==> Follows(a, policy, queue, [t] + trades, [0] + shifted)
  {
    shifted := seq(|at|, i requires 0 <= i < |at| => at[i] + 1);
  }

  /** One encounter adds at most one trade, and that one took from the head of the queue. */
  lemma MeetTakes(a: Aggressor, policy: Policy, s: Sweep)
    requires Positive(s.queue) && !Done(a, s)
    ensures var s' := Meet(a, policy, s);
      && Positive(s'.queue)
      && (s'.trades == s.trades
          || (s'.trades[..|s.trades|] == s.trades && |s'.trades| == |s.trades| + 1
              && TookFrom(a, policy, s'.trades[|s.trades|], s.queue[0])))
      && (s'.queue == s.queue[1..] || Done(a, s'))
  {
  }

  /** Sequencing: the trade of one encounter, then those of the rest of the sweep. */
  lemma TradesChain(base: seq<Trade>, next: seq<Trade>, all: seq<Trade>)
    requires |base| <= |next| <= |all| && next[..|base|] == base && all[..|next|] == next
    ensures all[..|base|] == base && all[|base|..] == next[|base|..] + all[|next|..]
  {
  }

  /** Every trade names an order of the queue, in queue order: no trade with oneself under a policy. */
  lemma {:induction false} TradesFollowQueue(a: Aggressor, policy: Policy, s: Sweep)
    returns (at: seq<nat>)
    requires Positive(s.queue)
    ensures var r := Run(a, policy, s);
      && |s.trades| <= |r.trades| && r.trades[..|s.trades|] == s.trades
      && Follows(a, policy, s.queue, r.trades[|s.trades|..], at)
    decreases |s.queue|, s.remaining > 0, !s.stopped
  {
    if Done(a, s) {
      return [];
    }
    var s', all := Meet(a, policy, s), Run(a, policy, Meet(a, policy, s)).trades;
    MeetTakes(a, policy, s);
    if Done(a, s') {
      return if s'.trades == s.trades then [] else [0];
    }
    at := TradesFollowQueue(a, policy, s');
    at := FollowsTail(a, policy, s.queue, all[|s'.trades|..], at);
    TradesChain(s.trades, s'.trades, all);
    if s'.trades != s.trades {
      assert s'.trades[|s.trades|..] == [s'.trades[|s.trades|]];
      at := [0] + at;
    }
  }
}
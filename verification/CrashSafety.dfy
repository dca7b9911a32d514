/** Write-ahead order: what a crash between any two steps leaves in the journal and at the venue. */
module CrashSafety {
  import opened Types
  import opened OmsSpec
  import opened OmsLaws
  import opened OmsRuns
  import opened Dispatching
  import opened JournalSpec

  /** What the engine files: positions go on file as fills, never as checkpoints. */
  type Filed = e: Entry | !e.Checkpoint? witness SessionStart

  /** The steps of dispatch() that outlive the process. */
  datatype Act = Wrote(ts: int, entry: Filed) | VenueFilled(symbol: nat, side: Side, quantity: int)

  /** What recovery would rebuild from the journal so far, and the venue's own positions. */
  datatype World = World(recovered: Recovered, venue: seq<int>)

  function Did(w: World, act: Act): World {
    match act
    case Wrote(ts, entry) => w.(recovered := Replay(w.recovered, ts, entry))
    case VenueFilled(symbol, side, quantity) =>
      w.(venue := VenueAfter(w.venue, symbol, side, quantity))
  }

  function DidAll(w: World, acts: seq<Act>): World
    decreases |acts|
  {
    if acts == [] then w else DidAll(Did(w, acts[0]), acts[1..])
  }

  /** The acknowledgement and, if the venue filled anything, the fill. */
  function AnswerActs(id: nat, order: Order, a: Answer): seq<Act> {
    [Wrote(a.ts, ExecReport(AckReport(id, order, a)))]
    + (if a.quantity > 0 then [Wrote(a.ts, ExecReport(FillReport(id, order, a)))] else [])
  }

  /** The cancel of what is still working after the answer. */
  function RestActs(s: Oms, id: nat, order: Order, a: Answer): seq<Act> {
    if StillWorking(s, id) then [Wrote(a.ts, ExecReport(CancelReport(id, order, a)))] else []
  }

  /** dispatch(): the intent first, then the venue, then its answer event by event.  Whether a cancel is
      emitted depends on what the live order manager makes of the answer. */
  function Acts(live: Oms, id: nat, order: Order, a: Answer): seq<Act> {
    [Wrote(order.createdTs, OrderSent(id, order)), VenueFilled(order.symbol, order.side, a.quantity)]
    + AnswerActs(id, order, a) + RestActs(AfterFill(live, id, order, a), id, order, a)
  }

  /** How far the venue's position is ahead of the recovered one. */
  function Gap(w: World, y: nat): int {
    At(w.venue, y) - At(w.recovered.positions, y)
  }

  ghost predicate Agrees(w: World, y: nat) {
    Gap(w, y) == 0
  }

  /** Recovery would find exactly these orders open and every position right. */
  ghost predicate Settled(w: World, open: set<nat>) {
    && w.recovered.oms.config == REPLAY_CONFIG
    && Tracked(w.recovered.oms) && WorkingIds(w.recovered.oms.orders) == open
    && forall y: nat {:trigger Agrees(w, y)} :: Agrees(w, y)
  }

  /** Recovery would report this one order open besides, with at least what the venue is ahead by. */
  ghost predicate OpenFor(w: World, open: set<nat>, id: nat, order: Order, ahead: int) {
    && Tracked(w.recovered.oms) && id !in open && WorkingIds(w.recovered.oms.orders) == open + {id}
    && id in w.recovered.oms.orders
    && var r := w.recovered.oms.orders[id];
      && r.symbol == order.symbol && r.side == order.side && r.filled == 0 && r.quantity == order.quantity
      && r.leaves == order.quantity >= ahead >= 0
      && forall y: nat {:trigger Gap(w, y)} :: Gap(w, y) == if y == order.symbol then order.side.Signed(ahead) else 0
  }

  /** The promise: positions agree, or they differ by the signed fill of the one order reported open besides. */
  ghost predicate Recoverable(w: World, open: set<nat>, order: Order, id: nat) {
    || (forall y: nat {:trigger Agrees(w, y)} :: Agrees(w, y))
    || exists ahead: int {:trigger OpenFor(w, open, id, order, ahead)} :: OpenFor(w, open, id, order, ahead)
  }

  /** An order the journal has not seen, and room in recovery's order manager to follow it. */
  ghost predicate Unseen(w: World, open: set<nat>, id: nat) {
    Settled(w, open) && id != 0 && id !in w.recovered.oms.orders && |open| < REPLAY_CONFIG.maxOpen
  }

  lemma MovedAt(p: seq<int>, symbol: nat, delta: int, y: nat)
    ensures At(Moved(p, symbol, delta), y) == At(p, y) + (if y == symbol then delta else 0)
  {
  }

  /** Writing the intent: recovery now knows the order, and nothing has happened to it. */
  lemma SentOpens(w: World, open: set<nat>, id: nat, order: Order)
    requires Unseen(w, open, id) && order.quantity > 0
    ensures var w' := Did(w, Wrote(order.createdTs, OrderSent(id, order)));
      && OpenFor(w', open, id, order, 0) && w'.recovered.oms.orders[id].state.PendingNew?
      && w'.recovered.oms.config == REPLAY_CONFIG && w'.recovered.oms.nextId >= w.recovered.oms.nextId
  {
    var s := w.recovered.oms;
    CreateTracked(s, id, order, order.createdTs);
    WorkingSet(s.orders, id, NewRecord(id, order, order.createdTs));
    var w' := Did(w, Wrote(order.createdTs, OrderSent(id, order)));
    forall y: nat ensures Gap(w', y) == 0 {
      assert Agrees(w, y);
    }
  }

  /** The venue fills: it is ahead by exactly that fill. */
  lemma VenueGoesAhead(w: World, open: set<nat>, id: nat, order: Order, q: int)
    requires OpenFor(w, open, id, order, 0) && 0 <= q <= order.quantity
    ensures var w' := Did(w, VenueFilled(order.symbol, order.side, q));
      OpenFor(w', open, id, order, q) && w'.recovered == w.recovered
  {
    var w' := Did(w, VenueFilled(order.symbol, order.side, q));
    forall y: nat ensures Gap(w', y) == if y == order.symbol then order.side.Signed(q) else 0 {
      MovedAt(w.venue, order.symbol, order.side.Signed(q), y);
      assert Gap(w, y) == 0;
    }
  }

  /** The acknowledgement changes no quantity. */
  lemma AckStaysOpen(w: World, open: set<nat>, id: nat, order: Order, a: Answer)
    requires OpenFor(w, open, id, order, a.quantity) && w.recovered.oms.orders[id].state.PendingNew?
    ensures var w' := Did(w, Wrote(a.ts, ExecReport(AckReport(id, order, a))));
      && OpenFor(w', open, id, order, a.quantity) && w'.recovered.oms.orders[id].state.New?
      && w'.recovered.oms.config == w.recovered.oms.config
  {
    var s, rep := w.recovered.oms, AckReport(id, order, a);
    AckOpens(s, rep);
    ReportKeeps(s, rep);
    var w' := Did(w, Wrote(a.ts, ExecReport(rep)));
    assert RecordOk(id, s.orders[id]);
    assert w'.recovered.oms.orders[id].symbol == order.symbol;
    forall y: nat ensures Gap(w', y) == Gap(w, y) {
    }
  }

  /** Writing the fill closes the gap; the order stays open in the journal only for what is left of it. */
  lemma FillCatchesUp(w: World, open: set<nat>, id: nat, order: Order, a: Answer)
    requires OpenFor(w, open, id, order, a.quantity) && w.recovered.oms.orders[id].state.New? && a.quantity > 0
    ensures var w' := Did(w, Wrote(a.ts, ExecReport(FillReport(id, order, a))));
      && (forall y: nat :: Agrees(w', y))
      && Tracked(w'.recovered.oms) && w'.recovered.oms.config == w.recovered.oms.config
      && (if a.quantity == order.quantity then WorkingIds(w'.recovered.oms.orders) == open
          else id in w'.recovered.oms.orders && w'.recovered.oms.orders[id].state.PartiallyFilled?
               && WorkingIds(w'.recovered.oms.orders) == open + {id})
  {
    var s, rep := w.recovered.oms, FillReport(id, order, a);
    FillMoves(s, rep);
    ReportKeeps(s, rep);
    var w' := Did(w, Wrote(a.ts, ExecReport(rep)));
    forall y: nat ensures Agrees(w', y) {
      MovedAt(w.recovered.positions, order.symbol, order.side.Signed(a.quantity), y);
      assert Gap(w, y) == if y == order.symbol then order.side.Signed(a.quantity) else 0;
    }
  }

  /** The cancel leaves the order open no longer and moves no position. */
  lemma CancelSettles(w: World, open: set<nat>, id: nat, order: Order, a: Answer)
    requires Tracked(w.recovered.oms) && w.recovered.oms.config == REPLAY_CONFIG
    requires id !in open && WorkingIds(w.recovered.oms.orders) == open + {id} && id in w.recovered.oms.orders
    requires Cancellable(w.recovered.oms.orders[id].state) && forall y: nat :: Agrees(w, y)
    ensures Settled(Did(w, Wrote(a.ts, ExecReport(CancelReport(id, order, a)))), open)
  {
    var rep := CancelReport(id, order, a);
    CancelEnds(w.recovered.oms, rep);
    ReportKeeps(w.recovered.oms, rep);
    var w' := Did(w, Wrote(a.ts, ExecReport(rep)));
    forall y: nat ensures Agrees(w', y) {
      assert Agrees(w, y);
    }
  }

  // ------------------------------------------------------------ one dispatch

  /** The live manager emits a cancel exactly when the venue left something of a pending order unfilled. */
  lemma CancelEmittedIff(live: Oms, id: nat, order: Order, a: Answer)
    requires Tracked(live) && Untouched(live, id, order) && 0 <= a.quantity <= order.quantity
    ensures StillWorking(AfterFill(live, id, order, a), id) <==> a.quantity < order.quantity
  {
    var ack := AckReport(id, order, a);
    assert RecordOk(id, live.orders[id]);
    AckOpens(live, ack);
    ReportKeeps(live, ack);
    if a.quantity > 0 {
      FillMoves(Apply(live, ack), FillReport(id, order, a));
    }
  }

  lemma {:induction false} DidAppend(w: World, acts: seq<Act>, act: Act)
    ensures DidAll(w, acts + [act]) == Did(DidAll(w, acts), act)
    decreases |acts|
  {
    if acts == [] {
      assert acts + [act] == [act] && [act][1..] == [];
    } else {
      assert (acts + [act])[1..] == acts[1..] + [act];
      DidAppend(Did(w, acts[0]), acts[1..], act);
    }
  }

  lemma DidNext(w: World, acts: seq<Act>, k: nat)
    requires k < |acts|
    ensures DidAll(w, acts[..k + 1]) == Did(DidAll(w, acts[..k]), acts[k])
  {
    assert acts[..k + 1] == acts[..k] + [acts[k]];
    DidAppend(w, acts[..k], acts[k]);
  }

  /** The first three steps: intent, venue, acknowledgement. */
  lemma FirstSteps(w: World, open: set<nat>, live: Oms, id: nat, order: Order, a: Answer)
    requires Unseen(w, open, id) && order.quantity > 0 && 0 <= a.quantity <= order.quantity
    ensures var acts := Acts(live, id, order, a);
      && |acts| >= 3
      && OpenFor(DidAll(w, acts[..1]), open, id, order, 0)
      && OpenFor(DidAll(w, acts[..2]), open, id, order, a.quantity)
      && OpenFor(DidAll(w, acts[..3]), open, id, order, a.quantity)
      && DidAll(w, acts[..3]).recovered.oms.orders[id].state.New?
      && DidAll(w, acts[..3]).recovered.oms.config == REPLAY_CONFIG
  {
    var acts := Acts(live, id, order, a);
    assert acts[..0] == [];
    DidNext(w, acts, 0);
    DidNext(w, acts, 1);
    DidNext(w, acts, 2);
    SentOpens(w, open, id, order);
    VenueGoesAhead(DidAll(w, acts[..1]), open, id, order, a.quantity);
    AckStaysOpen(DidAll(w, acts[..2]), open, id, order, a);
  }

  /** After the fill has been written, if there was one, the positions agree. */
  lemma FillStep(w: World, open: set<nat>, live: Oms, id: nat, order: Order, a: Answer)
    requires Unseen(w, open, id) && order.quantity > 0 && 0 <= a.quantity <= order.quantity
    ensures var acts := Acts(live, id, order, a);
      |acts| >= (if a.quantity > 0 then 4 else 3)
    ensures var acts := Acts(live, id, order, a);
      var w' := DidAll(w, acts[..if a.quantity > 0 then 4 else 3]);
      && Settled(w', if a.quantity == order.quantity then open else open + {id})
      && (a.quantity < order.quantity ==>
            id !in open && id in w'.recovered.oms.orders && Cancellable(w'.recovered.oms.orders[id].state))
  {
    var acts := Acts(live, id, order, a);
    FirstSteps(w, open, live, id, order, a);
    var w3 := DidAll(w, acts[..3]);
    if a.quantity > 0 {
      DidNext(w, acts, 3);
      FillCatchesUp(w3, open, id, order, a);
    } else {
      forall y: nat ensures Agrees(w3, y) {
        assert Gap(w3, y) == 0;
      }
    }
  }

  /** How many steps a pending order's dispatch takes. */
  lemma ActsCount(live: Oms, id: nat, order: Order, a: Answer)
    requires Tracked(live) && Untouched(live, id, order)
    requires order.quantity > 0 && 0 <= a.quantity <= order.quantity
    ensures |Acts(live, id, order, a)| == (if a.quantity > 0 then 4 else 3) + (if a.quantity < order.quantity then 1 else 0)
    ensures a.quantity < order.quantity ==>
      Acts(live, id, order, a)[if a.quantity > 0 then 4 else 3] == Wrote(a.ts, ExecReport(CancelReport(id, order, a)))
  {
    CancelEmittedIff(live, id, order, a);
  }

  /** The orders recovery finds open after a dispatch: those it found before, and this one if it had expired and
      the venue left something of it unfilled. */
  function LeftOpen(live: Oms, open: set<nat>, id: nat, order: Order, a: Answer): set<nat> {
    if StillWorking(live, id) || a.quantity == order.quantity then open else open + {id}
  }

  /** A pending order's dispatch ends with the journal settled. */
  lemma EndsSettled(w: World, open: set<nat>, live: Oms, id: nat, order: Order, a: Answer)
    requires Unseen(w, open, id) && Tracked(live) && Untouched(live, id, order)
    requires order.quantity > 0 && 0 <= a.quantity <= order.quantity
    ensures Settled(DidAll(w, Acts(live, id, order, a)), open)
  {
    var acts := Acts(live, id, order, a);
    var n := if a.quantity > 0 then 4 else 3;
    FillStep(w, open, live, id, order, a);
    ActsCount(live, id, order, a);
    assert acts[..|acts|] == acts;
    if a.quantity < order.quantity {
      DidNext(w, acts, n);
      CancelSettles(DidAll(w, acts[..n]), open, id, order, a);
    }
  }

  /** An order the sweep has expired before it lands gets no cancel: recovery then reports it open unless the
      venue filled all of it. */
  lemma ExpiredBeforeLanding(w: World, open: set<nat>, live: Oms, id: nat, order: Order, a: Answer)
    requires Unseen(w, open, id) && Tracked(live) && Gone(live, id)
    requires order.quantity > 0 && 0 <= a.quantity <= order.quantity
    ensures |Acts(live, id, order, a)| == if a.quantity > 0 then 4 else 3
    ensures Settled(DidAll(w, Acts(live, id, order, a)), if a.quantity == order.quantity then open else open + {id})
  {
    var acts := Acts(live, id, order, a);
    FillStep(w, open, live, id, order, a);
    IgnoredWhenFinished(live, id, order, a);
    assert acts[..|acts|] == acts;
  }

  lemma DispatchSettles(w: World, open: set<nat>, live: Oms, id: nat, order: Order, a: Answer)
    requires Unseen(w, open, id) && Tracked(live) && (Untouched(live, id, order) || Gone(live, id))
    requires order.quantity > 0 && 0 <= a.quantity <= order.quantity
    ensures Settled(DidAll(w, Acts(live, id, order, a)), LeftOpen(live, open, id, order, a))
    ensures |Acts(live, id, order, a)| <= (if a.quantity > 0 then 4 else 3) + 1
  {
    if Untouched(live, id, order) {
      EndsSettled(w, open, live, id, order, a);
      ActsCount(live, id, order, a);
    } else {
      ExpiredBeforeLanding(w, open, live, id, order, a);
    }
  }

  /** From the fourth step on the positions agree. */
  lemma LastSteps(w: World, open: set<nat>, live: Oms, id: nat, order: Order, a: Answer, k: nat, y: nat)
    requires Unseen(w, open, id) && Tracked(live) && (Untouched(live, id, order) || Gone(live, id))
    requires order.quantity > 0 && 0 <= a.quantity <= order.quantity
    requires 3 < k <= |Acts(live, id, order, a)|
    ensures Agrees(DidAll(w, Acts(live, id, order, a)[..k]), y)
  {
    var acts := Acts(live, id, order, a);
    DispatchSettles(w, open, live, id, order, a);
    FillStep(w, open, live, id, order, a);
    assert acts[..|acts|] == acts;
    assert k == |acts| ==> Agrees(DidAll(w, acts), y);
  }

  /** Stop dispatch() after any step: the venue and the recovered state agree on every position, or they differ
      by the signed fill of the one order that recovery reports open besides, with at least that much left. */
  lemma StopAnywhere(w: World, open: set<nat>, live: Oms, id: nat, order: Order, a: Answer, k: nat)
    requires Unseen(w, open, id) && Tracked(live) && (Untouched(live, id, order) || Gone(live, id))
    requires order.quantity > 0 && 0 <= a.quantity <= order.quantity
    requires k <= |Acts(live, id, order, a)|
    ensures var acts := Acts(live, id, order, a);
      && Recoverable(DidAll(w, acts[..k]), open, order, id)
      && (k == |acts| ==> Settled(DidAll(w, acts[..k]), LeftOpen(live, open, id, order, a)))
  {
    var acts := Acts(live, id, order, a);
    FirstSteps(w, open, live, id, order, a);
    DispatchSettles(w, open, live, id, order, a);
    if k > 3 {
      forall y: nat ensures Agrees(DidAll(w, acts[..k]), y) {
        LastSteps(w, open, live, id, order, a, k, y);
      }
    }
    assert acts[..0] == [] && acts[..|acts|] == acts;
    assert k == 1 ==> OpenFor(DidAll(w, acts[..k]), open, id, order, 0);
    assert k == 2 || k == 3 ==> OpenFor(DidAll(w, acts[..k]), open, id, order, a.quantity);
  }

  // ------------------------------------------------------------ whole sessions

  /** Orders on the wire, in the order they were sent, and those that expired on it and were not filled
      whole when they landed. */
  datatype Session = Session(live: Oms, wire: seq<(nat, Order)>, world: World, stranded: set<nat>)

  datatype Event = Send(order: Order, now: int) | Other(op: Op) | Land(answer: Answer)

  /** The head of the wire lands; the venue fills no more than it was asked for, and recovery has room to follow
      one more open order. */
  ghost predicate Lands(s: Session, a: Answer) {
    s.wire != [] && 0 <= a.quantity <= s.wire[0].1.quantity && |s.stranded| < REPLAY_CONFIG.maxOpen
  }

  /** The operations that send nothing and hear nothing. */
  predicate Silent(op: Op) {
    op.CancelOp? || op.SweepOp? || op.NextIdOp?
  }

  ghost predicate May(s: Session, e: Event) {
    match e
    case Send(_, _) => true
    case Other(op) => Silent(op) && Possible(s.live, op)
    case Land(a) => Lands(s, a)
  }

  function Happens(s: Session, e: Event): Session
    requires May(s, e)
  {
    match e
    case Send(order, now) =>
      var c := Create(s.live, order, now);
      s.(live := c.oms, wire := if c.id == 0 then s.wire else s.wire + [(c.id, order)])
    case Other(op) => s.(live := Step(s.live, op))
    case Land(a) =>
      var (id, order) := s.wire[0];
      Session(Dispatch(s.live, id, order, a), s.wire[1..], DidAll(s.world, Acts(s.live, id, order, a)),
              LeftOpen(s.live, s.stranded, id, order, a))
  }

  ghost predicate OnWire(live: Oms, seen: map<nat, Record>, id: nat, order: Order) {
    && 0 < id < live.nextId && id !in seen && order.quantity > 0
    && (Untouched(live, id, order) || Gone(live, id))
  }

  /** Nothing the journal knows of can be sent again. */
  ghost predicate Spent(live: Oms, id: nat) {
    id < live.nextId && Gone(live, id)
  }

  /** What is on the wire is not yet in the journal, each order is there once, and what the journal has seen is
      done with. */
  ghost predicate WireOk(live: Oms, wire: seq<(nat, Order)>, seen: map<nat, Record>) {
    && Tracked(live)
    && (forall id {:trigger Spent(live, id)} :: id in seen ==> Spent(live, id))
    && (forall i {:trigger wire[i]} :: 0 <= i < |wire| ==> OnWire(live, seen, wire[i].0, wire[i].1))
    && (forall i, j {:trigger wire[i], wire[j]} :: 0 <= i < j < |wire| ==> wire[i].0 != wire[j].0)
  }

  ghost predicate SessionOk(s: Session) {
    Settled(s.world, s.stranded) && WireOk(s.live, s.wire, s.world.recovered.oms.orders)
  }

  lemma OtherKeepsWire(live: Oms, wire: seq<(nat, Order)>, seen: map<nat, Record>, op: Op)
    requires WireOk(live, wire, seen) && Silent(op) && Possible(live, op)
    ensures WireOk(Step(live, op), wire, seen)
  {
    var live' := Step(live, op);
    StepKeeps(live, op);
    forall id | id in seen ensures Spent(live', id) {
      assert Spent(live, id);
      if id in live'.orders {
        QuietOps(live, op, id);
      }
    }
    forall i {:trigger wire[i]} | 0 <= i < |wire| ensures OnWire(live', seen, wire[i].0, wire[i].1) {
      if wire[i].0 in live'.orders {
        QuietOps(live, op, wire[i].0);
      }
    }
  }

  lemma SendKeepsWire(live: Oms, wire: seq<(nat, Order)>, seen: map<nat, Record>, order: Order, now: int)
    requires WireOk(live, wire, seen)
    ensures var c := Create(live, order, now);
      WireOk(c.oms, if c.id == 0 then wire else wire + [(c.id, order)], seen)
  {
    var c := Create(live, order, now);
    var wire' := if c.id == 0 then wire else wire + [(c.id, order)];
    CreateTracked(live, live.nextId, order, now);
    forall id | id in seen ensures Spent(c.oms, id) {
      assert Spent(live, id);
    }
    forall i {:trigger wire'[i]} | 0 <= i < |wire'|
      ensures OnWire(c.oms, seen, wire'[i].0, wire'[i].1)
      ensures i < |wire| ==> wire'[i].0 < live.nextId
    {
      if i < |wire| {
        assert wire[i] == wire'[i];
      } else {
        assert c.id in seen ==> !Spent(live, c.id);
      }
    }
  }

  /** A landing may add its own order to what the journal has seen. */
  lemma LandKeepsWire(live: Oms, wire: seq<(nat, Order)>, seen: map<nat, Record>, seen': map<nat, Record>, a: Answer)
    requires WireOk(live, wire, seen) && wire != []
    requires forall x :: x in seen' && x != wire[0].0 ==> x in seen
    ensures WireOk(Dispatch(live, wire[0].0, wire[0].1, a), wire[1..], seen')
  {
    var (id, order) := wire[0];
    var live', wire' := Dispatch(live, id, order, a), wire[1..];
    assert OnWire(live, seen, id, order);
    DispatchEnds(live, id, order, a);
    forall x | x in seen' ensures Spent(live', x) {
      assert x != id ==> Spent(live, x);
      if x in live'.orders {
        if x != id {
          DispatchTouchesOne(live, id, order, a, x);
        }
      }
    }
    forall i {:trigger wire'[i]} | 0 <= i < |wire'| ensures OnWire(live', seen', wire'[i].0, wire'[i].1) {
      assert wire'[i] == wire[i + 1] && wire[0].0 != wire[i + 1].0;
      if wire[i + 1].0 in live'.orders {
        DispatchTouchesOne(live, id, order, a, wire[i + 1].0);
      }
    }
  }

  lemma LandKeepsOk(s: Session, a: Answer)
    requires SessionOk(s) && Lands(s, a)
    ensures SessionOk(Happens(s, Land(a)))
  {
    var (id, order) := s.wire[0];
    assert OnWire(s.live, s.world.recovered.oms.orders, id, order);
    DispatchSettles(s.world, s.stranded, s.live, id, order, a);
    JournalKnows(s.world, s.live, id, order, a);
    LandKeepsWire(s.live, s.wire, s.world.recovered.oms.orders, Happens(s, Land(a)).world.recovered.oms.orders, a);
  }

  /** A dispatch adds only its own order to what the journal knows. */
  lemma JournalKnows(w: World, live: Oms, id: nat, order: Order, a: Answer)
    ensures forall x :: x in DidAll(w, Acts(live, id, order, a)).recovered.oms.orders && x != id ==>
      x in w.recovered.oms.orders
  {
    var acts := Acts(live, id, order, a);
    assert acts[..|acts|] == acts;
    KnowsPrefix(w, live, id, order, a, |acts|);
  }

  /** The step is about this order only. */
  predicate About(act: Act, id: nat) {
    match act
    case Wrote(_, OrderSent(x, _)) => x == id
    case Wrote(_, ExecReport(rep)) => rep.id == id
    case _ => true
  }

  lemma StepKnows(w: World, act: Act, id: nat, x: nat)
    requires About(act, id) && x != id && x in Did(w, act).recovered.oms.orders
    ensures x in w.recovered.oms.orders
  {
    if act.Wrote? && act.entry.ExecReport? {
      ReportTouchesOne(w.recovered.oms, act.entry.report, x);
    }
  }

  lemma {:induction false} KnowsPrefix(w: World, live: Oms, id: nat, order: Order, a: Answer, k: nat)
    requires k <= |Acts(live, id, order, a)|
    ensures forall x :: x in DidAll(w, Acts(live, id, order, a)[..k]).recovered.oms.orders && x != id ==>
      x in w.recovered.oms.orders
  {
    if k > 0 {
      var acts := Acts(live, id, order, a);
      KnowsPrefix(w, live, id, order, a, k - 1);
      DidNext(w, acts, k - 1);
      var before := DidAll(w, acts[..k - 1]);
      forall x | x in Did(before, acts[k - 1]).recovered.oms.orders && x != id ensures x in before.recovered.oms.orders {
        StepKnows(before, acts[k - 1], id, x);
      }
    }
  }

  ghost predicate Plays(s: Session, events: seq<Event>)
    decreases |events|
  {
    events != [] ==> May(s, events[0]) && Plays(Happens(s, events[0]), events[1..])
  }

  ghost function Played(s: Session, events: seq<Event>): Session
    requires Plays(s, events)
    decreases |events|
  {
    if events == [] then s else Played(Happens(s, events[0]), events[1..])
  }

  lemma {:induction false} PlayKeepsOk(s: Session, events: seq<Event>)
    requires SessionOk(s) && Plays(s, events)
    ensures SessionOk(Played(s, events))
    decreases |events|
  {
    if events != [] {
      match events[0] {
        case Send(order, now) => SendKeepsWire(s.live, s.wire, s.world.recovered.oms.orders, order, now);
        case Other(op) => OtherKeepsWire(s.live, s.wire, s.world.recovered.oms.orders, op);
        case Land(a) => LandKeepsOk(s, a);
      }
      PlayKeepsOk(Happens(s, events[0]), events[1..]);
    }
  }

  function Opening(config: Config): Session {
    Session(Empty(config), [], World(JournalSpec.Fresh(), []), {})
  }

  /** Write-ahead crash safety for a session that starts flat, orders that expire in flight included: after any
      events, and any number of steps into the next landing, recovery is right about every position, or off by
      the fill of the one order it reports open besides; and between landings it is right, and reports open
      exactly the orders that had expired when they landed and were not filled whole. */
  lemma CrashAnywhere(config: Config, events: seq<Event>, a: Answer, k: nat)
    requires config.history > 0 && Plays(Opening(config), events)
    ensures var s := Played(Opening(config), events);
      && Settled(s.world, s.stranded)
      && (Lands(s, a) && k <= |Acts(s.live, s.wire[0].0, s.wire[0].1, a)| ==>
            Recoverable(DidAll(s.world, Acts(s.live, s.wire[0].0, s.wire[0].1, a)[..k]), s.stranded, s.wire[0].1, s.wire[0].0))
  {
    var start := Opening(config);
    EmptyTracked(config);
    EmptyTracked(REPLAY_CONFIG);
    assert WorkingIds(map[]) == {};
    PlayKeepsOk(start, events);
    var s := Played(start, events);
    if Lands(s, a) && k <= |Acts(s.live, s.wire[0].0, s.wire[0].1, a)| {
      var (id, order) := s.wire[0];
      assert OnWire(s.live, s.world.recovered.oms.orders, id, order);
      StopAnywhere(s.world, s.stranded, s.live, id, order, a, k);
    }
  }

  /** Nothing is stranded while every order lands before its acknowledgement is overdue. */
  lemma {:induction false} OnTimeStrandsNothing(s: Session, events: seq<Event>)
    requires Plays(s, events) && AllOnTime(s, events)
    ensures Played(s, events).stranded == s.stranded
    decreases |events|
  {
    if events != [] {
      OnTimeStrandsNothing(Happens(s, events[0]), events[1..]);
    }
  }

  /** Each order is still known as working when it lands. */
  ghost predicate AllOnTime(s: Session, events: seq<Event>)
    requires Plays(s, events)
    decreases |events|
  {
    events != [] ==>
      && (events[0].Land? ==> StillWorking(s.live, s.wire[0].0))
      && AllOnTime(Happens(s, events[0]), events[1..])
  }
}

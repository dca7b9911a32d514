/** Appends that fail.  A record that is lost still uses up its number, and the run goes on: what recovery then
    finds of an order, and of a whole session. */
module LostRecords {
  import opened Types
  import opened OmsSpec
  import opened OmsLaws
  import opened RiskSpec
  import opened Dispatching
  import opened JournalSpec
  import opened CrashSafety
  import opened JournalFile
  import opened EngineSpec
  import opened EngineRuns

  // ------------------------------------------------------------ one order

  /** What recovery knows of an order. */
  datatype Known = Unknown | Sent | Acknowledged | Partial | Finished

  /** Recovery's order manager, with these orders open and this much known of one more. */
  ghost predicate Knows(s: Oms, open: set<nat>, id: nat, order: Order, k: Known) {
    && Tracked(s) && s.config == REPLAY_CONFIG && id != 0 && id !in open
    && WorkingIds(s.orders) == (if k.Unknown? || k.Finished? then open else open + {id})
    && (id in s.orders <==> !k.Unknown?)
    && (!k.Unknown? ==> Stage(s.orders[id], order, k))
  }

  /** Nothing of the order has filled. */
  predicate Whole(r: Record, order: Order) {
    && r.symbol == order.symbol && r.side == order.side
    && r.filled == 0 && r.quantity == r.leaves == order.quantity
  }

  predicate Stage(r: Record, order: Order, k: Known) {
    match k
    case Sent => r.state.PendingNew? && Whole(r, order)
    case Acknowledged => r.state.New? && Whole(r, order)
    case Partial => r.state.PartiallyFilled?
    case _ => Terminal(r.state)
  }

  /** A report of an order recovery does not know. */
  lemma UnknownStays(s: Oms, open: set<nat>, id: nat, order: Order, rep: Report)
    requires Knows(s, open, id, order, Unknown) && rep.id == id
    ensures Knows(Apply(s, rep), open, id, order, Unknown)
  {
  }

  /** A cancel of an order that was never acknowledged, or is finished. */
  lemma RefusedCancel(s: Oms, open: set<nat>, id: nat, order: Order, k: Known, rep: Report)
    requires Knows(s, open, id, order, k) && rep.id == id && rep.exec.CancelDone? && (k.Sent? || k.Finished?)
    ensures Knows(Apply(s, rep), open, id, order, k)
  {
    var s1 := With(s, Named(s, rep));
    NamedKeeps(s, rep);
    assert Apply(s, rep) == Invalid(s1).oms;
    assert WorkingIds(s1.orders) == WorkingIds(s.orders);
  }

  /** An order the journal has not seen, and room in recovery's order manager to follow it.  Whether the positions
      agree does not matter. */
  ghost predicate Follows(w: World, open: set<nat>, id: nat) {
    && Tracked(w.recovered.oms) && w.recovered.oms.config == REPLAY_CONFIG && WorkingIds(w.recovered.oms.orders) == open
    && id != 0 && id !in w.recovered.oms.orders && |open| < REPLAY_CONFIG.maxOpen
  }

  lemma SentMakesKnown(w: World, open: set<nat>, id: nat, order: Order)
    requires Follows(w, open, id) && order.quantity > 0
    ensures Knows(w.recovered.oms, open, id, order, Unknown)
    ensures Knows(CreateWithId(w.recovered.oms, id, order, order.createdTs).oms, open, id, order, Sent)
  {
    var s := w.recovered.oms;
    CreateTracked(s, id, order, order.createdTs);
    WorkingSet(s.orders, id, NewRecord(id, order, order.createdTs));
  }

  function AfterAck(k: Known): Known {
    if k.Sent? then Acknowledged else k
  }

  lemma AckMoves(s: Oms, open: set<nat>, id: nat, order: Order, a: Answer, k: Known)
    requires Knows(s, open, id, order, k) && (k.Unknown? || k.Sent?)
    ensures Knows(Apply(s, AckReport(id, order, a)), open, id, order, AfterAck(k))
  {
    if k.Unknown? {
      UnknownStays(s, open, id, order, AckReport(id, order, a));
    } else {
      AckOpens(s, AckReport(id, order, a));
      ReportKeeps(s, AckReport(id, order, a));
    }
  }

  function AfterExec(k: Known, order: Order, a: Answer): Known {
    if k.Unknown? then k else if a.quantity == order.quantity then Finished else Partial
  }

  lemma ExecMoves(s: Oms, open: set<nat>, id: nat, order: Order, a: Answer, k: Known)
    requires Knows(s, open, id, order, k) && (k.Unknown? || k.Sent? || k.Acknowledged?) && 0 < a.quantity <= order.quantity
    ensures Knows(Apply(s, FillReport(id, order, a)), open, id, order, AfterExec(k, order, a))
  {
    if k.Unknown? {
      UnknownStays(s, open, id, order, FillReport(id, order, a));
    } else {
      FillMoves(s, FillReport(id, order, a));
      ReportKeeps(s, FillReport(id, order, a));
    }
  }

  function AfterCancel(k: Known): Known {
    if k.Acknowledged? || k.Partial? then Finished else k
  }

  lemma CancelMoves(s: Oms, open: set<nat>, id: nat, order: Order, a: Answer, k: Known)
    requires Knows(s, open, id, order, k)
    ensures Knows(Apply(s, CancelReport(id, order, a)), open, id, order, AfterCancel(k))
  {
    var rep := CancelReport(id, order, a);
    if k.Unknown? {
      UnknownStays(s, open, id, order, rep);
    } else if k.Acknowledged? || k.Partial? {
      CancelEnds(s, rep);
      ReportKeeps(s, rep);
    } else {
      RefusedCancel(s, open, id, order, k, rep);
    }
  }

  /** The step that writes entry, if its record survives. */
  function Filing(w: World, kept: bool, ts: int, entry: Filed): World {
    if kept then Did(w, Wrote(ts, entry)) else w
  }

  lemma {:induction false} LossesConcat(w: World, n: nat, disk: nat -> Outcome, a: seq<Act>, b: seq<Act>)
    ensures AfterLosses(w, n, disk, a + b) == AfterLosses(AfterLosses(w, n, disk, a), n + Writes(a), disk, b)
    decreases |a|
  {
    if a == [] {
      assert a + b == b;
    } else {
      assert (a + b)[1..] == a[1..] + b;
      if a[0].Wrote? {
        LossesConcat(if disk(n + 1).Lost? then w else Did(w, a[0]), n + 1, disk, a[1..], b);
      } else {
        LossesConcat(Did(w, a[0]), n, disk, a[1..], b);
      }
    }
  }

  lemma LossesOne(w: World, n: nat, disk: nat -> Outcome, ts: int, entry: Filed)
    ensures AfterLosses(w, n, disk, [Wrote(ts, entry)]) == Filing(w, !disk(n + 1).Lost?, ts, entry)
    ensures Writes([Wrote(ts, entry)]) == 1
  {
    assert [Wrote(ts, entry)][1..] == [];
  }

  /** What recovery knows of the order after its intent and the venue's answer. */
  function KnownAfterAnswer(order: Order, a: Answer, disk: nat -> Outcome, n: nat): Known {
    var sent := if disk(n + 1).Lost? then Unknown else Sent;
    var acked := if disk(n + 2).Lost? then sent else AfterAck(sent);
    if a.quantity == 0 || disk(n + 3).Lost? then acked else AfterExec(acked, order, a)
  }

  function BeginActs(id: nat, order: Order, a: Answer): seq<Act> {
    [Wrote(order.createdTs, OrderSent(id, order)), VenueFilled(order.symbol, order.side, a.quantity)]
  }

  lemma IntentAndVenue(w: World, open: set<nat>, id: nat, order: Order, a: Answer, n: nat, disk: nat -> Outcome)
    requires Follows(w, open, id) && order.quantity > 0
    ensures var acts := BeginActs(id, order, a);
      && Writes(acts) == 1
      && Knows(AfterLosses(w, n, disk, acts).recovered.oms, open, id, order,
               if disk(n + 1).Lost? then Unknown else Sent)
  {
    var sent, venue := Wrote(order.createdTs, OrderSent(id, order)), VenueFilled(order.symbol, order.side, a.quantity);
    LossesOne(w, n, disk, order.createdTs, OrderSent(id, order));
    LossesConcat(w, n, disk, [sent], [venue]);
    WritesConcat([sent], [venue]);
    VenueWritesNothing(AfterLosses(w, n, disk, [sent]), n + 1, disk, venue);
    assert [sent] + [venue] == [sent, venue];
    SentMakesKnown(w, open, id, order);
  }

  lemma VenueWritesNothing(w: World, n: nat, disk: nat -> Outcome, venue: Act)
    requires venue.VenueFilled?
    ensures AfterLosses(w, n, disk, [venue]) == Did(w, venue) && Did(w, venue).recovered == w.recovered
    ensures Writes([venue]) == 0
  {
    assert [venue][1..] == [];
  }

  lemma AnswerMoves(w: World, open: set<nat>, id: nat, order: Order, a: Answer, k: Known, n: nat, disk: nat -> Outcome)
    requires Knows(w.recovered.oms, open, id, order, k) && (k.Unknown? || k.Sent?) && 0 <= a.quantity <= order.quantity
    ensures var acked := if disk(n + 1).Lost? then k else AfterAck(k);
      var filled := if a.quantity == 0 || disk(n + 2).Lost? then acked else AfterExec(acked, order, a);
      && Knows(AfterLosses(w, n, disk, AnswerActs(id, order, a)).recovered.oms, open, id, order, filled)
      && Writes(AnswerActs(id, order, a)) == if a.quantity > 0 then 2 else 1
  {
    var ack, fill := ExecReport(AckReport(id, order, a)), ExecReport(FillReport(id, order, a));
    var acked := if disk(n + 1).Lost? then k else AfterAck(k);
    var w1 := Filing(w, !disk(n + 1).Lost?, a.ts, ack);
    LossesOne(w, n, disk, a.ts, ack);
    AckMoves(w.recovered.oms, open, id, order, a, k);
    if a.quantity > 0 {
      LossesConcat(w, n, disk, [Wrote(a.ts, ack)], [Wrote(a.ts, fill)]);
      LossesOne(w1, n + 1, disk, a.ts, fill);
      ExecMoves(w1.recovered.oms, open, id, order, a, acked);
      WritesConcat([Wrote(a.ts, ack)], [Wrote(a.ts, fill)]);
    } else {
      assert AnswerActs(id, order, a) == [Wrote(a.ts, ack)];
    }
  }

  lemma {:induction false} WritesConcat(a: seq<Act>, b: seq<Act>)
    ensures Writes(a + b) == Writes(a) + Writes(b)
    decreases |a|
  {
    if a == [] {
      assert a + b == b;
    } else {
      assert (a + b)[1..] == a[1..] + b;
      WritesConcat(a[1..], b);
    }
  }

  /** The number the cancel is filed under, where there is one. */
  function CancelNumber(a: Answer, n: nat): nat {
    n + if a.quantity > 0 then 4 else 3
  }

  function KnownAfter(live: Oms, id: nat, order: Order, a: Answer, disk: nat -> Outcome, n: nat): Known {
    var k := KnownAfterAnswer(order, a, disk, n);
    if StillWorking(live, id) && a.quantity < order.quantity && !disk(CancelNumber(a, n)).Lost? then AfterCancel(k) else k
  }

  lemma DispatchMoves(w: World, open: set<nat>, live: Oms, id: nat, order: Order, a: Answer, n: nat, disk: nat -> Outcome)
    requires Follows(w, open, id) && Tracked(live) && (Untouched(live, id, order) || Gone(live, id))
    requires order.quantity > 0 && 0 <= a.quantity <= order.quantity
    ensures Knows(AfterLosses(w, n, disk, Acts(live, id, order, a)).recovered.oms, open, id, order,
                  KnownAfter(live, id, order, a, disk, n))
  {
    var begin := BeginActs(id, order, a);
    var answer, rest := AnswerActs(id, order, a), RestActs(AfterFill(live, id, order, a), id, order, a);
    var w1 := AfterLosses(w, n, disk, begin);
    var w2 := AfterLosses(w1, n + 1, disk, answer);
    IntentAndVenue(w, open, id, order, a, n, disk);
    AnswerMoves(w1, open, id, order, a, if disk(n + 1).Lost? then Unknown else Sent, n + 1, disk);
    ThreeParts(w, n, disk, begin, answer, rest);
    assert Acts(live, id, order, a) == begin + answer + rest;
    RestMoves(w2, open, live, id, order, a, KnownAfterAnswer(order, a, disk, n), CancelNumber(a, n) - 1, disk);
  }

  lemma ThreeParts(w: World, n: nat, disk: nat -> Outcome, a: seq<Act>, b: seq<Act>, c: seq<Act>)
    ensures AfterLosses(w, n, disk, a + b + c)
         == AfterLosses(AfterLosses(AfterLosses(w, n, disk, a), n + Writes(a), disk, b), n + Writes(a) + Writes(b), disk, c)
  {
    LossesConcat(w, n, disk, a, b);
    LossesConcat(w, n, disk, a + b, c);
    WritesConcat(a, b);
  }

  lemma RestMoves(w: World, open: set<nat>, live: Oms, id: nat, order: Order, a: Answer, k: Known, n: nat,
                  disk: nat -> Outcome)
    requires Knows(w.recovered.oms, open, id, order, k)
    requires Tracked(live) && (Untouched(live, id, order) || Gone(live, id)) && 0 <= a.quantity <= order.quantity
    ensures var rest := RestActs(AfterFill(live, id, order, a), id, order, a);
      Knows(AfterLosses(w, n, disk, rest).recovered.oms, open, id, order,
        if StillWorking(live, id) && a.quantity < order.quantity && !disk(n + 1).Lost? then AfterCancel(k) else k)
  {
    CancelIffWorking(live, id, order, a);
    if StillWorking(live, id) && a.quantity < order.quantity {
      LossesOne(w, n, disk, a.ts, ExecReport(CancelReport(id, order, a)));
      CancelMoves(w.recovered.oms, open, id, order, a, k);
    }
  }

  lemma CancelIffWorking(live: Oms, id: nat, order: Order, a: Answer)
    requires Tracked(live) && (Untouched(live, id, order) || Gone(live, id)) && 0 <= a.quantity <= order.quantity
    ensures StillWorking(AfterFill(live, id, order, a), id) <==> StillWorking(live, id) && a.quantity < order.quantity
  {
    if Untouched(live, id, order) {
      CancelEmittedIff(live, id, order, a);
    } else {
      IgnoredWhenFinished(live, id, order, a);
    }
  }

  // ------------------------------------------------------------ positions

  /** What replaying the step moves the position in y by. */
  function Moves(act: Act, y: nat): int {
    if act.Wrote? && act.entry.ExecReport? then FillIn(act.entry.report, y) else 0
  }

  function FillIn(rep: Report, y: nat): int {
    if rep.exec.Executed? && rep.quantity > 0 && rep.symbol == y then rep.side.Signed(rep.quantity) else 0
  }

  /** The signed fills in y whose records were lost. */
  function LostFills(n: nat, disk: nat -> Outcome, acts: seq<Act>, y: nat): int
    decreases |acts|
  {
    if acts == [] then 0
    else if acts[0].Wrote? then
      (if disk(n + 1).Lost? then Moves(acts[0], y) else 0) + LostFills(n + 1, disk, acts[1..], y)
    else LostFills(n, disk, acts[1..], y)
  }

  lemma DidMoves(w: World, act: Act, y: nat)
    ensures At(Did(w, act).recovered.positions, y) == At(w.recovered.positions, y) + Moves(act, y)
    ensures act.Wrote? ==> Did(w, act).venue == w.venue
  {
    if act.Wrote? && act.entry.ExecReport? {
      var rep := act.entry.report;
      MovedAt(w.recovered.positions, rep.symbol, rep.side.Signed(rep.quantity), y);
    }
  }

  /** How far the step takes the venue ahead of recovery. */
  function Ahead(act: Act, y: nat): int {
    match act
    case VenueFilled(symbol, side, q) => if symbol == y && q > 0 then side.Signed(q) else 0
    case Wrote(_, _) => -Moves(act, y)
  }

  function Balance(acts: seq<Act>, y: nat): int
    decreases |acts|
  {
    if acts == [] then 0 else Ahead(acts[0], y) + Balance(acts[1..], y)
  }

  /** Whatever is lost, the venue comes out ahead by what the steps take it ahead and by the lost fills. */
  lemma {:induction false} LossesLeaveGap(w: World, n: nat, disk: nat -> Outcome, acts: seq<Act>, y: nat)
    ensures Gap(AfterLosses(w, n, disk, acts), y) == Gap(w, y) + Balance(acts, y) + LostFills(n, disk, acts, y)
    decreases |acts|
  {
    if acts != [] {
      var act := acts[0];
      DidMoves(w, act, y);
      if act.Wrote? {
        LossesLeaveGap(if disk(n + 1).Lost? then w else Did(w, act), n + 1, disk, acts[1..], y);
      } else {
        LossesLeaveGap(Did(w, act), n, disk, acts[1..], y);
      }
    }
  }

  /** The venue does what it does, whatever is lost. */
  lemma {:induction false} SameVenue(w: World, w': World, n: nat, disk: nat -> Outcome, acts: seq<Act>)
    requires w.venue == w'.venue
    ensures AfterLosses(w, n, disk, acts).venue == DidAll(w', acts).venue
    decreases |acts|
  {
    if acts != [] {
      if acts[0].Wrote? {
        SameVenue(if disk(n + 1).Lost? then w else Did(w, acts[0]), Did(w', acts[0]), n + 1, disk, acts[1..]);
      } else {
        SameVenue(Did(w, acts[0]), Did(w', acts[0]), n, disk, acts[1..]);
      }
    }
  }

  lemma {:induction false} BalanceConcat(a: seq<Act>, b: seq<Act>, y: nat)
    ensures Balance(a + b, y) == Balance(a, y) + Balance(b, y)
    decreases |a|
  {
    if a == [] {
      assert a + b == b;
    } else {
      assert (a + b)[1..] == a[1..] + b;
      BalanceConcat(a[1..], b, y);
    }
  }

  lemma BalanceOne(act: Act, y: nat)
    ensures Balance([act], y) == Ahead(act, y)
  {
    assert [act][1..] == [];
  }

  /** A dispatch that is written whole leaves the venue no further ahead. */
  lemma DispatchBalances(live: Oms, id: nat, order: Order, a: Answer, y: nat)
    ensures Balance(Acts(live, id, order, a), y) == 0
  {
    var sent, venue := BeginActs(id, order, a)[0], BeginActs(id, order, a)[1];
    var answer, rest := AnswerActs(id, order, a), RestActs(AfterFill(live, id, order, a), id, order, a);
    assert Acts(live, id, order, a) == [sent] + ([venue] + (answer + rest));
    BalanceConcat([sent], [venue] + (answer + rest), y);
    BalanceConcat([venue], answer + rest, y);
    BalanceConcat(answer, rest, y);
    BalanceOne(sent, y);
    BalanceOne(venue, y);
    AnswerBalance(id, order, a, y);
    if rest != [] {
      BalanceOne(rest[0], y);
    }
  }

  lemma AnswerBalance(id: nat, order: Order, a: Answer, y: nat)
    ensures Balance(AnswerActs(id, order, a), y)
         == if order.symbol == y && a.quantity > 0 then -order.side.Signed(a.quantity) else 0
  {
    var ack, fill := Wrote(a.ts, ExecReport(AckReport(id, order, a))), Wrote(a.ts, ExecReport(FillReport(id, order, a)));
    BalanceOne(ack, y);
    BalanceOne(fill, y);
    BalanceConcat([ack], [fill], y);
    assert AnswerActs(id, order, a) == if a.quantity > 0 then [ack] + [fill] else [ack];
  }

  lemma {:induction false} LostConcat(n: nat, disk: nat -> Outcome, a: seq<Act>, b: seq<Act>, y: nat)
    ensures LostFills(n, disk, a + b, y) == LostFills(n, disk, a, y) + LostFills(n + Writes(a), disk, b, y)
    decreases |a|
  {
    if a == [] {
      assert a + b == b;
    } else {
      assert (a + b)[1..] == a[1..] + b;
      LostConcat(if a[0].Wrote? then n + 1 else n, disk, a[1..], b, y);
    }
  }

  lemma LostOne(n: nat, disk: nat -> Outcome, act: Act, y: nat)
    requires act.Wrote?
    ensures LostFills(n, disk, [act], y) == if disk(n + 1).Lost? then Moves(act, y) else 0
    ensures Writes([act]) == 1
  {
    assert [act][1..] == [];
  }

  /** Of the records of a dispatch only the fill's carries a position. */
  lemma LostInDispatch(live: Oms, id: nat, order: Order, a: Answer, n: nat, disk: nat -> Outcome, y: nat)
    ensures LostFills(n, disk, Acts(live, id, order, a), y)
         == if y == order.symbol && a.quantity > 0 && disk(n + 3).Lost? then order.side.Signed(a.quantity) else 0
  {
    var begin, answer := BeginActs(id, order, a), AnswerActs(id, order, a);
    var rest := RestActs(AfterFill(live, id, order, a), id, order, a);
    assert Acts(live, id, order, a) == begin + (answer + rest);
    LostConcat(n, disk, begin, answer + rest, y);
    LostToBegin(n, disk, id, order, a, y);
    LostConcat(n + 1, disk, answer, rest, y);
    LostInAnswer(n + 1, disk, id, order, a, y);
    if rest != [] {
      LostOne(n + 1 + Writes(answer), disk, rest[0], y);
    }
  }

  lemma LostToBegin(n: nat, disk: nat -> Outcome, id: nat, order: Order, a: Answer, y: nat)
    ensures LostFills(n, disk, BeginActs(id, order, a), y) == 0 && Writes(BeginActs(id, order, a)) == 1
  {
    var sent, venue := BeginActs(id, order, a)[0], BeginActs(id, order, a)[1];
    assert BeginActs(id, order, a) == [sent] + [venue] && [venue][1..] == [];
    LostConcat(n, disk, [sent], [venue], y);
    LostOne(n, disk, sent, y);
    WritesConcat([sent], [venue]);
  }

  lemma LostInAnswer(n: nat, disk: nat -> Outcome, id: nat, order: Order, a: Answer, y: nat)
    ensures LostFills(n, disk, AnswerActs(id, order, a), y)
         == if y == order.symbol && a.quantity > 0 && disk(n + 2).Lost? then order.side.Signed(a.quantity) else 0
  {
    var ack := Wrote(a.ts, ExecReport(AckReport(id, order, a)));
    LostOne(n, disk, ack, y);
    if a.quantity > 0 {
      var fill := Wrote(a.ts, ExecReport(FillReport(id, order, a)));
      LostConcat(n, disk, [ack], [fill], y);
      LostOne(n + 1, disk, fill, y);
      assert AnswerActs(id, order, a) == [ack] + [fill];
    } else {
      assert AnswerActs(id, order, a) == [ack];
    }
  }

  // ------------------------------------------------------------ what recovery finds after a dispatch

  /** The order stays open in recovery: its intent is on file, and nothing on file that ends it. */
  predicate LeftDangling(live: Oms, id: nat, order: Order, a: Answer, disk: nat -> Outcome, n: nat) {
    && !disk(n + 1).Lost?
    && if a.quantity == order.quantity then disk(n + 3).Lost?
       else
         || !StillWorking(live, id) || disk(CancelNumber(a, n)).Lost?
         || (disk(n + 2).Lost? && (a.quantity == 0 || disk(n + 3).Lost?))
  }

  lemma DanglingIsOpen(live: Oms, id: nat, order: Order, a: Answer, n: nat, disk: nat -> Outcome)
    requires order.quantity > 0 && 0 <= a.quantity <= order.quantity
    ensures var k := KnownAfter(live, id, order, a, disk, n);
      && (k.Unknown? <==> disk(n + 1).Lost?)
      && (LeftDangling(live, id, order, a, disk, n) <==> !k.Unknown? && !k.Finished?)
      && (a.quantity > 0 && disk(n + 3).Lost? ==> !k.Partial?)
  {
  }

  /** The signed fill of the order in y, if its record was lost. */
  function FillLost(order: Order, a: Answer, disk: nat -> Outcome, n: nat, y: nat): int {
    if y == order.symbol && a.quantity > 0 && disk(n + 3).Lost? then order.side.Signed(a.quantity) else 0
  }

  lemma GapAfterDispatch(w: World, live: Oms, id: nat, order: Order, a: Answer, n: nat, disk: nat -> Outcome, y: nat)
    ensures Gap(AfterLosses(w, n, disk, Acts(live, id, order, a)), y) == Gap(w, y) + FillLost(order, a, disk, n, y)
  {
    LossesLeaveGap(w, n, disk, Acts(live, id, order, a), y);
    DispatchBalances(live, id, order, a, y);
    LostInDispatch(live, id, order, a, n, disk, y);
  }

  /** A dispatch whose appends may each be lost, from any journal: the venue comes out further ahead by the fill if
      its record was lost and otherwise not; recovery knows the order exactly when its intent was not lost; and it
      is open exactly when nothing on file ends it. */
  lemma FoundAfterDispatch(w: World, open: set<nat>, live: Oms, id: nat, order: Order, a: Answer, n: nat,
                           disk: nat -> Outcome)
    requires Follows(w, open, id) && Tracked(live) && (Untouched(live, id, order) || Gone(live, id))
    requires order.quantity > 0 && 0 <= a.quantity <= order.quantity
    ensures var w' := AfterLosses(w, n, disk, Acts(live, id, order, a));
      && (forall y: nat :: Gap(w', y) == Gap(w, y) + FillLost(order, a, disk, n, y))
      && (id in w'.recovered.oms.orders <==> !disk(n + 1).Lost?)
      && Tracked(w'.recovered.oms) && w'.recovered.oms.config == REPLAY_CONFIG
      && WorkingIds(w'.recovered.oms.orders)
           == if LeftDangling(live, id, order, a, disk, n) then open + {id} else open
  {
    forall y: nat
      ensures Gap(AfterLosses(w, n, disk, Acts(live, id, order, a)), y) == Gap(w, y) + FillLost(order, a, disk, n, y)
    {
      GapAfterDispatch(w, live, id, order, a, n, disk, y);
    }
    DispatchMoves(w, open, live, id, order, a, n, disk);
    DanglingIsOpen(live, id, order, a, n, disk);
  }

  /** Recovery reports this order open besides, with at least what the venue has come further ahead by. */
  ghost predicate Covers(w: World, w': World, open: set<nat>, id: nat, order: Order, ahead: int) {
    && Tracked(w'.recovered.oms) && id !in open && WorkingIds(w'.recovered.oms.orders) == open + {id}
    && id in w'.recovered.oms.orders && Whole(w'.recovered.oms.orders[id], order) && order.quantity >= ahead >= 0
    && forall y: nat {:trigger Gap(w', y)} ::
         Gap(w', y) == Gap(w, y) + (if y == order.symbol then order.side.Signed(ahead) else 0)
  }

  /** The promise of the write-ahead order, for the steps from w to w': the venue is no further ahead, or further
      ahead by the signed fill of the one order reported open besides. */
  ghost predicate Promised(w: World, w': World, open: set<nat>, order: Order, id: nat) {
    || (forall y: nat {:trigger Gap(w', y)} :: Gap(w', y) == Gap(w, y))
    || exists ahead: int {:trigger Covers(w, w', open, id, order, ahead)} :: Covers(w, w', open, id, order, ahead)
  }

  /** From a journal that is right about every position this is what a stop at any point promises. */
  lemma PromisedIsRecoverable(w: World, w': World, open: set<nat>, order: Order, id: nat)
    requires forall y: nat {:trigger Agrees(w, y)} :: Agrees(w, y)
    ensures Promised(w, w', open, order, id) <==> Recoverable(w', open, order, id)
  {
    forall y: nat ensures Gap(w, y) == 0 {
      assert Agrees(w, y);
    }
    if forall y: nat :: Gap(w', y) == Gap(w, y) {
      forall y: nat ensures Agrees(w', y) {
        assert Gap(w', y) == Gap(w, y);
      }
    } else if forall y: nat :: Agrees(w', y) {
      forall y: nat ensures Gap(w', y) == Gap(w, y) {
        assert Agrees(w', y);
      }
    }
    if ahead: int :| Covers(w, w', open, id, order, ahead) {
      assert OpenFor(w', open, id, order, ahead);
    }
    if ahead: int :| OpenFor(w', open, id, order, ahead) {
      assert Covers(w, w', open, id, order, ahead);
    }
  }

  lemma PromisedIff(w: World, w': World, open: set<nat>, id: nat, order: Order, k: Known, lost: int)
    requires Knows(w'.recovered.oms, open, id, order, k) && 0 <= lost <= order.quantity
    requires forall y: nat :: Gap(w', y) == Gap(w, y) + (if y == order.symbol then order.side.Signed(lost) else 0)
    requires lost > 0 ==> !k.Partial?
    ensures Promised(w, w', open, order, id) <==> lost == 0 || k.Sent? || k.Acknowledged?
  {
    if lost > 0 {
      assert Gap(w', order.symbol) != Gap(w, order.symbol);
      if k.Sent? || k.Acknowledged? {
        assert Covers(w, w', open, id, order, lost);
      }
    }
  }

  /** The promise survives lost appends exactly when the fill was not lost, or the order stays open in recovery. */
  lemma StillRecoverableIff(w: World, open: set<nat>, live: Oms, id: nat, order: Order, a: Answer, n: nat,
                            disk: nat -> Outcome)
    requires Follows(w, open, id) && Tracked(live) && (Untouched(live, id, order) || Gone(live, id))
    requires order.quantity > 0 && 0 <= a.quantity <= order.quantity
    ensures Promised(w, AfterLosses(w, n, disk, Acts(live, id, order, a)), open, order, id) <==>
      a.quantity == 0 || !disk(n + 3).Lost? || LeftDangling(live, id, order, a, disk, n)
  {
    var lost := if a.quantity > 0 && disk(n + 3).Lost? then a.quantity else 0;
    var w' := AfterLosses(w, n, disk, Acts(live, id, order, a));
    forall y: nat ensures Gap(w', y) == Gap(w, y) + (if y == order.symbol then order.side.Signed(lost) else 0) {
      GapAfterDispatch(w, live, id, order, a, n, disk, y);
    }
    DispatchMoves(w, open, live, id, order, a, n, disk);
    DanglingIsOpen(live, id, order, a, n, disk);
    PromisedIff(w, w', open, id, order, KnownAfter(live, id, order, a, disk, n), lost);
  }

  // ------------------------------------------------------------ whole sessions

  /** Steps that leave the positions agreeing when nothing is lost take the venue no further ahead. */
  lemma SessionBalances(w: World, acts: seq<Act>, y: nat)
    requires Agrees(w, y) && Agrees(DidAll(w, acts), y)
    ensures Balance(acts, y) == 0
  {
    var disk := (n: nat) => Written;
    LossesLeaveGap(w, 0, disk, acts, y);
    NothingLost(File([], 0), disk, w, acts);
    NoLostFills(0, disk, acts, y);
  }

  lemma {:induction false} NoLostFills(n: nat, disk: nat -> Outcome, acts: seq<Act>, y: nat)
    requires NoneLost(disk, n, n + Writes(acts))
    ensures LostFills(n, disk, acts, y) == 0
    decreases |acts|
  {
    if acts != [] {
      assert acts[0].Wrote? ==> disk(n + 1) != Lost;
      NoLostFills(if acts[0].Wrote? then n + 1 else n, disk, acts[1..], y);
    }
  }

  /** For every session from flat and whatever becomes of each append: recovery is behind the venue by exactly the
      fills whose records were lost. */
  lemma BehindByLostFills(config: Config, limits: Limits, symbolLimits: seq<int>, calls: seq<Call>,
                          disk: nat -> Outcome, y: nat)
    requires config.history > 0 && limits.enabled && limits.maxPosition >= 0 && limits.maxGross >= 0
    requires EngineSpec.Session(calls)
    ensures var start := Start(config, limits, symbolLimits);
      var acts := SessionActs(start, calls);
      At(Ends(start, calls).venue, y) - At(Recover(OnDisk(File([], 0), disk, acts).records).positions, y)
        == LostFills(0, disk, acts, y)
  {
    var start, w := Start(config, limits, symbolLimits), World(JournalSpec.Fresh(), []);
    var acts := SessionActs(start, calls);
    StartIsLinked(config, limits, symbolLimits);
    SessionStaysLinked(start, w, calls);
    assert Agrees(DidAll(w, acts), y);
    SessionBalances(w, acts, y);
    LossesLeaveGap(w, 0, disk, acts, y);
    SameVenue(w, w, 0, disk, acts);
    FileTells(File([], 0), disk, w, acts);
  }

  // ------------------------------------------------------------ what recovery notices

  predicate LossAt(disk: nat -> Outcome, n: nat, i: nat, j: nat, k: nat) {
    0 < i < j < k <= n && !disk(i).Lost? && disk(j).Lost? && !disk(k).Lost?
  }

  /** An append among the first n was lost between two that were not. */
  ghost predicate LossBetween(disk: nat -> Outcome, n: nat) {
    exists i: nat, j: nat, k: nat {:trigger LossAt(disk, n, i, j, k)} :: LossAt(disk, n, i, j, k)
  }

  function LastFiled(disk: nat -> Outcome, n: nat): nat {
    if n == 0 then 0 else if disk(n).Lost? then LastFiled(disk, n - 1) else n
  }

  lemma {:induction false} LastFiledIs(disk: nat -> Outcome, n: nat)
    ensures var last := LastFiled(disk, n);
      && last <= n && (last > 0 ==> !disk(last).Lost?)
      && forall m: nat {:trigger disk(m)} :: last < m <= n ==> disk(m).Lost?
  {
    if n > 0 && disk(n).Lost? {
      LastFiledIs(disk, n - 1);
    }
  }

  lemma LossBetweenNext(disk: nat -> Outcome, n: nat)
    ensures var last := LastFiled(disk, n);
      LossBetween(disk, n + 1) <==> LossBetween(disk, n) || (!disk(n + 1).Lost? && 0 < last < n)
  {
    var last, m := LastFiled(disk, n), n + 1;
    LastFiledIs(disk, n);
    if i: nat, j: nat, k: nat :| LossAt(disk, n, i, j, k) {
      assert LossAt(disk, n + 1, i, j, k);
    }
    if !disk(n + 1).Lost? && 0 < last < n {
      assert LossAt(disk, n + 1, last, n, n + 1);
    }
    if i: nat, j: nat, k: nat :| LossAt(disk, m, i, j, k) {
      if k <= n {
        assert LossAt(disk, n, i, j, k);
      } else if last == n {
        assert j < n && LossAt(disk, n, i, j, n);
      }
    }
  }

  /** What recovery has counted of a file that was written this way. */
  ghost predicate Noticed(f: File, disk: nat -> Outcome) {
    && Fold(f.records).expected == LastFiled(disk, f.seqNo)
    && (Fold(f.records).gaps > 0 <==> LossBetween(disk, f.seqNo))
  }

  lemma FoldNotes(records: seq<Stored>, s: Stored)
    requires s.intact
    ensures var r, r' := Fold(records), Fold(records + [s]);
      && r'.expected == s.seqNo
      && r'.gaps == r.gaps + (if r.expected != 0 && s.seqNo != r.expected + 1 then 1 else 0)
  {
    assert (records + [s])[..|records|] == records;
    ReplayKeepsNotes(Noted(Fold(records), s), s.ts, s.entry);
  }

  lemma AppendNoticed(f: File, disk: nat -> Outcome, ts: int, entry: Entry)
    requires Noticed(f, disk)
    ensures Noticed(Appended(f, disk, ts, entry), disk)
  {
    LossBetweenNext(disk, f.seqNo);
    LastFiledIs(disk, f.seqNo);
    FoldNotes(f.records, Stored(f.seqNo + 1, ts, entry, true));
  }

  lemma {:induction false} RunNoticed(f: File, disk: nat -> Outcome, acts: seq<Act>)
    requires Noticed(f, disk)
    ensures Noticed(OnDisk(f, disk, acts), disk)
    decreases |acts|
  {
    if acts != [] {
      match acts[0] {
        case Wrote(ts, entry) =>
          AppendNoticed(f, disk, ts, entry);
          RunNoticed(Appended(f, disk, ts, entry), disk, acts[1..]);
        case VenueFilled(_, _, _) => RunNoticed(f, disk, acts[1..]);
      }
    }
  }

  /** Recovery reports a gap exactly when an append was lost between two that were not: losses at either end of
      the file go unnoticed. */
  lemma GapsShowLosses(disk: nat -> Outcome, acts: seq<Act>)
    ensures var r := Recover(OnDisk(File([], 0), disk, acts).records);
      && (r.gaps > 0 <==> LossBetween(disk, Writes(acts))) && r.corrupt == r.truncated == 0
  {
    var f := File([], 0);
    NothingYet(disk);
    RunNoticed(f, disk, acts);
    NumbersUsed(f, disk, acts);
    OnDiskIntact(f, disk, acts);
    NothingCorrupt(OnDisk(f, disk, acts).records);
  }

  lemma NothingYet(disk: nat -> Outcome)
    ensures Noticed(File([], 0), disk)
  {
    if i: nat, j: nat, k: nat :| LossAt(disk, 0, i, j, k) {
      assert false;
    }
  }

  lemma {:induction false} NothingCorrupt(records: seq<Stored>)
    requires AllIntact(records)
    ensures Fold(records).corrupt == Fold(records).truncated == 0
  {
    if records != [] {
      var front, last := records[..|records| - 1], records[|records| - 1];
      NothingCorrupt(front);
      ReplayKeepsNotes(Noted(Fold(front), last), last.ts, last.entry);
    }
  }
}

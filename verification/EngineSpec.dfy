/** The engine's trading path with no venue latency: gate, track, dispatch, account; and flattening. */
module EngineSpec {
  import opened Types
  import opened OmsSpec
  import opened OmsLaws
  import opened OmsRuns
  import opened RiskSpec
  import opened Dispatching

  /** What trading changes: the order manager, the risk manager and the venue's positions. */
  datatype Engine = Engine(oms: Oms, risk: Risk, venue: seq<int>)

  /** A journal that cannot be written is a stop condition. */
  function Stopped(r: Risk, filed: bool): Risk {
    if filed then r else EngageKillSwitch(r, Manual)
  }

  /** What an order meets when it lands: the venue's answer, whether every record of it was written, the drawdown
      verdict on_equity() reaches afterwards, and when that is. */
  datatype Landing = Landing(answer: Answer, filed: bool, breach: Halt, done: int)

  /** complete_order(): the order meets the venue, and its fill reaches the positions on both sides. */
  function Complete(e: Engine, id: nat, order: Order, l: Landing): Engine {
    Engine(Dispatch(e.oms, id, order, l.answer),
           EngageKillSwitch(OnFill(Stopped(e.risk, l.filed), order.symbol, order.side, l.answer.quantity), l.breach),
           VenueAfter(e.venue, order.symbol, order.side, l.answer.quantity))
  }

  /** Track the order and let it meet the venue; an order that cannot be tracked is not sent. */
  function Send(e: Engine, order: Order, now: int, l: Landing): Engine {
    var c := Create(e.oms, order, now);
    if c.id == 0 then e.(oms := c.oms) else Complete(e.(oms := c.oms), c.id, order, l)
  }

  /** What the gate makes of an order, with what is working as the order manager has it. */
  function Gated(e: Engine, order: Order, reference: int, now: int): Decision {
    Check(e.risk, order, reference, now, e.oms.exposures.Net(order.symbol), e.oms.exposures.gross)
  }

  /** Stages 4 and 5 of process(). */
  function Trade(e: Engine, order: Order, reference: int, now: int, l: Landing): Engine {
    var d := Gated(e, order, reference, now);
    if d.reason != Accepted then e.(risk := d.risk) else Send(e.(risk := d.risk), order, now, l)
  }

  /** The order that closes a held position. */
  function ExitOrder(symbol: nat, held: int, now: int): Order {
    Order(0, symbol, if held > 0 then Sell else Buy, Market, 0, Abs(held), now)
  }

  datatype Exit = Exit(reference: int, now: int, answer: Answer)

  /** One exit of flatten(): no gate and no drawdown check, but tracked and dispatched like any other order. */
  function CloseOut(e: Engine, symbol: nat, held: int, x: Exit, filed: bool): Engine {
    if held == 0 || x.reference <= 0 then e
    else Send(e, ExitOrder(symbol, held, x.now), x.now, Landing(x.answer, filed, NotHalted, x.now))
  }

  /** What symbol k's exit meets: the venue fills no more of it than is held, and a symbol without an exit has no
      usable price. */
  function ExitFor(exits: seq<Exit>, k: nat, held: int): (x: Exit)
    ensures 0 <= x.answer.quantity <= Abs(held)
  {
    if k >= |exits| then Exit(0, 0, Answer(0, 0, 0, 0.0, 0))
    else exits[k].(answer := exits[k].answer.(quantity := Clamp(exits[k].answer.quantity, Abs(held))))
  }

  function FiledFor(filed: seq<bool>, k: nat): bool {
    k >= |filed| || filed[k]
  }

  /** flatten() over the snapshot of held positions, as far as the first k symbols. */
  function Flatten(e: Engine, held: seq<int>, exits: seq<Exit>, filed: seq<bool>, k: nat): Engine
    requires k <= |held|
  {
    if k == 0 then e
    else
      CloseOut(Flatten(e, held, exits, filed, k - 1), k - 1, held[k - 1], ExitFor(exits, k - 1, held[k - 1]),
               FiledFor(filed, k - 1))
  }

  datatype Call =
    | Process(order: Order, reference: int, now: int, landing: Landing)
    | FlattenAll(exits: seq<Exit>, filed: seq<bool>)
    | HaltNow(why: Halt, ts: int)
    | Release

  /** The venue fills no more than it was asked for. */
  predicate Sane(call: Call) {
    call.Process? ==> 0 <= call.landing.answer.quantity <= Max(call.order.quantity, 0)
  }

  /** Every record of the call was written. */
  predicate Filed(call: Call) {
    match call
    case Process(_, _, _, l) => l.filed
    case FlattenAll(_, filed) => AllFiled(filed)
    case _ => true
  }

  predicate AllFiled(filed: seq<bool>) {
    forall k :: 0 <= k < |filed| ==> filed[k]
  }

  predicate AllWritten(calls: seq<Call>) {
    forall i :: 0 <= i < |calls| ==> Filed(calls[i])
  }

  /** The same call, whatever became of its records. */
  predicate SameButFiled(call: Call, done: Call) {
    match call
    case Process(_, _, _, l) => done.Process? && done == call.(landing := l.(filed := done.landing.filed))
    case FlattenAll(exits, _) => done.FlattenAll? && done.exits == exits
    case _ => done == call
  }

  predicate SameCalls(calls: seq<Call>, done: seq<Call>) {
    |done| == |calls| && forall i :: 0 <= i < |calls| ==> SameButFiled(calls[i], done[i])
  }

  lemma OneMoreCall(calls: seq<Call>, done: Call, rest: seq<Call>)
    requires calls != [] && SameButFiled(calls[0], done) && SameCalls(calls[1..], rest)
    ensures SameCalls(calls, [done] + rest)
    ensures AllWritten([done] + rest) <==> Filed(done) && AllWritten(rest)
  {
    assert ([done] + rest)[0] == done && ([done] + rest)[1..] == rest && [calls[0]] + calls[1..] == calls;
    if AllWritten([done] + rest) {
      forall i | 0 <= i < |rest| ensures Filed(rest[i]) {
        assert ([done] + rest)[i + 1] == rest[i];
      }
    }
  }

  function Step(e: Engine, call: Call): Engine {
    match call
    case Process(order, reference, now, l) => Trade(e, order, reference, now, l)
    case FlattenAll(exits, filed) => Flatten(e, e.venue, exits, filed, |e.venue|)
    case HaltNow(why, _) => e.(risk := EngageKillSwitch(e.risk, why))
    case Release => e.(risk := e.risk.(halt := NotHalted))
  }

  /** The ids a call can use up. */
  function IdsFor(call: Call): nat {
    match call
    case Process(_, _, _, _) => 1
    case FlattenAll(exits, _) => |exits|
    case _ => 0
  }

  function IdsForAll(calls: seq<Call>): nat {
    if calls == [] then 0 else IdsFor(calls[0]) + IdsForAll(calls[1..])
  }

  ghost predicate SymbolOk(e: Engine, y: nat) {
    e.risk.Position(y) == At(e.venue, y) && Abs(e.risk.Position(y)) <= e.risk.SymbolLimit(y)
  }

  /** Between calls nothing is working, both sides agree on the positions, and every limit is met. */
  ghost predicate Quiet(e: Engine) {
    && Tracked(e.oms) && AllBalanced(e.oms.orders) && Exposed(e.oms.exposures, e.oms.orders)
    && WorkingIds(e.oms.orders) == {}
    && e.risk.limits.enabled && PositionsAddUp(e.risk) && e.risk.gross <= e.risk.limits.maxGross
    && forall y: nat {:trigger SymbolOk(e, y)} :: SymbolOk(e, y)
  }

  /** The same limits and positions; only halts and counters may differ. */
  ghost predicate SameBook(r: Risk, r': Risk) {
    r'.positions == r.positions && r'.limits == r.limits && r'.symbolLimits == r.symbolLimits && r'.gross == r.gross
  }

  ghost predicate SameLimits(e: Engine, e': Engine) {
    && e'.risk.limits == e.risk.limits && e'.risk.symbolLimits == e.risk.symbolLimits
    && e'.oms.config == e.oms.config
  }

  lemma VenueMoves(venue: seq<int>, symbol: nat, side: Side, quantity: int, y: nat)
    ensures At(VenueAfter(venue, symbol, side, quantity), y) ==
      At(venue, y) + (if y == symbol && quantity > 0 then side.Signed(quantity) else 0)
  {
  }

  /** Tracking an order in a quiet engine leaves it the only one working. */
  lemma OnlyOneWorking(s: Oms, order: Order, now: int)
    requires Tracked(s) && AllBalanced(s.orders) && Exposed(s.exposures, s.orders) && WorkingIds(s.orders) == {}
    requires Create(s, order, now).id != 0
    ensures var c := Create(s, order, now);
      && Kept(s, c.oms) && WorkingIds(c.oms.orders) == {c.id}
      && c.id in c.oms.orders && c.oms.orders[c.id].state.PendingNew?
  {
    CreateKeeps(s, s.nextId, order, now);
    WorkingSet(s.orders, s.nextId, NewRecord(s.nextId, order, now));
  }

  /** A fill that respects the limit of its symbol keeps both sides' positions equal and within the limits. */
  lemma SymbolsStayOk(e: Engine, e': Engine, r: Risk, order: Order, a: Answer, y: nat)
    requires SymbolOk(e, y) && SymbolOk(e, order.symbol) && PositionsAddUp(r) && SameBook(e.risk, r) && a.quantity >= 0
    requires SameBook(OnFill(r, order.symbol, order.side, a.quantity), e'.risk)
    requires e'.venue == VenueAfter(e.venue, order.symbol, order.side, a.quantity)
    requires Abs(e.risk.Position(order.symbol) + order.side.Signed(a.quantity)) <= e.risk.SymbolLimit(order.symbol)
    ensures SymbolOk(e', y)
  {
    OnFillAddsUp(r, order.symbol, order.side, a.quantity);
    VenueMoves(e.venue, order.symbol, order.side, a.quantity, y);
  }

  /** An order whose fill respects the limits leaves the engine quiet, written down or not. */
  lemma OrderCompletes(e: Engine, r: Risk, order: Order, now: int, l: Landing)
    requires Quiet(e) && SameBook(e.risk, r) && Create(e.oms, order, now).id != 0 && l.answer.quantity >= 0
    requires var p := e.risk.Position(order.symbol);
      var p' := p + order.side.Signed(l.answer.quantity);
      && Abs(p') <= e.risk.SymbolLimit(order.symbol)
      && e.risk.gross - Abs(p) + Abs(p') <= e.risk.limits.maxGross
    ensures var c := Create(e.oms, order, now);
      && Quiet(Complete(e.(risk := r, oms := c.oms), c.id, order, l))
      && SameLimits(e, Complete(e.(risk := r, oms := c.oms), c.id, order, l))
  {
    var c := Create(e.oms, order, now);
    OnlyOneWorking(e.oms, order, now);
    DispatchCloses(c.oms, c.id, order, l.answer);
    var e' := Complete(e.(risk := r, oms := c.oms), c.id, order, l);
    var r' := Stopped(r, l.filed);
    OnFillAddsUp(r', order.symbol, order.side, l.answer.quantity);
    assert SymbolOk(e, order.symbol);
    forall y: nat ensures SymbolOk(e', y) {
      assert SymbolOk(e, y);
      SymbolsStayOk(e, e', r', order, l.answer, y);
    }
  }

  lemma ProcessKeepsQuiet(e: Engine, order: Order, reference: int, now: int, l: Landing)
    requires Quiet(e) && 0 <= l.answer.quantity <= Max(order.quantity, 0)
    ensures Quiet(Trade(e, order, reference, now, l))
    ensures SameLimits(e, Trade(e, order, reference, now, l))
  {
    var x := e.oms.exposures;
    var d := Gated(e, order, reference, now);
    NothingWorking(e.oms);
    if d.reason == Accepted {
      AcceptedWithinLimits(e.risk, order, reference, now, x.Net(order.symbol), x.gross);
      assert SymbolOk(e, order.symbol);
      if Create(e.oms, order, now).id != 0 {
        OrderCompletes(e, d.risk, order, now, l);
      } else {
        RefusedStaysQuiet(e, d.risk, order, now);
      }
    } else {
      OnlyRisk(e, d.risk);
    }
  }

  lemma OnlyRisk(e: Engine, r: Risk)
    requires Quiet(e) && SameBook(e.risk, r)
    ensures Quiet(e.(risk := r))
  {
    forall y: nat ensures SymbolOk(e.(risk := r), y) {
      assert SymbolOk(e, y);
    }
  }

  lemma RefusedStaysQuiet(e: Engine, r: Risk, order: Order, now: int)
    requires Quiet(e) && SameBook(e.risk, r) && Create(e.oms, order, now).id == 0
    ensures Quiet(e.(risk := r, oms := Create(e.oms, order, now).oms))
  {
    CreateKeeps(e.oms, e.oms.nextId, order, now);
    var e' := e.(risk := r, oms := Create(e.oms, order, now).oms);
    forall y: nat ensures SymbolOk(e', y) {
      assert SymbolOk(e, y);
    }
  }

  /** A quiet engine can always track one more order. */
  lemma AlwaysRoom(e: Engine, order: Order, now: int)
    requires Quiet(e) && e.oms.config.maxOpen > 0 && order.quantity > 0
    ensures Create(e.oms, order, now).id != 0
  {
    NextIsFresh(e.oms.orders, e.oms.nextId);
  }

  lemma NextIsFresh(orders: map<nat, Record>, nextId: nat)
    requires RecordsOk(orders, nextId)
    ensures nextId !in orders
  {
    forall id | id in orders ensures id < nextId {
      assert RecordOk(id, orders[id]);
    }
  }

  /** Closing out a held position only ever brings it closer to zero, and touches no other symbol. */
  lemma CloseOutKeepsQuiet(e: Engine, symbol: nat, held: int, x: Exit, filed: bool)
    requires Quiet(e) && held == At(e.venue, symbol) && 0 <= x.answer.quantity <= Abs(held)
    ensures var e' := CloseOut(e, symbol, held, x, filed);
      && Quiet(e') && SameLimits(e, e')
      && (forall y: nat :: y != symbol ==> At(e'.venue, y) == At(e.venue, y))
      && Abs(At(e'.venue, symbol)) <= Abs(held)
      && (e.oms.config.maxOpen > 0 && x.reference > 0 && x.answer.quantity == Abs(held) ==> At(e'.venue, symbol) == 0)
  {
    if held != 0 && x.reference > 0 {
      var order := ExitOrder(symbol, held, x.now);
      assert SymbolOk(e, symbol);
      if e.oms.config.maxOpen > 0 {
        AlwaysRoom(e, order, x.now);
      }
      if Create(e.oms, order, x.now).id != 0 {
        OrderCompletes(e, e.risk, order, x.now, Landing(x.answer, filed, NotHalted, x.now));
        forall y: nat
          ensures At(CloseOut(e, symbol, held, x, filed).venue, y) ==
            At(e.venue, y) + (if y == symbol && x.answer.quantity > 0 then order.side.Signed(x.answer.quantity) else 0)
        {
          VenueMoves(e.venue, symbol, order.side, x.answer.quantity, y);
        }
      } else {
        RefusedStaysQuiet(e, e.risk, order, x.now);
      }
    }
  }

  /** There is a usable price for the symbol and the venue fills the whole exit. */
  predicate FillsWhole(held: seq<int>, exits: seq<Exit>, y: nat) {
    y < |held| && ExitFor(exits, y, held[y]).reference > 0 && ExitFor(exits, y, held[y]).answer.quantity == Abs(held[y])
  }

  lemma {:induction false} FlattenKeepsQuiet(e: Engine, held: seq<int>, exits: seq<Exit>, filed: seq<bool>, k: nat)
    requires Quiet(e) && k <= |held|
    requires forall j: nat :: j < |held| ==> At(e.venue, j) == held[j]
    ensures var e' := Flatten(e, held, exits, filed, k);
      && Quiet(e') && SameLimits(e, e')
      && (forall y: nat :: y >= k ==> At(e'.venue, y) == At(e.venue, y))
      && (forall y: nat :: y < k ==> Abs(At(e'.venue, y)) <= Abs(held[y]))
      && (e.oms.config.maxOpen > 0 ==> forall y: nat :: y < k && FillsWhole(held, exits, y) ==> At(e'.venue, y) == 0)
  {
    if k > 0 {
      FlattenKeepsQuiet(e, held, exits, filed, k - 1);
      CloseOutKeepsQuiet(Flatten(e, held, exits, filed, k - 1), k - 1, held[k - 1], ExitFor(exits, k - 1, held[k - 1]),
                         FiledFor(filed, k - 1));
    }
  }

  lemma StepKeepsQuiet(e: Engine, call: Call)
    requires Quiet(e) && Sane(call)
    ensures Quiet(Step(e, call)) && SameLimits(e, Step(e, call))
  {
    match call
    case Process(order, reference, now, l) => ProcessKeepsQuiet(e, order, reference, now, l);
    case FlattenAll(exits, filed) => FlattenKeepsQuiet(e, e.venue, exits, filed, |e.venue|);
    case HaltNow(why, _) => OnlyRisk(e, EngageKillSwitch(e.risk, why));
    case Release => OnlyRisk(e, e.risk.(halt := NotHalted));
  }

  predicate Session(calls: seq<Call>) {
    forall i :: 0 <= i < |calls| ==> Sane(calls[i])
  }

  function Ends(e: Engine, calls: seq<Call>): Engine
    decreases |calls|
  {
    if calls == [] then e else Ends(Step(e, calls[0]), calls[1..])
  }

  lemma {:induction false} SessionKeepsQuiet(e: Engine, calls: seq<Call>)
    requires Quiet(e) && Session(calls)
    ensures Quiet(Ends(e, calls)) && SameLimits(e, Ends(e, calls))
    decreases |calls|
  {
    if calls != [] {
      StepKeepsQuiet(e, calls[0]);
      SessionKeepsQuiet(Step(e, calls[0]), calls[1..]);
    }
  }

  function Start(config: Config, limits: Limits, symbolLimits: seq<int>): Engine {
    Engine(Empty(config), Risk(limits, [], symbolLimits, 0, NotHalted, 0, 0, 0, 0, 0), [])
  }

  lemma {:induction false} SamePositionSum(p: seq<int>, p': seq<int>, n: nat)
    requires forall y: nat :: At(p, y) == At(p', y)
    ensures PositionSum(p, n) == PositionSum(p', n)
  {
    if n > 0 {
      SamePositionSum(p, p', n - 1);
    }
  }

  /** flatten() ends every position whose exit the venue fills. */
  lemma FlattenFlattens(e: Engine, exits: seq<Exit>, filed: seq<bool>, y: nat)
    requires Quiet(e) && e.oms.config.maxOpen > 0
    requires y < |e.venue| && FillsWhole(e.venue, exits, y)
    ensures var e' := Step(e, FlattenAll(exits, filed)); At(e'.venue, y) == 0 && e'.risk.Position(y) == 0
  {
    FlattenKeepsQuiet(e, e.venue, exits, filed, |e.venue|);
    assert SymbolOk(Step(e, FlattenAll(exits, filed)), y);
  }

  lemma StartIsQuiet(config: Config, limits: Limits, symbolLimits: seq<int>)
    requires config.history > 0 && limits.enabled && limits.maxPosition >= 0 && limits.maxGross >= 0
    ensures Quiet(Start(config, limits, symbolLimits))
  {
    EmptyTracked(config);
    forall z: nat ensures SymbolOk(Start(config, limits, symbolLimits), z) {
    }
  }

  /** What being quiet comes to, under limits that have not changed. */
  lemma QuietIsWithin(start: Engine, e: Engine, y: nat)
    requires Quiet(e) && SameLimits(start, e)
    ensures e.oms.open == 0 && e.risk.Position(y) == At(e.venue, y)
    ensures Abs(At(e.venue, y)) <= start.risk.SymbolLimit(y)
    ensures PositionSum(e.venue, |e.venue|) <= start.risk.limits.maxGross
  {
    assert SymbolOk(e, y);
    forall z: nat ensures At(e.venue, z) == At(e.risk.positions, z) {
      assert SymbolOk(e, z);
    }
    SamePositionSum(e.venue, e.risk.positions, |e.venue|);
    PositionSumBounded(e.risk.positions, |e.venue|);
  }

  /** For every stream of orders, references, partial fills, failing appends and halts: between calls no order is
      working, and the positions the venue holds are within each symbol's limit and the gross limit. */
  lemma LimitsAlwaysHold(config: Config, limits: Limits, symbolLimits: seq<int>, calls: seq<Call>, y: nat)
    requires config.history > 0 && limits.enabled && limits.maxPosition >= 0 && limits.maxGross >= 0
    requires Session(calls)
    ensures var e := Ends(Start(config, limits, symbolLimits), calls);
      && e.oms.open == 0 && WorkingIds(e.oms.orders) == {}
      && e.risk.Position(y) == At(e.venue, y)
      && Abs(At(e.venue, y)) <= (if At(symbolLimits, y) > 0 then At(symbolLimits, y) else limits.maxPosition)
      && PositionSum(e.venue, |e.venue|) <= limits.maxGross
  {
    var start := Start(config, limits, symbolLimits);
    StartIsQuiet(config, limits, symbolLimits);
    SessionKeepsQuiet(start, calls);
    QuietIsWithin(start, Ends(start, calls), y);
  }
}

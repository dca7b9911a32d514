/** A whole market: one book per instrument, moved by the feed and by the engine's own orders, and the engine
    that trades against them with no venue latency.  Nothing is assumed about the venue's answers: each is what
    the instrument's book makes of the order. */
module Markets {
  import opened Options
  import opened Types
  import opened OmsSpec
  import opened RiskSpec
  import opened PaperVenues
  import opened SweepCost
  import BookSpec
  import BookLaws
  import Dispatching
  import EngineSpec

  /** Without crossing, the venue fills at the slipped reference and no book is touched. */
  datatype Terms = Terms(crossing: bool, slippageBps: real, feeBps: real)

  datatype Exchange = Exchange(terms: Terms, books: seq<BookSpec.Book>, engine: EngineSpec.Engine)

  function BookFor(m: Exchange, symbol: nat): Option<BookSpec.Book> {
    if m.terms.crossing && symbol < |m.books| then Some(m.books[symbol]) else None
  }

  /** What the order will be told. */
  function AnswerTo(m: Exchange, order: Order, reference: int, ts: int): Dispatching.Answer {
    var q := VenueQuote(BookFor(m, order.symbol), order, reference, m.terms.slippageBps);
    Dispatching.Answer(order.id, q.price, q.filled, FeeFor(q.price, q.filled, m.terms.feeBps), ts)
  }

  /** What the order leaves of the books; its own id labels only the trades. */
  function BooksAfter(m: Exchange, order: Order): seq<BookSpec.Book> {
    match BookFor(m, order.symbol)
    case None => m.books
    case Some(b) => m.books[order.symbol := BookSpec.ExecuteMarket(b, order.id, order.side, order.quantity, 0).book]
  }

  /** What happens around an order: the reference it is marked at, and what becomes of its records. */
  datatype Around = Around(mark: int, ts: int, filed: bool, breach: Halt, done: int)

  function LandingOf(m: Exchange, order: Order, c: Around): EngineSpec.Landing {
    EngineSpec.Landing(AnswerTo(m, order, c.mark, c.ts), c.filed, c.breach, c.done)
  }

  /** The order is tracked, so it reaches the venue. */
  predicate Goes(e: EngineSpec.Engine, order: Order, now: int) {
    Create(e.oms, order, now).id != 0
  }

  /** The order passes the gate and is tracked. */
  predicate Passes(e: EngineSpec.Engine, order: Order, reference: int, now: int) {
    var d := EngineSpec.Gated(e, order, reference, now);
    d.reason == RiskSpec.Accepted && Goes(e, order, now)
  }

  /** Stages 4 and 5 of process(). */
  function Traded(m: Exchange, order: Order, reference: int, now: int, c: Around): Exchange {
    m.(books := if Passes(m.engine, order, reference, now) then BooksAfter(m, order) else m.books,
       engine := EngineSpec.Trade(m.engine, order, reference, now, LandingOf(m, order, c)))
  }

  datatype Leaving = Leaving(reference: int, now: int, ts: int, filed: bool)

  function ExitAt(m: Exchange, symbol: nat, held: int, x: Leaving): EngineSpec.Exit {
    EngineSpec.Exit(x.reference, x.now, AnswerTo(m, EngineSpec.ExitOrder(symbol, held, x.now), x.reference, x.ts))
  }

  /** One exit of flatten(). */
  function Left(m: Exchange, symbol: nat, held: int, x: Leaving): Exchange {
    var order := EngineSpec.ExitOrder(symbol, held, x.now);
    m.(books := if held != 0 && x.reference > 0 && Goes(m.engine, order, x.now) then BooksAfter(m, order) else m.books,
       engine := EngineSpec.CloseOut(m.engine, symbol, held, ExitAt(m, symbol, held, x), x.filed))
  }

  /** flatten() over what is held, as far as the first k symbols. */
  function Flattened(m: Exchange, held: seq<int>, exits: seq<Leaving>, k: nat): Exchange
    requires k <= |held| == |exits|
  {
    if k == 0 then m else Left(Flattened(m, held, exits, k - 1), k - 1, held[k - 1], exits[k - 1])
  }

  datatype Event =
    | Feed(symbol: nat, op: BookLaws.Op)
    | Wanted(order: Order, reference: int, now: int, around: Around)
    | FlattenAll(exits: seq<Leaving>)
    | HaltNow(why: Halt)
    | Release

  /** The books of the market are well-formed. */
  ghost predicate BooksOk(books: seq<BookSpec.Book>) {
    forall i {:trigger books[i]} :: 0 <= i < |books| ==> BookLaws.Inv(books[i])
  }

  predicate May(m: Exchange, e: Event) {
    match e
    case Feed(symbol, op) => symbol < |m.books| && m.books[symbol].band.Valid()
    case FlattenAll(exits) => |exits| == |m.engine.venue|
    case _ => true
  }

  function Happens(m: Exchange, e: Event): Exchange
    requires May(m, e)
  {
    match e
    case Feed(symbol, op) => m.(books := m.books[symbol := BookLaws.Apply(m.books[symbol], op).book])
    case Wanted(order, reference, now, c) => Traded(m, order, reference, now, c)
    case FlattenAll(exits) => Flattened(m, m.engine.venue, exits, |m.engine.venue|)
    case HaltNow(why) => m.(engine := m.engine.(risk := EngageKillSwitch(m.engine.risk, why)))
    case Release => m.(engine := m.engine.(risk := m.engine.risk.(halt := NotHalted)))
  }

  // ------------------------------------------------------------ one order against its book

  ghost predicate Sound(m: Exchange) {
    BooksOk(m.books) && EngineSpec.Quiet(m.engine)
  }

  /** The opposite queue that an order in y on this side would meet. */
  function Facing(m: Exchange, y: nat, side: Side): seq<BookSpec.Resting> {
    if y < |m.books| then m.books[y].On(side.Opposite()) else []
  }

  /** How much of the order the venue fills. */
  function Fillable(m: Exchange, order: Order): int {
    if BookFor(m, order.symbol).None? then order.quantity
    else Supplied(Facing(m, order.symbol, order.side), order.quantity)
  }

  lemma BooksStayOk(m: Exchange, order: Order)
    requires BooksOk(m.books)
    ensures BooksOk(BooksAfter(m, order)) && |BooksAfter(m, order)| == |m.books|
    ensures forall i :: 0 <= i < |m.books| && i != order.symbol ==> BooksAfter(m, order)[i] == m.books[i]
  {
    match BookFor(m, order.symbol)
    case None =>
    case Some(b) =>
      BookLaws.ApplyKeepsInv(b, BookLaws.MarketOp(order.id, order.side, order.quantity, 0));
  }

  /** The answer never fills more than was asked for, and the order's book loses exactly what is filled. */
  lemma FillsFromTheBook(m: Exchange, order: Order, reference: int, ts: int)
    requires BooksOk(m.books)
    ensures var a, m' := AnswerTo(m, order, reference, ts), m.(books := BooksAfter(m, order));
      && a.quantity == Fillable(m, order)
      && (order.quantity >= 0 ==> 0 <= a.quantity <= order.quantity)
      && (order.quantity < 0 && BookFor(m, order.symbol).Some? ==> a.quantity == 0)
      && (BookFor(m, order.symbol).Some? ==>
            BookLaws.Total(Facing(m', order.symbol, order.side))
              == BookLaws.Total(Facing(m, order.symbol, order.side)) - a.quantity)
  {
    match BookFor(m, order.symbol)
    case None =>
    case Some(b) =>
      var queue := b.On(order.side.Opposite());
      CrossFinds(b, order.id, order.side, order.quantity, 0);
      TakenPositive(queue, order.quantity);
  }

  // ------------------------------------------------------------ what every event keeps

  /** An order that is not sent meets no venue, so its answer does not matter. */
  lemma UnsentIgnoresAnswer(e: EngineSpec.Engine, order: Order, reference: int, now: int,
                            l: EngineSpec.Landing, l': EngineSpec.Landing)
    requires !Passes(e, order, reference, now)
    ensures EngineSpec.Trade(e, order, reference, now, l) == EngineSpec.Trade(e, order, reference, now, l')
  {
  }

  lemma SentIsPositive(e: EngineSpec.Engine, order: Order, now: int)
    requires Goes(e, order, now)
    ensures order.quantity > 0
  {
  }

  lemma TradedStaysSound(m: Exchange, order: Order, reference: int, now: int, c: Around)
    requires Sound(m)
    ensures var m' := Traded(m, order, reference, now, c);
      Sound(m') && EngineSpec.SameLimits(m.engine, m'.engine) && |m'.books| == |m.books|
  {
    BooksStayOk(m, order);
    var l := LandingOf(m, order, c);
    if Passes(m.engine, order, reference, now) {
      SentIsPositive(m.engine, order, now);
      FillsFromTheBook(m, order, c.mark, c.ts);
      EngineSpec.ProcessKeepsQuiet(m.engine, order, reference, now, l);
    } else {
      var nothing := l.(answer := l.answer.(quantity := 0));
      UnsentIgnoresAnswer(m.engine, order, reference, now, l, nothing);
      EngineSpec.ProcessKeepsQuiet(m.engine, order, reference, now, nothing);
    }
  }

  lemma LeftStaysSound(m: Exchange, symbol: nat, held: int, x: Leaving)
    requires Sound(m) && held == At(m.engine.venue, symbol)
    ensures var m' := Left(m, symbol, held, x);
      && Sound(m') && EngineSpec.SameLimits(m.engine, m'.engine) && |m'.books| == |m.books| && m'.terms == m.terms
      && (forall y: nat :: y != symbol ==> At(m'.engine.venue, y) == At(m.engine.venue, y))
      && (forall y: nat, side: Side :: y != symbol ==> Facing(m', y, side) == Facing(m, y, side))
  {
    var order := EngineSpec.ExitOrder(symbol, held, x.now);
    FillsFromTheBook(m, order, x.reference, x.ts);
    BooksStayOk(m, order);
    EngineSpec.CloseOutKeepsQuiet(m.engine, symbol, held, ExitAt(m, symbol, held, x), x.filed);
  }

  /** What is left of a position once its exit has met the book. */
  function Remaining(m: Exchange, y: nat, held: int, x: Leaving): int {
    var order := EngineSpec.ExitOrder(y, held, x.now);
    if held == 0 || x.reference <= 0 then held else held + order.side.Signed(Fillable(m, order))
  }

  lemma LeftLeaves(m: Exchange, symbol: nat, held: int, x: Leaving)
    requires Sound(m) && held == At(m.engine.venue, symbol) && m.engine.oms.config.maxOpen > 0
    ensures At(Left(m, symbol, held, x).engine.venue, symbol) == Remaining(m, symbol, held, x)
  {
    if held != 0 && x.reference > 0 {
      var order := EngineSpec.ExitOrder(symbol, held, x.now);
      FillsFromTheBook(m, order, x.reference, x.ts);
      EngineSpec.AlwaysRoom(m.engine, order, x.now);
      EngineSpec.VenueMoves(m.engine.venue, symbol, order.side, Fillable(m, order), symbol);
    }
  }

  /** m' is m but for what has been done about the first k instruments. */
  ghost predicate UpTo(m: Exchange, m': Exchange, k: nat) {
    && EngineSpec.SameLimits(m.engine, m'.engine) && |m'.books| == |m.books| && m'.terms == m.terms
    && (forall y: nat :: y >= k ==> At(m'.engine.venue, y) == At(m.engine.venue, y))
    && (forall y: nat, side: Side :: y >= k ==> Facing(m', y, side) == Facing(m, y, side))
  }

  lemma LeftFollows(m: Exchange, before: Exchange, symbol: nat, held: int, x: Leaving)
    requires Sound(before) && UpTo(m, before, symbol) && held == At(m.engine.venue, symbol)
    ensures Sound(Left(before, symbol, held, x)) && UpTo(m, Left(before, symbol, held, x), symbol + 1)
  {
    LeftStaysSound(before, symbol, held, x);
  }

  /** Each exit meets its own book as flatten() found it: the exits before it were for other instruments. */
  lemma {:induction false} FlattenedStaysSound(m: Exchange, held: seq<int>, exits: seq<Leaving>, k: nat)
    requires Sound(m) && k <= |held| == |exits|
    requires forall y: nat :: y < |held| ==> At(m.engine.venue, y) == held[y]
    ensures Sound(Flattened(m, held, exits, k)) && UpTo(m, Flattened(m, held, exits, k), k)
  {
    if k > 0 {
      FlattenedStaysSound(m, held, exits, k - 1);
      LeftFollows(m, Flattened(m, held, exits, k - 1), k - 1, held[k - 1], exits[k - 1]);
    }
  }

  lemma LeftGives(m: Exchange, before: Exchange, symbol: nat, held: int, x: Leaving, y: nat)
    requires Sound(before) && UpTo(m, before, symbol) && held == At(m.engine.venue, symbol)
    requires m.engine.oms.config.maxOpen > 0
    ensures At(Left(before, symbol, held, x).engine.venue, y)
         == if y == symbol then Remaining(m, symbol, held, x) else At(before.engine.venue, y)
  {
    LeftStaysSound(before, symbol, held, x);
    LeftLeaves(before, symbol, held, x);
    SameBookSameRest(m, before, symbol, held, x);
  }

  lemma {:induction false} FlattenedLeaves(m: Exchange, held: seq<int>, exits: seq<Leaving>, k: nat, y: nat)
    requires Sound(m) && y < k <= |held| == |exits| && m.engine.oms.config.maxOpen > 0
    requires forall y: nat :: y < |held| ==> At(m.engine.venue, y) == held[y]
    ensures At(Flattened(m, held, exits, k).engine.venue, y) == Remaining(m, y, held[y], exits[y])
  {
    FlattenedStaysSound(m, held, exits, k - 1);
    LeftGives(m, Flattened(m, held, exits, k - 1), k - 1, held[k - 1], exits[k - 1], y);
    if y < k - 1 {
      FlattenedLeaves(m, held, exits, k - 1, y);
    }
  }

  lemma SameBookSameRest(m: Exchange, m': Exchange, y: nat, held: int, x: Leaving)
    requires m.terms == m'.terms && |m.books| == |m'.books|
    requires forall side: Side :: Facing(m', y, side) == Facing(m, y, side)
    ensures Remaining(m', y, held, x) == Remaining(m, y, held, x)
  {
  }

  /** flatten() ends a position exactly when there is a usable price for it and its book can supply all of it. */
  lemma FlattenEndsIff(m: Exchange, exits: seq<Leaving>, y: nat)
    requires Sound(m) && May(m, FlattenAll(exits)) && m.engine.oms.config.maxOpen > 0
    requires y < |m.engine.venue| && m.engine.venue[y] != 0
    ensures var m', held := Happens(m, FlattenAll(exits)), m.engine.venue[y];
      var side := if held > 0 then Sell else Buy;
      && Abs(At(m'.engine.venue, y)) <= Abs(held)
      && (At(m'.engine.venue, y) == 0 <==>
            && exits[y].reference > 0
            && (BookFor(m, y).Some? ==> BookLaws.Total(Facing(m, y, side)) >= Abs(held)))
  {
    var held := m.engine.venue[y];
    FlattenedLeaves(m, m.engine.venue, exits, |m.engine.venue|, y);
    FillsFromTheBook(m, EngineSpec.ExitOrder(y, held, exits[y].now), exits[y].reference, exits[y].ts);
  }

  lemma TradeMoves(e: EngineSpec.Engine, order: Order, reference: int, now: int, l: EngineSpec.Landing, y: nat)
    requires Passes(e, order, reference, now) ==> l.answer.quantity >= 0
    ensures At(EngineSpec.Trade(e, order, reference, now, l).venue, y) - At(e.venue, y)
         == if Passes(e, order, reference, now) && y == order.symbol then order.side.Signed(l.answer.quantity) else 0
  {
    EngineSpec.VenueMoves(e.venue, order.symbol, order.side, l.answer.quantity, y);
  }

  lemma BookGives(m: Exchange, order: Order, reference: int, now: int, c: Around)
    requires BooksOk(m.books) && BookFor(m, order.symbol).Some?
    ensures var m' := Traded(m, order, reference, now, c);
      BookLaws.Total(Facing(m, order.symbol, order.side)) - BookLaws.Total(Facing(m', order.symbol, order.side))
        == if Passes(m.engine, order, reference, now) then Fillable(m, order) else 0
  {
    FillsFromTheBook(m, order, c.mark, c.ts);
  }

  lemma PositionGains(m: Exchange, order: Order, reference: int, now: int, c: Around, y: nat)
    requires BooksOk(m.books) && BookFor(m, order.symbol).Some?
    ensures At(Traded(m, order, reference, now, c).engine.venue, y) - At(m.engine.venue, y)
         == if Passes(m.engine, order, reference, now) && y == order.symbol then order.side.Signed(Fillable(m, order)) else 0
  {
    FillsFromTheBook(m, order, c.mark, c.ts);
    TradeMoves(m.engine, order, reference, now, LandingOf(m, order, c), y);
  }

  /** What an order adds to the position in its instrument it takes from the opposite queue of its book, and it
      moves no other position: what one side gains the other loses. */
  lemma PositionsComeFromBooks(m: Exchange, order: Order, reference: int, now: int, c: Around, y: nat)
    requires BooksOk(m.books) && BookFor(m, order.symbol).Some?
    ensures var m' := Traded(m, order, reference, now, c);
      var given := BookLaws.Total(Facing(m, order.symbol, order.side)) - BookLaws.Total(Facing(m', order.symbol, order.side));
      At(m'.engine.venue, y) - At(m.engine.venue, y) == if y == order.symbol then order.side.Signed(given) else 0
  {
    BookGives(m, order, reference, now, c);
    PositionGains(m, order, reference, now, c, y);
  }

  // ------------------------------------------------------------ whole runs

  lemma EventStaysSound(m: Exchange, e: Event)
    requires Sound(m) && May(m, e)
    ensures Sound(Happens(m, e)) && EngineSpec.SameLimits(m.engine, Happens(m, e).engine)
  {
    match e
    case Feed(symbol, op) => BookLaws.ApplyKeepsInv(m.books[symbol], op);
    case Wanted(order, reference, now, c) => TradedStaysSound(m, order, reference, now, c);
    case FlattenAll(exits) => FlattenedStaysSound(m, m.engine.venue, exits, |m.engine.venue|);
    case HaltNow(why) => EngineSpec.OnlyRisk(m.engine, EngageKillSwitch(m.engine.risk, why));
    case Release => EngineSpec.OnlyRisk(m.engine, m.engine.risk.(halt := NotHalted));
  }

  predicate Plays(m: Exchange, events: seq<Event>)
    decreases |events|
  {
    events != [] ==> May(m, events[0]) && Plays(Happens(m, events[0]), events[1..])
  }

  function Played(m: Exchange, events: seq<Event>): Exchange
    requires Plays(m, events)
    decreases |events|
  {
    if events == [] then m else Played(Happens(m, events[0]), events[1..])
  }

  lemma {:induction false} PlayStaysSound(m: Exchange, events: seq<Event>)
    requires Sound(m) && Plays(m, events)
    ensures Sound(Played(m, events)) && EngineSpec.SameLimits(m.engine, Played(m, events).engine)
    decreases |events|
  {
    if events != [] {
      EventStaysSound(m, events[0]);
      PlayStaysSound(Happens(m, events[0]), events[1..]);
    }
  }

  function Opening(terms: Terms, books: seq<BookSpec.Book>, config: Config, limits: Limits,
                   symbolLimits: seq<int>): Exchange {
    Exchange(terms, books, EngineSpec.Start(config, limits, symbolLimits))
  }

  /** Over every run against live books, whatever the feed does to them: between events nothing is working, the
      venue's positions are within each symbol's limit and the gross limit, and no book is crossed. */
  lemma MarketHolds(terms: Terms, books: seq<BookSpec.Book>, config: Config, limits: Limits, symbolLimits: seq<int>,
                    events: seq<Event>, y: nat)
    requires config.history > 0 && limits.enabled && limits.maxPosition >= 0 && limits.maxGross >= 0
    requires BooksOk(books) && Plays(Opening(terms, books, config, limits, symbolLimits), events)
    ensures var m := Played(Opening(terms, books, config, limits, symbolLimits), events);
      && BooksOk(m.books) && m.engine.oms.open == 0
      && m.engine.risk.Position(y) == At(m.engine.venue, y)
      && Abs(At(m.engine.venue, y)) <= (if At(symbolLimits, y) > 0 then At(symbolLimits, y) else limits.maxPosition)
      && PositionSum(m.engine.venue, |m.engine.venue|) <= limits.maxGross
  {
    var start := Opening(terms, books, config, limits, symbolLimits);
    EngineSpec.StartIsQuiet(config, limits, symbolLimits);
    PlayStaysSound(start, events);
    EngineSpec.QuietIsWithin(start.engine, Played(start, events).engine, y);
  }
}

/** What a whole session of the engine writes to its journal, and what recovery makes of it. */
module EngineRuns {
  import opened Types
  import opened OmsSpec
  import opened OmsLaws
  import opened OmsRuns
  import opened RiskSpec
  import opened Dispatching
  import opened EngineSpec
  import opened JournalSpec
  import opened CrashSafety
  import opened JournalFile

  function SendActs(e: Engine, order: Order, now: int, l: Landing): seq<Act> {
    var c := Create(e.oms, order, now);
    if c.id == 0 then []
    else Acts(c.oms, c.id, order, l.answer) + HaltActs(Stopped(e.risk, l.filed), l.breach, l.done)
  }

  function TradeActs(e: Engine, order: Order, reference: int, now: int, l: Landing): seq<Act> {
    var d := Gated(e, order, reference, now);
    if d.reason != Accepted then [] else SendActs(e.(risk := d.risk), order, now, l)
  }

  function CloseOutActs(e: Engine, symbol: nat, held: int, x: Exit, filed: bool): seq<Act> {
    if held == 0 || x.reference <= 0 then []
    else SendActs(e, ExitOrder(symbol, held, x.now), x.now, Landing(x.answer, filed, NotHalted, x.now))
  }

  function FlattenActs(e: Engine, held: seq<int>, exits: seq<Exit>, filed: seq<bool>, k: nat): seq<Act>
    requires k <= |held|
  {
    if k == 0 then []
    else
      FlattenActs(e, held, exits, filed, k - 1)
      + CloseOutActs(Flatten(e, held, exits, filed, k - 1), k - 1, held[k - 1], ExitFor(exits, k - 1, held[k - 1]),
                     FiledFor(filed, k - 1))
  }

  /** The steps of one call that outlive the process. */
  function CallActs(e: Engine, call: Call): seq<Act> {
    match call
    case Process(order, reference, now, l) => TradeActs(e, order, reference, now, l)
    case FlattenAll(exits, filed) => FlattenActs(e, e.venue, exits, filed, |e.venue|)
    case HaltNow(why, ts) => HaltActs(e.risk, why, ts)
    case Release => []
  }

  function SessionActs(e: Engine, calls: seq<Call>): seq<Act>
    decreases |calls|
  {
    if calls == [] then [] else CallActs(e, calls[0]) + SessionActs(EngineSpec.Step(e, calls[0]), calls[1..])
  }

  lemma {:induction false} FiledSoFar(e: Engine, held: seq<int>, exits: seq<Exit>, filed: seq<bool>, one: bool, k: nat)
    requires k <= |filed| < |held|
    ensures Flatten(e, held, exits, filed + [one], k) == Flatten(e, held, exits, filed, k)
    ensures FlattenActs(e, held, exits, filed + [one], k) == FlattenActs(e, held, exits, filed, k)
  {
    if k > 0 {
      FiledSoFar(e, held, exits, filed, one, k - 1);
    }
  }

  lemma AllFiledMore(filed: seq<bool>, one: bool)
    ensures AllFiled(filed + [one]) <==> AllFiled(filed) && one
  {
    assert (filed + [one])[|filed|] == one;
    assert forall k :: 0 <= k < |filed| ==> (filed + [one])[k] == filed[k];
  }

  /** How far flatten() has come with engine and file, from where it started. */
  ghost predicate FlattenedTo(start: Engine, file: File, disk: nat -> Outcome, held: seq<int>, exits: seq<Exit>,
                              filed: seq<bool>, e: Engine, f: File) {
    && |filed| <= |held|
    && e == Flatten(start, held, exits, filed, |filed|)
    && f == OnDisk(file, disk, FlattenActs(start, held, exits, filed, |filed|))
  }

  lemma ExitNext(e: Engine, held: seq<int>, exits: seq<Exit>, filed: seq<bool>, one: bool)
    requires |filed| < |held|
    ensures var k := |filed|;
      Flatten(e, held, exits, filed + [one], k + 1)
        == CloseOut(Flatten(e, held, exits, filed, k), k, held[k], ExitFor(exits, k, held[k]), one)
  {
    FiledSoFar(e, held, exits, filed, one, |filed|);
  }

  lemma ExitActsNext(e: Engine, held: seq<int>, exits: seq<Exit>, filed: seq<bool>, one: bool)
    requires |filed| < |held|
    ensures var k := |filed|;
      FlattenActs(e, held, exits, filed + [one], k + 1)
        == FlattenActs(e, held, exits, filed, k)
           + CloseOutActs(Flatten(e, held, exits, filed, k), k, held[k], ExitFor(exits, k, held[k]), one)
  {
    FiledSoFar(e, held, exits, filed, one, |filed|);
  }

  /** One more exit takes both one step further. */
  lemma OneMoreExit(start: Engine, file: File, disk: nat -> Outcome, held: seq<int>, exits: seq<Exit>, filed: seq<bool>,
                    one: bool, e: Engine, f: File)
    requires FlattenedTo(start, file, disk, held, exits, filed, e, f) && |filed| < |held|
    ensures var k := |filed|;
      var x := ExitFor(exits, k, held[k]);
      FlattenedTo(start, file, disk, held, exits, filed + [one], CloseOut(e, k, held[k], x, one),
                  OnDisk(f, disk, CloseOutActs(e, k, held[k], x, one)))
  {
    var k := |filed|;
    ExitNext(start, held, exits, filed, one);
    ExitActsNext(start, held, exits, filed, one);
    OnDiskConcat(file, disk, FlattenActs(start, held, exits, filed, k),
                 CloseOutActs(e, k, held[k], ExitFor(exits, k, held[k]), one));
  }

  /** A call and the session after it, written one after another. */
  lemma SessionOnDisk(f: File, disk: nat -> Outcome, e: Engine, call: Call, rest: seq<Call>)
    ensures Ends(e, [call] + rest) == Ends(EngineSpec.Step(e, call), rest)
    ensures OnDisk(f, disk, SessionActs(e, [call] + rest))
         == OnDisk(OnDisk(f, disk, CallActs(e, call)), disk, SessionActs(EngineSpec.Step(e, call), rest))
  {
    assert ([call] + rest)[1..] == rest;
    OnDiskConcat(f, disk, CallActs(e, call), SessionActs(EngineSpec.Step(e, call), rest));
  }

  // ------------------------------------------------------------ the engine and what it has written

  lemma {:induction false} DidConcat(w: World, a: seq<Act>, b: seq<Act>)
    ensures DidAll(w, a + b) == DidAll(DidAll(w, a), b)
    decreases |a|
  {
    if a == [] {
      assert a + b == b;
    } else {
      assert (a + b)[1..] == a[1..] + b;
      DidConcat(Did(w, a[0]), a[1..], b);
    }
  }

  /** Every order the journal knows of has an id that has been used. */
  ghost predicate Issued(seen: map<nat, Record>, nextId: nat) {
    forall id :: id in seen ==> id < nextId
  }

  /** A quiet engine whose journal would recover its venue's positions, and nothing open. */
  ghost predicate Linked(e: Engine, w: World) {
    Quiet(e) && Settled(w, {}) && w.venue == e.venue && Issued(w.recovered.oms.orders, e.oms.nextId)
  }

  lemma HaltSettles(w: World, r: Risk, breach: Halt, ts: int)
    requires Settled(w, {})
    ensures var w' := DidAll(w, HaltActs(r, breach, ts));
      Settled(w', {}) && w'.venue == w.venue && w'.recovered.oms == w.recovered.oms
  {
    var acts := HaltActs(r, breach, ts);
    if acts != [] {
      assert acts[1..] == [];
      var w' := Did(w, acts[0]);
      forall y: nat ensures Agrees(w', y) {
        assert Agrees(w, y);
      }
    }
  }

  lemma DidOne(w: World, act: Act)
    ensures DidAll(w, [act]) == Did(w, act)
  {
    assert [act][1..] == [];
  }

  /** A dispatch moves the venue's positions by its fill. */
  lemma ActsFill(w: World, live: Oms, id: nat, order: Order, a: Answer)
    ensures DidAll(w, Acts(live, id, order, a)).venue == VenueAfter(w.venue, order.symbol, order.side, a.quantity)
  {
    var sent, venue := Wrote(order.createdTs, OrderSent(id, order)), VenueFilled(order.symbol, order.side, a.quantity);
    var rest := AnswerActs(id, order, a) + RestActs(AfterFill(live, id, order, a), id, order, a);
    assert Acts(live, id, order, a) == [sent] + ([venue] + rest);
    DidConcat(w, [sent], [venue] + rest);
    DidOne(w, sent);
    DidConcat(Did(w, sent), [venue], rest);
    DidOne(Did(w, sent), venue);
    OnlyWrites(Did(Did(w, sent), venue), rest);
  }

  lemma {:induction false} OnlyWrites(w: World, acts: seq<Act>)
    requires forall i {:trigger acts[i]} :: 0 <= i < |acts| ==> acts[i].Wrote?
    ensures DidAll(w, acts).venue == w.venue
    decreases |acts|
  {
    if acts != [] {
      OnlyWrites(Did(w, acts[0]), acts[1..]);
    }
  }

  /** An order that is tracked and dispatched in a linked engine leaves the journal settled again. */
  lemma SendSettles(e: Engine, w: World, order: Order, now: int, l: Landing)
    requires Linked(e, w) && 0 <= l.answer.quantity <= Max(order.quantity, 0)
    ensures var w' := DidAll(w, SendActs(e, order, now, l));
      && Settled(w', {}) && w'.venue == EngineSpec.Send(e, order, now, l).venue
      && Issued(w'.recovered.oms.orders, EngineSpec.Send(e, order, now, l).oms.nextId)
  {
    var c := Create(e.oms, order, now);
    if c.id != 0 {
      var acts, a := Acts(c.oms, c.id, order, l.answer), l.answer;
      OnlyOneWorking(e.oms, order, now);
      assert Untouched(c.oms, c.id, order);
      assert |WorkingIds(w.recovered.oms.orders)| == 0;
      EndsSettled(w, {}, c.oms, c.id, order, a);
      ActsFill(w, c.oms, c.id, order, a);
      JournalKnows(w, c.oms, c.id, order, a);
      DispatchEnds(c.oms, c.id, order, a);
      DidConcat(w, acts, HaltActs(Stopped(e.risk, l.filed), l.breach, l.done));
      HaltSettles(DidAll(w, acts), Stopped(e.risk, l.filed), l.breach, l.done);
    }
  }

  lemma TradeStaysLinked(e: Engine, w: World, order: Order, reference: int, now: int, l: Landing)
    requires Linked(e, w) && 0 <= l.answer.quantity <= Max(order.quantity, 0)
    ensures Linked(EngineSpec.Trade(e, order, reference, now, l), DidAll(w, TradeActs(e, order, reference, now, l)))
  {
    ProcessKeepsQuiet(e, order, reference, now, l);
    var d := Gated(e, order, reference, now);
    if d.reason == Accepted {
      AcceptedWithinLimits(e.risk, order, reference, now, e.oms.exposures.Net(order.symbol), e.oms.exposures.gross);
      OnlyRisk(e, d.risk);
      SendSettles(e.(risk := d.risk), w, order, now, l);
    }
  }

  lemma CloseOutStaysLinked(e: Engine, w: World, symbol: nat, held: int, x: Exit, filed: bool)
    requires Linked(e, w) && held == At(e.venue, symbol) && 0 <= x.answer.quantity <= Abs(held)
    ensures Linked(CloseOut(e, symbol, held, x, filed), DidAll(w, CloseOutActs(e, symbol, held, x, filed)))
  {
    CloseOutKeepsQuiet(e, symbol, held, x, filed);
    if held != 0 && x.reference > 0 {
      SendSettles(e, w, ExitOrder(symbol, held, x.now), x.now, Landing(x.answer, filed, NotHalted, x.now));
    }
  }

  lemma ExitStaysLinked(e: Engine, w: World, before: seq<Act>, symbol: nat, held: int, x: Exit, filed: bool)
    requires Linked(e, DidAll(w, before)) && held == At(e.venue, symbol) && 0 <= x.answer.quantity <= Abs(held)
    ensures Linked(CloseOut(e, symbol, held, x, filed), DidAll(w, before + CloseOutActs(e, symbol, held, x, filed)))
  {
    CloseOutStaysLinked(e, DidAll(w, before), symbol, held, x, filed);
    DidConcat(w, before, CloseOutActs(e, symbol, held, x, filed));
  }

  /** When its turn comes a symbol is held as it was when flatten() looked. */
  lemma StillHeld(e: Engine, exits: seq<Exit>, filed: seq<bool>, k: nat)
    requires Quiet(e) && k < |e.venue|
    ensures At(Flatten(e, e.venue, exits, filed, k).venue, k) == e.venue[k]
  {
    FlattenKeepsQuiet(e, e.venue, exits, filed, k);
  }

  lemma {:induction false} FlattenStaysLinked(e: Engine, w: World, exits: seq<Exit>, filed: seq<bool>, k: nat)
    requires Linked(e, w) && k <= |e.venue|
    ensures Linked(Flatten(e, e.venue, exits, filed, k), DidAll(w, FlattenActs(e, e.venue, exits, filed, k)))
  {
    if k > 0 {
      FlattenStaysLinked(e, w, exits, filed, k - 1);
      StillHeld(e, exits, filed, k - 1);
      ExitStaysLinked(Flatten(e, e.venue, exits, filed, k - 1), w, FlattenActs(e, e.venue, exits, filed, k - 1), k - 1,
                      e.venue[k - 1], ExitFor(exits, k - 1, e.venue[k - 1]), FiledFor(filed, k - 1));
    }
  }

  lemma CallStaysLinked(e: Engine, w: World, call: Call)
    requires Linked(e, w) && Sane(call)
    ensures Linked(EngineSpec.Step(e, call), DidAll(w, CallActs(e, call)))
  {
    match call
    case Process(order, reference, now, l) => TradeStaysLinked(e, w, order, reference, now, l);
    case FlattenAll(exits, filed) => FlattenStaysLinked(e, w, exits, filed, |e.venue|);
    case HaltNow(why, ts) =>
      OnlyRisk(e, EngageKillSwitch(e.risk, why));
      HaltSettles(w, e.risk, why, ts);
    case Release => OnlyRisk(e, e.risk.(halt := NotHalted));
  }

  lemma {:induction false} SessionStaysLinked(e: Engine, w: World, calls: seq<Call>)
    requires Linked(e, w) && EngineSpec.Session(calls)
    ensures Linked(Ends(e, calls), DidAll(w, SessionActs(e, calls)))
    decreases |calls|
  {
    if calls != [] {
      CallStaysLinked(e, w, calls[0]);
      SessionStaysLinked(EngineSpec.Step(e, calls[0]), DidAll(w, CallActs(e, calls[0])), calls[1..]);
      DidConcat(w, CallActs(e, calls[0]), SessionActs(EngineSpec.Step(e, calls[0]), calls[1..]));
    }
  }

  lemma StartIsLinked(config: Config, limits: Limits, symbolLimits: seq<int>)
    requires config.history > 0 && limits.enabled && limits.maxPosition >= 0 && limits.maxGross >= 0
    ensures Linked(Start(config, limits, symbolLimits), World(JournalSpec.Fresh(), []))
  {
    StartIsQuiet(config, limits, symbolLimits);
    EmptyTracked(REPLAY_CONFIG);
    assert WorkingIds(map[]) == {};
  }

  /** Recovery finds exactly the venue's positions, no open order, and nothing wrong with the file. */
  ghost predicate RecoversTo(r: Recovered, venue: seq<int>) {
    && (forall y: nat :: At(r.positions, y) == At(venue, y))
    && WorkingIds(r.oms.orders) == {} && r.gaps == r.corrupt == r.truncated == 0
  }

  /** For every session from flat with nothing lost: recovering the file finds exactly the venue's positions, and
      no open order. */
  lemma SessionRecovers(config: Config, limits: Limits, symbolLimits: seq<int>, calls: seq<Call>, disk: nat -> Outcome)
    requires config.history > 0 && limits.enabled && limits.maxPosition >= 0 && limits.maxGross >= 0
    requires EngineSpec.Session(calls)
    requires NoneLost(disk, 0, Writes(SessionActs(Start(config, limits, symbolLimits), calls)))
    ensures var start := Start(config, limits, symbolLimits);
      RecoversTo(Recover(OnDisk(File([], 0), disk, SessionActs(start, calls)).records), Ends(start, calls).venue)
  {
    var start, w := Start(config, limits, symbolLimits), World(JournalSpec.Fresh(), []);
    var acts := SessionActs(start, calls);
    StartIsLinked(config, limits, symbolLimits);
    SessionStaysLinked(start, w, calls);
    FileTells(File([], 0), disk, w, acts);
    NothingLost(File([], 0), disk, w, acts);
    var r := Recover(OnDisk(File([], 0), disk, acts).records);
    forall y: nat ensures At(r.positions, y) == At(Ends(start, calls).venue, y) {
      assert Agrees(DidAll(w, acts), y);
    }
    ReportedClean(OnDisk(File([], 0), disk, acts).records);
  }

  lemma ReportedClean(records: seq<Stored>)
    requires Numbered(records) && AllIntact(records)
    ensures var r := Recover(records); r.gaps == r.corrupt == r.truncated == 0
  {
    ReportedCleanIff(records);
    AllCounted(records);
  }
}

/** The engine's trading path over the live objects: order manager, risk manager, journal, and the positions
    the venue holds.  The venue's answers, the clock and the drawdown verdict are parameters. */
module Engines {
  import opened Types
  import opened IdTables
  import opened OmsSpec
  import opened OmsLaws
  import opened OrderManagers
  import opened RiskSpec
  import opened RiskManagers
  import opened Dispatching
  import opened JournalSpec
  import opened Journals
  import opened CrashSafety
  import opened JournalFile
  import opened EngineRuns
  import LostRecords
  import EngineSpec

  lemma StoppedBoth(r: Risk, a: bool, b: bool)
    ensures EngineSpec.Stopped(EngineSpec.Stopped(r, a), b) == EngineSpec.Stopped(r, a && b)
  {
  }

  /** The three parts of a dispatch, written one after another. */
  lemma ActsOnDisk(f: File, disk: nat -> Outcome, live: Oms, id: nat, order: Order, a: Answer)
    ensures var sent := Appended(f, disk, order.createdTs, OrderSent(id, order));
      var answered := OnDisk(sent, disk, AnswerActs(id, order, a));
      OnDisk(f, disk, Acts(live, id, order, a))
        == OnDisk(answered, disk, RestActs(AfterFill(live, id, order, a), id, order, a))
  {
    var sent, venue := Wrote(order.createdTs, OrderSent(id, order)), VenueFilled(order.symbol, order.side, a.quantity);
    var answer, rest := AnswerActs(id, order, a), RestActs(AfterFill(live, id, order, a), id, order, a);
    assert Acts(live, id, order, a) == [sent] + ([venue] + (answer + rest));
    OnDiskConcat(f, disk, [sent], [venue] + (answer + rest));
    OnDiskOne(f, disk, order.createdTs, OrderSent(id, order));
    var f1 := Appended(f, disk, order.createdTs, OrderSent(id, order));
    assert ([venue] + (answer + rest))[1..] == answer + rest;
    OnDiskConcat(f1, disk, answer, rest);
  }

  lemma AnswerOnDisk(f: File, disk: nat -> Outcome, id: nat, order: Order, a: Answer)
    ensures var acked := Appended(f, disk, a.ts, ExecReport(AckReport(id, order, a)));
      OnDisk(f, disk, AnswerActs(id, order, a))
        == if a.quantity > 0 then Appended(acked, disk, a.ts, ExecReport(FillReport(id, order, a))) else acked
  {
    var ack, fill := ExecReport(AckReport(id, order, a)), ExecReport(FillReport(id, order, a));
    OnDiskOne(f, disk, a.ts, ack);
    if a.quantity > 0 {
      OnDiskConcat(f, disk, [Wrote(a.ts, ack)], [Wrote(a.ts, fill)]);
      OnDiskOne(Appended(f, disk, a.ts, ack), disk, a.ts, fill);
    } else {
      assert AnswerActs(id, order, a) == [Wrote(a.ts, ack)];
    }
  }

  class Engine {
    const oms: OrderManager
    const risk: RiskManager
    const journal: Journal
    var venue: seq<int>
    var stopping: bool

    ghost predicate Valid()
      reads this, oms, oms.ids, journal
    {
      oms.Valid() && journal.Valid()
    }

    ghost function View(): EngineSpec.Engine
      requires oms.Valid()
      reads this, oms, oms.ids, risk
    {
      EngineSpec.Engine(oms.View(), risk.State(), venue)
    }

    constructor (config: Config, blank: Record, hash: nat -> nat, limits: Limits, existing: seq<Stored>,
                 disk: nat -> Outcome)
      ensures Valid() && View() == EngineSpec.Start(OrderManager.Corrected(config), limits, []) && !stopping
      ensures journal.disk == disk && journal.base == Recover(existing).read && journal.failures == 0
      ensures journal.Contents() == File(existing, Recover(existing).read)
      ensures fresh(oms) && fresh(oms.ids) && fresh(risk) && fresh(journal)
    {
      oms := new OrderManager(config, blank, hash);
      risk := new RiskManager(limits);
      journal := new Journal(existing, disk);
      venue, stopping := [], false;
    }

    /** Appends to the journal; failing that, engages the kill switch and asks the run to stop. */
    method Record(ts: int, entry: Entry) returns (ghost filed: bool)
      requires journal.Valid()
      modifies journal, risk`halt, this`stopping
      ensures journal.Valid() && journal.Contents() == Appended(old(journal.Contents()), journal.disk, ts, entry)
      ensures journal.failures >= old(journal.failures) && (filed <==> journal.failures == old(journal.failures))
      ensures risk.State() == EngineSpec.Stopped(old(risk.State()), filed) && stopping == (old(stopping) || !filed)
    {
      var ok := journal.Append(ts, entry);
      filed := ok;
      if !ok {
        risk.Engage(Manual);
        stopping := true;
      }
    }

    /** emit(): journal first, then the state machine. */
    method Emit(rep: Report) returns (ghost filed: bool)
      requires Valid()
      modifies journal, risk`halt, oms, oms.ids, this`stopping
      ensures Valid() && oms.View() == Apply(old(oms.View()), rep)
      ensures journal.Contents() == Appended(old(journal.Contents()), journal.disk, rep.ts, ExecReport(rep))
      ensures journal.failures >= old(journal.failures) && (filed <==> journal.failures == old(journal.failures))
      ensures risk.State() == EngineSpec.Stopped(old(risk.State()), filed) && stopping == (old(stopping) || !filed)
    {
      filed := Record(rep.ts, ExecReport(rep));
      var applied := oms.Apply(rep);
    }

    /** What the venue now holds. */
    method Submit(order: Order, a: Answer)
      modifies this`venue
      ensures venue == VenueAfter(old(venue), order.symbol, order.side, a.quantity)
    {
      if a.quantity > 0 {
        venue := Grown(venue, order.symbol);
        venue := venue[order.symbol := venue[order.symbol] + order.side.Signed(a.quantity)];
      }
    }

    /** The acknowledgement and, if the venue filled anything, the fill. */
    method Answered(id: nat, order: Order, a: Answer) returns (ghost filed: bool)
      requires Valid()
      modifies journal, risk`halt, oms, oms.ids, this`stopping
      ensures Valid() && oms.View() == AfterFill(old(oms.View()), id, order, a)
      ensures journal.Contents() == OnDisk(old(journal.Contents()), journal.disk, AnswerActs(id, order, a))
      ensures journal.failures >= old(journal.failures) && (filed <==> journal.failures == old(journal.failures))
      ensures risk.State() == EngineSpec.Stopped(old(risk.State()), filed) && stopping == (old(stopping) || !filed)
    {
      ghost var r := risk.State();
      AnswerOnDisk(journal.Contents(), journal.disk, id, order, a);
      filed := Emit(AckReport(id, order, a));
      if a.quantity > 0 {
        ghost var also := Emit(FillReport(id, order, a));
        StoppedBoth(r, filed, also);
        filed := filed && also;
      }
    }

    /** The remainder of an order that is still working is dead. */
    method CancelRest(id: nat, order: Order, a: Answer) returns (ghost filed: bool)
      requires Valid()
      modifies journal, risk`halt, oms, oms.ids, this`stopping
      ensures Valid()
      ensures var s := old(oms.View());
        oms.View() == if StillWorking(s, id) then Apply(s, CancelReport(id, order, a)) else s
      ensures journal.Contents()
           == OnDisk(old(journal.Contents()), journal.disk, RestActs(old(oms.View()), id, order, a))
      ensures journal.failures >= old(journal.failures) && (filed <==> journal.failures == old(journal.failures))
      ensures risk.State() == EngineSpec.Stopped(old(risk.State()), filed) && stopping == (old(stopping) || !filed)
    {
      var rec := oms.Find(id);
      filed := true;
      if rec.Some? && Working(rec.value.state) {
        OnDiskOne(journal.Contents(), journal.disk, a.ts, ExecReport(CancelReport(id, order, a)));
        filed := Emit(CancelReport(id, order, a));
      }
    }

    /** dispatch(): the intent is on file before the order can exist at the venue. */
    method Dispatch(id: nat, order: Order, a: Answer) returns (ghost filed: bool)
      requires Valid()
      modifies journal, risk`halt, oms, oms.ids, this`venue, this`stopping
      ensures Valid() && oms.View() == Dispatching.Dispatch(old(oms.View()), id, order, a)
      ensures venue == VenueAfter(old(venue), order.symbol, order.side, a.quantity)
      ensures journal.Contents()
           == OnDisk(old(journal.Contents()), journal.disk, Acts(old(oms.View()), id, order, a))
      ensures journal.failures >= old(journal.failures) && (filed <==> journal.failures == old(journal.failures))
      ensures risk.State() == EngineSpec.Stopped(old(risk.State()), filed) && stopping == (old(stopping) || !filed)
    {
      ActsOnDisk(journal.Contents(), journal.disk, oms.View(), id, order, a);
      ghost var r := risk.State();
      ghost var sent := Record(order.createdTs, OrderSent(id, order));
      Submit(order, a);
      ghost var answered := Answered(id, order, a);
      StoppedBoth(r, sent, answered);
      ghost var cancelled := CancelRest(id, order, a);
      StoppedBoth(r, sent && answered, cancelled);
      filed := sent && answered && cancelled;
    }

    /** Engages the kill switch; a halt that begins here goes on file.  The append and the sync behind it are one
        outcome. */
    method HaltFor(why: Halt, ts: int)
      requires journal.Valid()
      modifies journal, risk`halt
      ensures journal.Valid() && journal.failures >= old(journal.failures)
      ensures risk.State() == EngageKillSwitch(old(risk.State()), why)
      ensures journal.Contents() == OnDisk(old(journal.Contents()), journal.disk, HaltActs(old(risk.State()), why, ts))
    {
      var was := risk.halt;
      OnDiskOne(journal.Contents(), journal.disk, ts, HaltEntry(ReasonCode(why)));
      risk.Engage(why);
      if was == NotHalted && risk.halt != NotHalted {
        var ok := journal.Append(ts, HaltEntry(ReasonCode(risk.halt)));
      }
    }

    /** The post-trade half of complete_order(). */
    method Account(order: Order, quantity: int, breach: Halt, done: int)
      requires journal.Valid()
      modifies journal, risk
      ensures journal.Valid() && journal.failures >= old(journal.failures)
      ensures risk.State() == EngageKillSwitch(OnFill(old(risk.State()), order.symbol, order.side, quantity), breach)
      ensures journal.Contents()
           == OnDisk(old(journal.Contents()), journal.disk, HaltActs(old(risk.State()), breach, done))
    {
      risk.Filled(order.symbol, order.side, quantity);
      HaltFor(breach, done);
    }

    /** complete_order(), with on_equity()'s verdict as a parameter.  Whether every record of the dispatch was
        written is for the journal to say. */
    method CompleteOrder(id: nat, order: Order, a: Answer, breach: Halt, done: int) returns (ghost filed: bool)
      requires Valid()
      modifies journal, risk, oms, oms.ids, this`venue, this`stopping
      ensures Valid() && View() == EngineSpec.Complete(old(View()), id, order, EngineSpec.Landing(a, filed, breach, done))
      ensures journal.Contents() == OnDisk(old(journal.Contents()), journal.disk,
        Acts(old(oms.View()), id, order, a) + HaltActs(EngineSpec.Stopped(old(risk.State()), filed), breach, done))
      ensures stopping == (old(stopping) || !filed)
      ensures journal.failures >= old(journal.failures) + (if filed then 0 else 1)
    {
      ghost var f, live, r := journal.Contents(), oms.View(), risk.State();
      filed := Dispatch(id, order, a);
      OnDiskConcat(f, journal.disk, Acts(live, id, order, a), HaltActs(EngineSpec.Stopped(r, filed), breach, done));
      Account(order, a.quantity, breach, done);
    }

    /** Stage 5 of process(), and what flatten() does with each exit: track the order, then dispatch it. */
    method Send(order: Order, now: int, a: Answer, breach: Halt, done: int) returns (sent: bool, ghost filed: bool)
      requires Valid() && oms.nextId != TOMBSTONE
      modifies journal, risk, oms, oms.ids, this`venue, this`stopping
      ensures var l := EngineSpec.Landing(a, filed, breach, done);
        && Valid() && View() == EngineSpec.Send(old(View()), order, now, l)
        && journal.Contents() == OnDisk(old(journal.Contents()), journal.disk, SendActs(old(View()), order, now, l))
      ensures stopping == (old(stopping) || !filed) && (!filed ==> sent)
      ensures journal.failures >= old(journal.failures) + (if filed then 0 else 1)
    {
      var id := oms.Create(order, now);
      sent, filed := id != 0, true;
      if sent {
        filed := CompleteOrder(id, order, a, breach, done);
      }
    }

    /** Stage 4 of process(). */
    method Admit(order: Order, reference: int, now: int) returns (reason: Reason)
      requires oms.Valid()
      modifies risk
      ensures oms.Valid() && var d := EngineSpec.Gated(old(View()), order, reference, now);
        reason == d.reason && View() == old(View()).(risk := d.risk)
    {
      var working := At(oms.buys, order.symbol) - At(oms.sells, order.symbol);
      reason := risk.Gate(order, reference, now, working, oms.gross);
    }

    /** Stages 4 and 5 of process(). */
    method Trade(order: Order, reference: int, now: int, a: Answer, breach: Halt, done: int)
      returns (sent: bool, ghost filed: bool)
      requires Valid() && oms.nextId != TOMBSTONE
      modifies journal, risk, oms, oms.ids, this`venue, this`stopping
      ensures var l := EngineSpec.Landing(a, filed, breach, done);
        && Valid() && View() == EngineSpec.Trade(old(View()), order, reference, now, l)
        && journal.Contents()
             == OnDisk(old(journal.Contents()), journal.disk, TradeActs(old(View()), order, reference, now, l))
      ensures stopping == (old(stopping) || !filed) && (!filed ==> sent)
      ensures journal.failures >= old(journal.failures) + (if filed then 0 else 1)
    {
      var reason := Admit(order, reference, now);
      if reason != Accepted {
        return false, true;
      }
      sent, filed := Send(order, now, a, breach, done);
    }

    /** One exit of flatten(). */
    method CloseOut(symbol: nat, held: int, x: EngineSpec.Exit) returns (ghost filed: bool)
      requires Valid() && oms.nextId != TOMBSTONE
      modifies journal, risk, oms, oms.ids, this`venue, this`stopping
      ensures Valid() && View() == EngineSpec.CloseOut(old(View()), symbol, held, x, filed)
      ensures journal.Contents()
           == OnDisk(old(journal.Contents()), journal.disk, CloseOutActs(old(View()), symbol, held, x, filed))
      ensures stopping == (old(stopping) || !filed)
      ensures journal.failures >= old(journal.failures) + (if filed then 0 else 1)
    {
      if held == 0 || x.reference <= 0 {
        return true;
      }
      var side := if held > 0 then Sell else Buy;
      var order := Order(0, symbol, side, Market, 0, if held > 0 then held else -held, x.now);
      var sent;
      sent, filed := Send(order, x.now, x.answer, NotHalted, x.now);
    }

    /** How far flatten() has come, from the engine and the file it started with. */
    ghost predicate Flattening(start: EngineSpec.Engine, file: File, held: seq<int>, exits: seq<EngineSpec.Exit>,
                               filed: seq<bool>, was: bool, failures: nat)
      requires oms.Valid()
      reads this, oms, oms.ids, risk, journal
    {
      && FlattenedTo(start, file, journal.disk, held, exits, filed, View(), journal.Contents())
      && stopping == (was || !EngineSpec.AllFiled(filed))
      && journal.failures >= failures + (if EngineSpec.AllFiled(filed) then 0 else 1)
    }

    /** One more exit of the loop of flatten(). */
    method CloseNext(ghost start: EngineSpec.Engine, ghost file: File, held: seq<int>, exits: seq<EngineSpec.Exit>,
                     k: nat, ghost filed: seq<bool>, ghost was: bool, ghost failures: nat)
      returns (ghost more: seq<bool>)
      requires Valid() && oms.nextId < TOMBSTONE && |filed| == k < |held|
      requires Flattening(start, file, held, exits, filed, was, failures)
      modifies journal, risk, oms, oms.ids, this`venue, this`stopping
      ensures Valid() && oms.nextId <= old(oms.nextId) + (if k < |exits| then 1 else 0) && |more| == k + 1
      ensures Flattening(start, file, held, exits, more, was, failures)
    {
      var x := EngineSpec.ExitFor(exits, k, held[k]);
      NextIdSteps(View(), k, held[k], x);
      ghost var e, f := View(), journal.Contents();
      ghost var one := CloseOut(k, held[k], x);
      OneMoreExit(start, file, journal.disk, held, exits, filed, one, e, f);
      AllFiledMore(filed, one);
      more := filed + [one];
    }

    /** flatten(): snapshot what is held, then close it out symbol by symbol. */
    method Flatten(exits: seq<EngineSpec.Exit>) returns (ghost filed: seq<bool>)
      requires Valid() && oms.nextId + |exits| < TOMBSTONE
      modifies journal, risk, oms, oms.ids, this`venue, this`stopping
      ensures Valid() && oms.nextId <= old(oms.nextId) + |exits|
      ensures View() == EngineSpec.Flatten(old(View()), old(venue), exits, filed, |old(venue)|)
      ensures journal.Contents() == OnDisk(old(journal.Contents()), journal.disk,
        FlattenActs(old(View()), old(venue), exits, filed, |old(venue)|))
      ensures stopping == (old(stopping) || !EngineSpec.AllFiled(filed))
      ensures journal.failures >= old(journal.failures) + (if EngineSpec.AllFiled(filed) then 0 else 1)
    {
      var held := venue;
      filed := [];
      ghost var start, file, was, failures := View(), journal.Contents(), stopping, journal.failures;
      var k := 0;
      while k < |held|
        invariant k <= |held| && Valid() && oms.nextId <= old(oms.nextId) + Min(k, |exits|) && |filed| == k
        invariant Flattening(start, file, held, exits, filed, was, failures)
      {
        filed := CloseNext(start, file, held, exits, k, filed, was, failures);
        k := k + 1;
      }
    }

    /** One call, as the run loop or an operator makes it; the result says what became of its records. */
    method Perform(call: EngineSpec.Call) returns (ghost done: EngineSpec.Call)
      requires Valid() && oms.nextId + EngineSpec.IdsFor(call) < TOMBSTONE
      modifies journal, risk, oms, oms.ids, this`venue, this`stopping
      ensures Valid() && EngineSpec.SameButFiled(call, done)
      ensures View() == EngineSpec.Step(old(View()), done) && oms.nextId <= old(oms.nextId) + EngineSpec.IdsFor(call)
      ensures journal.Contents() == OnDisk(old(journal.Contents()), journal.disk, CallActs(old(View()), done))
      ensures journal.failures >= old(journal.failures) + (if EngineSpec.Filed(done) then 0 else 1)
    {
      done := call;
      match call {
        case Process(order, reference, now, l) =>
          var sent;
          ghost var filed;
          TradeIds(View(), order, reference, now, l);
          sent, filed := Trade(order, reference, now, l.answer, l.breach, l.done);
          done := EngineSpec.Process(order, reference, now, l.(filed := filed));
        case FlattenAll(exits, _) =>
          ghost var filed := Flatten(exits);
          done := EngineSpec.FlattenAll(exits, filed);
        case HaltNow(why, ts) =>
          HaltFor(why, ts);
        case Release =>
          risk.ReleaseKillSwitch();
      }
    }

    /** A whole session: the engine ends where the plain engine does, and the file holds what the session wrote. */
    method Run(calls: seq<EngineSpec.Call>) returns (ghost done: seq<EngineSpec.Call>)
      requires Valid() && oms.nextId + EngineSpec.IdsForAll(calls) < TOMBSTONE
      modifies journal, risk, oms, oms.ids, this`venue, this`stopping
      ensures Valid() && EngineSpec.SameCalls(calls, done)
      ensures View() == EngineSpec.Ends(old(View()), done)
      ensures journal.Contents() == OnDisk(old(journal.Contents()), journal.disk, SessionActs(old(View()), done))
      ensures journal.failures >= old(journal.failures)
      ensures journal.failures == old(journal.failures) ==> EngineSpec.AllWritten(done)
      decreases |calls|
    {
      if calls == [] {
        return [];
      }
      ghost var file, start := journal.Contents(), View();
      ghost var first := Perform(calls[0]);
      ghost var rest := Run(calls[1..]);
      done := [first] + rest;
      EngineSpec.OneMoreCall(calls, first, rest);
      SessionOnDisk(file, journal.disk, start, first, rest);
    }
  }

  /** A session from flat on a new journal.  Recovering the file finds positions that are behind the venue's by
      exactly the fills whose records were lost; and if no append failed, the venue's positions and no open order. */
  method RunFromFlat(config: Config, blank: Record, hash: nat -> nat, limits: Limits, disk: nat -> Outcome,
                     calls: seq<EngineSpec.Call>) returns (engine: Engine, ghost done: seq<EngineSpec.Call>)
    requires limits.enabled && limits.maxPosition >= 0 && limits.maxGross >= 0
    requires EngineSpec.Session(calls) && EngineSpec.IdsForAll(calls) + 1 < TOMBSTONE
    ensures engine.Valid() && EngineSpec.SameCalls(calls, done)
    ensures engine.View() == EngineSpec.Ends(EngineSpec.Start(OrderManager.Corrected(config), limits, []), done)
    ensures var acts := SessionActs(EngineSpec.Start(OrderManager.Corrected(config), limits, []), done);
      forall y: nat ::
        At(engine.venue, y) - At(Recover(engine.journal.records).positions, y) == LostRecords.LostFills(0, disk, acts, y)
    ensures engine.journal.failures == 0 ==>
      EngineSpec.AllWritten(done) && RecoversTo(Recover(engine.journal.records), engine.venue)
  {
    engine := new Engine(config, blank, hash, limits, [], disk);
    ghost var start := EngineSpec.Start(OrderManager.Corrected(config), limits, []);
    done := engine.Run(calls);
    forall y: nat
      ensures At(engine.venue, y) - At(Recover(engine.journal.records).positions, y)
           == LostRecords.LostFills(0, disk, SessionActs(start, done), y)
    {
      LostRecords.BehindByLostFills(OrderManager.Corrected(config), limits, [], done, disk, y);
    }
    if engine.journal.failures == 0 {
      NoFailures(engine.journal, SessionActs(start, done));
      SessionRecovers(OrderManager.Corrected(config), limits, [], done, disk);
    }
  }

  lemma NoFailures(journal: Journal, acts: seq<Act>)
    requires journal.Valid() && journal.failures == 0 && journal.base == 0
    requires journal.Contents() == OnDisk(File([], 0), journal.disk, acts)
    ensures NoneLost(journal.disk, 0, Writes(acts))
  {
    NumbersUsed(File([], 0), journal.disk, acts);
  }

  /** An order uses up at most one id. */
  lemma TradeIds(e: EngineSpec.Engine, order: Order, reference: int, now: int, l: EngineSpec.Landing)
    requires Tracked(e.oms)
    ensures forall filed :: EngineSpec.Trade(e, order, reference, now, l.(filed := filed)).oms.nextId <= e.oms.nextId + 1
  {
    DispatchNextId(Create(e.oms, order, now).oms, e.oms.nextId, order, l.answer);
  }

  /** So does an exit. */
  lemma NextIdSteps(e: EngineSpec.Engine, symbol: nat, held: int, x: EngineSpec.Exit)
    requires Tracked(e.oms)
    ensures forall filed :: EngineSpec.CloseOut(e, symbol, held, x, filed).oms.nextId
                         <= e.oms.nextId + (if x.reference > 0 then 1 else 0)
  {
    if held != 0 && x.reference > 0 {
      var order := EngineSpec.ExitOrder(symbol, held, x.now);
      DispatchNextId(Create(e.oms, order, x.now).oms, e.oms.nextId, order, x.answer);
    }
  }

  lemma DispatchNextId(s: Oms, id: nat, order: Order, a: Answer)
    ensures Dispatching.Dispatch(s, id, order, a).nextId == s.nextId
  {
    ReportNextId(s, AckReport(id, order, a));
    ReportNextId(Apply(s, AckReport(id, order, a)), FillReport(id, order, a));
    ReportNextId(AfterFill(s, id, order, a), CancelReport(id, order, a));
  }

  lemma ReportNextId(s: Oms, rep: Report)
    ensures Apply(s, rep).nextId == s.nextId
  {
  }
}

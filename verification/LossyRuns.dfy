/** Whole runs under venue latency on a journal any of whose appends may fail: orders in flight, timeout sweeps and
    halts, and what recovery makes of the file at the end or after a crash at any step. */
module LossyRuns {
  import opened Types
  import opened OmsSpec
  import opened OmsLaws
  import opened OmsRuns
  import opened Dispatching
  import opened JournalSpec
  import opened CrashSafety
  import opened JournalFile
  import opened LostRecords
  import EngineRuns

  /** The live order manager, the wire, the steps taken so far, what recovery would find of them, and the orders
      whose end is not on file. */
  datatype Journey = Journey(live: Oms, wire: seq<(nat, Order)>, acts: seq<Act>, found: World, dangling: set<nat>)

  datatype Turn =
    | SendOut(order: Order, now: int)
    | Quietly(op: Op)
    | LandNext(answer: Answer)
    | FileHalt(ts: int, reason: nat)

  /** The venue fills no more than it was asked for, and recovery has room to follow one more open order. */
  ghost predicate CanTurn(j: Journey, t: Turn) {
    match t
    case Quietly(op) => Silent(op) && Possible(j.live, op)
    case LandNext(a) => j.wire != [] && 0 <= a.quantity <= j.wire[0].1.quantity && |j.dangling| < REPLAY_CONFIG.maxOpen
    case _ => true
  }

  /** The steps a turn takes. */
  function TurnActs(j: Journey, t: Turn): seq<Act>
    requires t.LandNext? ==> j.wire != []
  {
    match t
    case LandNext(a) => Acts(j.live, j.wire[0].0, j.wire[0].1, a)
    case FileHalt(ts, reason) => [Wrote(ts, HaltEntry(reason))]
    case _ => []
  }

  function Taken(j: Journey, t: Turn, disk: nat -> Outcome): Journey
    requires t.LandNext? ==> j.wire != []
  {
    var acts, n := TurnActs(j, t), Writes(j.acts);
    var j' := j.(acts := j.acts + acts, found := AfterLosses(j.found, n, disk, acts));
    match t
    case SendOut(order, now) =>
      var c := Create(j.live, order, now);
      j'.(live := c.oms, wire := if c.id == 0 then j.wire else j.wire + [(c.id, order)])
    case Quietly(op) => j'.(live := Step(j.live, op))
    case LandNext(a) =>
      var (id, order) := j.wire[0];
      j'.(live := Dispatch(j.live, id, order, a), wire := j.wire[1..],
          dangling := if LeftDangling(j.live, id, order, a, disk, n) then j.dangling + {id} else j.dangling)
    case FileHalt(_, _) => j'
  }

  ghost predicate CanTravel(j: Journey, turns: seq<Turn>, disk: nat -> Outcome)
    decreases |turns|
  {
    turns != [] ==> CanTurn(j, turns[0]) && CanTravel(Taken(j, turns[0], disk), turns[1..], disk)
  }

  ghost function Travelled(j: Journey, turns: seq<Turn>, disk: nat -> Outcome): Journey
    requires CanTravel(j, turns, disk)
    decreases |turns|
  {
    if turns == [] then j else Travelled(Taken(j, turns[0], disk), turns[1..], disk)
  }

  function Blank(): World {
    World(JournalSpec.Fresh(), [])
  }

  function SetOut(config: Config): Journey {
    Journey(Empty(config), [], [], Blank(), {})
  }

  // ------------------------------------------------------------ what every turn keeps

  ghost predicate Level(acts: seq<Act>, y: nat) {
    Balance(acts, y) == 0
  }

  ghost predicate OnCourse(j: Journey, disk: nat -> Outcome) {
    && j.found == AfterLosses(Blank(), 0, disk, j.acts)
    && Tracked(j.found.recovered.oms) && j.found.recovered.oms.config == REPLAY_CONFIG
    && WorkingIds(j.found.recovered.oms.orders) == j.dangling
    && WireOk(j.live, j.wire, j.found.recovered.oms.orders)
    && forall y: nat {:trigger Level(j.acts, y)} :: Level(j.acts, y)
  }

  predicate AllAbout(acts: seq<Act>, id: nat)
    decreases |acts|
  {
    acts != [] ==> About(acts[0], id) && AllAbout(acts[1..], id)
  }

  lemma {:induction false} AboutConcat(a: seq<Act>, b: seq<Act>, id: nat)
    requires AllAbout(a, id) && AllAbout(b, id)
    ensures AllAbout(a + b, id)
    decreases |a|
  {
    if a == [] {
      assert a + b == b;
    } else {
      assert (a + b)[1..] == a[1..] + b;
      AboutConcat(a[1..], b, id);
    }
  }

  lemma AboutOne(act: Act, id: nat)
    requires About(act, id)
    ensures AllAbout([act], id)
  {
    assert [act][1..] == [];
  }

  lemma ActsAbout(live: Oms, id: nat, order: Order, a: Answer)
    ensures AllAbout(Acts(live, id, order, a), id)
  {
    var sent, venue := BeginActs(id, order, a)[0], BeginActs(id, order, a)[1];
    var ack, fill := Wrote(a.ts, ExecReport(AckReport(id, order, a))), Wrote(a.ts, ExecReport(FillReport(id, order, a)));
    var answer, rest := AnswerActs(id, order, a), RestActs(AfterFill(live, id, order, a), id, order, a);
    AboutOne(sent, id);
    AboutOne(venue, id);
    AboutOne(ack, id);
    AboutOne(fill, id);
    AboutConcat([ack], [fill], id);
    assert answer == if a.quantity > 0 then [ack] + [fill] else [ack];
    if rest != [] {
      AboutOne(rest[0], id);
    }
    AboutConcat([sent], [venue], id);
    AboutConcat([sent] + [venue], answer, id);
    AboutConcat([sent] + [venue] + answer, rest, id);
    assert Acts(live, id, order, a) == [sent] + [venue] + answer + rest;
  }

  /** Whatever is lost of it, a dispatch adds only its own order to what recovery knows. */
  lemma {:induction false} LossKnows(w: World, n: nat, disk: nat -> Outcome, acts: seq<Act>, id: nat)
    requires AllAbout(acts, id)
    ensures forall x :: x in AfterLosses(w, n, disk, acts).recovered.oms.orders && x != id ==> x in w.recovered.oms.orders
    decreases |acts|
  {
    if acts != [] {
      var next := Did(w, acts[0]);
      forall x | x in next.recovered.oms.orders && x != id ensures x in w.recovered.oms.orders {
        StepKnows(w, acts[0], id, x);
      }
      if acts[0].Wrote? {
        LossKnows(if disk(n + 1).Lost? then w else next, n + 1, disk, acts[1..], id);
      } else {
        LossKnows(next, n, disk, acts[1..], id);
      }
    }
  }

  lemma LandStaysOnCourse(j: Journey, a: Answer, disk: nat -> Outcome)
    requires OnCourse(j, disk) && CanTurn(j, LandNext(a))
    ensures OnCourse(Taken(j, LandNext(a), disk), disk)
  {
    var (id, order) := j.wire[0];
    var n, acts := Writes(j.acts), Acts(j.live, id, order, a);
    var j' := Taken(j, LandNext(a), disk);
    assert OnWire(j.live, j.found.recovered.oms.orders, id, order);
    FoundAfterDispatch(j.found, j.dangling, j.live, id, order, a, n, disk);
    LossesConcat(Blank(), 0, disk, j.acts, acts);
    ActsAbout(j.live, id, order, a);
    LossKnows(j.found, n, disk, acts, id);
    LandKeepsWire(j.live, j.wire, j.found.recovered.oms.orders, j'.found.recovered.oms.orders, a);
    forall y: nat ensures Level(j'.acts, y) {
      assert Level(j.acts, y);
      BalanceConcat(j.acts, acts, y);
      DispatchBalances(j.live, id, order, a, y);
    }
  }

  lemma HaltStaysOnCourse(j: Journey, ts: int, reason: nat, disk: nat -> Outcome)
    requires OnCourse(j, disk)
    ensures OnCourse(Taken(j, FileHalt(ts, reason), disk), disk)
  {
    var acts, n := [Wrote(ts, HaltEntry(reason))], Writes(j.acts);
    LossesOne(j.found, n, disk, ts, HaltEntry(reason));
    LossesConcat(Blank(), 0, disk, j.acts, acts);
    forall y: nat ensures Level(j.acts + acts, y) {
      assert Level(j.acts, y);
      BalanceConcat(j.acts, acts, y);
      BalanceOne(acts[0], y);
    }
  }

  lemma TurnStaysOnCourse(j: Journey, t: Turn, disk: nat -> Outcome)
    requires OnCourse(j, disk) && CanTurn(j, t)
    ensures OnCourse(Taken(j, t, disk), disk)
  {
    assert j.acts + [] == j.acts;
    match t
    case SendOut(order, now) => SendKeepsWire(j.live, j.wire, j.found.recovered.oms.orders, order, now);
    case Quietly(op) => OtherKeepsWire(j.live, j.wire, j.found.recovered.oms.orders, op);
    case LandNext(a) => LandStaysOnCourse(j, a, disk);
    case FileHalt(ts, reason) => HaltStaysOnCourse(j, ts, reason, disk);
  }

  lemma {:induction false} StaysOnCourse(j: Journey, turns: seq<Turn>, disk: nat -> Outcome)
    requires OnCourse(j, disk) && CanTravel(j, turns, disk)
    ensures OnCourse(Travelled(j, turns, disk), disk)
    decreases |turns|
  {
    if turns != [] {
      TurnStaysOnCourse(j, turns[0], disk);
      StaysOnCourse(Taken(j, turns[0], disk), turns[1..], disk);
    }
  }

  lemma SetOutOnCourse(config: Config, disk: nat -> Outcome)
    requires config.history > 0
    ensures OnCourse(SetOut(config), disk)
  {
    EmptyTracked(config);
    EmptyTracked(REPLAY_CONFIG);
    assert WorkingIds(map[]) == {};
    forall y: nat ensures Level([], y) {
    }
  }

  // ------------------------------------------------------------ what recovery finds

  /** The file the steps leave. */
  function Filed(acts: seq<Act>, disk: nat -> Outcome): seq<Stored> {
    OnDisk(File([], 0), disk, acts).records
  }

  lemma RecoveryGap(acts: seq<Act>, disk: nat -> Outcome, y: nat)
    ensures var w, r := AfterLosses(Blank(), 0, disk, acts), Recover(Filed(acts, disk));
      && At(w.venue, y) - At(r.positions, y) == Balance(acts, y) + LostFills(0, disk, acts, y)
      && r.oms == w.recovered.oms
  {
    FileTells(File([], 0), disk, Blank(), acts);
    LossesLeaveGap(Blank(), 0, disk, acts, y);
  }

  /** For every run under latency and whatever becomes of each append: recovery is behind the venue by exactly the
      fills whose records were lost, and reports open exactly the orders whose intent is on file and whose end is
      not. */
  lemma LossyRunRecovers(config: Config, turns: seq<Turn>, disk: nat -> Outcome, y: nat)
    requires config.history > 0 && CanTravel(SetOut(config), turns, disk)
    ensures var j := Travelled(SetOut(config), turns, disk);
      var r := Recover(Filed(j.acts, disk));
      && At(j.found.venue, y) - At(r.positions, y) == LostFills(0, disk, j.acts, y)
      && WorkingIds(r.oms.orders) == j.dangling
  {
    SetOutOnCourse(config, disk);
    StaysOnCourse(SetOut(config), turns, disk);
    var j := Travelled(SetOut(config), turns, disk);
    RecoveryGap(j.acts, disk, y);
    assert Level(j.acts, y);
  }

  // ------------------------------------------------------------ a crash inside a landing

  /** Between the venue's fill and its record the venue is ahead by that fill, and at no other step. */
  lemma {:induction false} PrefixBalance(live: Oms, id: nat, order: Order, a: Answer, k: nat, y: nat)
    requires k <= |Acts(live, id, order, a)|
    ensures Balance(Acts(live, id, order, a)[..k], y)
         == if 2 <= k <= 3 && a.quantity > 0 && y == order.symbol then order.side.Signed(a.quantity) else 0
  {
    var acts := Acts(live, id, order, a);
    if k > 0 {
      PrefixBalance(live, id, order, a, k - 1, y);
      assert acts[..k] == acts[..k - 1] + [acts[k - 1]];
      BalanceConcat(acts[..k - 1], [acts[k - 1]], y);
      BalanceOne(acts[k - 1], y);
    }
  }

  /** The first three steps, as they are cut. */
  lemma FirstThree(live: Oms, id: nat, order: Order, a: Answer)
    ensures var acts, begin := Acts(live, id, order, a), BeginActs(id, order, a);
      && |acts| >= 3 && acts[..1] == [Wrote(order.createdTs, OrderSent(id, order))] && acts[..2] == begin
      && acts[..3] == begin + [Wrote(a.ts, ExecReport(AckReport(id, order, a)))]
  {
  }

  lemma KnownAfterAck(w: World, open: set<nat>, id: nat, order: Order, a: Answer, n: nat, disk: nat -> Outcome)
    requires Follows(w, open, id) && order.quantity > 0
    ensures var w3 := AfterLosses(w, n, disk, BeginActs(id, order, a) + [Wrote(a.ts, ExecReport(AckReport(id, order, a)))]);
      WorkingIds(w3.recovered.oms.orders) == if disk(n + 1).Lost? then open else open + {id}
  {
    var begin, ack := BeginActs(id, order, a), ExecReport(AckReport(id, order, a));
    var w2 := AfterLosses(w, n, disk, begin);
    IntentAndVenue(w, open, id, order, a, n, disk);
    LossesConcat(w, n, disk, begin, [Wrote(a.ts, ack)]);
    LossesOne(w2, n + 1, disk, a.ts, ack);
    AckMoves(w2.recovered.oms, open, id, order, a, if disk(n + 1).Lost? then Unknown else Sent);
  }

  lemma KnownAfterIntent(w: World, open: set<nat>, id: nat, order: Order, n: nat, disk: nat -> Outcome)
    requires Follows(w, open, id) && order.quantity > 0
    ensures var w1 := AfterLosses(w, n, disk, [Wrote(order.createdTs, OrderSent(id, order))]);
      WorkingIds(w1.recovered.oms.orders) == if disk(n + 1).Lost? then open else open + {id}
  {
    LossesOne(w, n, disk, order.createdTs, OrderSent(id, order));
    SentMakesKnown(w, open, id, order);
  }

  /** Until its fill or its cancel is reached recovery reports the order open, unless its intent was lost. */
  lemma KnownEarly(w: World, open: set<nat>, live: Oms, id: nat, order: Order, a: Answer, n: nat, disk: nat -> Outcome,
                   k: nat)
    requires Follows(w, open, id) && order.quantity > 0 && 1 <= k <= 3
    ensures |Acts(live, id, order, a)| >= 3
    ensures WorkingIds(AfterLosses(w, n, disk, Acts(live, id, order, a)[..k]).recovered.oms.orders)
         == if disk(n + 1).Lost? then open else open + {id}
  {
    FirstThree(live, id, order, a);
    if k == 1 {
      KnownAfterIntent(w, open, id, order, n, disk);
    } else if k == 2 {
      IntentAndVenue(w, open, id, order, a, n, disk);
    } else {
      KnownAfterAck(w, open, id, order, a, n, disk);
    }
  }

  /** What recovery finds of the steps, with a landing under way. */
  lemma CrashGap(j: Journey, a: Answer, k: nat, disk: nat -> Outcome, y: nat)
    requires OnCourse(j, disk) && j.wire != [] && k <= |TurnActs(j, LandNext(a))|
    ensures var order, steps := j.wire[0].1, j.acts + TurnActs(j, LandNext(a))[..k];
      At(DidAll(Blank(), steps).venue, y) - At(Recover(Filed(steps, disk)).positions, y)
        == LostFills(0, disk, steps, y)
           + (if 2 <= k <= 3 && a.quantity > 0 && y == order.symbol then order.side.Signed(a.quantity) else 0)
  {
    var part := TurnActs(j, LandNext(a))[..k];
    assert Level(j.acts, y);
    RecoveryGap(j.acts + part, disk, y);
    SameVenue(Blank(), Blank(), 0, disk, j.acts + part);
    BalanceConcat(j.acts, part, y);
    PrefixBalance(j.live, j.wire[0].0, j.wire[0].1, a, k, y);
  }

  lemma NextFollows(j: Journey, a: Answer, disk: nat -> Outcome)
    requires OnCourse(j, disk) && CanTurn(j, LandNext(a))
    ensures Follows(j.found, j.dangling, j.wire[0].0) && j.wire[0].1.quantity > 0
  {
    assert OnWire(j.live, j.found.recovered.oms.orders, j.wire[0].0, j.wire[0].1);
  }

  lemma FoundWith(j: Journey, part: seq<Act>, disk: nat -> Outcome)
    requires j.found == AfterLosses(Blank(), 0, disk, j.acts)
    ensures Recover(Filed(j.acts + part, disk)).oms == AfterLosses(j.found, Writes(j.acts), disk, part).recovered.oms
  {
    RecoveryGap(j.acts + part, disk, 0);
    LossesConcat(Blank(), 0, disk, j.acts, part);
  }

  lemma CrashOpen(j: Journey, a: Answer, k: nat, disk: nat -> Outcome)
    requires OnCourse(j, disk) && CanTurn(j, LandNext(a)) && 1 <= k <= 3 && k <= |TurnActs(j, LandNext(a))|
    ensures WorkingIds(Recover(Filed(j.acts + TurnActs(j, LandNext(a))[..k], disk)).oms.orders)
         == if disk(Writes(j.acts) + 1).Lost? then j.dangling else j.dangling + {j.wire[0].0}
  {
    NextFollows(j, a, disk);
    FoundWith(j, TurnActs(j, LandNext(a))[..k], disk);
    KnownEarly(j.found, j.dangling, j.live, j.wire[0].0, j.wire[0].1, a, Writes(j.acts), disk, k);
  }

  /** Stopped k steps into the next landing: recovery is behind the venue by the lost fills, and between the venue's
      fill and its record by that fill too; and until then it reports the order open if and only if its intent was
      not lost. */
  ghost predicate CrashFinds(j: Journey, a: Answer, k: nat, disk: nat -> Outcome, y: nat)
    requires j.wire != [] && k <= |TurnActs(j, LandNext(a))|
  {
    var (id, order) := j.wire[0];
    var steps := j.acts + TurnActs(j, LandNext(a))[..k];
    var r := Recover(Filed(steps, disk));
    && At(DidAll(Blank(), steps).venue, y) - At(r.positions, y)
         == LostFills(0, disk, steps, y)
            + (if 2 <= k <= 3 && a.quantity > 0 && y == order.symbol then order.side.Signed(a.quantity) else 0)
    && (1 <= k <= 3 ==> WorkingIds(r.oms.orders)
                         == if disk(Writes(j.acts) + 1).Lost? then j.dangling else j.dangling + {id})
  }

  lemma CrashTells(j: Journey, a: Answer, k: nat, disk: nat -> Outcome, y: nat)
    requires OnCourse(j, disk) && CanTurn(j, LandNext(a)) && k <= |TurnActs(j, LandNext(a))|
    ensures CrashFinds(j, a, k, disk, y)
  {
    CrashGap(j, a, k, disk, y);
    if 1 <= k <= 3 {
      CrashOpen(j, a, k, disk);
    }
  }

  /** Whatever has become of each append, that is what a stop after any step of the next landing finds, after every
      run under latency. */
  lemma CrashInLanding(config: Config, turns: seq<Turn>, a: Answer, k: nat, disk: nat -> Outcome, y: nat)
    requires config.history > 0 && CanTravel(SetOut(config), turns, disk)
    requires var j := Travelled(SetOut(config), turns, disk); CanTurn(j, LandNext(a)) && k <= |TurnActs(j, LandNext(a))|
    ensures CrashFinds(Travelled(SetOut(config), turns, disk), a, k, disk, y)
  {
    SetOutOnCourse(config, disk);
    StaysOnCourse(SetOut(config), turns, disk);
    CrashTells(Travelled(SetOut(config), turns, disk), a, k, disk, y);
  }

  // ------------------------------------------------------------ with nothing lost

  /** Each order is still known as working when it lands. */
  ghost predicate InTime(j: Journey, turns: seq<Turn>, disk: nat -> Outcome)
    requires CanTravel(j, turns, disk)
    decreases |turns|
  {
    turns != [] ==>
      && (turns[0].LandNext? ==> StillWorking(j.live, j.wire[0].0))
      && InTime(Taken(j, turns[0], disk), turns[1..], disk)
  }

  /** The numbers a dispatch uses. */
  lemma DispatchWrites(live: Oms, id: nat, order: Order, a: Answer)
    requires Tracked(live) && (Untouched(live, id, order) || Gone(live, id)) && 0 <= a.quantity <= order.quantity
    ensures Writes(Acts(live, id, order, a))
         == (if a.quantity > 0 then 3 else 2) + (if StillWorking(live, id) && a.quantity < order.quantity then 1 else 0)
  {
    var begin, answer := BeginActs(id, order, a), AnswerActs(id, order, a);
    var rest := RestActs(AfterFill(live, id, order, a), id, order, a);
    CancelIffWorking(live, id, order, a);
    assert Acts(live, id, order, a) == begin + answer + rest;
    WritesConcat(begin, answer);
    WritesConcat(begin + answer, rest);
    AnswerWrites(id, order, a);
    assert begin[1..] == [begin[1]] && begin[1..][1..] == [];
    assert rest != [] ==> rest[1..] == [];
  }

  lemma AnswerWrites(id: nat, order: Order, a: Answer)
    ensures Writes(AnswerActs(id, order, a)) == if a.quantity > 0 then 2 else 1
  {
    var ack, fill := Wrote(a.ts, ExecReport(AckReport(id, order, a))), Wrote(a.ts, ExecReport(FillReport(id, order, a)));
    WritesConcat([ack], [fill]);
    assert AnswerActs(id, order, a) == if a.quantity > 0 then [ack] + [fill] else [ack];
    assert [ack][1..] == [fill][1..] == [];
  }

  /** With nothing lost a dispatch leaves its order open in recovery only if it had expired and was not filled whole. */
  lemma DanglesIff(live: Oms, id: nat, order: Order, a: Answer, n: nat, disk: nat -> Outcome)
    requires Tracked(live) && (Untouched(live, id, order) || Gone(live, id)) && 0 <= a.quantity <= order.quantity
    requires order.quantity > 0 && NoneLost(disk, n, n + Writes(Acts(live, id, order, a)))
    ensures LeftDangling(live, id, order, a, disk, n) <==> !StillWorking(live, id) && a.quantity < order.quantity
  {
    DispatchWrites(live, id, order, a);
    assert disk(n + 1) != Lost && disk(n + 2) != Lost;
    assert a.quantity > 0 ==> disk(n + 3) != Lost;
    assert StillWorking(live, id) && a.quantity < order.quantity ==> disk(CancelNumber(a, n)) != Lost;
  }

  lemma {:induction false} ActsGrow(j: Journey, turns: seq<Turn>, disk: nat -> Outcome)
    requires CanTravel(j, turns, disk)
    ensures Writes(j.acts) <= Writes(Travelled(j, turns, disk).acts)
    decreases |turns|
  {
    if turns != [] {
      ActsGrow(Taken(j, turns[0], disk), turns[1..], disk);
      WritesConcat(j.acts, TurnActs(j, turns[0]));
    }
  }

  lemma NothingDangles(j: Journey, t: Turn, disk: nat -> Outcome, to: nat)
    requires OnCourse(j, disk) && CanTurn(j, t) && j.dangling == {}
    requires t.LandNext? ==> StillWorking(j.live, j.wire[0].0)
    requires NoneLost(disk, 0, to) && Writes(Taken(j, t, disk).acts) <= to
    ensures Taken(j, t, disk).dangling == {}
  {
    if t.LandNext? {
      var (id, order) := j.wire[0];
      assert OnWire(j.live, j.found.recovered.oms.orders, id, order);
      WritesConcat(j.acts, TurnActs(j, t));
      DanglesIff(j.live, id, order, t.answer, Writes(j.acts), disk);
    }
  }

  lemma {:induction false} NothingLeftDangling(j: Journey, turns: seq<Turn>, disk: nat -> Outcome)
    requires OnCourse(j, disk) && CanTravel(j, turns, disk) && InTime(j, turns, disk) && j.dangling == {}
    requires NoneLost(disk, 0, Writes(Travelled(j, turns, disk).acts))
    ensures Travelled(j, turns, disk).dangling == {}
    decreases |turns|
  {
    if turns != [] {
      var j' := Taken(j, turns[0], disk);
      ActsGrow(j', turns[1..], disk);
      NothingDangles(j, turns[0], disk, Writes(Travelled(j, turns, disk).acts));
      TurnStaysOnCourse(j, turns[0], disk);
      NothingLeftDangling(j', turns[1..], disk);
    }
  }

  /** For every run under latency with nothing lost, whose orders all land before they time out: recovering the file
      finds exactly the venue's positions, no open order, and nothing wrong with the file. */
  lemma LatentRunRecovers(config: Config, turns: seq<Turn>, disk: nat -> Outcome)
    requires config.history > 0 && CanTravel(SetOut(config), turns, disk) && InTime(SetOut(config), turns, disk)
    requires NoneLost(disk, 0, Writes(Travelled(SetOut(config), turns, disk).acts))
    ensures var j := Travelled(SetOut(config), turns, disk);
      EngineRuns.RecoversTo(Recover(Filed(j.acts, disk)), j.found.venue)
  {
    var j := Travelled(SetOut(config), turns, disk);
    SetOutOnCourse(config, disk);
    NothingLeftDangling(SetOut(config), turns, disk);
    forall y: nat ensures At(Recover(Filed(j.acts, disk)).positions, y) == At(j.found.venue, y) {
      LossyRunRecovers(config, turns, disk, y);
      NoLostFills(0, disk, j.acts, y);
    }
    LossyRunRecovers(config, turns, disk, 0);
    NothingLost(File([], 0), disk, Blank(), j.acts);
    OnDiskIntact(File([], 0), disk, j.acts);
    EngineRuns.ReportedClean(Filed(j.acts, disk));
  }
}

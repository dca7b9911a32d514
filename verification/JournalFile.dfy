/** The journal as a file: what the steps of a run leave in it, append by append, and what recovery makes of it. */
module JournalFile {
  import opened Types
  import opened OmsSpec
  import opened RiskSpec
  import opened JournalSpec
  import opened CrashSafety

  /** The file after the steps, each append coming to what the medium makes of it. */
  function OnDisk(f: File, disk: nat -> Outcome, acts: seq<Act>): File
    decreases |acts|
  {
    if acts == [] then f
    else OnDisk(match acts[0] case Wrote(ts, entry) => Appended(f, disk, ts, entry) case _ => f, disk, acts[1..])
  }

  lemma {:induction false} OnDiskConcat(f: File, disk: nat -> Outcome, a: seq<Act>, b: seq<Act>)
    ensures OnDisk(f, disk, a + b) == OnDisk(OnDisk(f, disk, a), disk, b)
    decreases |a|
  {
    if a == [] {
      assert a + b == b;
    } else {
      assert (a + b)[1..] == a[1..] + b;
      OnDiskConcat(match a[0] case Wrote(ts, entry) => Appended(f, disk, ts, entry) case _ => f, disk, a[1..], b);
    }
  }

  lemma OnDiskOne(f: File, disk: nat -> Outcome, ts: int, entry: Filed)
    ensures OnDisk(f, disk, [Wrote(ts, entry)]) == Appended(f, disk, ts, entry)
  {
    var acts := [Wrote(ts, entry)];
    assert acts[1..] == [];
  }

  // ------------------------------------------------------------ what recovery finds

  /** The same orders and positions, whatever was noted about the file. */
  ghost predicate SameState(r: Recovered, r': Recovered) {
    r.oms == r'.oms && r.positions == r'.positions
  }

  /** The steps, without the records that were lost. */
  function AfterLosses(w: World, seqNo: nat, disk: nat -> Outcome, acts: seq<Act>): World
    decreases |acts|
  {
    if acts == [] then w
    else if acts[0].Wrote? then
      AfterLosses(if disk(seqNo + 1).Lost? then w else Did(w, acts[0]), seqNo + 1, disk, acts[1..])
    else AfterLosses(Did(w, acts[0]), seqNo, disk, acts[1..])
  }

  /** Noting a record changes nothing its replay depends on. */
  lemma SameNoted(r: Recovered, s: Stored)
    ensures SameState(Noted(r, s), r)
  {
  }

  lemma SameSent(r: Recovered, r': Recovered, ts: int, id: nat, order: Order)
    requires SameState(r, r')
    ensures SameState(Replay(r, ts, OrderSent(id, order)), Replay(r', ts, OrderSent(id, order)))
  {
  }

  lemma SameReport(r: Recovered, r': Recovered, ts: int, report: Report)
    requires SameState(r, r')
    ensures SameState(Replay(r, ts, ExecReport(report)), Replay(r', ts, ExecReport(report)))
  {
  }

  lemma SameReplay(r: Recovered, r': Recovered, ts: int, entry: Entry)
    requires SameState(r, r')
    ensures SameState(Replay(r, ts, entry), Replay(r', ts, entry))
  {
    match entry
    case OrderSent(id, order) => SameSent(r, r', ts, id, order);
    case ExecReport(report) => SameReport(r, r', ts, report);
    case _ =>
  }

  /** Reading one more intact record of the file is replaying its entry. */
  lemma FoldsOne(records: seq<Stored>, s: Stored, r: Recovered)
    requires SameState(Fold(records), r) && s.intact
    ensures SameState(Fold(records + [s]), Replay(r, s.ts, s.entry))
  {
    assert (records + [s])[..|records|] == records;
    SameNoted(Fold(records), s);
    SameReplay(Noted(Fold(records), s), r, s.ts, s.entry);
  }

  lemma {:induction false} OnDiskIntact(f: File, disk: nat -> Outcome, acts: seq<Act>)
    requires AllIntact(f.records)
    ensures AllIntact(OnDisk(f, disk, acts).records)
    decreases |acts|
  {
    if acts != [] {
      OnDiskIntact(match acts[0] case Wrote(ts, entry) => Appended(f, disk, ts, entry) case _ => f, disk, acts[1..]);
    }
  }

  lemma AppendTells(f: File, disk: nat -> Outcome, r: Recovered, ts: int, entry: Entry)
    requires SameState(Fold(f.records), r)
    ensures SameState(Fold(Appended(f, disk, ts, entry).records),
                      if disk(f.seqNo + 1).Lost? then r else Replay(r, ts, entry))
  {
    FoldsOne(f.records, Stored(f.seqNo + 1, ts, entry, true), r);
  }

  lemma {:induction false} FoldTells(f: File, disk: nat -> Outcome, w: World, acts: seq<Act>)
    requires SameState(Fold(f.records), w.recovered)
    ensures SameState(Fold(OnDisk(f, disk, acts).records), AfterLosses(w, f.seqNo, disk, acts).recovered)
    decreases |acts|
  {
    if acts != [] {
      match acts[0] {
        case Wrote(ts, entry) =>
          AppendTells(f, disk, w.recovered, ts, entry);
          FoldTells(Appended(f, disk, ts, entry), disk, if disk(f.seqNo + 1).Lost? then w else Did(w, acts[0]), acts[1..]);
        case VenueFilled(_, _, _) =>
          FoldTells(f, disk, Did(w, acts[0]), acts[1..]);
      }
    }
  }

  /** Recovering the file is replaying the steps whose records are in it. */
  lemma FileTells(f: File, disk: nat -> Outcome, w: World, acts: seq<Act>)
    requires SameState(Fold(f.records), w.recovered) && AllIntact(f.records)
    ensures var f' := OnDisk(f, disk, acts);
      SameState(Recover(f'.records), AfterLosses(w, f.seqNo, disk, acts).recovered) && AllIntact(f'.records)
  {
    FoldTells(f, disk, w, acts);
    OnDiskIntact(f, disk, acts);
  }

  function Writes(acts: seq<Act>): nat
    decreases |acts|
  {
    if acts == [] then 0 else (if acts[0].Wrote? then 1 else 0) + Writes(acts[1..])
  }

  /** When no append is lost the file keeps every step, numbered in order. */
  lemma {:induction false} NothingLost(f: File, disk: nat -> Outcome, w: World, acts: seq<Act>)
    requires NoneLost(disk, f.seqNo, f.seqNo + Writes(acts))
    ensures AfterLosses(w, f.seqNo, disk, acts) == DidAll(w, acts)
    ensures Numbered(f.records) && f.seqNo == |f.records| ==>
      var f' := OnDisk(f, disk, acts); Numbered(f'.records) && f'.seqNo == |f'.records|
    ensures OnDisk(f, disk, acts).seqNo == f.seqNo + Writes(acts)
    decreases |acts|
  {
    if acts != [] {
      match acts[0] {
        case Wrote(ts, entry) =>
          assert disk(f.seqNo + 1) != Lost;
          NothingLost(Appended(f, disk, ts, entry), disk, Did(w, acts[0]), acts[1..]);
        case VenueFilled(_, _, _) =>
          NothingLost(f, disk, Did(w, acts[0]), acts[1..]);
      }
    }
  }

  lemma {:induction false} NumbersUsed(f: File, disk: nat -> Outcome, acts: seq<Act>)
    ensures OnDisk(f, disk, acts).seqNo == f.seqNo + Writes(acts)
    decreases |acts|
  {
    if acts != [] {
      NumbersUsed(match acts[0] case Wrote(ts, entry) => Appended(f, disk, ts, entry) case _ => f, disk, acts[1..]);
    }
  }

  // ------------------------------------------------------------ halts

  /** The code a halt reason is filed under. */
  function ReasonCode(why: Halt): nat {
    match why
    case NotHalted => 0
    case Manual => 1
    case DrawdownBreach => 2
    case DailyOrderLimit => 3
    case OrderTimeout => 4
  }

  /** What the post-trade check writes: a halt is recorded when it begins, not when it is already in force. */
  function HaltActs(r: Risk, breach: Halt, ts: int): seq<Act> {
    if !r.Halted() && breach != NotHalted then [Wrote(ts, HaltEntry(ReasonCode(breach)))] else []
  }

  lemma LastHaltHolds(f: File, disk: nat -> Outcome, ts: int, reason: nat)
    requires !disk(f.seqNo + 1).Lost?
    ensures var r := Recover(Appended(f, disk, ts, HaltEntry(reason)).records); r.halted && r.haltReason == reason
  {
    HaltSurvives(Appended(f, disk, ts, HaltEntry(reason)).records, |f.records|);
  }

  /** A halt that began with an order, if its record was not lost, is in force after recovery, under its reason. */
  lemma HaltOnFile(f: File, disk: nat -> Outcome, r: Risk, breach: Halt, ts: int)
    requires !r.Halted() && breach != NotHalted && !disk(f.seqNo + 1).Lost?
    ensures var file := OnDisk(f, disk, HaltActs(r, breach, ts)).records;
      Recover(file).halted && Recover(file).haltReason == ReasonCode(breach)
  {
    OnDiskOne(f, disk, ts, HaltEntry(ReasonCode(breach)));
    LastHaltHolds(f, disk, ts, ReasonCode(breach));
    assert HaltActs(r, breach, ts) == [Wrote(ts, HaltEntry(ReasonCode(breach)))];
  }
}

/** The journal as it is written, and recovery as it is run: a loop that replays into a real order manager. */
module Journals {
  import opened Types
  import opened IdTables
  import opened OmsSpec
  import opened OmsLaws
  import opened OrderManagers
  import opened JournalSpec

  class Journal {
    const disk: nat -> Outcome   // what becomes of the append with this number
    var records: seq<Stored>   // the file
    var seqNo: nat
    var failures: nat
    ghost const base: nat   // the number it went on from

    ghost function Contents(): File
      reads this
    {
      File(records, seqNo)
    }

    /** Until an append fails, every append so far has been written. */
    ghost predicate Valid()
      reads this
    {
      base <= seqNo && (failures == 0 ==> AllWritten(disk, base, seqNo))
    }

    /** The file holds records 1, 2, 3, ... up to the last number used, and none is damaged. */
    ghost predicate Whole()
      reads this
    {
      AllIntact(records) && Numbered(records) && seqNo == |records|
    }

    /** open(): a new file, or one that ends on a record boundary, damaged or not; numbering goes on from the
        records recovery can read. */
    constructor (existing: seq<Stored>, disk: nat -> Outcome)
      ensures Valid() && records == existing && base == seqNo == Recover(existing).read && failures == 0
      ensures this.disk == disk && (Numbered(existing) ==> (Whole() <==> AllIntact(existing)))
    {
      this.disk := disk;
      records, failures, base := existing, 0, Recover(existing).read;
      seqNo := Recover(existing).read;
      new;
      if Numbered(existing) && AllIntact(existing) {
        ReportedCleanIff(existing);
        AllCounted(existing);
      }
    }

    /** append() */
    method Append(ts: int, entry: Entry) returns (ok: bool)
      requires Valid()
      modifies this
      ensures Valid() && Contents() == Appended(old(Contents()), disk, ts, entry)
      ensures old(Whole()) ==> (Whole() <==> disk(seqNo) != Lost)
      ensures ok == (disk(seqNo) == Written) && failures == old(failures) + (if ok then 0 else 1)
    {
      seqNo := seqNo + 1;
      if disk(seqNo) == Lost {
        failures := failures + 1;
        return false;
      }
      records := records + [Stored(seqNo, ts, entry, true)];
      if disk(seqNo) == Unsynced {
        failures := failures + 1;
        return false;
      }
      return true;
    }
  }

  /** Recovery state whose order manager is the live object om. */
  ghost function StateOf(notes: Recovered, om: OrderManager): Recovered
    requires om.Valid()
    reads om, om.ids
  {
    notes.(oms := om.View())
  }

  method ReplaySent(om: OrderManager, notes: Recovered, ts: int, id: nat, order: Order) returns (notes': Recovered)
    requires om.Valid() && id != TOMBSTONE
    modifies om, om.ids
    ensures om.Valid() && StateOf(notes', om) == Replay(old(StateOf(notes, om)), ts, OrderSent(id, order))
  {
    var created := om.CreateWithId(id, order, ts);
    notes' := if id > notes.nextId then notes.(nextId := id) else notes;
  }

  /** What a report does beside the orders: a fill moves its symbol's position. */
  function FillNoted(notes: Recovered, report: Report): Recovered {
    if report.exec.Executed? && report.quantity > 0 then
      notes.(positions := Moved(notes.positions, report.symbol, report.side.Signed(report.quantity)),
             fees := notes.fees + report.fee)
    else notes
  }

  lemma ReportReplayed(notes: Recovered, s: Oms, ts: int, report: Report)
    ensures Replay(notes.(oms := s), ts, ExecReport(report))
         == FillNoted(notes, report).(oms := ApplyReport(s, report).oms)
  {
  }

  lemma NotedLeavesOrders(notes: Recovered, s: Oms, rec: Stored)
    ensures Noted(notes.(oms := s), rec) == Noted(notes, rec).(oms := s)
  {
  }

  method NoteFill(notes: Recovered, report: Report) returns (notes': Recovered)
    ensures notes' == FillNoted(notes, report)
  {
    notes' := notes;
    if report.exec.Executed? && report.quantity > 0 {
      var positions := Grown(notes.positions, report.symbol);
      positions := positions[report.symbol := positions[report.symbol] + report.side.Signed(report.quantity)];
      notes' := notes.(positions := positions, fees := notes.fees + report.fee);
    }
  }

  method ReplayReport(om: OrderManager, notes: Recovered, ts: int, report: Report) returns (notes': Recovered)
    requires om.Valid()
    modifies om, om.ids
    ensures om.Valid() && StateOf(notes', om) == Replay(old(StateOf(notes, om)), ts, ExecReport(report))
  {
    ReportReplayed(notes, om.View(), ts, report);
    var applied := om.Apply(report);
    notes' := NoteFill(notes, report);
  }

  /** The records that leave the orders alone. */
  method ReplayOther(notes: Recovered, ts: int, entry: Entry) returns (notes': Recovered)
    requires !entry.OrderSent? && !entry.ExecReport?
    ensures notes' == Replay(notes, ts, entry)
  {
    notes' := notes;
    match entry {
      case SessionStart =>
      case HaltEntry(reason) => notes' := notes.(halted := true, haltReason := reason);
      case Resume => notes' := notes.(halted := false, haltReason := 0);
      case Checkpoint(symbol, position, pnl, fees) =>
        var positions := Grown(notes.positions, symbol);
        notes' := notes.(realizedPnl := pnl, fees := fees, positions := positions[symbol := position]);
      case SessionEnd => notes' := notes.(cleanShutdown := true);
    }
  }

  lemma OtherLeavesOrders(r: Recovered, s: Oms, ts: int, entry: Entry)
    requires !entry.OrderSent? && !entry.ExecReport?
    ensures Replay(r.(oms := s), ts, entry) == Replay(r, ts, entry).(oms := s)
  {
  }

  /** One intact record, replayed. */
  method ReplayInto(om: OrderManager, notes: Recovered, ts: int, entry: Entry) returns (notes': Recovered)
    requires om.Valid() && (entry.OrderSent? ==> entry.id != TOMBSTONE)
    modifies om, om.ids
    ensures om.Valid() && StateOf(notes', om) == Replay(old(StateOf(notes, om)), ts, entry)
  {
    if entry.OrderSent? {
      notes' := ReplaySent(om, notes, ts, entry.id, entry.order);
    } else if entry.ExecReport? {
      notes' := ReplayReport(om, notes, ts, entry.report);
    } else {
      OtherLeavesOrders(notes, om.View(), ts, entry);
      notes' := ReplayOther(notes, ts, entry);
    }
  }

  /** One record of the file, torn tail aside. */
  method ReadNext(om: OrderManager, notes: Recovered, rec: Stored) returns (notes': Recovered)
    requires om.Valid() && (rec.entry.OrderSent? ==> rec.entry.id != TOMBSTONE)
    modifies om, om.ids
    ensures om.Valid() && StateOf(notes', om) == JournalSpec.Next(old(StateOf(notes, om)), rec)
  {
    if rec.intact {
      NotedLeavesOrders(notes, om.View(), rec);
      notes' := ReplayInto(om, Noted(notes, rec), rec.ts, rec.entry);
    } else {
      notes' := notes.(corrupt := notes.corrupt + 1);
    }
  }

  lemma FoldNext(records: seq<Stored>, i: nat)
    requires i < |records|
    ensures Fold(records[..i + 1]) == JournalSpec.Next(Fold(records[..i]), records[i])
  {
    assert records[..i + 1][..i] == records[..i];
  }

  lemma TornEnd(records: seq<Stored>)
    requires records != [] && !records[|records| - 1].intact
    ensures var r := Fold(records[..|records| - 1]); Recover(records) == r.(truncated := r.truncated + 1)
  {
  }

  lemma WholeEnd(records: seq<Stored>)
    requires records != [] ==> records[|records| - 1].intact
    ensures Recover(records) == Fold(records[..|records|])
  {
    assert records[..|records|] == records;
  }

  /** The loop of recover_from_journal(): replay record by record, and stop at a torn tail. */
  method ReadAll(om: OrderManager, start: Recovered, records: seq<Stored>) returns (notes: Recovered)
    requires om.Valid() && StateOf(start, om) == Fold([])
    requires forall i {:trigger records[i]} :: 0 <= i < |records| && records[i].entry.OrderSent? ==>
      records[i].entry.id != TOMBSTONE
    modifies om, om.ids
    ensures om.Valid() && StateOf(notes, om) == Recover(records)
  {
    notes := start;
    var i := 0;
    while i < |records|
      invariant i <= |records| && om.Valid() && StateOf(notes, om) == Fold(records[..i])
      invariant i == |records| && i > 0 ==> records[i - 1].intact
      decreases |records| - i
    {
      if !records[i].intact && i + 1 == |records| {
        TornEnd(records);
        notes := notes.(truncated := notes.truncated + 1);
        return;
      }
      FoldNext(records, i);
      notes := ReadNext(om, notes, records[i]);
      i := i + 1;
    }
    WholeEnd(records);
  }

  /** recover_from_journal() */
  method RecoverFrom(records: seq<Stored>, blank: Record, hash: nat -> nat)
    returns (notes: Recovered, om: OrderManager, open: seq<nat>)
    requires forall i {:trigger records[i]} :: 0 <= i < |records| && records[i].entry.OrderSent? ==>
      records[i].entry.id != TOMBSTONE
    ensures om.Valid() && StateOf(notes, om) == Recover(records)
    ensures Ascending(open) && forall id :: id in open <==> id in WorkingIds(Recover(records).oms.orders)
  {
    om := new OrderManager(REPLAY_CONFIG, blank, hash);
    notes := ReadAll(om, JournalSpec.Fresh(), records);
    open := om.OpenOrders();
  }
}

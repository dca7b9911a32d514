/** The write-ahead journal and what is rebuilt from it. */
module JournalSpec {
  import opened Types
  import opened OmsSpec

  datatype Entry =
    | SessionStart
    | OrderSent(id: nat, order: Order)
    | ExecReport(report: Report)
    | HaltEntry(reason: nat)
    | Resume
    | Checkpoint(symbol: nat, position: int, realizedPnl: real, fees: real)
    | SessionEnd

  /** A record as it lies in the file; intact means its size and checksum hold. */
  datatype Stored = Stored(seqNo: nat, ts: int, entry: Entry, intact: bool)

  /** What recovery rebuilds: the state machine's orders, positions, the halt, and what it noticed. */
  datatype Recovered = Recovered(oms: Oms, positions: seq<int>, realizedPnl: real, fees: real, halted: bool,
                                 haltReason: nat, nextId: nat, cleanShutdown: bool, lastTs: int,
                                 read: nat, corrupt: nat, truncated: nat, gaps: nat, expected: nat)

  /** Replay runs the same state machine as the live path, with room for 2^20 open and 2^20 finished orders. */
  const REPLAY_CONFIG := Config(1_000_000_000, 1048576, 1048576)

  function Fresh(): Recovered {
    Recovered(Empty(REPLAY_CONFIG), [], 0.0, 0.0, false, 0, 0, false, 0, 0, 0, 0, 0, 0)
  }

  /** The switch of recover_from_journal(). */
  function Replay(r: Recovered, ts: int, entry: Entry): Recovered {
    match entry
    case SessionStart => r
    case OrderSent(id, order) =>
      r.(oms := CreateWithId(r.oms, id, order, ts).oms, nextId := Max(r.nextId, id))
    case ExecReport(report) =>
      var applied := r.(oms := ApplyReport(r.oms, report).oms);
      if report.exec.Executed? && report.quantity > 0 then
        applied.(positions := Moved(r.positions, report.symbol, report.side.Signed(report.quantity)),
                 fees := r.fees + report.fee)
      else applied
    case HaltEntry(reason) => r.(halted := true, haltReason := reason)
    case Resume => r.(halted := false, haltReason := 0)
    case Checkpoint(symbol, position, pnl, fees) =>
      r.(realizedPnl := pnl, fees := fees, positions := Grown(r.positions, symbol)[symbol := position])
    case SessionEnd => r.(cleanShutdown := true)
  }

  /** An intact record: its number is checked, and its entry replayed. */
  function Noted(r: Recovered, s: Stored): Recovered {
    r.(gaps := r.gaps + (if r.expected != 0 && s.seqNo != r.expected + 1 then 1 else 0),
       expected := s.seqNo, read := r.read + 1, lastTs := s.ts, cleanShutdown := false)
  }

  function ReadRecord(r: Recovered, s: Stored): Recovered {
    Replay(Noted(r, s), s.ts, s.entry)
  }

  function Next(r: Recovered, s: Stored): Recovered {
    if s.intact then ReadRecord(r, s) else r.(corrupt := r.corrupt + 1)
  }

  function Fold(records: seq<Stored>): Recovered {
    if records == [] then Fresh() else Next(Fold(records[..|records| - 1]), records[|records| - 1])
  }

  /** recover_from_journal().  Whether damage counts as a truncated write or as corruption depends only on
      whether any record follows it. */
  function Recover(records: seq<Stored>): Recovered {
    if records != [] && !records[|records| - 1].intact then
      var r := Fold(records[..|records| - 1]);
      r.(truncated := r.truncated + 1)
    else Fold(records)
  }

  // ------------------------------------------------------------ what is written

  /** What one append comes to: on file; not on file; or on file, but the flush or sync behind it failed. */
  datatype Outcome = Written | Lost | Unsynced

  /** The file, and the last number used. */
  datatype File = File(records: seq<Stored>, seqNo: nat)

  /** append(): numbered first, so that a record that is lost leaves a gap. */
  function Appended(f: File, disk: nat -> Outcome, ts: int, entry: Entry): File {
    var n := f.seqNo + 1;
    File(if disk(n).Lost? then f.records else f.records + [Stored(n, ts, entry, true)], n)
  }

  // ------------------------------------------------------------ numbering and damage

  /** append() numbers records 1, 2, 3, ... */
  ghost predicate Numbered(records: seq<Stored>) {
    forall i {:trigger records[i]} :: 0 <= i < |records| ==> records[i].seqNo == i + 1
  }

  ghost predicate AllIntact(records: seq<Stored>) {
    forall i {:trigger records[i]} :: 0 <= i < |records| ==> records[i].intact
  }

  ghost predicate AllWritten(disk: nat -> Outcome, from: nat, to: nat) {
    forall n: nat {:trigger disk(n)} :: from < n <= to ==> disk(n) == Written
  }

  ghost predicate NoneLost(disk: nat -> Outcome, from: nat, to: nat) {
    forall n: nat {:trigger disk(n)} :: from < n <= to ==> disk(n) != Lost
  }

  function Intact(records: seq<Stored>): nat {
    if records == [] then 0
    else Intact(records[..|records| - 1]) + (if records[|records| - 1].intact then 1 else 0)
  }

  lemma {:induction false} AllCounted(records: seq<Stored>)
    requires AllIntact(records)
    ensures Intact(records) == |records|
  {
    if records != [] {
      AllCounted(records[..|records| - 1]);
    }
  }

  /** The number of the last intact record, or zero. */
  function LastIntact(records: seq<Stored>): nat {
    if records == [] then 0
    else if records[|records| - 1].intact then records[|records| - 1].seqNo
    else LastIntact(records[..|records| - 1])
  }

  /** Replaying an entry touches none of the bookkeeping about the file. */
  lemma ReplayKeepsNotes(r: Recovered, ts: int, entry: Entry)
    ensures var r' := Replay(r, ts, entry);
      && r'.read == r.read && r'.corrupt == r.corrupt && r'.truncated == r.truncated && r'.gaps == r.gaps
      && r'.expected == r.expected
  {
  }

  /** Every record is either read or counted as corrupt, and the last number seen is the last intact one's. */
  lemma {:induction false} FoldCounts(records: seq<Stored>)
    requires Numbered(records)
    ensures var r := Fold(records);
      && r.read == Intact(records) && r.read + r.corrupt == |records| && r.truncated == 0
      && r.expected == LastIntact(records) <= |records|
      && (r.corrupt == 0 ==> r.gaps == 0 && r.expected == |records|)
  {
    if records != [] {
      var last := records[|records| - 1];
      FoldCounts(records[..|records| - 1]);
      if last.intact {
        ReplayKeepsNotes(Noted(Fold(records[..|records| - 1]), last), last.ts, last.entry);
      }
    }
  }

  predicate LostAt(records: seq<Stored>, i: nat, j: nat, k: nat) {
    i < j < k < |records| && records[i].intact && !records[j].intact && records[k].intact
  }

  /** A record was lost between two that were read. */
  ghost predicate LostInside(records: seq<Stored>) {
    exists i: nat, j: nat, k: nat {:trigger LostAt(records, i, j, k)} :: LostAt(records, i, j, k)
  }

  lemma LastIntactIs(records: seq<Stored>)
    requires Numbered(records)
    ensures LastIntact(records) <= |records|
    ensures LastIntact(records) != 0 ==> records[LastIntact(records) - 1].intact
    ensures forall i {:trigger records[i]} :: LastIntact(records) <= i < |records| ==> !records[i].intact
    decreases |records|
  {
    if records != [] && !records[|records| - 1].intact {
      var front := records[..|records| - 1];
      LastIntactIs(front);
      forall i {:trigger records[i]} | LastIntact(records) <= i < |records| ensures !records[i].intact {
        if i < |front| {
          assert front[i] == records[i];
        }
      }
    }
  }

  lemma {:induction false} GapsTell(records: seq<Stored>)
    requires Numbered(records)
    ensures Fold(records).gaps > 0 <==> LostInside(records)
  {
    if records != [] {
      var front, last := records[..|records| - 1], records[|records| - 1];
      GapsTell(front);
      FoldCounts(front);
      LastIntactIs(front);
      if last.intact {
        ReplayKeepsNotes(Noted(Fold(front), last), last.ts, last.entry);
      }
      LostAtEnd(records);
    }
  }

  lemma LostAtEnd(records: seq<Stored>)
    requires records != [] && Numbered(records)
    ensures var front, last := records[..|records| - 1], records[|records| - 1];
      LostInside(records) <==>
        LostInside(front) || (last.intact && LastIntact(front) != 0 && LastIntact(front) < |front|)
  {
    var front, last, n := records[..|records| - 1], records[|records| - 1], LastIntact(records[..|records| - 1]);
    LastIntactIs(front);
    if i: nat, j: nat, k: nat :| LostAt(front, i, j, k) {
      assert LostAt(records, i, j, k);
    }
    if last.intact && n != 0 && n < |front| {
      assert front[n - 1] == records[n - 1] && front[n] == records[n];
      assert LostAt(records, n - 1, n, |records| - 1);
    }
    if i: nat, j: nat, k: nat :| LostAt(records, i, j, k) {
      LostBefore(records, i, j, k, n);
    }
  }

  lemma LostBefore(records: seq<Stored>, i: nat, j: nat, k: nat, n: nat)
    requires LostAt(records, i, j, k) && n == LastIntact(records[..|records| - 1])
    requires n <= |records| - 1 && (n > 0 ==> records[n - 1].intact)
    requires forall x {:trigger records[x]} :: n <= x < |records| - 1 ==> !records[x].intact
    ensures LostInside(records[..|records| - 1]) || (k == |records| - 1 && n != 0 && n < |records| - 1)
  {
    var front := records[..|records| - 1];
    if k < |front| {
      assert LostAt(front, i, j, k);
    } else if n == |front| {
      assert LostAt(front, i, j, n - 1);
    }
  }

  /** Recovery reports an undamaged file exactly when every record is intact; and then nothing is skipped. */
  lemma ReportedCleanIff(records: seq<Stored>)
    requires Numbered(records)
    ensures var r := Recover(records);
      && (r.corrupt == 0 && r.truncated == 0 <==> Intact(records) == |records|)
      && (r.corrupt == 0 && r.truncated == 0 ==> r.gaps == 0 && r.read == |records|)
      && r.read + r.corrupt + r.truncated == |records|
  {
    FoldCounts(records);
    if records != [] {
      FoldCounts(records[..|records| - 1]);
    }
  }

  /** A torn last record loses that record only: recovery is recovery of the file without it. */
  lemma TornTailLosesOne(records: seq<Stored>, torn: Stored)
    requires !torn.intact && (records != [] ==> records[|records| - 1].intact)
    ensures Recover(records + [torn]) == Recover(records).(truncated := Recover(records).truncated + 1)
  {
    assert (records + [torn])[..|records|] == records;
  }

  /** A halt that was journalled is still in force after recovery unless a resume came after it. */
  lemma {:induction false} HaltSurvives(records: seq<Stored>, k: nat)
    requires k < |records| && records[k].intact && records[k].entry.HaltEntry?
    requires forall i {:trigger records[i]} :: k < i < |records| && records[i].intact ==>
      !records[i].entry.Resume? && !records[i].entry.HaltEntry?
    ensures Fold(records).halted && Fold(records).haltReason == records[k].entry.reason
    decreases |records|
  {
    if k + 1 < |records| {
      HaltSurvives(records[..|records| - 1], k);
    }
  }

  /** A write that failed still used up its number, so the next record shows a gap. */
  lemma FailedWriteShows(records: seq<Stored>, next: Stored)
    requires Numbered(records) && records != [] && records[|records| - 1].intact
    requires next.intact && next.seqNo > |records| + 1
    ensures Recover(records + [next]).gaps == Recover(records).gaps + 1
  {
    FoldCounts(records);
    assert (records + [next])[..|records|] == records;
    ReplayKeepsNotes(Noted(Fold(records), next), next.ts, next.entry);
  }

  /** A session that reopens a file numbers its first record after the count of records it can read.  That
      shows no gap exactly when the last record's number is that count: when no number was used up in vain. */
  lemma RestartShowsNoGapIff(records: seq<Stored>, next: Stored)
    requires records != [] ==> records[|records| - 1].intact && records[|records| - 1].seqNo > 0
    requires next.intact && next.seqNo == Recover(records).read + 1
    ensures Recover(records + [next]).gaps == Recover(records).gaps <==>
      records == [] || records[|records| - 1].seqNo == Recover(records).read
  {
    assert (records + [next])[..|records|] == records;
    ReplayKeepsNotes(Noted(Fold(records), next), next.ts, next.entry);
    if records != [] {
      var front, last := records[..|records| - 1], records[|records| - 1];
      ReplayKeepsNotes(Noted(Fold(front), last), last.ts, last.entry);
    }
  }

  /** A failed write in one session makes the next session's first record look like a loss. */
  lemma RestartAfterFailedWrite(first: Stored, third: Stored, next: Stored)
    requires first.intact && third.intact && next.intact
    requires first.seqNo == 1 && third.seqNo == 3 && next.seqNo == Recover([first, third]).read + 1
    ensures next.seqNo == third.seqNo
    ensures Recover([first, third] + [next]).gaps == Recover([first, third]).gaps + 1
  {
    var one, two := [first], [first, third];
    assert one[..0] == [] && two[..1] == one && (two + [next])[..2] == two;
    ReplayKeepsNotes(Noted(Fold([]), first), first.ts, first.entry);
    ReplayKeepsNotes(Noted(Fold(one), third), third.ts, third.entry);
    ReplayKeepsNotes(Noted(Fold(two), next), next.ts, next.entry);
  }
}

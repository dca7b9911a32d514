/** Startup reconciliation: what we recovered against what the venue says, and taking over what agrees. */
module Reconciling {
  import opened Options
  import opened Types
  import opened OmsSpec
  import opened OmsLaws
  import opened OmsRuns

  datatype VenueOrder = VenueOrder(id: nat, venueId: nat, symbol: nat, side: Side, price: int, quantity: int,
                                   filled: int, leaves: int)

  datatype VenuePosition = VenuePosition(symbol: nat, position: int)

  datatype Snapshot = Snapshot(available: bool, orders: seq<VenueOrder>, positions: seq<VenuePosition>)

  datatype Kind = OrphanAtVenue | MissingAtVenue | QuantityMismatch | TermsMismatch | PositionMismatch

  datatype Discrepancy = Discrepancy(kind: Kind, id: nat, symbol: nat, ours: int, theirs: int)

  datatype Findings = Findings(available: bool, ours: nat, theirs: nat, agreed: nat, breaks: seq<Discrepancy>,
                               agreedOpen: seq<VenueOrder>) {
    predicate Clean() {
      available && breaks == []
    }
  }

  // ------------------------------------------------------------ what is found

  /** The first venue order carrying the id; an order without a client id matches nothing. */
  function FirstWith(theirs: seq<VenueOrder>, id: nat): (r: Option<nat>)
    ensures r.Some? ==> r.value < |theirs|
  {
    if theirs == [] || id == 0 then None
    else
      var n := |theirs| - 1;
      match FirstWith(theirs[..n], id)
      case Some(j) => Some(j)
      case None => if theirs[n].id == id then Some(n) else None
  }

  predicate SameTerms(our: Record, vo: VenueOrder) {
    vo.side == our.side && vo.price == our.price && vo.symbol == our.symbol
  }

  /** What one of our working orders leads to. */
  function Verdict(our: Record, theirs: seq<VenueOrder>): Option<Discrepancy> {
    match FirstWith(theirs, our.id)
    case None => Some(Discrepancy(MissingAtVenue, our.id, our.symbol, our.leaves, 0))
    case Some(j) =>
      if !SameTerms(our, theirs[j]) then
        Some(Discrepancy(TermsMismatch, our.id, our.symbol, our.price, theirs[j].price))
      else if theirs[j].leaves != our.leaves then
        Some(Discrepancy(QuantityMismatch, our.id, our.symbol, our.leaves, theirs[j].leaves))
      else None
  }

  function Ours(ours: seq<Record>): seq<Record> {
    if ours == [] then []
    else
      var n := |ours| - 1;
      Ours(ours[..n]) + (if Working(ours[n].state) then [ours[n]] else [])
  }

  function OrderBreaks(ours: seq<Record>, theirs: seq<VenueOrder>): seq<Discrepancy> {
    if ours == [] then []
    else
      var n := |ours| - 1;
      OrderBreaks(ours[..n], theirs) + (match Verdict(ours[n], theirs) case None => [] case Some(d) => [d])
  }

  function AgreedOpen(ours: seq<Record>, theirs: seq<VenueOrder>): seq<VenueOrder> {
    if ours == [] then []
    else
      var n := |ours| - 1;
      AgreedOpen(ours[..n], theirs)
      + (if Verdict(ours[n], theirs).None? && FirstWith(theirs, ours[n].id).Some? then [theirs[FirstWith(theirs, ours[n].id).value]] else [])
  }

  /** The venue orders some order of ours leads to. */
  function Claimed(ours: seq<Record>, theirs: seq<VenueOrder>): set<nat> {
    if ours == [] then {}
    else
      var n := |ours| - 1;
      Claimed(ours[..n], theirs)
      + (match FirstWith(theirs, ours[n].id) case None => {} case Some(j) => {j})
  }

  /** Of the first k venue orders, those nobody claimed. */
  function Orphans(theirs: seq<VenueOrder>, claimed: set<nat>, k: nat): seq<Discrepancy>
    requires k <= |theirs|
  {
    if k == 0 then []
    else
      var before := Orphans(theirs, claimed, k - 1);
      if k - 1 in claimed then before
      else before + [Discrepancy(OrphanAtVenue, theirs[k - 1].id, theirs[k - 1].symbol, 0, theirs[k - 1].leaves)]
  }

  function TheirPosition(positions: seq<VenuePosition>, symbol: nat): int {
    if positions == [] then 0
    else
      var p := positions[|positions| - 1];
      TheirPosition(positions[..|positions| - 1], symbol) + (if p.symbol == symbol then p.position else 0)
  }

  /** Of the first n symbols, those whose positions differ. */
  function PositionBreaks(mine: seq<int>, theirs: seq<VenuePosition>, n: nat): seq<Discrepancy> {
    if n == 0 then []
    else
      var s := n - 1;
      var before := PositionBreaks(mine, theirs, s);
      if At(mine, s) == TheirPosition(theirs, s) then before
      else before + [Discrepancy(PositionMismatch, 0, s, At(mine, s), TheirPosition(theirs, s))]
  }

  /** One past the last symbol either side mentions. */
  function SymbolBound(mine: seq<int>, theirs: seq<VenuePosition>): nat {
    if theirs == [] then |mine|
    else
      var rest := SymbolBound(mine, theirs[..|theirs| - 1]);
      if theirs[|theirs| - 1].symbol < rest then rest else theirs[|theirs| - 1].symbol + 1
  }

  /** reconcile() */
  function Compare(open: seq<Record>, mine: seq<int>, snap: Snapshot): Findings {
    if !snap.available then Findings(false, 0, 0, 0, [], [])
    else
      var ours, claimed := Ours(open), Claimed(Ours(open), snap.orders);
      var agreed := AgreedOpen(ours, snap.orders);
      Findings(true, |ours|, |snap.orders|, |agreed|,
               OrderBreaks(ours, snap.orders) + Orphans(snap.orders, claimed, |snap.orders|)
                 + PositionBreaks(mine, snap.positions, SymbolBound(mine, snap.positions)),
               agreed)
  }

  // ------------------------------------------------------------ laws

  lemma {:induction false} FirstWithIs(theirs: seq<VenueOrder>, id: nat)
    ensures FirstWith(theirs, id).Some? ==>
      var j := FirstWith(theirs, id).value;
      && j < |theirs| && theirs[j].id == id != 0
      && forall i :: 0 <= i < j ==> theirs[i].id != id
    ensures FirstWith(theirs, id).None? && id != 0 ==> forall i :: 0 <= i < |theirs| ==> theirs[i].id != id
  {
    if theirs != [] {
      var front := theirs[..|theirs| - 1];
      FirstWithIs(front, id);
      assert forall i :: 0 <= i < |front| ==> front[i] == theirs[i];
    }
  }

  function CountKind(breaks: seq<Discrepancy>, kind: Kind): nat {
    if breaks == [] then 0
    else CountKind(breaks[..|breaks| - 1], kind) + (if breaks[|breaks| - 1].kind == kind then 1 else 0)
  }

  lemma {:induction false} CountConcat(a: seq<Discrepancy>, b: seq<Discrepancy>, kind: Kind)
    ensures CountKind(a + b, kind) == CountKind(a, kind) + CountKind(b, kind)
  {
    if b == [] {
      assert a + b == a;
    } else {
      assert (a + b)[..|a + b| - 1] == a + b[..|b| - 1];
      CountConcat(a, b[..|b| - 1], kind);
    }
  }

  lemma CountSnoc(b: seq<Discrepancy>, d: Discrepancy, kind: Kind)
    ensures CountKind(b + [d], kind) == CountKind(b, kind) + (if d.kind == kind then 1 else 0)
  {
    assert (b + [d])[..|b|] == b;
  }

  lemma CountAll(b: seq<Discrepancy>, d: Discrepancy)
    ensures forall kind: Kind :: CountKind(b + [d], kind) == CountKind(b, kind) + (if d.kind == kind then 1 else 0)
  {
    forall kind: Kind ensures CountKind(b + [d], kind) == CountKind(b, kind) + (if d.kind == kind then 1 else 0) {
      CountSnoc(b, d, kind);
    }
  }

  ghost predicate DistinctIds(ours: seq<Record>) {
    forall i, j :: 0 <= i < j < |ours| ==> ours[i].id != ours[j].id
  }

  lemma {:induction false} ClaimedBy(ours: seq<Record>, theirs: seq<VenueOrder>, j: nat)
    ensures j in Claimed(ours, theirs) <==> exists i :: 0 <= i < |ours| && FirstWith(theirs, ours[i].id) == Some(j)
    ensures j in Claimed(ours, theirs) ==> j < |theirs|
  {
    if ours != [] {
      var n := |ours| - 1;
      ClaimedBy(ours[..n], theirs, j);
      FirstWithIs(theirs, ours[n].id);
      if i :| 0 <= i < |ours| && FirstWith(theirs, ours[i].id) == Some(j) {
        if i < n {
          assert ours[..n][i] == ours[i];
        }
      }
      if i :| 0 <= i < n && FirstWith(theirs, ours[..n][i].id) == Some(j) {
        assert ours[i] == ours[..n][i];
      }
    }
  }

  /** One more of our orders: agreed, or one break of the right kind, and a claim unless it is missing. */
  lemma OneOrder(ours: seq<Record>, theirs: seq<VenueOrder>)
    requires ours != [] && DistinctIds(ours)
    ensures var front, last := ours[..|ours| - 1], ours[|ours| - 1];
      match Verdict(last, theirs)
      case None =>
        && |AgreedOpen(ours, theirs)| == |AgreedOpen(front, theirs)| + 1
        && OrderBreaks(ours, theirs) == OrderBreaks(front, theirs)
        && |Claimed(ours, theirs)| == |Claimed(front, theirs)| + 1
      case Some(d) =>
        && AgreedOpen(ours, theirs) == AgreedOpen(front, theirs)
        && OrderBreaks(ours, theirs) == OrderBreaks(front, theirs) + [d]
        && d.kind != OrphanAtVenue && d.kind != PositionMismatch
        && |Claimed(ours, theirs)| == |Claimed(front, theirs)| + (if d.kind == MissingAtVenue then 0 else 1)
  {
    var last := ours[|ours| - 1];
    FirstWithIs(theirs, last.id);
    if FirstWith(theirs, last.id).Some? {
      FreshClaim(ours, theirs);
    }
  }

  /** Each of our orders is agreed, missing, or broken in terms or in quantity, and each that is not missing
      claims a venue order of its own. */
  lemma {:induction false} OrderCounts(ours: seq<Record>, theirs: seq<VenueOrder>)
    requires DistinctIds(ours)
    ensures var b := OrderBreaks(ours, theirs);
      && |ours| == |AgreedOpen(ours, theirs)| + CountKind(b, MissingAtVenue) + CountKind(b, TermsMismatch)
                   + CountKind(b, QuantityMismatch)
      && |Claimed(ours, theirs)| == |ours| - CountKind(b, MissingAtVenue)
      && CountKind(b, OrphanAtVenue) == 0
  {
    if ours != [] {
      var front, last := ours[..|ours| - 1], ours[|ours| - 1];
      OrderCounts(front, theirs);
      OneOrder(ours, theirs);
      if Verdict(last, theirs).Some? {
        CountAll(OrderBreaks(front, theirs), Verdict(last, theirs).value);
      }
    }
  }

  lemma FreshClaim(ours: seq<Record>, theirs: seq<VenueOrder>)
    requires ours != [] && DistinctIds(ours) && FirstWith(theirs, ours[|ours| - 1].id).Some?
    ensures FirstWith(theirs, ours[|ours| - 1].id).value !in Claimed(ours[..|ours| - 1], theirs)
  {
    var n := |ours| - 1;
    var j := FirstWith(theirs, ours[n].id).value;
    ClaimedBy(ours[..n], theirs, j);
    FirstWithIs(theirs, ours[n].id);
    if i :| 0 <= i < n && FirstWith(theirs, ours[..n][i].id) == Some(j) {
      FirstWithIs(theirs, ours[i].id);
      assert false;
    }
  }

  ghost function Below(claimed: set<nat>, k: nat): set<nat> {
    set j | j in claimed && j < k
  }

  lemma BelowNext(claimed: set<nat>, k: nat)
    ensures |Below(claimed, k + 1)| == |Below(claimed, k)| + (if k in claimed then 1 else 0)
  {
    if k in claimed {
      assert Below(claimed, k + 1) == Below(claimed, k) + {k};
    } else {
      assert Below(claimed, k + 1) == Below(claimed, k);
    }
  }

  lemma {:induction false} OrphanCounts(theirs: seq<VenueOrder>, claimed: set<nat>, k: nat)
    requires k <= |theirs|
    ensures var o := Orphans(theirs, claimed, k);
      && |o| == k - |Below(claimed, k)| == CountKind(o, OrphanAtVenue)
      && CountKind(o, MissingAtVenue) == 0 && CountKind(o, TermsMismatch) == 0 && CountKind(o, QuantityMismatch) == 0
  {
    if k == 0 {
      assert Below(claimed, 0) == {};
    } else {
      OrphanCounts(theirs, claimed, k - 1);
      BelowNext(claimed, k - 1);
      if k - 1 !in claimed {
        CountAll(Orphans(theirs, claimed, k - 1),
                 Discrepancy(OrphanAtVenue, theirs[k - 1].id, theirs[k - 1].symbol, 0, theirs[k - 1].leaves));
      }
    }
  }

  lemma {:induction false} PositionCounts(mine: seq<int>, theirs: seq<VenuePosition>, n: nat)
    ensures var b := PositionBreaks(mine, theirs, n);
      && CountKind(b, OrphanAtVenue) == 0 && CountKind(b, MissingAtVenue) == 0
      && CountKind(b, TermsMismatch) == 0 && CountKind(b, QuantityMismatch) == 0
  {
    if n > 0 {
      PositionCounts(mine, theirs, n - 1);
      if At(mine, n - 1) != TheirPosition(theirs, n - 1) {
        CountAll(PositionBreaks(mine, theirs, n - 1),
                 Discrepancy(PositionMismatch, 0, n - 1, At(mine, n - 1), TheirPosition(theirs, n - 1)));
      }
    }
  }

  lemma {:induction false} NoPositionBreaks(mine: seq<int>, theirs: seq<VenuePosition>, n: nat)
    ensures PositionBreaks(mine, theirs, n) == [] <==> forall s: nat :: s < n ==> At(mine, s) == TheirPosition(theirs, s)
  {
    if n > 0 {
      NoPositionBreaks(mine, theirs, n - 1);
    }
  }

  /** ours = agreed + missing + terms + quantity breaks, and theirs = agreed + terms + quantity breaks + orphans. */
  lemma CountsAddUp(open: seq<Record>, mine: seq<int>, snap: Snapshot)
    requires snap.available && DistinctIds(Ours(open))
    ensures var f := Compare(open, mine, snap);
      && f.ours == f.agreed + CountKind(f.breaks, MissingAtVenue) + CountKind(f.breaks, TermsMismatch)
                   + CountKind(f.breaks, QuantityMismatch)
      && f.theirs == f.agreed + CountKind(f.breaks, TermsMismatch) + CountKind(f.breaks, QuantityMismatch)
                     + CountKind(f.breaks, OrphanAtVenue)
  {
    var ours := Ours(open);
    var a, claimed := OrderBreaks(ours, snap.orders), Claimed(ours, snap.orders);
    var b := Orphans(snap.orders, claimed, |snap.orders|);
    var n := SymbolBound(mine, snap.positions);
    var c := PositionBreaks(mine, snap.positions, n);
    OrderCounts(ours, snap.orders);
    OrphanCounts(snap.orders, claimed, |snap.orders|);
    PositionCounts(mine, snap.positions, n);
    forall kind: Kind ensures CountKind(a + b + c, kind) == CountKind(a, kind) + CountKind(b, kind) + CountKind(c, kind) {
      CountConcat(a + b, c, kind);
      CountConcat(a, b, kind);
    }
    forall j | j in claimed ensures j < |snap.orders| {
      ClaimedBy(ours, snap.orders, j);
    }
    assert Below(claimed, |snap.orders|) == claimed;
  }

  /** The same order on both sides: id, terms and what is left of it. */
  predicate Agree(our: Record, vo: VenueOrder) {
    our.id == vo.id != 0 && SameTerms(our, vo) && vo.leaves == our.leaves
  }

  ghost predicate HeldThere(our: Record, theirs: seq<VenueOrder>) {
    exists j {:trigger theirs[j]} :: 0 <= j < |theirs| && Agree(our, theirs[j])
  }

  ghost predicate HeldHere(vo: VenueOrder, ours: seq<Record>) {
    exists i {:trigger ours[i]} :: 0 <= i < |ours| && Agree(ours[i], vo)
  }

  /** Our orders and the venue's are the same orders, each once. */
  ghost predicate OneToOne(ours: seq<Record>, theirs: seq<VenueOrder>) {
    && (forall i {:trigger HeldThere(ours[i], theirs)} :: 0 <= i < |ours| ==> HeldThere(ours[i], theirs))
    && (forall j {:trigger HeldHere(theirs[j], ours)} :: 0 <= j < |theirs| ==> HeldHere(theirs[j], ours))
    && (forall i, j {:trigger theirs[i], theirs[j]} :: 0 <= i < j < |theirs| ==> theirs[i].id != theirs[j].id)
  }

  lemma {:induction false} NoOrderBreaks(ours: seq<Record>, theirs: seq<VenueOrder>)
    ensures OrderBreaks(ours, theirs) == [] <==> forall i :: 0 <= i < |ours| ==> Verdict(ours[i], theirs).None?
  {
    if ours != [] {
      var n := |ours| - 1;
      NoOrderBreaks(ours[..n], theirs);
      assert forall i :: 0 <= i < n ==> ours[..n][i] == ours[i];
    }
  }

  lemma {:induction false} NoOrphans(theirs: seq<VenueOrder>, claimed: set<nat>, k: nat)
    requires k <= |theirs|
    ensures Orphans(theirs, claimed, k) == [] <==> forall j: nat :: j < k ==> j in claimed
  {
    if k > 0 {
      NoOrphans(theirs, claimed, k - 1);
    }
  }

  lemma AgreedIs(our: Record, theirs: seq<VenueOrder>)
    ensures Verdict(our, theirs).None? <==>
      FirstWith(theirs, our.id).Some? && Agree(our, theirs[FirstWith(theirs, our.id).value])
  {
    FirstWithIs(theirs, our.id);
  }

  /** No order break and no orphan is exactly a one-to-one match. */
  lemma OrdersMatchIff(ours: seq<Record>, theirs: seq<VenueOrder>)
    requires DistinctIds(ours)
    ensures OrderBreaks(ours, theirs) == [] && Orphans(theirs, Claimed(ours, theirs), |theirs|) == []
      <==> OneToOne(ours, theirs)
  {
    NoOrderBreaks(ours, theirs);
    NoOrphans(theirs, Claimed(ours, theirs), |theirs|);
    if OneToOne(ours, theirs) {
      MatchedAgree(ours, theirs);
      MatchedClaimed(ours, theirs);
    }
    if OrderBreaks(ours, theirs) == [] && Orphans(theirs, Claimed(ours, theirs), |theirs|) == [] {
      CleanMatches(ours, theirs);
    }
  }

  lemma MatchedAgree(ours: seq<Record>, theirs: seq<VenueOrder>)
    requires OneToOne(ours, theirs)
    ensures forall i :: 0 <= i < |ours| ==> Verdict(ours[i], theirs).None?
  {
    forall i | 0 <= i < |ours| ensures Verdict(ours[i], theirs).None? {
      assert HeldThere(ours[i], theirs);
      var j :| 0 <= j < |theirs| && Agree(ours[i], theirs[j]);
      FoundAt(theirs, j);
    }
  }

  /** With distinct ids, looking an id up finds the order that carries it. */
  lemma FoundAt(theirs: seq<VenueOrder>, j: nat)
    requires j < |theirs| && theirs[j].id != 0
    requires forall i, k {:trigger theirs[i], theirs[k]} :: 0 <= i < k < |theirs| ==> theirs[i].id != theirs[k].id
    ensures FirstWith(theirs, theirs[j].id) == Some(j)
  {
    FirstWithIs(theirs, theirs[j].id);
  }

  lemma MatchedClaimed(ours: seq<Record>, theirs: seq<VenueOrder>)
    requires OneToOne(ours, theirs)
    ensures forall j: nat :: j < |theirs| ==> j in Claimed(ours, theirs)
  {
    forall j: nat | j < |theirs| ensures j in Claimed(ours, theirs) {
      assert HeldHere(theirs[j], ours);
      var i :| 0 <= i < |ours| && Agree(ours[i], theirs[j]);
      FoundAt(theirs, j);
      ClaimedBy(ours, theirs, j);
    }
  }

  lemma Holder(ours: seq<Record>, theirs: seq<VenueOrder>, j: nat) returns (i: nat)
    requires forall i :: 0 <= i < |ours| ==> Verdict(ours[i], theirs).None?
    requires j in Claimed(ours, theirs) && j < |theirs|
    ensures i < |ours| && Agree(ours[i], theirs[j]) && FirstWith(theirs, ours[i].id) == Some(j)
  {
    ClaimedBy(ours, theirs, j);
    var k :| 0 <= k < |ours| && FirstWith(theirs, ours[k].id) == Some(j);
    AgreedIs(ours[k], theirs);
    return k;
  }

  lemma CleanMatches(ours: seq<Record>, theirs: seq<VenueOrder>)
    requires forall i :: 0 <= i < |ours| ==> Verdict(ours[i], theirs).None?
    requires forall j: nat :: j < |theirs| ==> j in Claimed(ours, theirs)
    ensures OneToOne(ours, theirs)
  {
    forall i | 0 <= i < |ours| ensures HeldThere(ours[i], theirs) {
      AgreedIs(ours[i], theirs);
      assert Agree(ours[i], theirs[FirstWith(theirs, ours[i].id).value]);
    }
    forall j: nat | j < |theirs| ensures HeldHere(theirs[j], ours) {
      var i := Holder(ours, theirs, j);
    }
    forall i: nat, j: nat {:trigger theirs[i], theirs[j]} | i < j < |theirs| ensures theirs[i].id != theirs[j].id {
      var k := Holder(ours, theirs, j);
      FirstWithIs(theirs, ours[k].id);
    }
  }

  lemma {:induction false} BeyondBound(mine: seq<int>, theirs: seq<VenuePosition>, s: nat)
    requires s >= SymbolBound(mine, theirs)
    ensures s >= |mine| && TheirPosition(theirs, s) == 0
  {
    if theirs != [] {
      BeyondBound(mine, theirs[..|theirs| - 1], s);
    }
  }

  /** A report is clean exactly when the venue could be asked, our working orders and its orders match
      one-to-one on id, terms and leaves, and every symbol's positions agree. */
  lemma CleanIff(open: seq<Record>, mine: seq<int>, snap: Snapshot)
    requires DistinctIds(Ours(open))
    ensures Compare(open, mine, snap).Clean() <==>
      && snap.available && OneToOne(Ours(open), snap.orders)
      && forall s: nat :: At(mine, s) == TheirPosition(snap.positions, s)
  {
    if snap.available {
      OrdersMatchIff(Ours(open), snap.orders);
      var n := SymbolBound(mine, snap.positions);
      NoPositionBreaks(mine, snap.positions, n);
      forall s: nat | s >= n ensures At(mine, s) == TheirPosition(snap.positions, s) {
        BeyondBound(mine, snap.positions, s);
      }
    }
  }

  // ------------------------------------------------------------ as the program computes it

  /** The index of the venue's orders by our id: the first order to carry an id keeps it. */
  method IndexById(theirs: seq<VenueOrder>) returns (byId: map<nat, nat>)
    ensures forall id: nat :: FirstWith(theirs, id) == if id in byId then Some(byId[id]) else None
  {
    byId := map[];
    for j := 0 to |theirs|
      invariant forall id: nat :: FirstWith(theirs[..j], id) == if id in byId then Some(byId[id]) else None
    {
      assert theirs[..j + 1][..j] == theirs[..j];
      var id := theirs[j].id;
      if id != 0 && id !in byId {
        byId := byId[id := j];
      }
    }
    assert theirs[..|theirs|] == theirs;
  }

  lemma OursNext(open: seq<Record>, i: nat)
    requires i < |open|
    ensures Ours(open[..i + 1]) == if Working(open[i].state) then Ours(open[..i]) + [open[i]] else Ours(open[..i])
  {
    assert open[..i + 1][..i] == open[..i];
  }

  /** What one more of our working orders adds to the report. */
  lemma MatchNext(ours: seq<Record>, our: Record, theirs: seq<VenueOrder>)
    ensures var more := ours + [our];
      && OrderBreaks(more, theirs) ==
           OrderBreaks(ours, theirs) + (match Verdict(our, theirs) case None => [] case Some(d) => [d])
      && Claimed(more, theirs) ==
           Claimed(ours, theirs) + (match FirstWith(theirs, our.id) case None => {} case Some(j) => {j})
      && AgreedOpen(more, theirs) == AgreedOpen(ours, theirs)
           + (if Verdict(our, theirs).None? && FirstWith(theirs, our.id).Some?
              then [theirs[FirstWith(theirs, our.id).value]] else [])
  {
    assert (ours + [our])[..|ours|] == ours;
  }

  /** One of our working orders, matched against the venue's. */
  method MatchOne(our: Record, theirs: seq<VenueOrder>, byId: map<nat, nat>)
    returns (claim: Option<nat>, found: Option<Discrepancy>, agreed: Option<VenueOrder>)
    requires forall id: nat :: FirstWith(theirs, id) == if id in byId then Some(byId[id]) else None
    ensures claim == FirstWith(theirs, our.id) && found == Verdict(our, theirs)
    ensures agreed == if found.None? && claim.Some? then Some(theirs[claim.value]) else None
  {
    assert FirstWith(theirs, our.id) == if our.id in byId then Some(byId[our.id]) else None;
    if our.id !in byId {
      return None, Some(Discrepancy(MissingAtVenue, our.id, our.symbol, our.leaves, 0)), None;
    }
    var vo := theirs[byId[our.id]];
    claim := Some(byId[our.id]);
    if vo.side != our.side || vo.price != our.price || vo.symbol != our.symbol {
      return claim, Some(Discrepancy(TermsMismatch, our.id, our.symbol, our.price, vo.price)), None;
    }
    if vo.leaves != our.leaves {
      return claim, Some(Discrepancy(QuantityMismatch, our.id, our.symbol, our.leaves, vo.leaves)), None;
    }
    return claim, None, Some(vo);
  }

  /** What has been found of our working orders so far. */
  ghost predicate Matched(ours: seq<Record>, theirs: seq<VenueOrder>, breaks: seq<Discrepancy>,
                          agreed: seq<VenueOrder>, claimed: set<nat>) {
    && breaks == OrderBreaks(ours, theirs) && agreed == AgreedOpen(ours, theirs) && claimed == Claimed(ours, theirs)
  }

  /** One more of them. */
  method MatchMore(our: Record, theirs: seq<VenueOrder>, byId: map<nat, nat>, ghost ours: seq<Record>,
                   breaks: seq<Discrepancy>, agreed: seq<VenueOrder>, claimed: set<nat>)
    returns (breaks': seq<Discrepancy>, agreed': seq<VenueOrder>, claimed': set<nat>)
    requires forall id: nat :: FirstWith(theirs, id) == if id in byId then Some(byId[id]) else None
    requires Matched(ours, theirs, breaks, agreed, claimed)
    ensures Matched(ours + [our], theirs, breaks', agreed', claimed')
  {
    breaks', agreed', claimed' := breaks, agreed, claimed;
    MatchNext(ours, our, theirs);
    var claim, found, agree := MatchOne(our, theirs, byId);
    if claim.Some? {
      claimed' := claimed' + {claim.value};
    }
    if found.Some? {
      breaks' := breaks' + [found.value];
    }
    if agree.Some? {
      agreed' := agreed' + [agree.value];
    }
  }

  method MatchOrders(open: seq<Record>, theirs: seq<VenueOrder>)
    returns (n: nat, breaks: seq<Discrepancy>, agreed: seq<VenueOrder>, claimed: set<nat>)
    ensures n == |Ours(open)| && breaks == OrderBreaks(Ours(open), theirs)
    ensures agreed == AgreedOpen(Ours(open), theirs) && claimed == Claimed(Ours(open), theirs)
  {
    var byId := IndexById(theirs);
    n, breaks, agreed, claimed := 0, [], [], {};
    for i := 0 to |open|
      invariant n == |Ours(open[..i])| && Matched(Ours(open[..i]), theirs, breaks, agreed, claimed)
    {
      OursNext(open, i);
      if Working(open[i].state) {
        n := n + 1;
        breaks, agreed, claimed := MatchMore(open[i], theirs, byId, Ours(open[..i]), breaks, agreed, claimed);
      }
    }
    assert open[..|open|] == open;
  }

  method FindOrphans(theirs: seq<VenueOrder>, claimed: set<nat>) returns (breaks: seq<Discrepancy>)
    ensures breaks == Orphans(theirs, claimed, |theirs|)
  {
    breaks := [];
    for j := 0 to |theirs|
      invariant breaks == Orphans(theirs, claimed, j)
    {
      if j !in claimed {
        breaks := breaks + [Discrepancy(OrphanAtVenue, theirs[j].id, theirs[j].symbol, 0, theirs[j].leaves)];
      }
    }
  }

  function Held(held: map<nat, int>, s: nat): int {
    if s in held then held[s] else 0
  }

  /** The venue's positions added up by symbol. */
  method SumPositions(theirs: seq<VenuePosition>) returns (held: map<nat, int>, bound: nat)
    ensures forall s: nat :: Held(held, s) == TheirPosition(theirs, s)
    ensures bound == SymbolBound([], theirs)
  {
    held, bound := map[], 0;
    for i := 0 to |theirs|
      invariant forall s: nat :: Held(held, s) == TheirPosition(theirs[..i], s)
      invariant bound == SymbolBound([], theirs[..i])
    {
      assert theirs[..i + 1][..i] == theirs[..i];
      var p := theirs[i];
      held := held[p.symbol := Held(held, p.symbol) + p.position];
      bound := if p.symbol < bound then bound else p.symbol + 1;
    }
    assert theirs[..|theirs|] == theirs;
  }

  lemma {:induction false} BoundIsLarger(mine: seq<int>, theirs: seq<VenuePosition>)
    ensures SymbolBound(mine, theirs) == Max(|mine|, SymbolBound([], theirs))
  {
    if theirs != [] {
      BoundIsLarger(mine, theirs[..|theirs| - 1]);
    }
  }

  /** Every symbol either side holds, in order. */
  method ComparePositions(mine: seq<int>, theirs: seq<VenuePosition>) returns (breaks: seq<Discrepancy>)
    ensures breaks == PositionBreaks(mine, theirs, SymbolBound(mine, theirs))
  {
    BoundIsLarger(mine, theirs);
    var held, bound := SumPositions(theirs);
    bound := Max(|mine|, bound);
    breaks := [];
    for s := 0 to bound
      invariant breaks == PositionBreaks(mine, theirs, s)
    {
      assert Held(held, s) == TheirPosition(theirs, s);
      if At(mine, s) != 0 || Held(held, s) != 0 {
        if At(mine, s) != Held(held, s) {
          breaks := breaks + [Discrepancy(PositionMismatch, 0, s, At(mine, s), Held(held, s))];
        }
      }
    }
  }

  /** reconcile() */
  method Reconcile(open: seq<Record>, mine: seq<int>, snap: Snapshot) returns (f: Findings)
    ensures f == Compare(open, mine, snap)
  {
    if !snap.available {
      return Findings(false, 0, 0, 0, [], []);
    }
    var n, breaks, agreed, claimed := MatchOrders(open, snap.orders);
    var orphans := FindOrphans(snap.orders, claimed);
    var positions := ComparePositions(mine, snap.positions);
    return Findings(true, n, |snap.orders|, |agreed|, breaks + orphans + positions, agreed);
  }

  // ------------------------------------------------------------ taking over what agrees

  /** The snapshot a restart adopts for an agreed order. */
  function SnapshotOf(vo: VenueOrder): Record {
    Record(vo.id, vo.venueId, vo.symbol, vo.side, Limit, vo.price, vo.quantity, vo.filled, vo.leaves, 0.0, 0.0,
           if vo.filled > 0 then PartiallyFilled else New, 0, 0, 0)
  }

  function AdoptAll(s: Oms, orders: seq<VenueOrder>, now: int): Oms {
    if orders == [] then s
    else Adopt(AdoptAll(s, orders[..|orders| - 1], now), SnapshotOf(orders[|orders| - 1]), now).oms
  }

  function VenueLeaves(orders: seq<VenueOrder>, y: nat, z: Side): int {
    if orders == [] then 0
    else
      var vo := orders[|orders| - 1];
      VenueLeaves(orders[..|orders| - 1], y, z) + (if vo.symbol == y && vo.side == z then vo.leaves else 0)
  }

  /** Orders a manager has room for and does not know yet. */
  ghost predicate Adoptable(s: Oms, orders: seq<VenueOrder>) {
    && Tracked(s) && Exposed(s.exposures, s.orders) && s.open + |orders| <= s.config.maxOpen
    && (forall i {:trigger orders[i]} :: 0 <= i < |orders| ==>
          orders[i].id != 0 && orders[i].id !in s.orders && 0 <= orders[i].leaves <= orders[i].quantity
          && orders[i].quantity > 0)
    && (forall i, j {:trigger orders[i], orders[j]} :: 0 <= i < j < |orders| ==> orders[i].id != orders[j].id)
  }

  ghost function IdsOf(orders: seq<VenueOrder>): set<nat> {
    set vo | vo in orders :: vo.id
  }

  /** The orders before the last one can be adopted too, and the last one is none of them. */
  lemma AdoptableFront(s: Oms, orders: seq<VenueOrder>)
    requires Adoptable(s, orders) && orders != []
    ensures var front, vo := orders[..|orders| - 1], orders[|orders| - 1];
      && Adoptable(s, front) && IdsOf(orders) == IdsOf(front) + {vo.id}
      && vo.id != 0 && vo.id !in s.orders.Keys + IdsOf(front)
      && 0 <= vo.leaves <= vo.quantity && vo.quantity > 0
  {
    var front, vo := orders[..|orders| - 1], orders[|orders| - 1];
    assert forall i {:trigger front[i]} :: 0 <= i < |front| ==> front[i] == orders[i];
    assert orders == front + [vo];
    forall id ensures id in IdsOf(orders) <==> id in IdsOf(front) + {vo.id} {
    }
  }

  /** Adopting them all books exactly what the venue says is left of each. */
  lemma {:induction false} AdoptsAll(s: Oms, orders: seq<VenueOrder>, now: int, y: nat, z: Side)
    requires Adoptable(s, orders)
    ensures var s' := AdoptAll(s, orders, now);
      && Tracked(s') && Exposed(s'.exposures, s'.orders) && s'.config == s.config
      && s'.open == s.open + |orders| && s'.orders.Keys == s.orders.Keys + IdsOf(orders)
      && s'.exposures.Booked(y, z) == s.exposures.Booked(y, z) + VenueLeaves(orders, y, z)
  {
    if orders != [] {
      var front, vo := orders[..|orders| - 1], orders[|orders| - 1];
      AdoptableFront(s, orders);
      AdoptsAll(s, front, now, y, z);
      AdoptsOne(AdoptAll(s, front, now), vo, now, y, z);
    }
  }

  lemma AdoptsOne(s: Oms, vo: VenueOrder, now: int, y: nat, z: Side)
    requires Tracked(s) && Exposed(s.exposures, s.orders) && s.open < s.config.maxOpen
    requires vo.id != 0 && vo.id !in s.orders && 0 <= vo.leaves <= vo.quantity && vo.quantity > 0
    ensures var s' := Adopt(s, SnapshotOf(vo), now).oms;
      && Tracked(s') && Exposed(s'.exposures, s'.orders) && s'.config == s.config && s'.open == s.open + 1
      && s'.orders.Keys == s.orders.Keys + {vo.id}
      && s'.exposures.Booked(y, z) ==
           s.exposures.Booked(y, z) + (if vo.symbol == y && vo.side == z then vo.leaves else 0)
  {
    var snapshot := SnapshotOf(vo);
    AdoptTracked(s, snapshot, now);
    AdoptExposed(s, snapshot, now);
    AdoptBooks(s, snapshot, now);
    var s' := Adopt(s, snapshot, now).oms;
    LeavesSet(s.orders, vo.id, AdoptedRecord(snapshot, now), y, z);
    assert AddsUp(s.exposures, s.orders, y, z, 0) && AddsUp(s'.exposures, s'.orders, y, z, 0);
  }

  /** The leaves of the venue orders in a set, of the first k. */
  ghost function LeavesOver(theirs: seq<VenueOrder>, which: set<nat>, k: nat, y: nat, z: Side): int
    requires k <= |theirs|
  {
    if k == 0 then 0
    else
      LeavesOver(theirs, which, k - 1, y, z)
      + (if k - 1 in which && theirs[k - 1].symbol == y && theirs[k - 1].side == z then theirs[k - 1].leaves else 0)
  }

  lemma {:induction false} LeavesOverMore(theirs: seq<VenueOrder>, which: set<nat>, j: nat, k: nat, y: nat, z: Side)
    requires k <= |theirs| && j < |theirs| && j !in which
    ensures LeavesOver(theirs, which + {j}, k, y, z) == LeavesOver(theirs, which, k, y, z)
      + (if j < k && theirs[j].symbol == y && theirs[j].side == z then theirs[j].leaves else 0)
  {
    if k > 0 {
      LeavesOverMore(theirs, which, j, k - 1, y, z);
    }
  }

  lemma {:induction false} LeavesOverNone(theirs: seq<VenueOrder>, k: nat, y: nat, z: Side)
    requires k <= |theirs|
    ensures LeavesOver(theirs, {}, k, y, z) == 0
  {
    if k > 0 {
      LeavesOverNone(theirs, k - 1, y, z);
    }
  }

  lemma {:induction false} LeavesOverAll(theirs: seq<VenueOrder>, which: set<nat>, k: nat, y: nat, z: Side)
    requires k <= |theirs| && forall j: nat :: j < k ==> j in which
    ensures LeavesOver(theirs, which, k, y, z) == VenueLeaves(theirs[..k], y, z)
  {
    if k > 0 {
      assert theirs[..k][..k - 1] == theirs[..k - 1];
      LeavesOverAll(theirs, which, k - 1, y, z);
    }
  }

  /** When every order of ours agrees, the agreed orders are ours, one for one, and their leaves are those of
      the venue orders ours claim. */
  lemma {:induction false} AgreedAre(ours: seq<Record>, theirs: seq<VenueOrder>, y: nat, z: Side)
    requires DistinctIds(ours) && forall i :: 0 <= i < |ours| ==> Verdict(ours[i], theirs).None?
    ensures var agreed := AgreedOpen(ours, theirs);
      && |agreed| == |ours|
      && (forall i :: 0 <= i < |ours| ==> agreed[i] in theirs && agreed[i].id == ours[i].id != 0)
      && VenueLeaves(agreed, y, z) == LeavesOver(theirs, Claimed(ours, theirs), |theirs|, y, z)
  {
    if ours == [] {
      LeavesOverNone(theirs, |theirs|, y, z);
    } else {
      var front, last := ours[..|ours| - 1], ours[|ours| - 1];
      assert forall i :: 0 <= i < |front| ==> front[i] == ours[i];
      AgreedAre(front, theirs, y, z);
      AgreedIs(last, theirs);
      FreshClaim(ours, theirs);
      var j := FirstWith(theirs, last.id).value;
      LeavesOverMore(theirs, Claimed(front, theirs), j, |theirs|, y, z);
      var agreed := AgreedOpen(ours, theirs);
      assert agreed == AgreedOpen(front, theirs) + [theirs[j]];
      assert agreed[..|front|] == AgreedOpen(front, theirs);
    }
  }

  /** A clean report's agreed orders are our working orders, in our order, and leave what the venue's leave. */
  lemma CleanAgreed(open: seq<Record>, mine: seq<int>, snap: Snapshot, y: nat, z: Side)
    requires DistinctIds(Ours(open)) && Compare(open, mine, snap).Clean()
    ensures var agreed := Compare(open, mine, snap).agreedOpen;
      && |agreed| == |Ours(open)| == |snap.orders|
      && (forall i {:trigger agreed[i]} :: 0 <= i < |agreed| ==>
            agreed[i] in snap.orders && agreed[i].id == Ours(open)[i].id != 0)
      && VenueLeaves(agreed, y, z) == VenueLeaves(snap.orders, y, z)
  {
    var ours := Ours(open);
    CleanIff(open, mine, snap);
    CountsAddUp(open, mine, snap);
    MatchedAgree(ours, snap.orders);
    MatchedClaimed(ours, snap.orders);
    AgreedAre(ours, snap.orders, y, z);
    LeavesOverAll(snap.orders, Claimed(ours, snap.orders), |snap.orders|, y, z);
    assert snap.orders[..|snap.orders|] == snap.orders;
  }

  /** Adopting the agreed orders of a clean report into a manager with nothing tracked makes its working
      quantity on every side of every symbol the venue's own leaves. */
  lemma AdoptingCleanReport(s: Oms, open: seq<Record>, mine: seq<int>, snap: Snapshot, now: int, y: nat, z: Side)
    requires Tracked(s) && Exposed(s.exposures, s.orders) && s.orders == map[] && s.open == 0
    requires DistinctIds(Ours(open)) && Compare(open, mine, snap).Clean()
    requires |snap.orders| <= s.config.maxOpen
    requires forall vo :: vo in snap.orders ==> 0 <= vo.leaves <= vo.quantity && vo.quantity > 0
    ensures var s' := AdoptAll(s, Compare(open, mine, snap).agreedOpen, now);
      s'.open == |snap.orders| && s'.exposures.Booked(y, z) == VenueLeaves(snap.orders, y, z)
  {
    var agreed := Compare(open, mine, snap).agreedOpen;
    CleanAgreed(open, mine, snap, y, z);
    AdoptsAll(s, agreed, now, y, z);
    NoLeavesYet(s, y, z);
  }

  lemma NoLeavesYet(s: Oms, y: nat, z: Side)
    requires Exposed(s.exposures, s.orders) && s.orders == map[]
    ensures s.exposures.Booked(y, z) == 0
  {
    assert AddsUp(s.exposures, s.orders, y, z, 0);
  }
}

/** From price levels to one queue in priority order. */
module BookFlat {
  import opened Types
  import opened BookSpec

  /** One side's levels, lowest price first, joined into price-time priority:
      asks from the lowest level up, bids from the highest level down. */
  function Flat(side: Side, levels: seq<seq<Resting>>): seq<Resting> {
    if levels == [] then []
    else if side.Sell? then levels[0] + Flat(side, levels[1..])
    else Flat(side, levels[1..]) + levels[0]
  }

  /** The levels that rank before, and after, level idx. */
  function AheadOf(side: Side, levels: seq<seq<Resting>>, idx: nat): seq<Resting>
    requires idx < |levels|
  {
    if side.Sell? then Flat(side, levels[..idx]) else Flat(side, levels[idx + 1..])
  }

  function BehindOf(side: Side, levels: seq<seq<Resting>>, idx: nat): seq<Resting>
    requires idx < |levels|
  {
    if side.Sell? then Flat(side, levels[idx + 1..]) else Flat(side, levels[..idx])
  }

  lemma {:induction false} FlatSplit(side: Side, levels: seq<seq<Resting>>, idx: nat)
    requires idx < |levels|
    ensures Flat(side, levels) == AheadOf(side, levels, idx) + levels[idx] + BehindOf(side, levels, idx)
  {
    var tail := levels[1..];
    if idx == 0 {
      assert levels[..0] == [];
    } else {
      FlatSplit(side, tail, idx - 1);
      assert tail[..idx - 1] == levels[..idx][1..] && tail[idx..] == levels[idx + 1..];
      var before, after := AheadOf(side, tail, idx - 1), BehindOf(side, tail, idx - 1);
      Regroup(levels[0], before, levels[idx], after);
    }
  }

  lemma Regroup<T>(x: seq<T>, a: seq<T>, b: seq<T>, c: seq<T>)
    ensures x + (a + b + c) == (x + a) + b + c
    ensures (a + b + c) + x == a + b + (c + x)
  {
  }

  /** Changing one level changes the queue in one place. */
  lemma FlatUpdate(side: Side, levels: seq<seq<Resting>>, idx: nat, level: seq<Resting>)
    requires idx < |levels|
    ensures Flat(side, levels[idx := level]) ==
      AheadOf(side, levels, idx) + level + BehindOf(side, levels, idx)
    ensures AheadOf(side, levels[idx := level], idx) == AheadOf(side, levels, idx)
  {
    var levels' := levels[idx := level];
    FlatSplit(side, levels', idx);
    assert levels'[..idx] == levels[..idx] && levels'[idx + 1..] == levels[idx + 1..];
  }

  lemma {:induction false} FlatEmpty(side: Side, levels: seq<seq<Resting>>)
    requires forall i :: 0 <= i < |levels| ==> levels[i] == []
    ensures Flat(side, levels) == []
  {
    if levels != [] {
      FlatEmpty(side, levels[1..]);
    }
  }

  /** The joined queue holds exactly the orders of the levels. */
  lemma {:induction false} FlatMember(side: Side, levels: seq<seq<Resting>>, x: Resting)
    ensures x in Flat(side, levels) <==> exists i :: 0 <= i < |levels| && x in levels[i]
  {
    if levels != [] {
      FlatMember(side, levels[1..], x);
      if x in levels[0] {
      } else if i :| 0 <= i < |levels| && x in levels[i] {
        assert x in levels[1..][i - 1];
      }
      if j :| 0 <= j < |levels[1..]| && x in levels[1..][j] {
        assert x in levels[j + 1];
      }
    }
  }

  /** When everything better is gone, the head of the level is the head of the queue. */
  lemma BestLevel(side: Side, levels: seq<seq<Resting>>, idx: nat)
    requires idx < |levels|
    requires forall i :: (if side.Sell? then 0 <= i < idx else idx < i < |levels|) ==> levels[i] == []
    ensures AheadOf(side, levels, idx) == []
  {
    if side.Sell? {
      FlatEmpty(side, levels[..idx]);
    } else {
      FlatEmpty(side, levels[idx + 1..]);
    }
  }

  /** Replacing the head level's orders replaces the head of the queue. */
  lemma BestLevelHead(side: Side, levels: seq<seq<Resting>>, idx: nat, level: seq<Resting>)
    requires idx < |levels| && AheadOf(side, levels, idx) == [] && levels[idx] != []
    ensures Flat(side, levels) != [] && Flat(side, levels)[0] == levels[idx][0]
    ensures level == levels[idx][1..] ==> Flat(side, levels[idx := level]) == Flat(side, levels)[1..]
    ensures level != [] && level == levels[idx][0 := level[0]] ==>
      Flat(side, levels[idx := level]) == Flat(side, levels)[0 := level[0]]
    ensures AheadOf(side, levels[idx := level], idx) == []
  {
    FlatSplit(side, levels, idx);
    FlatUpdate(side, levels, idx, level);
    var rest := BehindOf(side, levels, idx);
    assert Flat(side, levels) == levels[idx] + rest;
    assert Flat(side, levels[idx := level]) == level + rest;
  }

  lemma {:induction false} EnqueueSplit(side: Side, a: seq<Resting>, b: seq<Resting>, r: Resting)
    requires forall x :: x in a ==> !Ahead(side, r.price, x.price)
    requires forall x :: x in b ==> Ahead(side, r.price, x.price)
    ensures Enqueue(side, a + b, r) == a + [r] + b
  {
    if a == [] {
      assert a + b == b;
      assert b != [] ==> b[0] in b;
    } else {
      assert a[0] in a && (a + b)[1..] == a[1..] + b;
      EnqueueSplit(side, a[1..], b, r);
    }
  }

  lemma {:induction false} WithoutConcat(a: seq<Resting>, b: seq<Resting>, id: nat)
    ensures Without(a + b, id) == Without(a, id) + Without(b, id)
  {
    if a == [] {
      assert a + b == b;
    } else {
      assert (a + b)[1..] == a[1..] + b;
      WithoutConcat(a[1..], b, id);
    }
  }

  lemma {:induction false} ResizedConcat(a: seq<Resting>, b: seq<Resting>, id: nat, quantity: int)
    ensures Resized(a + b, id, quantity) == Resized(a, id, quantity) + Resized(b, id, quantity)
  {
    if a == [] {
      assert a + b == b;
    } else {
      assert (a + b)[1..] == a[1..] + b;
      ResizedConcat(a[1..], b, id, quantity);
    }
  }

  lemma {:induction false} ResizedAbsent(a: seq<Resting>, id: nat, quantity: int)
    requires !HasId(a, id)
    ensures Resized(a, id, quantity) == a
  {
    if a != [] {
      assert a[0].id != id;
      assert forall i :: 0 <= i < |a[1..]| ==> a[1..][i] == a[i + 1];
      ResizedAbsent(a[1..], id, quantity);
    }
  }

  lemma {:induction false} LookupConcat(a: seq<Resting>, r: Resting, b: seq<Resting>)
    requires !HasId(a, r.id)
    ensures HasId(a + [r] + b, r.id) && Lookup(a + [r] + b, r.id) == r
  {
    assert (a + [r] + b)[|a|] == r;
    if a != [] {
      assert a[0].id != r.id;
      assert forall i :: 0 <= i < |a[1..]| ==> a[1..][i] == a[i + 1];
      assert (a + [r] + b)[1..] == a[1..] + [r] + b;
      LookupConcat(a[1..], r, b);
    }
  }

  /** Taking the oldest order off the best level takes the head off the queue. */
  lemma HeadGone(side: Side, levels: seq<seq<Resting>>, levels': seq<seq<Resting>>, idx: nat)
    requires idx < |levels| && AheadOf(side, levels, idx) == [] && levels[idx] != []
    requires levels' == levels[idx := levels[idx][..0] + levels[idx][1..]]
    ensures AheadOf(side, levels', idx) == []
    ensures Flat(side, levels) != [] && Flat(side, levels)[0] == levels[idx][0]
    ensures Flat(side, levels') == Flat(side, levels)[1..]
  {
    assert levels[idx][..0] + levels[idx][1..] == levels[idx][1..];
    BestLevelHead(side, levels, idx, levels[idx][1..]);
  }

  /** Reducing the oldest order of the best level reduces the head of the queue. */
  lemma HeadReduced(side: Side, levels: seq<seq<Resting>>, levels': seq<seq<Resting>>, idx: nat, r: Resting)
    requires idx < |levels| && AheadOf(side, levels, idx) == [] && levels[idx] != []
    requires levels' == levels[idx := levels[idx][0 := r]]
    ensures AheadOf(side, levels', idx) == [] && levels'[idx] != []
    ensures Flat(side, levels) != [] && Flat(side, levels)[0] == levels[idx][0]
    ensures Flat(side, levels') == Flat(side, levels)[0 := r]
  {
    BestLevelHead(side, levels, idx, levels[idx][0 := r]);
  }
}

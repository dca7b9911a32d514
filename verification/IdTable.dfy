/** The open-addressed id index: linear probing, tombstone deletion.

    The order book and the order manager each carry one.  They differ only in what
    they do when live entries and tombstones together would reach half the table:
    the book rehashes into a table sized from its live entries, the manager rebuilds
    in place.  The hash is an arbitrary function; nothing depends on how it mixes. */
module IdTables {
  import opened Options
  import opened Arith

  const EMPTY: nat := 0
  const TOMBSTONE: nat := 0xFFFF_FFFF_FFFF_FFFF

  predicate IsId(k: nat) {
    k != EMPTY && k != TOMBSTONE
  }

  /** The k-th slot a probe visits when it starts at h. */
  function Probe(h: nat, k: nat, size: nat): (r: nat)
    requires h < size && k < size
    ensures r < size
  {
    if h + k < size then h + k else h + k - size
  }

  /** How many steps a probe from h takes to reach slot p. */
  function Steps(h: nat, p: nat, size: nat): (k: nat)
    requires h < size && p < size
    ensures k < size && Probe(h, k, size) == p
  {
    if h <= p then p - h else p + size - h
  }

  ghost predicate ProbeClear(keys: seq<nat>, h: nat, k: nat)
    requires h < |keys| && k <= |keys|
  {
    forall j: nat :: j < k ==> keys[Probe(h, j, |keys|)] != EMPTY
  }

  /** Every live key sits in one known slot, and no empty slot lies before it on its probe path. */
  ghost predicate Located(hash: nat -> nat, keys: seq<nat>, at: map<nat, nat>)
    requires |keys| > 0
  {
    && (forall k :: k in at ==> IsId(k) && at[k] < |keys| && keys[at[k]] == k)
    && (forall p: nat :: p < |keys| && IsId(keys[p]) ==> keys[p] in at && at[keys[p]] == p)
    && (forall k :: k in at ==>
          var h := hash(k) % |keys|;
          ProbeClear(keys, h, Steps(h, at[k], |keys|)))
  }

  ghost predicate KeyOk(hash: nat -> nat, keys: seq<nat>, at: map<nat, nat>, k: nat)
    requires |keys| > 0
  {
    k in at ==>
      && IsId(k) && at[k] < |keys| && keys[at[k]] == k
      && ProbeClear(keys, hash(k) % |keys|, Steps(hash(k) % |keys|, at[k], |keys|))
  }

  ghost predicate SlotOk(keys: seq<nat>, at: map<nat, nat>, p: nat) {
    p < |keys| && IsId(keys[p]) ==> keys[p] in at && at[keys[p]] == p
  }

  /** The same, put so that clients of the table are not drawn into its probe paths. */
  ghost predicate Indexes(hash: nat -> nat, keys: seq<nat>, at: map<nat, nat>)
    requires |keys| > 0
  {
    && (forall k: nat {:trigger KeyOk(hash, keys, at, k)} :: KeyOk(hash, keys, at, k))
    && (forall p: nat {:trigger SlotOk(keys, at, p)} :: SlotOk(keys, at, p))
  }

  lemma Open(hash: nat -> nat, keys: seq<nat>, at: map<nat, nat>)
    requires |keys| > 0 && Indexes(hash, keys, at)
    ensures Located(hash, keys, at)
  {
    forall k | k in at
      ensures IsId(k) && at[k] < |keys| && keys[at[k]] == k
      ensures ProbeClear(keys, hash(k) % |keys|, Steps(hash(k) % |keys|, at[k], |keys|))
    {
      assert KeyOk(hash, keys, at, k);
    }
    forall p: nat | p < |keys| && IsId(keys[p]) ensures keys[p] in at && at[keys[p]] == p {
      assert SlotOk(keys, at, p);
    }
  }

  lemma Close(hash: nat -> nat, keys: seq<nat>, at: map<nat, nat>)
    requires |keys| > 0 && Located(hash, keys, at)
    ensures Indexes(hash, keys, at)
  {
  }

  ghost function Tombs(keys: seq<nat>): set<nat> {
    set p: nat | p < |keys| && keys[p] == TOMBSTONE
  }

  ghost function Positions(n: nat): (s: set<nat>)
    ensures |s| == n && forall p: nat :: p in s <==> p < n
  {
    if n == 0 then {}
    else
      var s' := Positions(n - 1);
      assert n - 1 !in s';
      s' + {n - 1}
  }

  lemma {:induction false} SubsetCard(a: set<nat>, b: set<nat>)
    requires a <= b
    ensures |a| <= |b|
    decreases a
  {
    if a != {} {
      var x :| x in a;
      SubsetCard(a - {x}, b - {x});
    }
  }

  lemma {:induction false} ValuesCard(m: map<nat, nat>)
    ensures |m.Values| <= |m|
    decreases |m|
  {
    if m == map[] {
      assert m.Values == {};
    } else {
      var k :| k in m;
      var m' := m - {k};
      ValuesCard(m');
      forall v | v in m.Values ensures v in m'.Values + {m[k]} {
        var x :| x in m && m[x] == v;
        if x != k {
          assert x in m' && m'[x] == v;
        }
      }
      SubsetCard(m.Values, m'.Values + {m[k]});
      assert |m'| == |m| - 1;
    }
  }

  /** Fewer live keys and tombstones than slots leave an empty slot for every probe to stop at. */
  lemma EmptySlotExists(hash: nat -> nat, keys: seq<nat>, at: map<nat, nat>)
    requires |keys| > 0 && Located(hash, keys, at)
    requires |at| + |Tombs(keys)| < |keys|
    ensures exists p: nat :: p < |keys| && keys[p] == EMPTY
  {
    var used := at.Values + Tombs(keys);
    ValuesCard(at);
    assert |used| <= |at.Values| + |Tombs(keys)|;
    if forall p: nat :: p < |keys| ==> keys[p] != EMPTY {
      forall p | p in Positions(|keys|) ensures p in used {
        if keys[p] != TOMBSTONE {
          assert at[keys[p]] == p;
        }
      }
      SubsetCard(Positions(|keys|), used);
      assert false;
    }
  }

  /** The probe from home h has passed k occupied slots, none of them holding id. */
  ghost predicate Probing(keys: seq<nat>, h: nat, k: nat, id: nat)
    requires h < |keys| && k <= |keys|
  {
    ProbeClear(keys, h, k) && forall j: nat :: j < k ==> keys[Probe(h, j, |keys|)] != id
  }

  /** A probe that stops at an empty slot has shown that the id is not in the table. */
  lemma EmptyMeansAbsent(hash: nat -> nat, keys: seq<nat>, at: map<nat, nat>, id: nat, k: nat)
    requires |keys| > 0 && Located(hash, keys, at) && k < |keys|
    requires Probing(keys, hash(id) % |keys|, k, id)
    requires keys[Probe(hash(id) % |keys|, k, |keys|)] == EMPTY
    ensures id !in at
  {
    if id in at {
      assert false;
    }
  }

  /** Writing a new id into a free slot its probe can reach keeps every key located. */
  lemma PlaceLocated(hash: nat -> nat, keys: seq<nat>, at: map<nat, nat>, id: nat, k: nat)
    requires |keys| > 0 && Located(hash, keys, at) && IsId(id) && id !in at && k < |keys|
    requires ProbeClear(keys, hash(id) % |keys|, k)
    requires !IsId(keys[Probe(hash(id) % |keys|, k, |keys|)])
    ensures var p := Probe(hash(id) % |keys|, k, |keys|);
      Located(hash, keys[p := id], at[id := p])
  {
    var h := hash(id) % |keys|;
    var p := Probe(h, k, |keys|);
    var keys', at' := keys[p := id], at[id := p];
    assert Steps(h, p, |keys|) == k;
    forall x | x in at'
      ensures IsId(x) && at'[x] < |keys'| && keys'[at'[x]] == x
      ensures var hx := hash(x) % |keys'|; ProbeClear(keys', hx, Steps(hx, at'[x], |keys'|))
    {
      if x != id {
        assert ProbeClear(keys, hash(x) % |keys|, Steps(hash(x) % |keys|, at[x], |keys|));
      }
    }
  }

  /** A tombstone keeps the probe paths that ran through the erased key intact. */
  lemma EraseLocated(hash: nat -> nat, keys: seq<nat>, at: map<nat, nat>, id: nat)
    requires |keys| > 0 && Located(hash, keys, at) && id in at
    ensures Located(hash, keys[at[id] := TOMBSTONE], at - {id})
  {
    var keys', at' := keys[at[id] := TOMBSTONE], at - {id};
    forall x | x in at'
      ensures var hx := hash(x) % |keys'|; ProbeClear(keys', hx, Steps(hx, at'[x], |keys'|))
    {
      assert ProbeClear(keys, hash(x) % |keys|, Steps(hash(x) % |keys|, at[x], |keys|));
    }
  }

  /** What the table stands for: the value stored beside each live key. */
  ghost function Entries(vals: seq<nat>, at: map<nat, nat>): map<nat, nat> {
    map k | k in at :: if at[k] < |vals| then vals[at[k]] else 0
  }

  lemma PlaceEntries(vals: seq<nat>, at: map<nat, nat>, id: nat, p: nat, v: nat)
    requires forall k :: k in at ==> at[k] < |vals| && at[k] != p
    requires id !in at && p < |vals|
    ensures Entries(vals[p := v], at[id := p]) == Entries(vals, at)[id := v]
  {
  }

  lemma EntriesCard(vals: seq<nat>, at: map<nat, nat>)
    ensures |Entries(vals, at)| == |at|
  {
    assert Entries(vals, at).Keys == at.Keys;
  }

  lemma EraseEntries(vals: seq<nat>, at: map<nat, nat>, id: nat, v: nat)
    requires forall k :: k in at ==> at[k] < |vals|
    requires id in at && forall k :: k in at && k != id ==> at[k] != at[id]
    ensures |at - {id}| == |at| - 1
    ensures forall k :: k in at - {id} ==> at[k] < |vals[at[id] := v]|
    ensures Entries(vals[at[id] := v], at - {id}) == Entries(vals, at) - {id}
  {
    assert at == (at - {id})[id := at[id]];
  }

  /** The entries whose slot lies before position j of the old table. */
  ghost function CopiedBefore(keys: seq<nat>, vals: seq<nat>, at: map<nat, nat>, j: nat): map<nat, nat>
    requires |vals| == |keys| && forall k :: k in at ==> at[k] < |keys|
  {
    map k | k in at && at[k] < j :: vals[at[k]]
  }

  lemma CopiedCard(keys: seq<nat>, vals: seq<nat>, at: map<nat, nat>, j: nat)
    requires |vals| == |keys| && forall k :: k in at ==> at[k] < |keys|
    requires j < |keys| && keys[j] in at && at[keys[j]] == j
    ensures |CopiedBefore(keys, vals, at, j)| < |at|
  {
    var c := CopiedBefore(keys, vals, at, j);
    SubsetCard(c.Keys + {keys[j]}, at.Keys);
    assert keys[j] !in c;
  }

  lemma CopiedNext(hash: nat -> nat, keys: seq<nat>, vals: seq<nat>, at: map<nat, nat>, j: nat)
    requires |vals| == |keys| > 0 && j < |keys| && Located(hash, keys, at)
    ensures CopiedBefore(keys, vals, at, j + 1) ==
      if IsId(keys[j]) then CopiedBefore(keys, vals, at, j)[keys[j] := vals[j]]
      else CopiedBefore(keys, vals, at, j)
    ensures IsId(keys[j]) ==> keys[j] !in CopiedBefore(keys, vals, at, j)
  {
  }

  /** Claiming a free slot on the probe path of a new id adds one entry and disturbs no other. */
  lemma Placing(hash: nat -> nat, keys: seq<nat>, vals: seq<nat>, at: map<nat, nat>, id: nat, k: nat, v: nat)
    requires |keys| == |vals| > 0 && Indexes(hash, keys, at) && IsId(id) && id !in at && k < |keys|
    requires ProbeClear(keys, hash(id) % |keys|, k)
    requires !IsId(keys[Probe(hash(id) % |keys|, k, |keys|)])
    ensures var p := Probe(hash(id) % |keys|, k, |keys|);
      && Indexes(hash, keys[p := id], at[id := p])
      && Entries(vals[p := v], at[id := p]) == Entries(vals, at)[id := v]
      && Tombs(keys[p := id]) == Tombs(keys) - {p}
  {
    var p := Probe(hash(id) % |keys|, k, |keys|);
    Open(hash, keys, at);
    PlaceLocated(hash, keys, at, id, k);
    PlaceEntries(vals, at, id, p, v);
    Close(hash, keys[p := id], at[id := p]);
  }

  /** A tombstone takes out one entry and disturbs no other. */
  lemma Erasing(hash: nat -> nat, keys: seq<nat>, vals: seq<nat>, at: map<nat, nat>, id: nat, v: nat)
    requires |keys| == |vals| > 0 && Indexes(hash, keys, at) && id in at
    ensures at[id] < |keys| && at[id] !in Tombs(keys) && |at - {id}| == |at| - 1
    ensures Indexes(hash, keys[at[id] := TOMBSTONE], at - {id})
    ensures Entries(vals[at[id] := v], at - {id}) == Entries(vals, at) - {id}
    ensures Tombs(keys[at[id] := TOMBSTONE]) == Tombs(keys) + {at[id]}
  {
    Open(hash, keys, at);
    EraseLocated(hash, keys, at, id);
    EraseEntries(vals, at, id, v);
    Close(hash, keys[at[id] := TOMBSTONE], at - {id});
  }

  class IdTable {
    const hash: nat -> nat
    var keys: seq<nat>
    var vals: seq<nat>
    var count: nat   // live entries
    var tombs: nat   // erased-but-still-probed slots
    ghost var at: map<nat, nat>

    /** The map the probes implement.  The counters leave room for at least one empty slot. */
    ghost predicate Consistent()
      reads this
    {
      && |keys| == |vals| > 0
      && Indexes(hash, keys, at)
      && count == |at| && tombs == |Tombs(keys)|
      && count + tombs < |keys|
    }

    /** Live entries plus tombstones stay under half the table. */
    ghost predicate Valid()
      reads this
    {
      Consistent() && 2 * (count + tombs) < |keys|
    }

    ghost function Contents(): map<nat, nat>
      requires Consistent()
      reads this
    {
      Entries(vals, at)
    }

    /** Walking the table slot by slot meets every live key, once, with its value. */
    lemma KeyAt(i: nat)
      requires Valid() && i < |keys|
      ensures IsId(keys[i]) ==> keys[i] in at && at[keys[i]] == i
      ensures IsId(keys[i]) ==> keys[i] in Contents() && Contents()[keys[i]] == vals[i]
    {
      assert SlotOk(keys, at, i);
    }

    lemma PositionOf(id: nat)
      requires Valid() && id in Contents()
      ensures id in at && IsId(id) && at[id] < |keys| && keys[at[id]] == id
    {
      assert KeyOk(hash, keys, at, id);
    }

    constructor (hash: nat -> nat, size: nat)
      requires size > 0
      ensures Valid() && Contents() == map[] && |keys| == size
      ensures this.hash == hash
    {
      this.hash := hash;
      keys := seq(size, _ => EMPTY);
      vals := seq(size, _ => 0);
      count, tombs := 0, 0;
      at := map[];
      new;
      assert Tombs(keys) == {};
      Close(hash, keys, at);
    }

    /** The probe loop of slot_for() and id_erase(): stop at the id or at an empty slot. */
    method ProbeFor(id: nat) returns (i: nat, found: bool)
      requires Consistent() && IsId(id)
      ensures i < |keys| && found == (id in at)
      ensures found ==> at[id] == i
    {
      Open(hash, keys, at);
      i := hash(id) % |keys|;
      ghost var h := i;
      ghost var k: nat := 0;
      EmptySlotExists(hash, keys, at);
      ghost var e: nat :| e < |keys| && keys[e] == EMPTY;
      ghost var last := Steps(h, e, |keys|);
      while true
        invariant k <= last && i == Probe(h, k, |keys|)
        invariant Probing(keys, h, k, id)
        decreases last - k
      {
        if keys[i] == id {
          return i, true;
        }
        if keys[i] == EMPTY {
          EmptyMeansAbsent(hash, keys, at, id, k);
          return i, false;
        }
        i := Advance(|keys|, i);
        k := k + 1;
      }
    }

    /** The probe loop of id_insert(): stop at the first slot that holds no live key. */
    method ProbeFree(id: nat) returns (i: nat, ghost k: nat)
      requires Consistent() && IsId(id)
      ensures k < |keys| && i == Probe(hash(id) % |keys|, k, |keys|)
      ensures ProbeClear(keys, hash(id) % |keys|, k) && !IsId(keys[i])
    {
      Open(hash, keys, at);
      i := hash(id) % |keys|;
      ghost var h := i;
      k := 0;
      EmptySlotExists(hash, keys, at);
      ghost var e: nat :| e < |keys| && keys[e] == EMPTY;
      ghost var last := Steps(h, e, |keys|);
      while IsId(keys[i])
        invariant k <= last && i == Probe(h, k, |keys|)
        invariant ProbeClear(keys, h, k)
        decreases last - k
      {
        i := Advance(|keys|, i);
        k := k + 1;
      }
    }

    /** slot_for() */
    method Find(id: nat) returns (slot: Option<nat>)
      requires Valid()
      ensures slot == if id in Contents() then Some(Contents()[id]) else None
    {
      if !IsId(id) {
        assert KeyOk(hash, keys, at, id);
        return None;
      }
      var i, found := ProbeFor(id);
      return if found then Some(vals[i]) else None;
    }

    /** Writes a new entry into a slot the probe for it can reach. */
    method Claim(id: nat, slot: nat, i: nat, ghost k: nat)
      requires Consistent() && IsId(id) && id !in at && count + tombs + 1 < |keys|
      requires k < |keys| && i == Probe(hash(id) % |keys|, k, |keys|)
      requires ProbeClear(keys, hash(id) % |keys|, k) && !IsId(keys[i])
      modifies this
      ensures Consistent() && Contents() == old(Contents())[id := slot]
      ensures |keys| == old(|keys|)
      ensures count == old(count) + 1 && tombs <= old(tombs)
    {
      Placing(hash, keys, vals, at, id, k, slot);
      if keys[i] == TOMBSTONE {
        assert i in Tombs(keys);
        tombs := tombs - 1;
      }
      count := count + 1;
      keys := keys[i := id];
      vals := vals[i := slot];
      at := at[id := i];
    }

    /** The second half of id_insert(): claim the first free slot on the probe path. */
    method Place(id: nat, slot: nat)
      requires Consistent() && IsId(id) && id !in Contents()
      requires count + tombs + 1 < |keys|
      modifies this
      ensures Consistent() && Contents() == old(Contents())[id := slot]
      ensures |keys| == old(|keys|)
      ensures count == old(count) + 1 && tombs <= old(tombs)
    {
      var i, k := ProbeFree(id);
      Claim(id, slot, i, k);
    }

    /** Leaves a tombstone in the slot that holds id. */
    method Bury(id: nat, i: nat)
      requires Valid() && id in at && at[id] == i
      modifies this
      ensures Valid() && Contents() == old(Contents()) - {id}
      ensures |keys| == old(|keys|)
    {
      Erasing(hash, keys, vals, at, id, 0);
      keys := keys[i := TOMBSTONE];
      vals := vals[i := 0];
      count := count - 1;
      tombs := tombs + 1;
      at := at - {id};
    }

    /** id_erase() */
    method Erase(id: nat)
      requires Valid() && IsId(id)
      modifies this
      ensures Valid() && Contents() == old(Contents()) - {id}
      ensures |keys| == old(|keys|)
    {
      var i, found := ProbeFor(id);
      if found {
        Bury(id, i);
      } else {
        assert Contents() == Contents() - {id};
      }
    }

    /** assign(): an empty table of the given size. */
    method Wipe(size: nat)
      requires size > 0
      modifies this
      ensures Valid() && Contents() == map[]
      ensures |keys| == size && count == tombs == 0
    {
      keys := seq(size, _ => EMPTY);
      vals := seq(size, _ => 0);
      count, tombs := 0, 0;
      at := map[];
      assert Tombs(keys) == {};
      Close(hash, keys, at);
    }

    /** One slot of the old table: a live entry is inserted anew, anything else is dropped. */
    method Reinsert(oldKeys: seq<nat>, oldVals: seq<nat>, ghost oldAt: map<nat, nat>, j: nat)
      requires Consistent() && tombs == 0 && |oldAt| < |keys|
      requires |oldVals| == |oldKeys| > 0 && j < |oldKeys| && Located(hash, oldKeys, oldAt)
      requires Contents() == CopiedBefore(oldKeys, oldVals, oldAt, j)
      modifies this
      ensures Consistent() && tombs == 0 && |keys| == old(|keys|)
      ensures Contents() == CopiedBefore(oldKeys, oldVals, oldAt, j + 1)
    {
      CopiedNext(hash, oldKeys, oldVals, oldAt, j);
      if IsId(oldKeys[j]) {
        CopiedCard(oldKeys, oldVals, oldAt, j);
        EntriesCard(vals, at);
        Place(oldKeys[j], oldVals[j]);
      }
    }

    method ReinsertAll(oldKeys: seq<nat>, oldVals: seq<nat>, ghost oldAt: map<nat, nat>)
      requires Consistent() && tombs == 0 && Contents() == map[] && |oldAt| < |keys|
      requires |oldVals| == |oldKeys| > 0 && Located(hash, oldKeys, oldAt)
      modifies this
      ensures Consistent() && tombs == 0 && |keys| == old(|keys|)
      ensures Contents() == CopiedBefore(oldKeys, oldVals, oldAt, |oldKeys|)
    {
      for j := 0 to |oldKeys|
        invariant Consistent() && tombs == 0 && |keys| == old(|keys|)
        invariant Contents() == CopiedBefore(oldKeys, oldVals, oldAt, j)
      {
        Reinsert(oldKeys, oldVals, oldAt, j);
      }
    }

    /** The reinsertion loop of id_grow() and index_compact(): a fresh table of the given size
        holding the live entries of the old one and none of its tombstones. */
    method Rehash(size: nat)
      requires Consistent() && count < size
      modifies this
      ensures Consistent() && tombs == 0 && |keys| == size
      ensures Contents() == old(Contents()) && count == old(count)
    {
      var oldKeys, oldVals := keys, vals;
      ghost var oldAt := at;
      Open(hash, keys, at);
      Wipe(size);
      ReinsertAll(oldKeys, oldVals, oldAt);
      EntriesCard(vals, at);
      EntriesCard(oldVals, oldAt);
    }

    /** id_insert() with id_grow(): a crowded table moves to one at least four times its live size. */
    method InsertGrowing(id: nat, slot: nat)
      requires Valid() && IsId(id) && id !in Contents()
      modifies this
      ensures Valid() && Contents() == old(Contents())[id := slot]
      ensures |keys| == old(|keys|) || |keys| >= 4 * (old(count) + 1)
    {
      if (count + tombs + 1) * 2 >= |keys| {
        var cap := 1024;
        while cap < (count + 1) * 4
          invariant cap >= 1024
        {
          cap := cap * 2;
        }
        Rehash(cap);
      }
      Place(id, slot);
    }

    /** index_insert() with index_compact(): the table keeps its size and sheds its tombstones.
        That is enough as long as the live entries alone stay under half of it. */
    method InsertCompacting(id: nat, slot: nat)
      requires Valid() && IsId(id) && id !in Contents()
      requires 2 * (|Contents()| + 1) < |keys|
      modifies this
      ensures Valid() && Contents() == old(Contents())[id := slot]
      ensures |keys| == old(|keys|)
    {
      EntriesCard(vals, at);
      if (count + tombs + 1) * 2 >= |keys| {
        Rehash(|keys|);
      }
      Place(id, slot);
    }
  }
}

/** Orders on their way to a venue that takes time to reach: a FIFO whose due orders leave from the front. */
module Wires {
  import opened Types

  datatype Pending = Pending(id: nat, order: Order, sent: int, release: int)

  /** The leading run of orders that are due. */
  function Leading(wire: seq<Pending>, now: int): (r: seq<Pending>)
    ensures r <= wire
  {
    if wire == [] || wire[0].release > now then [] else [wire[0]] + Leading(wire[1..], now)
  }

  /** Every order that is due, wherever it stands. */
  function Due(wire: seq<Pending>, now: int): seq<Pending> {
    if wire == [] then []
    else if wire[0].release > now then Due(wire[1..], now)
    else [wire[0]] + Due(wire[1..], now)
  }

  ghost predicate InOrder(wire: seq<Pending>) {
    forall i, j {:trigger wire[i], wire[j]} :: 0 <= i < j < |wire| ==> wire[i].release <= wire[j].release
  }

  /** Waiting for the head to come due never holds up an order that is. */
  ghost predicate HeadIsEnough(wire: seq<Pending>) {
    forall now: int {:trigger Due(wire, now)} :: Leading(wire, now) == Due(wire, now)
  }

  lemma {:induction false} NothingDue(wire: seq<Pending>, now: int)
    ensures Due(wire, now) == [] <==> forall i {:trigger wire[i]} :: 0 <= i < |wire| ==> wire[i].release > now
  {
    if wire != [] {
      NothingDue(wire[1..], now);
      assert forall i {:trigger wire[i]} :: 0 < i < |wire| ==> wire[i] == wire[1..][i - 1];
      assert forall i {:trigger wire[1..][i]} :: 0 <= i < |wire| - 1 ==> wire[1..][i] == wire[i + 1];
    }
  }

  lemma {:induction false} InOrderLeads(wire: seq<Pending>, now: int)
    requires InOrder(wire)
    ensures Leading(wire, now) == Due(wire, now)
  {
    if wire != [] {
      if wire[0].release > now {
        NothingDue(wire, now);
      } else {
        InOrderLeads(wire[1..], now);
      }
    }
  }

  lemma {:induction false} LeadsInOrder(wire: seq<Pending>)
    requires HeadIsEnough(wire)
    ensures InOrder(wire)
  {
    if wire != [] {
      var rest := wire[1..];
      forall j | 0 < j < |wire| ensures wire[0].release <= wire[j].release {
        var now := wire[j].release;
        assert Leading(wire, now) == Due(wire, now);
        assert rest[j - 1] == wire[j];
        NothingDue(wire, now);
      }
      forall now: int ensures Leading(rest, now) == Due(rest, now) {
        LeadsLater(wire, now);
      }
      LeadsInOrder(rest);
      assert forall i {:trigger wire[i]} :: 0 < i < |wire| ==> wire[i] == rest[i - 1];
    }
  }

  lemma LeadsLater(wire: seq<Pending>, now: int)
    requires wire != [] && Leading(wire, now) == Due(wire, now)
    requires forall j :: 0 < j < |wire| ==> wire[0].release <= wire[j].release
    ensures Leading(wire[1..], now) == Due(wire[1..], now)
  {
    if wire[0].release > now {
      NothingDue(wire[1..], now);
    } else {
      assert Leading(wire, now)[1..] == Leading(wire[1..], now);
      assert Due(wire, now)[1..] == Due(wire[1..], now);
    }
  }

  /** Looking only at the head finds every due order, at every time, exactly when release times never fall. */
  lemma HeadIsEnoughIff(wire: seq<Pending>)
    ensures HeadIsEnough(wire) <==> InOrder(wire)
  {
    if HeadIsEnough(wire) {
      LeadsInOrder(wire);
    }
    if InOrder(wire) {
      forall now: int ensures Leading(wire, now) == Due(wire, now) {
        InOrderLeads(wire, now);
      }
    }
  }

  /** What release_pending() takes off the wire. */
  function Leaving(wire: seq<Pending>, now: int, force: bool): seq<Pending> {
    if force then wire else Leading(wire, now)
  }

  lemma {:induction false} LeadingIs(wire: seq<Pending>, now: int, n: nat)
    requires n <= |wire| && forall i {:trigger wire[i]} :: 0 <= i < n ==> wire[i].release <= now
    requires n < |wire| ==> wire[n].release > now
    ensures Leading(wire, now) == wire[..n]
  {
    if n > 0 {
      LeadingIs(wire[1..], now, n - 1);
    }
  }

  class Wire {
    const latency: int
    var pending: seq<Pending>
    var head: nat

    ghost predicate Valid()
      reads this
    {
      head <= |pending|
    }

    ghost function Waiting(): seq<Pending>
      requires Valid()
      reads this
    {
      pending[head..]
    }

    constructor (latency: int)
      ensures Valid() && Waiting() == [] && this.latency == latency
    {
      this.latency := latency;
      pending, head := [], 0;
    }

    /** Under one latency and a clock that does not go back, orders stay in order of release. */
    method Send(id: nat, order: Order, now: int)
      requires Valid()
      modifies this
      ensures Valid() && Waiting() == old(Waiting()) + [Pending(id, order, now, now + latency)]
      ensures old(InOrder(Waiting())) && (forall p :: p in old(Waiting()) ==> p.release == p.sent + latency && p.sent <= now) ==>
        InOrder(Waiting())
    {
      pending := pending + [Pending(id, order, now, now + latency)];
    }

    /** release_pending(): what leaves, in the order it leaves. */
    method Release(now: int, force: bool) returns (out: seq<Pending>)
      requires Valid()
      modifies this
      ensures Valid() && old(Waiting()) == out + Waiting()
      ensures out == Leaving(old(Waiting()), now, force)
      ensures Waiting() == [] ==> pending == []
    {
      out := [];
      ghost var wire := Waiting();
      while head < |pending| && (force || pending[head].release <= now)
        invariant Valid() && pending == old(pending) && head == old(head) + |out|
        invariant out == wire[..|out|]
        invariant !force ==> forall i {:trigger wire[i]} :: 0 <= i < |out| ==> wire[i].release <= now
        decreases |pending| - head
      {
        out := out + [pending[head]];
        head := head + 1;
      }
      if !force {
        LeadingIs(wire, now, |out|);
      }
      if head == |pending| && head != 0 {
        pending, head := [], 0;
      }
    }
  }
}

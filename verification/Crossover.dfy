/** The moving-average crossover: sliding sums in constant time, an integer comparison, one signal a cross. */
module Crossover {
  import opened Options
  import opened Types
  import opened Arith

  // ------------------------------------------------------------ what is computed

  function Sum(prices: seq<int>): int {
    if prices == [] then 0 else Sum(prices[..|prices| - 1]) + prices[|prices| - 1]
  }

  /** The last n prices, or all of them while there are fewer. */
  function Last(prices: seq<int>, n: nat): seq<int> {
    if |prices| <= n then prices else prices[|prices| - n..]
  }

  /** fast_avg > slow_avg, in integers. */
  predicate Above(prices: seq<int>, fast: nat, slow: nat) {
    Sum(Last(prices, fast)) * slow > Sum(Last(prices, slow)) * fast
  }

  /** The comparison as a function of the stream. */
  function Verdict(fast: nat, slow: nat): seq<int> -> bool {
    prices => Above(prices, fast, slow)
  }

  /** The signal the last price of a stream gives: only once the slow window is full, never on the first
      state computed, and only when the verdict has changed. */
  function SignalBy(f: seq<int> -> bool, prices: seq<int>, slow: nat): Option<Side> {
    if |prices| <= slow || f(prices) == f(prices[..|prices| - 1]) then None
    else Some(if f(prices) then Buy else Sell)
  }

  function SignalOf(prices: seq<int>, fast: nat, slow: nat): Option<Side> {
    SignalBy(Verdict(fast, slow), prices, slow)
  }

  /** The verdict after each price. */
  function Verdicts(f: seq<int> -> bool, prices: seq<int>): seq<bool> {
    seq(|prices|, i requires 0 <= i < |prices| => f(prices[..i + 1]))
  }

  /** Every signal such verdicts give, oldest first. */
  function Signals(verdicts: seq<bool>, slow: nat): seq<Side> {
    if verdicts == [] then []
    else
      var n := |verdicts| - 1;
      Signals(verdicts[..n], slow)
      + (if n >= slow && n > 0 && verdicts[n] != verdicts[n - 1] then [if verdicts[n] then Buy else Sell] else [])
  }

  // ------------------------------------------------------------ laws

  /** The integers decide what the exact averages would. */
  lemma ComparesAverages(prices: seq<int>, fast: nat, slow: nat)
    requires fast > 0 && slow > 0
    ensures Above(prices, fast, slow) <==>
      Sum(Last(prices, fast)) as real / fast as real > Sum(Last(prices, slow)) as real / slow as real
  {
    CrossCompare(Sum(Last(prices, fast)), fast, Sum(Last(prices, slow)), slow);
  }

  lemma CrossCompare(a: int, m: nat, b: int, n: nat)
    requires m > 0 && n > 0
    ensures a * n > b * m <==> a as real / m as real > b as real / n as real
  {
    var x, y := a as real / m as real, b as real / n as real;
    assert x * m as real == a as real && y * n as real == b as real;
    var scale := m as real * n as real;
    assert a as real * n as real == x * scale && b as real * m as real == y * scale;
    assert (a * n) as real == a as real * n as real && (b * m) as real == b as real * m as real;
    OrderScales(x, y, scale);
  }

  lemma OrderScales(x: real, y: real, s: real)
    requires s > 0.0
    ensures x > y <==> x * s > y * s
  {
    if x > y {
      assert (x - y) * s > 0.0;
    } else {
      assert (y - x) * s >= 0.0;
    }
  }

  /** The latest signal says what the comparison now says. */
  lemma {:induction false} LatestSignal(verdicts: seq<bool>, slow: nat)
    ensures var s := Signals(verdicts, slow);
      s != [] ==> |verdicts| > slow && s[|s| - 1] == if verdicts[|verdicts| - 1] then Buy else Sell
  {
    if verdicts != [] {
      LatestSignal(verdicts[..|verdicts| - 1], slow);
    }
  }

  /** Consecutive signals of one symbol always take opposite sides. */
  lemma {:induction false} SignalsAlternate(verdicts: seq<bool>, slow: nat, i: nat)
    requires i + 1 < |Signals(verdicts, slow)|
    ensures Signals(verdicts, slow)[i] != Signals(verdicts, slow)[i + 1]
  {
    var front := verdicts[..|verdicts| - 1];
    LatestSignal(front, slow);
    if i + 1 < |Signals(front, slow)| {
      SignalsAlternate(front, slow, i);
    }
  }

  lemma VerdictsPrefix(f: seq<int> -> bool, prices: seq<int>, p: int)
    ensures Verdicts(f, prices + [p])[..|prices|] == Verdicts(f, prices)
  {
    var v, w := Verdicts(f, prices + [p])[..|prices|], Verdicts(f, prices);
    forall i | 0 <= i < |prices| ensures v[i] == w[i] {
      assert (prices + [p])[..i + 1] == prices[..i + 1];
    }
  }

  /** The signals of a stream, tick by tick: each tick's signal joins the end. */
  lemma SignalJoins(f: seq<int> -> bool, prices: seq<int>, p: int, slow: nat)
    requires slow > 0
    ensures Signals(Verdicts(f, prices + [p]), slow) ==
      Signals(Verdicts(f, prices), slow)
      + (match SignalBy(f, prices + [p], slow) case None => [] case Some(side) => [side])
  {
    var more := prices + [p];
    VerdictsPrefix(f, prices, p);
    assert more[..|more|] == more && more[..|prices|] == prices && prices[..|prices|] == prices;
  }

  lemma {:induction false} SumDropFirst(prices: seq<int>)
    requires prices != []
    ensures Sum(prices[1..]) == Sum(prices) - prices[0]
  {
    if |prices| > 1 {
      var front := prices[..|prices| - 1];
      SumDropFirst(front);
      assert prices[1..][..|prices| - 2] == front[1..];
    }
  }

  /** A window slides: what arrives is added, what leaves is subtracted. */
  lemma WindowSlides(prices: seq<int>, p: int, n: nat)
    requires n > 0
    ensures Sum(Last(prices + [p], n)) ==
      Sum(Last(prices, n)) + p - (if |prices| >= n then prices[|prices| - n] else 0)
  {
    var more := prices + [p];
    if |prices| < n {
      assert more[..|prices|] == prices;
    } else {
      var window := prices[|prices| - n..];
      assert Last(prices, n) == window;
      assert Last(more, n) == window[1..] + [p];
      assert (window[1..] + [p])[..n - 1] == window[1..];
      SumDropFirst(window);
    }
  }

  // ------------------------------------------------------------ one symbol's state

  /** An empty ring marks a symbol never seen. */
  datatype State = State(ring: seq<int>, head: nat, filled: nat, fastSum: int, slowSum: int, hasState: bool,
                         fastAbove: bool)

  ghost predicate InRing(s: State, prices: seq<int>, k: nat) {
    |s.ring| > 0 && (|prices| - s.filled <= k < |prices| ==> s.ring[k % |s.ring|] == prices[k])
  }

  /** The state remembers the last slow prices of the stream, and their sums. */
  ghost predicate Remembers(s: State, prices: seq<int>, fast: nat, slow: nat) {
    && |s.ring| == slow > fast > 0
    && s.filled == (if |prices| < slow then |prices| else slow)
    && s.head == |prices| % slow
    && (forall k: nat {:trigger InRing(s, prices, k)} :: InRing(s, prices, k))
    && s.fastSum == Sum(Last(prices, fast)) && s.slowSum == Sum(Last(prices, slow))
    && (s.hasState <==> |prices| >= slow)
    && (s.hasState ==> s.fastAbove == Above(prices, fast, slow))
  }

  lemma SameSlot(n: nat, slow: nat)
    requires n >= slow > 0
    ensures (n - slow) % slow == n % slow
  {
    Euclid(n, slow);
    Distribute(slow, n / slow, 1);
    QuotientUnique(n - slow, slow, n / slow - 1);
    Euclid(n - slow, slow);
  }

  lemma SlotBack(n: nat, fast: nat, slow: nat)
    requires fast < slow && fast <= n
    ensures (n % slow + slow - fast) % slow == (n - fast) % slow
  {
    var q, r := (n - fast) / slow, (n - fast) % slow;
    Euclid(n, slow);
    Euclid(n - fast, slow);
    var d := n / slow - q;
    Distribute(slow, n / slow, q);
    assert n % slow == r + fast - slow * d;
    Distribute(slow, 1, d);
    assert n % slow + slow - fast == r + slow * (1 - d);
    QuotientUnique(n % slow + slow - fast, slow, 1 - d);
    Euclid(n % slow + slow - fast, slow);
  }

  /** The two reads of the update find the prices that leave the two windows. */
  lemma LeavingPrices(s: State, prices: seq<int>, fast: nat, slow: nat)
    requires Remembers(s, prices, fast, slow)
    ensures s.filled == slow ==> |prices| >= slow && s.ring[s.head] == prices[|prices| - slow]
    ensures s.filled >= fast ==> |prices| >= fast && s.ring[(s.head + slow - fast) % slow] == prices[|prices| - fast]
    ensures s.filled < fast ==> |prices| < fast
  {
    if s.filled == slow {
      SameSlot(|prices|, slow);
      assert InRing(s, prices, |prices| - slow);
    }
    if s.filled >= fast {
      SlotBack(|prices|, fast, slow);
      assert InRing(s, prices, |prices| - fast);
    }
  }

  /** Writing the new price over the oldest slot keeps the rest of the window. */
  lemma RingWritten(s: State, prices: seq<int>, p: int, s': State)
    requires |s.ring| > 0 && s.head == |prices| % |s.ring| && s.filled <= |s.ring|
    requires forall k: nat {:trigger InRing(s, prices, k)} :: InRing(s, prices, k)
    requires s'.ring == s.ring[s.head := p] && s'.filled <= s.filled + 1 && s'.filled <= |s.ring|
    ensures forall k: nat {:trigger InRing(s', prices + [p], k)} :: InRing(s', prices + [p], k)
  {
    forall k: nat ensures InRing(s', prices + [p], k) {
      assert InRing(s, prices, k);
      if |prices| + 1 - s'.filled <= k < |prices| {
        DifferentSlots(|prices|, k, |s.ring|);
      }
    }
  }

  lemma HeadAdvances(n: nat, slow: nat)
    requires slow > 0
    ensures (n % slow + 1) % slow == (n + 1) % slow
  {
    var r := (n % slow + 1) % slow;
    Euclid(n, slow);
    Euclid(n % slow + 1, slow);
    var q := n / slow + (n % slow + 1) / slow;
    Distribute(slow, n / slow, (n % slow + 1) / slow);
    assert n + 1 == slow * q + r;
    QuotientUnique(n + 1, slow, q);
    Euclid(n + 1, slow);
  }

  ghost predicate TracksAs(s: State, prices: seq<int>, fast: nat, slow: nat) {
    if s.ring == [] then prices == [] else Remembers(s, prices, fast, slow)
  }

  /** Every symbol's state remembers that symbol's stream. */
  ghost predicate AllTrack(states: seq<State>, streams: seq<seq<int>>, fast: nat, slow: nat) {
    && |states| == |streams|
    && forall i: nat {:trigger TracksAs(states[i], streams[i], fast, slow)} :: i < |states| ==>
         TracksAs(states[i], streams[i], fast, slow)
  }

  ghost function StreamOf(streams: seq<seq<int>>, symbol: nat): seq<int> {
    if symbol < |streams| then streams[symbol] else []
  }

  lemma TracksMore(states: seq<State>, streams: seq<seq<int>>, fast: nat, slow: nat, blank: State)
    requires AllTrack(states, streams, fast, slow) && blank.ring == []
    ensures AllTrack(states + [blank], streams + [[]], fast, slow)
    ensures forall y: nat :: StreamOf(streams + [[]], y) == StreamOf(streams, y)
  {
    forall i: nat | i <= |states| ensures TracksAs((states + [blank])[i], (streams + [[]])[i], fast, slow) {
      if i < |states| {
        assert TracksAs(states[i], streams[i], fast, slow);
      }
    }
  }

  lemma TracksSet(states: seq<State>, streams: seq<seq<int>>, fast: nat, slow: nat, symbol: nat, s: State, prices: seq<int>)
    requires AllTrack(states, streams, fast, slow) && symbol < |states| && Remembers(s, prices, fast, slow)
    ensures AllTrack(states[symbol := s], streams[symbol := prices], fast, slow)
    ensures forall y: nat :: StreamOf(streams[symbol := prices], y) == if y == symbol then prices else StreamOf(streams, y)
  {
    var states', streams' := states[symbol := s], streams[symbol := prices];
    forall i: nat | i < |states| ensures TracksAs(states'[i], streams'[i], fast, slow) {
      assert TracksAs(states[i], streams[i], fast, slow);
    }
    forall y: nat ensures StreamOf(streams', y) == if y == symbol then prices else StreamOf(streams, y) {
    }
  }

  /** A ring sized on first use remembers nothing yet. */
  lemma FreshRemembers(s: State, fast: nat, slow: nat)
    requires 0 < fast < slow && |s.ring| == slow && s.head == s.filled == 0 && s.fastSum == s.slowSum == 0 && !s.hasState
    ensures Remembers(s, [], fast, slow)
  {
  }

  predicate IsBlank(s: State) {
    s.ring == [] && s.head == s.filled == 0 && s.fastSum == s.slowSum == 0 && !s.hasState
  }

  class MovingAverageCrossover {
    const fast: nat
    const slow: nat
    var states: seq<State>
    var signals: nat
    ghost var streams: seq<seq<int>>

    ghost predicate Valid()
      reads this
    {
      0 < fast < slow && AllTrack(states, streams, fast, slow)
    }

    /** The prices seen so far of one symbol. */
    ghost function Stream(symbol: nat): seq<int>
      reads this
    {
      StreamOf(streams, symbol)
    }

    constructor (fast: nat, slow: nat)
      requires 0 < fast < slow
      ensures Valid() && this.fast == fast && this.slow == slow && forall y: nat :: Stream(y) == []
    {
      this.fast, this.slow := fast, slow;
      states, signals, streams := [], 0, [];
    }

    /** Makes room for the symbol. */
    method Grow(symbol: nat, blank: State)
      requires Valid() && IsBlank(blank)
      modifies this`states, this`streams
      ensures Valid() && symbol < |states|
      ensures forall y: nat :: Stream(y) == old(Stream(y))
    {
      while symbol >= |states|
        invariant Valid() && forall y: nat :: Stream(y) == old(Stream(y))
        decreases symbol - |states|
      {
        TracksMore(states, streams, fast, slow, blank);
        states, streams := states + [blank], streams + [[]];
      }
    }

    /** state_for(): the symbol's state, its ring sized on first use. */
    method StateFor(symbol: nat, blank: State) returns (s: State)
      requires Valid() && IsBlank(blank)
      modifies this`states, this`streams
      ensures Valid() && symbol < |states| && Remembers(s, Stream(symbol), fast, slow)
      ensures forall y: nat :: Stream(y) == old(Stream(y))
    {
      Grow(symbol, blank);
      s := states[symbol];
      assert TracksAs(s, streams[symbol], fast, slow);
      if s.ring == [] {
        s := blank.(ring := seq(slow, _ => 0));
        FreshRemembers(s, fast, slow);
      }
    }

    /** The window update: subtract what leaves, add what arrives. */
    method Slide(s: State, ghost prices: seq<int>, p: int) returns (s': State)
      requires Remembers(s, prices, fast, slow)
      ensures s'.ring == s.ring[s.head := p] && s'.head == (|prices| + 1) % slow
      ensures s'.filled == (if |prices| + 1 < slow then |prices| + 1 else slow)
      ensures s'.fastSum == Sum(Last(prices + [p], fast)) && s'.slowSum == Sum(Last(prices + [p], slow))
      ensures s'.hasState == s.hasState && s'.fastAbove == s.fastAbove
    {
      LeavingPrices(s, prices, fast, slow);
      WindowSlides(prices, p, fast);
      WindowSlides(prices, p, slow);
      HeadAdvances(|prices|, slow);
      s' := s;
      if s.filled == slow {
        s' := s'.(slowSum := s'.slowSum - s.ring[s.head]);
      }
      if s.filled >= fast {
        s' := s'.(fastSum := s'.fastSum - s.ring[(s.head + slow - fast) % slow]);
      }
      s' := s'.(ring := s.ring[s.head := p], head := (s.head + 1) % slow,
                slowSum := s'.slowSum + p, fastSum := s'.fastSum + p,
                filled := if s.filled < slow then s.filled + 1 else s.filled);
    }

    /** on_tick() on one symbol's state. */
    method Update(s: State, ghost prices: seq<int>, p: int) returns (s': State, signal: Option<Side>)
      requires Remembers(s, prices, fast, slow)
      ensures Remembers(s', prices + [p], fast, slow)
      ensures signal == SignalOf(prices + [p], fast, slow)
    {
      assert (prices + [p])[..|prices|] == prices;
      s' := Slide(s, prices, p);
      RingWritten(s, prices, p, s');
      if s'.filled < slow {
        RememberedAs(s', prices + [p], fast, slow);
        return s', None;
      }
      var above := s'.fastSum * slow > s'.slowSum * fast;
      var had, prev := s'.hasState, s'.fastAbove;
      s' := s'.(hasState := true, fastAbove := above);
      RingWritten(s, prices, p, s');
      RememberedAs(s', prices + [p], fast, slow);
      signal := if !had || prev == above then None else Some(if above then Buy else Sell);
    }

    /** on_tick() */
    method OnTick(symbol: nat, p: int, blank: State) returns (signal: Option<Side>)
      requires Valid() && IsBlank(blank)
      modifies this
      ensures Valid() && signal == SignalOf(old(Stream(symbol)) + [p], fast, slow)
      ensures forall y: nat :: Stream(y) == if y == symbol then old(Stream(symbol)) + [p] else old(Stream(y))
      ensures signals == old(signals) + (if signal.Some? then 1 else 0)
    {
      var s := StateFor(symbol, blank);
      ghost var prices := Stream(symbol);
      s, signal := Update(s, prices, p);
      TracksSet(states, streams, fast, slow, symbol, s, prices + [p]);
      states, streams := states[symbol := s], streams[symbol := prices + [p]];
      if signal.Some? {
        signals := signals + 1;
      }
    }
  }

  lemma RememberedAs(s: State, prices: seq<int>, fast: nat, slow: nat)
    requires |s.ring| == slow > fast > 0
    requires s.filled == (if |prices| < slow then |prices| else slow) && s.head == |prices| % slow
    requires forall k: nat {:trigger InRing(s, prices, k)} :: InRing(s, prices, k)
    requires s.fastSum == Sum(Last(prices, fast)) && s.slowSum == Sum(Last(prices, slow))
    requires s.hasState <==> |prices| >= slow
    requires s.hasState ==> s.fastAbove == Above(prices, fast, slow)
    ensures Remembers(s, prices, fast, slow)
  {
  }
}

/** The lock-free single-producer, single-consumer ring, as interleaved steps.

    Each side publishes its own index and keeps a cached copy of the other's.  Writing a slot and publishing
    the head are separate steps, and so are reading a slot and publishing the tail.  Refreshing a cached
    index may yield any value between the old copy and the real index: that is all an acquire load promises. */
module SpscRing {
  import opened Arith
  import opened Words

  /** size_t arithmetic wraps at 2^64. */
  const WORD: nat := 0x1_0000_0000_0000_0000

  function Word(n: nat): nat {
    n % WORD
  }

  /** a - b in size_t arithmetic. */
  function Sub(a: nat, b: nat): nat {
    (a - b) % WORD
  }

  // ------------------------------------------------------------ the state machine

  datatype Producer<T> = Idle | Refreshing(item: T) | Writing(item: T) | Publishing(item: T)

  datatype Consumer<T> = Waiting | Reloading | Reading | Releasing(got: T)

  /** pushed and popped are the items each side has published so far; the published head and tail are
      their lengths, kept in a machine word.  seenTail and seenHead are the cached peer indices. */
  datatype Ring<T> = Ring(slots: seq<T>, producer: Producer<T>, seenTail: nat, pushed: seq<T>,
                          consumer: Consumer<T>, seenHead: nat, popped: seq<T>) {
    function Head(): nat {
      Word(|pushed|)
    }

    function Tail(): nat {
      Word(|popped|)
    }

    /** next - cached_tail_ > capacity_ */
    predicate LooksFull() {
      Sub(Word(|pushed| + 1), Word(seenTail)) > |slots|
    }

    /** tail == cached_head_ */
    predicate LooksEmpty() {
      Tail() == Word(seenHead)
    }
  }

  datatype Step<T> =
    | BeginPush(item: T) | RefreshTail(tail: nat) | WriteSlot | PublishHead
    | BeginPop | RefreshHead(head: nat) | ReadSlot | PublishTail

  predicate Enabled<T>(r: Ring<T>, step: Step<T>) {
    match step
    case BeginPush(_) => r.producer.Idle?
    case RefreshTail(tail) => r.producer.Refreshing? && r.seenTail <= tail <= |r.popped|
    case WriteSlot => r.producer.Writing?
    case PublishHead => r.producer.Publishing?
    case BeginPop => r.consumer.Waiting?
    case RefreshHead(head) => r.consumer.Reloading? && r.seenHead <= head <= |r.pushed|
    case ReadSlot => r.consumer.Reading?
    case PublishTail => r.consumer.Releasing?
  }

  function Next<T>(r: Ring<T>, step: Step<T>): Ring<T>
    requires |r.slots| > 0 && Enabled(r, step)
  {
    match step
    case BeginPush(item) =>
      r.(producer := if r.LooksFull() then Refreshing(item) else Writing(item))
    case RefreshTail(tail) =>
      var refreshed := r.(seenTail := tail);
      refreshed.(producer := if refreshed.LooksFull() then Idle else Writing(r.producer.item))
    case WriteSlot =>
      r.(slots := r.slots[r.Head() % |r.slots| := r.producer.item], producer := Publishing(r.producer.item))
    case PublishHead =>
      r.(pushed := r.pushed + [r.producer.item], producer := Idle)
    case BeginPop =>
      r.(consumer := if r.LooksEmpty() then Reloading else Reading)
    case RefreshHead(head) =>
      var refreshed := r.(seenHead := head);
      refreshed.(consumer := if refreshed.LooksEmpty() then Waiting else Reading)
    case ReadSlot =>
      r.(consumer := Releasing(r.slots[r.Tail() % |r.slots|]))
    case PublishTail =>
      r.(popped := r.popped + [r.consumer.got], consumer := Waiting)
  }

  /** A capacity the constructor can produce: at least two, and a proper divisor of the word. */
  ghost predicate Fits(capacity: nat) {
    capacity >= 2 && exists turns: nat {:trigger capacity * turns} :: turns >= 2 && capacity * turns == WORD
  }

  /** A published, unread item sits in its slot. */
  ghost predicate Kept<T>(r: Ring<T>, i: nat) {
    |r.slots| > 0 && (|r.popped| <= i < |r.pushed| ==> r.slots[i % |r.slots|] == r.pushed[i])
  }

  ghost predicate Inv<T>(r: Ring<T>) {
    && Fits(|r.slots|)
    && |r.popped| <= r.seenHead <= |r.pushed| <= r.seenTail + |r.slots|
    && r.seenTail <= |r.popped|
    && r.popped == r.pushed[..|r.popped|]
    && (forall i: nat {:trigger Kept(r, i)} :: Kept(r, i))
    && (r.producer.Writing? || r.producer.Publishing? ==> |r.pushed| < r.seenTail + |r.slots|)
    && (r.producer.Publishing? ==> r.slots[|r.pushed| % |r.slots|] == r.producer.item)
    && (r.consumer.Reading? || r.consumer.Releasing? ==> |r.popped| < r.seenHead)
    && (r.consumer.Releasing? ==> r.consumer.got == r.pushed[|r.popped|])
  }

  lemma WordGap(a: nat, b: nat)
    requires b <= a < b + WORD
    ensures Sub(Word(a), Word(b)) == a - b
  {
    Euclid(a, WORD);
    Euclid(b, WORD);
    var q := b / WORD - a / WORD;
    Distribute(WORD, b / WORD, a / WORD);
    QuotientUnique(Word(a) - Word(b), WORD, q);
    Euclid(Word(a) - Word(b), WORD);
  }

  lemma WordSlot(n: nat, capacity: nat)
    requires Fits(capacity)
    ensures Word(n) % capacity == n % capacity
  {
    var turns: nat :| turns >= 2 && capacity * turns == WORD;
    ModOfMod(n, capacity, turns);
  }

  lemma SmallerThanWord(capacity: nat)
    requires Fits(capacity)
    ensures capacity + 1 < WORD
  {
    var turns: nat :| turns >= 2 && capacity * turns == WORD;
    Scale(2, turns, capacity);
    Commute(turns, capacity);
  }

  /** The wrapping comparisons decide what the true counts would. */
  lemma WordsTell<T>(r: Ring<T>)
    requires Fits(|r.slots|) && r.seenTail <= |r.pushed| <= r.seenTail + |r.slots|
    requires |r.popped| <= r.seenHead <= |r.popped| + |r.slots|
    ensures r.LooksFull() <==> |r.pushed| == r.seenTail + |r.slots|
    ensures r.LooksEmpty() <==> |r.popped| == r.seenHead
    ensures r.Head() % |r.slots| == |r.pushed| % |r.slots|
    ensures r.Tail() % |r.slots| == |r.popped| % |r.slots|
  {
    FullTold(r);
    EmptyTold(r);
    WordSlot(|r.pushed|, |r.slots|);
    WordSlot(|r.popped|, |r.slots|);
  }

  lemma FullTold<T>(r: Ring<T>)
    requires Fits(|r.slots|) && r.seenTail <= |r.pushed| <= r.seenTail + |r.slots|
    ensures r.LooksFull() <==> |r.pushed| == r.seenTail + |r.slots|
  {
    SmallerThanWord(|r.slots|);
    WordGap(|r.pushed| + 1, r.seenTail);
  }

  lemma EmptyTold<T>(r: Ring<T>)
    requires Fits(|r.slots|) && |r.popped| <= r.seenHead <= |r.popped| + |r.slots|
    ensures r.LooksEmpty() <==> |r.popped| == r.seenHead
  {
    SmallerThanWord(|r.slots|);
    WordGap(r.seenHead, |r.popped|);
  }

  /** Writing the next slot overwrites no item that has yet to be read. */
  lemma WriteClobbersNothing<T>(r: Ring<T>, i: nat)
    requires Inv(r) && r.producer.Writing? && |r.popped| <= i < |r.pushed|
    ensures Next(r, WriteSlot).slots[i % |r.slots|] == r.slots[i % |r.slots|] == r.pushed[i]
  {
    WordsTell(r);
    assert Kept(r, i);
    DifferentSlots(|r.pushed|, i, |r.slots|);
  }

  lemma ProducerKeepsInv<T>(r: Ring<T>, step: Step<T>)
    requires Inv(r) && Enabled(r, step) && (step.BeginPush? || step.RefreshTail? || step.WriteSlot?)
    ensures Inv(Next(r, step))
  {
    WordsTell(r);
    var r' := Next(r, step);
    if step.RefreshTail? {
      WordsTell(r.(seenTail := step.tail));
    }
    forall i: nat ensures Kept(r', i) {
      assert Kept(r, i);
      if step.WriteSlot? && |r.popped| <= i < |r.pushed| {
        WriteClobbersNothing(r, i);
      }
    }
  }

  lemma PublishKeepsInv<T>(r: Ring<T>)
    requires Inv(r) && r.producer.Publishing?
    ensures Inv(Next(r, PublishHead))
  {
    var r' := Next(r, PublishHead);
    forall i: nat ensures Kept(r', i) {
      assert Kept(r, i);
    }
  }

  lemma ConsumerKeepsInv<T>(r: Ring<T>, step: Step<T>)
    requires Inv(r) && Enabled(r, step) && (step.BeginPop? || step.RefreshHead? || step.ReadSlot?)
    ensures Inv(Next(r, step))
  {
    WordsTell(r);
    var r' := Next(r, step);
    if step.RefreshHead? {
      WordsTell(r.(seenHead := step.head));
    }
    assert Kept(r, |r.popped|);
    forall i: nat ensures Kept(r', i) {
      assert Kept(r, i);
    }
  }

  lemma ReleaseKeepsInv<T>(r: Ring<T>)
    requires Inv(r) && r.consumer.Releasing?
    ensures Inv(Next(r, PublishTail))
  {
    var r' := Next(r, PublishTail);
    assert r.pushed[..|r.popped| + 1] == r.pushed[..|r.popped|] + [r.pushed[|r.popped|]];
    forall i: nat ensures Kept(r', i) {
      assert Kept(r, i);
    }
  }

  lemma StepKeepsInv<T>(r: Ring<T>, step: Step<T>)
    requires Inv(r) && Enabled(r, step)
    ensures Inv(Next(r, step)) && |Next(r, step).slots| == |r.slots|
  {
    match step
    case BeginPush(_) => ProducerKeepsInv(r, step);
    case RefreshTail(_) => ProducerKeepsInv(r, step);
    case WriteSlot => ProducerKeepsInv(r, step);
    case PublishHead => PublishKeepsInv(r);
    case BeginPop => ConsumerKeepsInv(r, step);
    case RefreshHead(_) => ConsumerKeepsInv(r, step);
    case ReadSlot => ConsumerKeepsInv(r, step);
    case PublishTail => ReleaseKeepsInv(r);
  }

  function Empty<T>(slots: seq<T>): Ring<T> {
    Ring(slots, Idle, 0, [], Waiting, 0, [])
  }

  /** Every step of a schedule is one that side may take. */
  ghost predicate Schedule<T>(r: Ring<T>, steps: seq<Step<T>>)
    decreases |steps|
  {
    steps != [] ==> |r.slots| > 0 && Enabled(r, steps[0]) && Schedule(Next(r, steps[0]), steps[1..])
  }

  function After<T>(r: Ring<T>, steps: seq<Step<T>>): Ring<T>
    requires Schedule(r, steps)
    decreases |steps|
  {
    if steps == [] then r else After(Next(r, steps[0]), steps[1..])
  }

  lemma {:induction false} ScheduleKeepsInv<T>(r: Ring<T>, steps: seq<Step<T>>)
    requires Inv(r) && Schedule(r, steps)
    ensures Inv(After(r, steps)) && |After(r, steps).slots| == |r.slots|
    decreases |steps|
  {
    if steps != [] {
      StepKeepsInv(r, steps[0]);
      ScheduleKeepsInv(Next(r, steps[0]), steps[1..]);
    }
  }

  /** In every interleaving, with every staleness of the cached indices, what has been popped is a prefix
      of what has been pushed, in order, and at most a ring's worth is outstanding. */
  lemma PoppedIsPrefix<T>(slots: seq<T>, steps: seq<Step<T>>)
    requires Fits(|slots|) && Schedule(Empty(slots), steps)
    ensures var r := After(Empty(slots), steps);
      && r.popped <= r.pushed
      && |r.pushed| - |r.popped| <= |slots|
      && Sub(r.Head(), r.Tail()) == |r.pushed| - |r.popped|
  {
    ScheduleKeepsInv(Empty(slots), steps);
    var r := After(Empty(slots), steps);
    SmallerThanWord(|slots|);
    WordGap(|r.pushed|, |r.popped|);
  }

  // ------------------------------------------------------------ the two threads

  /** run_threaded(): the producer spins until each tick of the feed is in, then raises its flag; the
      consumer leaves when a pop has failed, the flag is up and the ring is empty. */
  datatype Threads<T> = Threads(ring: Ring<T>, feed: seq<T>, done: bool, left: bool)

  datatype Turn<T> = RingTurn(step: Step<T>) | RaiseFlag | Leave(head: nat)

  /** Having seen the flag, the consumer also sees every push before it: the acquire load of the flag
      makes the head it then loads exact. */
  ghost predicate Allowed<T>(t: Threads<T>, turn: Turn<T>) {
    match turn
    case RingTurn(step) =>
      && !t.left && Enabled(t.ring, step)
      && (step.BeginPush? ==> !t.done && |t.ring.pushed| < |t.feed| && step.item == t.feed[|t.ring.pushed|])
    case RaiseFlag => t.ring.producer.Idle? && |t.ring.pushed| == |t.feed|
    case Leave(head) =>
      && !t.left && t.ring.consumer.Waiting? && t.done
      && head == |t.ring.pushed| && Sub(Word(head), t.ring.Tail()) == 0
  }

  function Take<T>(t: Threads<T>, turn: Turn<T>): Threads<T>
    requires |t.ring.slots| > 0 && Allowed(t, turn)
  {
    match turn
    case RingTurn(step) => t.(ring := Next(t.ring, step))
    case RaiseFlag => t.(done := true)
    case Leave(_) => t.(left := true)
  }

  /** What the producer is working on is the next tick of the feed. */
  ghost predicate OnFeed<T>(t: Threads<T>) {
    && Inv(t.ring)
    && |t.ring.pushed| <= |t.feed| && t.ring.pushed == t.feed[..|t.ring.pushed|]
    && (!t.ring.producer.Idle? ==> |t.ring.pushed| < |t.feed| && t.ring.producer.item == t.feed[|t.ring.pushed|])
    && (t.done ==> t.ring.producer.Idle? && |t.ring.pushed| == |t.feed|)
    && (t.left ==> t.ring.popped == t.feed)
  }

  lemma TurnKeepsOnFeed<T>(t: Threads<T>, turn: Turn<T>)
    requires OnFeed(t) && Allowed(t, turn)
    ensures OnFeed(Take(t, turn))
  {
    match turn
    case RingTurn(step) =>
      StepKeepsInv(t.ring, step);
      if step.PublishHead? {
        assert t.feed[..|t.ring.pushed| + 1] == t.feed[..|t.ring.pushed|] + [t.feed[|t.ring.pushed|]];
      }
    case RaiseFlag =>
    case Leave(head) =>
      SmallerThanWord(|t.ring.slots|);
      WordGap(|t.ring.pushed|, |t.ring.popped|);
      assert t.feed[..|t.feed|] == t.feed;
      assert t.ring.pushed[..|t.ring.pushed|] == t.ring.pushed;
  }

  ghost predicate Turns<T>(t: Threads<T>, turns: seq<Turn<T>>)
    decreases |turns|
  {
    turns != [] ==> |t.ring.slots| > 0 && Allowed(t, turns[0]) && Turns(Take(t, turns[0]), turns[1..])
  }

  function Run<T>(t: Threads<T>, turns: seq<Turn<T>>): Threads<T>
    requires Turns(t, turns)
    decreases |turns|
  {
    if turns == [] then t else Run(Take(t, turns[0]), turns[1..])
  }

  lemma {:induction false} TurnsKeepOnFeed<T>(t: Threads<T>, turns: seq<Turn<T>>)
    requires OnFeed(t) && Turns(t, turns)
    ensures OnFeed(Run(t, turns)) && Run(t, turns).feed == t.feed
    decreases |turns|
  {
    if turns != [] {
      TurnKeepsOnFeed(t, turns[0]);
      TurnsKeepOnFeed(Take(t, turns[0]), turns[1..]);
    }
  }

  /** Without a stop request the threaded run processes exactly the feed, in order, whatever the
      interleaving: the sequence the inline loop processes. */
  lemma ThreadedSeesTheFeed<T>(slots: seq<T>, feed: seq<T>, turns: seq<Turn<T>>)
    requires Fits(|slots|) && Turns(Threads(Empty(slots), feed, false, false), turns)
    ensures var t := Run(Threads(Empty(slots), feed, false, false), turns);
      && t.ring.popped <= feed
      && (t.left ==> t.ring.popped == feed)
  {
    var start := Threads(Empty(slots), feed, false, false);
    TurnsKeepOnFeed(start, turns);
    var t := Run(start, turns);
    assert t.ring.popped == feed[..|t.ring.popped|];
  }

  // ------------------------------------------------------------ one operation at a time

  /** try_push() with nothing in between: a refresh then sees the real tail. */
  function PushAlone<T>(r: Ring<T>, item: T): Ring<T>
    requires |r.slots| > 0 && r.producer.Idle? && r.seenTail <= |r.popped|
  {
    var r1 := Next(r, BeginPush(item));
    var r2 := if r1.producer.Refreshing? then Next(r1, RefreshTail(|r.popped|)) else r1;
    if r2.producer.Idle? then r2 else Next(Next(r2, WriteSlot), PublishHead)
  }

  /** try_pop() with nothing in between. */
  function PopAlone<T>(r: Ring<T>): Ring<T>
    requires |r.slots| > 0 && r.consumer.Waiting? && r.seenHead <= |r.pushed|
  {
    var r1 := Next(r, BeginPop);
    var r2 := if r1.consumer.Reloading? then Next(r1, RefreshHead(|r.pushed|)) else r1;
    if r2.consumer.Waiting? then r2 else Next(Next(r2, ReadSlot), PublishTail)
  }

  predicate HasRoom<T>(r: Ring<T>) {
    |r.pushed| - |r.popped| < |r.slots|
  }

  /** A push is refused only when the ring is full. */
  lemma PushAlonePushes<T>(r: Ring<T>, item: T)
    requires Inv(r) && r.producer.Idle?
    ensures var r' := PushAlone(r, item);
      && Inv(r') && r'.producer.Idle? && r'.consumer == r.consumer && |r'.slots| == |r.slots|
      && r' == r.(seenTail := if |r.pushed| == r.seenTail + |r.slots| then |r.popped| else r.seenTail,
                  slots := if HasRoom(r) then r.slots[|r.pushed| % |r.slots| := item] else r.slots,
                  pushed := if HasRoom(r) then r.pushed + [item] else r.pushed)
  {
    WordsTell(r);
    var r1 := Next(r, BeginPush(item));
    StepKeepsInv(r, BeginPush(item));
    if r1.producer.Refreshing? {
      WordsTell(r1.(seenTail := |r.popped|));
      StepKeepsInv(r1, RefreshTail(|r.popped|));
    }
    var r2 := if r1.producer.Refreshing? then Next(r1, RefreshTail(|r.popped|)) else r1;
    if r2.producer.Writing? {
      StepKeepsInv(r2, WriteSlot);
      StepKeepsInv(Next(r2, WriteSlot), PublishHead);
    }
  }

  /** A pop delivers the oldest item, and fails only when there is none. */
  lemma PopAlonePops<T>(r: Ring<T>)
    requires Inv(r) && r.consumer.Waiting?
    ensures var r' := PopAlone(r);
      && Inv(r') && r'.consumer.Waiting? && r'.producer == r.producer && |r'.slots| == |r.slots|
      && r' == r.(seenHead := if |r.popped| == r.seenHead then |r.pushed| else r.seenHead,
                  popped := if |r.popped| < |r.pushed| then r.popped + [r.pushed[|r.popped|]] else r.popped)
  {
    WordsTell(r);
    var r1 := Next(r, BeginPop);
    StepKeepsInv(r, BeginPop);
    if r1.consumer.Reloading? {
      WordsTell(r1.(seenHead := |r.pushed|));
      StepKeepsInv(r1, RefreshHead(|r.pushed|));
    }
    var r2 := if r1.consumer.Reloading? then Next(r1, RefreshHead(|r.pushed|)) else r1;
    if r2.consumer.Reading? {
      StepKeepsInv(r2, ReadSlot);
      StepKeepsInv(Next(r2, ReadSlot), PublishTail);
    }
  }

  /** round_up_pow2() */
  method RoundUpPow2(n: nat) returns (p: nat)
    requires n <= Pow2(63)
    ensures n <= p && (p == 2 || p < 2 * n) && Fits(p)
  {
    if n < 2 {
      PowersFit(1);
      return 2;
    }
    p := 1;
    ghost var k := 0;
    while p < n
      invariant p == Pow2(k) && k <= 63 && (p == 1 || p < 2 * n)
      decreases 2 * n - p
    {
      if k == 63 {
        assert false;
      }
      p := p * 2;
      k := k + 1;
    }
    PowersFit(k);
  }

  lemma {:induction false} PowersDivide(k: nat, n: nat)
    requires k <= n
    ensures Pow2(k) * Pow2(n - k) == Pow2(n)
  {
    if k > 0 {
      PowersDivide(k - 1, n - 1);
    }
  }

  lemma PowersFit(k: nat)
    requires 1 <= k <= 63
    ensures Fits(Pow2(k))
  {
    WordIsPow2();
    PowersDivide(k, 64);
    assert Pow2(k) * Pow2(64 - k) == WORD;
    assert Pow2(k) == 2 * Pow2(k - 1) && Pow2(64 - k) == 2 * Pow2(63 - k);
  }

  lemma QuarterWord()
    ensures Pow2(16) == 0x1_0000
  {
    PowersDivide(8, 16);
    assert Pow2(8) == 256 && 256 * 256 == 0x1_0000;
  }

  lemma HalfWord()
    ensures Pow2(32) == 0x1_0000_0000
  {
    QuarterWord();
    PowersDivide(16, 32);
    assert 0x1_0000 * 0x1_0000 == 0x1_0000_0000;
  }

  lemma WordIsPow2()
    ensures Pow2(64) == WORD
  {
    HalfWord();
    PowersDivide(32, 64);
    assert 0x1_0000_0000 * 0x1_0000_0000 == WORD;
  }

  lemma WordNext(n: nat)
    ensures (Word(n) + 1) % WORD == Word(n + 1)
  {
  }

  /** A refresh by either side, with nothing in between, changes only what that side has seen. */
  lemma RefreshKept<T>(r: Ring<T>)
    requires Inv(r) && r.producer.Idle? && r.consumer.Waiting?
    ensures Inv(r.(seenTail := |r.popped|)) && Inv(r.(seenHead := |r.pushed|))
    ensures r.(seenTail := |r.popped|).LooksFull() <==> |r.pushed| == |r.popped| + |r.slots|
    ensures r.(seenHead := |r.pushed|).LooksEmpty() <==> |r.pushed| == |r.popped|
  {
    var p, c := r.(seenTail := |r.popped|), r.(seenHead := |r.pushed|);
    forall i: nat ensures Kept(p, i) && Kept(c, i) {
      assert Kept(r, i);
    }
    WordsTell(p);
    WordsTell(c);
  }

  lemma PublishKept<T>(r: Ring<T>, item: T)
    requires Inv(r) && r.producer.Idle? && |r.pushed| < r.seenTail + |r.slots|
    ensures Inv(Next(Next(r.(producer := Writing(item)), WriteSlot), PublishHead))
  {
    var w := r.(producer := Writing(item));
    forall i: nat ensures Kept(w, i) {
      assert Kept(r, i);
    }
    assert Inv(w);
    StepKeepsInv(w, WriteSlot);
    StepKeepsInv(Next(w, WriteSlot), PublishHead);
  }

  lemma ReleaseKept<T>(r: Ring<T>)
    requires Inv(r) && r.consumer.Waiting? && |r.popped| < r.seenHead
    ensures Inv(Next(Next(r.(consumer := Reading), ReadSlot), PublishTail))
    ensures Next(r.(consumer := Reading), ReadSlot).consumer.got == r.pushed[|r.popped|]
  {
    var w := r.(consumer := Reading);
    forall i: nat ensures Kept(w, i) {
      assert Kept(r, i);
    }
    assert Inv(w);
    StepKeepsInv(w, ReadSlot);
    StepKeepsInv(Next(w, ReadSlot), PublishTail);
  }

  class SpscRingBuffer<T> {
    const slots: array<T>
    var head: nat
    var cachedTail: nat
    var dropped: nat
    var tail: nat
    var cachedHead: nat
    ghost var pushed: seq<T>
    ghost var popped: seq<T>
    ghost var seenTail: nat
    ghost var seenHead: nat

    ghost function State(): Ring<T>
      reads this, slots
    {
      Ring(slots[..], Idle, seenTail, pushed, Waiting, seenHead, popped)
    }

    ghost predicate Valid()
      reads this, slots
    {
      && Inv(State())
      && head == Word(|pushed|) && cachedTail == Word(seenTail)
      && tail == Word(|popped|) && cachedHead == Word(seenHead)
    }

    constructor (capacity: nat, blank: T)
      requires Fits(capacity)
      ensures Valid() && fresh(slots) && slots.Length == capacity
      ensures pushed == [] && popped == [] && dropped == 0
    {
      slots := new T[capacity](_ => blank);
      head, cachedTail, dropped, tail, cachedHead := 0, 0, 0, 0, 0;
      pushed, popped, seenTail, seenHead := [], [], 0, 0;
      new;
    }

    /** The producer's refresh: load the tail and look again. */
    method RefreshesTail() returns (full: bool)
      requires Valid()
      modifies this`cachedTail, this`seenTail
      ensures Valid() && seenTail == |popped|
      ensures full == (|pushed| == |popped| + slots.Length)
    {
      RefreshKept(State());
      WordNext(|pushed|);
      cachedTail, seenTail := tail, |popped|;
      assert State() == old(State()).(seenTail := |popped|);
      full := Sub((head + 1) % WORD, cachedTail) > slots.Length;
    }

    /** Writes the slot and publishes the head. */
    method Publish(item: T)
      requires Valid() && |pushed| < seenTail + slots.Length
      modifies this`head, this`pushed, slots
      ensures Valid() && pushed == old(pushed) + [item]
      ensures slots[..] == old(slots[..])[|old(pushed)| % slots.Length := item]
    {
      ghost var r := State();
      WordsTell(r);
      WordNext(|pushed|);
      PublishKept(r, item);
      slots[head % slots.Length] := item;
      head, pushed := (head + 1) % WORD, pushed + [item];
      assert State() == Next(Next(r.(producer := Writing(item)), WriteSlot), PublishHead);
    }

    method TryPush(item: T) returns (ok: bool)
      requires Valid()
      modifies this, slots
      ensures Valid() && State() == PushAlone(old(State()), item) && dropped == old(dropped)
      ensures ok == HasRoom(old(State()))
      ensures pushed == (if ok then old(pushed) + [item] else old(pushed)) && popped == old(popped)
    {
      PushAlonePushes(State(), item);
      WordsTell(State());
      WordNext(|pushed|);
      if Sub((head + 1) % WORD, cachedTail) > slots.Length {
        var full := RefreshesTail();
        if full {
          return false;
        }
      }
      Publish(item);
      return true;
    }

    /** push_or_drop() */
    method PushOrDrop(item: T) returns (ok: bool)
      requires Valid()
      modifies this, slots
      ensures Valid() && ok == HasRoom(old(State()))
      ensures pushed == (if ok then old(pushed) + [item] else old(pushed)) && popped == old(popped)
      ensures dropped == if ok then old(dropped) else old(dropped) + 1
    {
      ok := TryPush(item);
      if !ok {
        dropped := dropped + 1;
      }
    }

    /** Reads the slot and publishes the tail. */
    method Release() returns (got: T)
      requires Valid() && |popped| < seenHead
      modifies this`tail, this`popped
      ensures Valid() && got == pushed[|old(popped)|] && popped == old(popped) + [got]
    {
      ghost var r := State();
      WordsTell(r);
      WordNext(|popped|);
      ReleaseKept(r);
      got := slots[tail % slots.Length];
      tail, popped := (tail + 1) % WORD, popped + [got];
      assert State() == Next(Next(r.(consumer := Reading), ReadSlot), PublishTail);
    }

    /** The consumer's refresh: load the head and look again. */
    method RefreshesHead() returns (empty: bool)
      requires Valid()
      modifies this`cachedHead, this`seenHead
      ensures Valid() && seenHead == |pushed|
      ensures empty == (|pushed| == |popped|)
    {
      RefreshKept(State());
      cachedHead, seenHead := head, |pushed|;
      assert State() == old(State()).(seenHead := |pushed|);
      empty := tail == cachedHead;
    }

    method TryPop(blank: T) returns (ok: bool, got: T)
      requires Valid()
      modifies this
      ensures Valid() && State() == PopAlone(old(State()))
      ensures ok == (|old(popped)| < |old(pushed)|)
      ensures ok ==> got == old(pushed)[|old(popped)|]
      ensures popped == (if ok then old(popped) + [got] else old(popped)) && pushed == old(pushed)
    {
      PopAlonePops(State());
      WordsTell(State());
      if tail == cachedHead {
        var empty := RefreshesHead();
        if empty {
          return false, blank;
        }
      }
      got := Release();
      return true, got;
    }

    /** size_approx(), exact when nothing is moving. */
    method Size() returns (n: nat)
      requires Valid()
      ensures n == |pushed| - |popped|
    {
      SmallerThanWord(slots.Length);
      WordGap(|pushed|, |popped|);
      return Sub(head, tail);
    }
  }
}

/** The journal's checksum: the table-driven CRC-32 is the bit-by-bit one (the algorithm of section 8 of
    RFC 1952, the polynomial of clause 3.2.9 of IEEE 802.3), and no change within 32 adjacent bits goes unseen.

    A 32-bit word is the sequence of its binary digits, lowest first. */
module Crc32 {
  import opened Words

  const WIDTH: nat := 32

  /** The k lowest binary digits of n. */
  function Bits(n: nat, k: nat): (b: seq<bool>)
    ensures |b| == k
  {
    seq(k, i requires 0 <= i < k => Has(n, i))
  }

  function Value(b: seq<bool>): nat {
    if b == [] then 0 else (if b[0] then 1 else 0) + 2 * Value(b[1..])
  }

  function Xor(a: seq<bool>, b: seq<bool>): (r: seq<bool>)
    requires |a| == |b|
    ensures |r| == |a|
  {
    seq(|a|, i requires 0 <= i < |a| => a[i] != b[i])
  }

  function Falses(n: nat): (r: seq<bool>)
    ensures |r| == n && forall i :: 0 <= i < n ==> !r[i]
  {
    seq(n, _ => false)
  }

  /** c >> n */
  function Down(c: seq<bool>, n: nat): (r: seq<bool>)
    requires n <= |c|
    ensures |r| == |c|
  {
    c[n..] + Falses(n)
  }

  /** 0xEDB88320 */
  function Polynomial(): (p: seq<bool>)
    ensures |p| == WIDTH
  {
    Bits(0xEDB88320, WIDTH)
  }

  /** One bit through the reflected shift register. */
  function Step(c: seq<bool>): (r: seq<bool>)
    requires |c| == WIDTH
    ensures |r| == WIDTH
  {
    if c[0] then Xor(Polynomial(), Down(c, 1)) else Down(c, 1)
  }

  function Steps(c: seq<bool>, n: nat): (r: seq<bool>)
    requires |c| == WIDTH
    ensures |r| == WIDTH
    decreases n
  {
    if n == 0 then c else Steps(Step(c), n - 1)
  }

  // ------------------------------------------------------------ the definition, bit by bit

  /** The bits of a message enter the register one at a time, at its low end. */
  function Feed(c: seq<bool>, message: seq<bool>): (r: seq<bool>)
    requires |c| == WIDTH
    ensures |r| == WIDTH
    decreases |message|
  {
    if message == [] then c else Feed(Step(c[0 := c[0] != message[0]]), message[1..])
  }

  /** A byte string as bits, the lowest bit of each byte first. */
  function Message(bytes: seq<nat>): seq<bool> {
    if bytes == [] then [] else Message(bytes[..|bytes| - 1]) + Bits(bytes[|bytes| - 1], 8)
  }

  function Complement(c: seq<bool>): (r: seq<bool>)
    ensures |r| == |c|
  {
    seq(|c|, i requires 0 <= i < |c| => !c[i])
  }

  /** The checksum of a message: the register starts and ends complemented. */
  function Checksum(message: seq<bool>, seed: seq<bool>): seq<bool>
    requires |seed| == WIDTH
  {
    Complement(Feed(Complement(seed), message))
  }

  // ------------------------------------------------------------ digits

  lemma {:induction false} ValueDigit(b: seq<bool>, i: nat)
    requires i < |b|
    ensures Has(Value(b), i) == b[i]
  {
    if i > 0 {
      ValueDigit(b[1..], i - 1);
    }
  }

  lemma {:induction false} ValueFits(b: seq<bool>)
    ensures Value(b) < Pow2(|b|)
  {
    if b != [] {
      ValueFits(b[1..]);
    }
  }

  lemma BitsOfValue(b: seq<bool>)
    ensures Bits(Value(b), |b|) == b
    ensures Value(b) < Pow2(|b|)
  {
    ValueFits(b);
    forall i | 0 <= i < |b| ensures Bits(Value(b), |b|)[i] == b[i] {
      ValueDigit(b, i);
    }
  }

  lemma EightDown(n: nat, i: nat)
    ensures Has(n, i + 8) == Has(n / 256, i)
  {
    assert Has(n, i + 8) == Has(n / 2, i + 7) == Has(n / 2 / 2, i + 6) == Has(n / 2 / 2 / 2, i + 5)
        == Has(n / 2 / 2 / 2 / 2, i + 4);
    assert n / 2 / 2 / 2 / 2 == n / 16;
    assert Has(n / 16, i + 4) == Has(n / 16 / 2, i + 3) == Has(n / 16 / 2 / 2, i + 2)
        == Has(n / 16 / 2 / 2 / 2, i + 1) == Has(n / 16 / 2 / 2 / 2 / 2, i);
  }

  /** The polynomial's highest digit is set. */
  lemma TopBit()
    ensures Polynomial()[31]
  {
    EightDown(0xEDB88320, 23);
    EightDown(0xEDB883, 15);
    EightDown(0xEDB8, 7);
    assert Has(0xED, 7) == Has(0x76, 6) == Has(0x3B, 5) == Has(0x1D, 4) == Has(0xE, 3) == Has(7, 2) == Has(3, 1)
        == Has(1, 0);
  }

  // ------------------------------------------------------------ the register is linear and loses nothing

  lemma StepAt(c: seq<bool>, i: nat)
    requires |c| == WIDTH && i < WIDTH
    ensures Step(c)[i] == ((c[0] && Polynomial()[i]) != (i < 31 && c[i + 1]))
  {
  }

  lemma StepLinear(x: seq<bool>, y: seq<bool>)
    requires |x| == |y| == WIDTH
    ensures Step(Xor(x, y)) == Xor(Step(x), Step(y))
  {
    forall i | 0 <= i < WIDTH ensures Step(Xor(x, y))[i] == Xor(Step(x), Step(y))[i] {
      StepAt(x, i);
      StepAt(y, i);
      StepAt(Xor(x, y), i);
    }
  }

  lemma StepInjective(x: seq<bool>, y: seq<bool>)
    requires |x| == |y| == WIDTH && Step(x) == Step(y)
    ensures x == y
  {
    TopBit();
    StepAt(x, 31);
    StepAt(y, 31);
    forall i | 0 <= i < WIDTH ensures x[i] == y[i] {
      if i > 0 {
        StepAt(x, i - 1);
        StepAt(y, i - 1);
      }
    }
  }

  lemma {:induction false} StepsLinear(x: seq<bool>, y: seq<bool>, n: nat)
    requires |x| == |y| == WIDTH
    ensures Steps(Xor(x, y), n) == Xor(Steps(x, n), Steps(y, n))
    decreases n
  {
    if n > 0 {
      StepLinear(x, y);
      StepsLinear(Step(x), Step(y), n - 1);
    }
  }

  lemma {:induction false} StepsInjective(x: seq<bool>, y: seq<bool>, n: nat)
    requires |x| == |y| == WIDTH && Steps(x, n) == Steps(y, n)
    ensures x == y
    decreases n
  {
    if n > 0 {
      StepsInjective(Step(x), Step(y), n - 1);
      StepInjective(x, y);
    }
  }

  /** A register whose n low bits are zero only shifts. */
  lemma {:induction false} StepsShift(z: seq<bool>, n: nat)
    requires |z| == WIDTH && n <= WIDTH && forall i :: 0 <= i < n ==> !z[i]
    ensures Steps(z, n) == Down(z, n)
    decreases n
  {
    if n == 0 {
      assert Down(z, 0) == z;
    } else {
      var z' := Step(z);
      assert z' == Down(z, 1);
      StepsShift(z', n - 1);
      assert Down(z', n - 1) == Down(z, n);
    }
  }

  // ------------------------------------------------------------ up to a word at a time

  /** A message of at most 32 bits, as the word it makes at the low end. */
  function Padded(w: seq<bool>): (r: seq<bool>)
    requires |w| <= WIDTH
    ensures |r| == WIDTH
  {
    w + Falses(WIDTH - |w|)
  }

  /** Up to 32 bits can go into the register all at once. */
  lemma {:induction false} FeedIsSteps(c: seq<bool>, w: seq<bool>)
    requires |c| == WIDTH && |w| <= WIDTH
    ensures Feed(c, w) == Steps(Xor(c, Padded(w)), |w|)
    decreases |w|
  {
    if w == [] {
      assert Xor(c, Padded(w)) == c;
    } else {
      var fed := c[0 := c[0] != w[0]];
      var waiting := Padded([false] + w[1..]);
      FeedIsSteps(Step(fed), w[1..]);
      assert Xor(c, Padded(w)) == Xor(fed, waiting);
      StepLinear(fed, waiting);
      assert Step(waiting) == Down(waiting, 1) == Padded(w[1..]);
    }
  }

  /** The table's entry for a byte. */
  function Entry(i: nat): seq<bool> {
    Steps(Bits(i, WIDTH), 8)
  }

  lemma BitsWiden(n: nat, k: nat, m: nat)
    requires n < Pow2(k) && k <= m
    ensures Bits(n, m) == Bits(n, k) + Falses(m - k)
  {
    forall i | 0 <= i < m ensures Bits(n, m)[i] == (Bits(n, k) + Falses(m - k))[i] {
      if i >= k {
        DigitsFit(n, k, i);
      }
    }
  }

  /** The low byte of a register and the rest of it. */
  lemma Halves(z: seq<bool>)
    requires |z| == WIDTH
    ensures z == Xor(Padded(z[..8]), Falses(8) + z[8..])
    ensures Down(Falses(8) + z[8..], 8) == Down(z, 8)
  {
  }

  lemma LowByte(z: seq<bool>)
    requires |z| == 8
    ensures Bits(Value(z), WIDTH) == Padded(z)
  {
    BitsOfValue(z);
    BitsWiden(Value(z), 8, WIDTH);
  }

  /** Eight steps of the whole are the table's entry for the low byte, and the rest moved down. */
  lemma StepsOfHalves(z: seq<bool>)
    requires |z| == WIDTH
    ensures Steps(z, 8) == Xor(Entry(Value(z[..8])), Down(z, 8))
  {
    Halves(z);
    StepsLinear(Padded(z[..8]), Falses(8) + z[8..], 8);
    StepsShift(Falses(8) + z[8..], 8);
    LowByte(z[..8]);
  }

  /** One table look-up does the work of eight bits. */
  lemma LookUp(c: seq<bool>, w: seq<bool>)
    requires |c| == WIDTH && |w| == 8
    ensures Feed(c, w) == Xor(Entry(Value(Xor(c, Padded(w))[..8])), Down(c, 8))
  {
    var z := Xor(c, Padded(w));
    FeedIsSteps(c, w);
    assert Down(z, 8) == Down(c, 8);
    StepsOfHalves(z);
  }

  /** One entry of the table. */
  method EightShifts(i: nat) returns (c: seq<bool>)
    ensures c == Entry(i)
  {
    c := Bits(i, WIDTH);
    for k := 0 to 8
      invariant |c| == WIDTH && Steps(c, 8 - k) == Entry(i)
    {
      c := if c[0] then Xor(Polynomial(), Down(c, 1)) else Down(c, 1);
    }
  }

  /** crc_table() */
  method Table() returns (t: seq<seq<bool>>)
    ensures |t| == 256 && forall i :: 0 <= i < 256 ==> t[i] == Entry(i)
  {
    t := [];
    for i := 0 to 256
      invariant |t| == i && forall j :: 0 <= j < i ==> t[j] == Entry(j)
    {
      var c := EightShifts(i);
      t := t + [c];
    }
  }

  /** crc32(), a byte at a time through the table. */
  method Compute(bytes: seq<nat>, seed: seq<bool>) returns (crc: seq<bool>)
    requires |seed| == WIDTH
    ensures crc == Checksum(Message(bytes), seed)
  {
    var table := Table();
    var c := Complement(seed);
    for i := 0 to |bytes|
      invariant |c| == WIDTH && c == Feed(Complement(seed), Message(bytes[..i]))
    {
      var w := Bits(bytes[i], 8);
      assert bytes[..i + 1][..i] == bytes[..i];
      FeedAppend(Complement(seed), Message(bytes[..i]), w);
      LookUp(c, w);
      var index := Value(Xor(c, Padded(w))[..8]);
      ByteIndex(Xor(c, Padded(w))[..8]);
      c := Xor(table[index], Down(c, 8));
    }
    assert bytes[..|bytes|] == bytes;
    return Complement(c);
  }

  lemma ByteIndex(b: seq<bool>)
    requires |b| == 8
    ensures Value(b) < 256
  {
    BitsOfValue(b);
    assert Pow2(8) == 256;
  }

  // ------------------------------------------------------------ what it detects

  lemma {:induction false} FeedAppend(c: seq<bool>, a: seq<bool>, b: seq<bool>)
    requires |c| == WIDTH
    ensures Feed(c, a + b) == Feed(Feed(c, a), b)
    decreases |a|
  {
    if a == [] {
      assert a + b == b;
    } else {
      assert (a + b)[1..] == a[1..] + b;
      FeedAppend(Step(c[0 := c[0] != a[0]]), a[1..], b);
    }
  }

  /** The same bits after different registers leave different registers. */
  lemma {:induction false} FeedInjective(c: seq<bool>, d: seq<bool>, message: seq<bool>)
    requires |c| == |d| == WIDTH && Feed(c, message) == Feed(d, message)
    ensures c == d
    decreases |message|
  {
    if message != [] {
      var c', d' := c[0 := c[0] != message[0]], d[0 := d[0] != message[0]];
      FeedInjective(Step(c'), Step(d'), message[1..]);
      StepInjective(c', d');
      assert forall i :: 0 < i < WIDTH ==> c[i] == c'[i] && d[i] == d'[i];
      assert c'[0] == d'[0];
    }
  }

  lemma XorInjective(c: seq<bool>, x: seq<bool>, y: seq<bool>)
    requires |c| == |x| == |y| && Xor(c, x) == Xor(c, y)
    ensures x == y
  {
    forall i | 0 <= i < |x| ensures x[i] == y[i] {
      assert Xor(c, x)[i] == Xor(c, y)[i];
    }
  }

  /** Different words of up to 32 bits leave a register different. */
  lemma WordsTellApart(c: seq<bool>, w: seq<bool>, v: seq<bool>)
    requires |c| == WIDTH && |w| == |v| <= WIDTH && Feed(c, w) == Feed(c, v)
    ensures w == v
  {
    FeedIsSteps(c, w);
    FeedIsSteps(c, v);
    StepsInjective(Xor(c, Padded(w)), Xor(c, Padded(v)), |w|);
    XorInjective(c, Padded(w), Padded(v));
    assert w == Padded(w)[..|w|] && v == Padded(v)[..|v|];
  }

  lemma ComplementInjective(x: seq<bool>, y: seq<bool>)
    requires Complement(x) == Complement(y)
    ensures x == y
  {
    assert |x| == |Complement(x)| == |y|;
    forall i | 0 <= i < |x| ensures x[i] == y[i] {
      assert Complement(x)[i] == Complement(y)[i];
    }
  }

  /** Two messages that differ only within 32 adjacent bits never have the same checksum. */
  lemma BurstDetected(before: seq<bool>, w: seq<bool>, v: seq<bool>, after: seq<bool>, seed: seq<bool>)
    requires |seed| == WIDTH && |w| == |v| <= WIDTH
    requires Checksum(before + w + after, seed) == Checksum(before + v + after, seed)
    ensures w == v
  {
    var c := Complement(seed);
    ComplementInjective(Feed(c, before + w + after), Feed(c, before + v + after));
    FeedAppend(c, before + w, after);
    FeedAppend(c, before + v, after);
    FeedAppend(c, before, w);
    FeedAppend(c, before, v);
    FeedInjective(Feed(Feed(c, before), w), Feed(Feed(c, before), v), after);
    WordsTellApart(Feed(c, before), w, v);
  }

  lemma {:induction false} DigitsTell(m: nat, n: nat, k: nat)
    requires m < Pow2(k) && n < Pow2(k) && forall i: nat :: i < k ==> Has(m, i) == Has(n, i)
    ensures m == n
    decreases k
  {
    if k > 0 {
      forall i: nat | i < k - 1 ensures Has(m / 2, i) == Has(n / 2, i) {
        assert Has(m, i + 1) == Has(n, i + 1);
      }
      DigitsTell(m / 2, n / 2, k - 1);
      assert Has(m, 0) == Has(n, 0);
    }
  }

  lemma BitsInjective(m: nat, n: nat, k: nat)
    requires Bits(m, k) == Bits(n, k) && m < Pow2(k) && n < Pow2(k)
    ensures m == n
  {
    forall i: nat | i < k ensures Has(m, i) == Has(n, i) {
      assert Bits(m, k)[i] == Bits(n, k)[i];
    }
    DigitsTell(m, n, k);
  }

  lemma {:induction false} MessageAppend(a: seq<nat>, b: seq<nat>)
    ensures Message(a + b) == Message(a) + Message(b)
    decreases |b|
  {
    if b == [] {
      assert a + b == a;
    } else {
      assert (a + b)[..|a + b| - 1] == a + b[..|b| - 1];
      MessageAppend(a, b[..|b| - 1]);
    }
  }

  /** A change to any one byte of a record is always seen. */
  lemma ByteChangeDetected(bytes: seq<nat>, i: nat, b: nat, seed: seq<bool>)
    requires |seed| == WIDTH && i < |bytes| && bytes[i] < 256 && b < 256 && b != bytes[i]
    ensures Checksum(Message(bytes[i := b]), seed) != Checksum(Message(bytes), seed)
  {
    Around(bytes, i, bytes[i]);
    Around(bytes, i, b);
    assert bytes[i := bytes[i]] == bytes;
    if Checksum(Message(bytes[i := b]), seed) == Checksum(Message(bytes), seed) {
      BurstDetected(Message(bytes[..i]), Bits(b, 8), Bits(bytes[i], 8), Message(bytes[i + 1..]), seed);
      assert Pow2(8) == 256;
      BitsInjective(b, bytes[i], 8);
    }
  }

  lemma Around(bytes: seq<nat>, i: nat, b: nat)
    requires i < |bytes|
    ensures Message(bytes[i := b]) == Message(bytes[..i]) + Bits(b, 8) + Message(bytes[i + 1..])
  {
    assert bytes[i := b] == bytes[..i] + [b] + bytes[i + 1..];
    MessageAppend(bytes[..i] + [b], bytes[i + 1..]);
    MessageAppend(bytes[..i], [b]);
    assert [b][..0] == [] && Message([]) + Bits(b, 8) == Bits(b, 8);
  }
}

/** The few facts about products and quotients that the solver will not look for by itself. */
module Arith {
  lemma Scale(a: int, b: int, q: nat)
    requires a <= b
    ensures a * q <= b * q
  {
  }

  lemma Distribute(d: int, a: int, b: int)
    ensures d * (a + b) == d * a + d * b
    ensures d * (a - b) == d * a - d * b
  {
  }

  lemma Commute(a: int, b: int)
    ensures a * b == b * a
  {
  }

  lemma Negate(a: int, b: int)
    ensures (-a) * b == -(a * b)
  {
  }

  /** Euclid, with the product kept in one shape. */
  lemma Euclid(n: int, den: int)
    requires den > 0
    ensures 0 <= n - den * (n / den) < den
  {
    assert n - den * (n / den) == n % den;
  }

  /** A quotient is the only multiple within reach. */
  lemma QuotientUnique(n: int, den: int, q: int)
    requires den > 0 && 0 <= n - den * q < den
    ensures n / den == q
  {
    Euclid(n, den);
    var d := n / den - q;
    Distribute(den, n / den, q);
    if d > 0 {
      Scale(1, d, den);
      Commute(den, d);
    } else if d < 0 {
      Scale(d, -1, den);
      Commute(den, d);
    }
  }

  /** C++ integer division: toward zero. */
  function TruncDiv(num: int, den: int): int
    requires den != 0
  {
    if num >= 0 then num / den else -((-num) / den)
  }

  function TruncMod(num: int, den: int): int
    requires den != 0
  {
    num - den * TruncDiv(num, den)
  }

  /** The next slot of a ring of n. */
  function Advance(n: nat, i: nat): (r: nat)
    requires i < n
    ensures r < n
  {
    if i + 1 == n then 0 else i + 1
  }

  /** Two numbers less than c apart fall into different slots of a ring of c. */
  lemma DifferentSlots(a: nat, b: nat, c: nat)
    requires b < a < b + c
    ensures a % c != b % c
  {
    if a % c == b % c {
      var d := a / c - b / c;
      Euclid(a, c);
      Euclid(b, c);
      Distribute(c, a / c, b / c);
      assert a - b == c * d;
      Commute(c, d);
      if d > 0 {
        Scale(1, d, c);
      } else {
        Scale(d, 0, c);
      }
      assert false;
    }
  }

  /** A remainder of a remainder, when one modulus divides the other. */
  lemma ModOfMod(n: nat, c: nat, k: nat)
    requires c > 0 && k > 0
    ensures (n % (c * k)) % c == n % c
  {
    var w, q, r := c * k, n / (c * k), n % (c * k);
    assert w > 0 by {
      Scale(1, c, k);
    }
    Euclid(n, w);
    Euclid(r, c);
    assert n == w * q + r && w * q == c * (k * q);
    Distribute(c, k * q, r / c);
    Scale(0, k, q);
    QuotientUnique(n, c, k * q + r / c);
    Euclid(n, c);
  }
}

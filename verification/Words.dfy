/** 64-bit words, seen through their binary digits.

    A word is a natural number below 2^64.  The bit operations the level bitmap
    performs on one (or-ing in a bit, masking one out, counting leading and
    trailing zeros, masking off a prefix or a suffix) are given by recursion on the
    digits, and each is characterised by the digits of its result. */
module Words {
  const WORD_BITS: nat := 64

  function Pow2(n: nat): (r: nat)
    ensures r >= 1
  {
    if n == 0 then 1 else 2 * Pow2(n - 1)
  }

  predicate IsWord(w: nat) {
    w < Pow2(WORD_BITS)
  }

  /** Digit i of w. */
  predicate Has(w: nat, i: nat) {
    if i == 0 then w % 2 == 1 else Has(w / 2, i - 1)
  }

  /** w | (1 << i) */
  function SetBit(w: nat, i: nat): (r: nat)
    ensures r > 0
  {
    if i == 0 then w + 1 - w % 2 else 2 * SetBit(w / 2, i - 1) + w % 2
  }

  /** w & ~(1 << i) */
  function ClearBit(w: nat, i: nat): nat {
    if i == 0 then w - w % 2 else 2 * ClearBit(w / 2, i - 1) + w % 2
  }

  /** w & (~0 << i) */
  function KeepFrom(w: nat, i: nat): nat {
    if i == 0 then w else 2 * KeepFrom(w / 2, i - 1)
  }

  /** w & ((1 << i) - 1) */
  function KeepBelow(w: nat, i: nat): nat {
    if i == 0 then 0 else 2 * KeepBelow(w / 2, i - 1) + w % 2
  }

  /** 63 - clz(w) */
  function HighestBit(w: nat): (r: nat)
    requires w > 0
    ensures Has(w, r)
    ensures Pow2(r) <= w < Pow2(r + 1)
  {
    if w == 1 then 0 else HighestBit(w / 2) + 1
  }

  /** ctz(w) */
  function LowestBit(w: nat): (r: nat)
    requires w > 0
    ensures Has(w, r)
  {
    if w % 2 == 1 then 0 else LowestBit(w / 2) + 1
  }

  lemma {:induction false} SetBitDigits(w: nat, i: nat, j: nat)
    ensures Has(SetBit(w, i), j) <==> i == j || Has(w, j)
  {
    if i > 0 && j > 0 {
      SetBitDigits(w / 2, i - 1, j - 1);
    }
  }

  lemma {:induction false} ClearBitDigits(w: nat, i: nat, j: nat)
    ensures Has(ClearBit(w, i), j) <==> i != j && Has(w, j)
  {
    if i > 0 && j > 0 {
      ClearBitDigits(w / 2, i - 1, j - 1);
    }
  }

  lemma {:induction false} KeepFromDigits(w: nat, i: nat, j: nat)
    ensures Has(KeepFrom(w, i), j) <==> i <= j && Has(w, j)
  {
    if i > 0 && j > 0 {
      KeepFromDigits(w / 2, i - 1, j - 1);
    }
  }

  lemma {:induction false} KeepBelowDigits(w: nat, i: nat, j: nat)
    ensures Has(KeepBelow(w, i), j) <==> j < i && Has(w, j)
  {
    if i > 0 && j > 0 {
      KeepBelowDigits(w / 2, i - 1, j - 1);
    } else if i == 0 {
      NoDigits(j);
    }
  }

  lemma {:induction false} NoDigits(j: nat)
    ensures !Has(0, j)
  {
    if j > 0 {
      NoDigits(j - 1);
    }
  }

  /** A word is zero exactly when no digit is set. */
  lemma {:induction false} NonZero(w: nat, j: nat)
    requires Has(w, j)
    ensures w != 0
  {
    NoDigits(j);
  }

  lemma {:induction false} HighestIsLast(w: nat, j: nat)
    requires w > 0 && HighestBit(w) < j
    ensures !Has(w, j)
  {
    if w == 1 {
      NoDigits(j - 1);
    } else {
      HighestIsLast(w / 2, j - 1);
    }
  }

  lemma {:induction false} LowestIsFirst(w: nat, j: nat)
    requires w > 0 && j < LowestBit(w)
    ensures !Has(w, j)
  {
    if j > 0 {
      LowestIsFirst(w / 2, j - 1);
    }
  }

  lemma {:induction false} ClearBitFits(w: nat, i: nat)
    ensures ClearBit(w, i) <= w
  {
    if i > 0 {
      ClearBitFits(w / 2, i - 1);
    }
  }

  /** No digit of a number below 2^n lies at n or above. */
  lemma {:induction false} DigitsFit(w: nat, n: nat, j: nat)
    requires w < Pow2(n) && n <= j
    ensures !Has(w, j)
  {
    if n == 0 {
      NoDigits(j);
    } else {
      DigitsFit(w / 2, n - 1, j - 1);
    }
  }

  lemma {:induction false} Pow2Monotone(m: nat, n: nat)
    requires m <= n
    ensures Pow2(m) <= Pow2(n)
  {
    if m < n {
      Pow2Monotone(m, n - 1);
    }
  }

  /** A number with no digit at n or above is below 2^n. */
  lemma NoHighDigits(w: nat, n: nat)
    requires forall j: nat :: n <= j ==> !Has(w, j)
    ensures w < Pow2(n)
  {
    if w > 0 {
      Pow2Monotone(HighestBit(w) + 1, n);
    }
  }
}

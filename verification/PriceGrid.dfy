/** Where a book's price grid is anchored, and which bands a book can be built for. */
module PriceGrid {
  import opened Options
  import opened BookSpec
  import opened Arith

  /** grid_base(), with the program's truncating remainder. */
  function GridBase(min: int, tick: int): int {
    if tick <= 1 then min
    else
      var off := TruncMod(min, tick);
      if off == 0 then min else min + (tick - off)
  }

  /** b is the lowest multiple of tick at or above min. */
  predicate FirstOnGrid(b: int, min: int, tick: int)
    requires tick > 0
  {
    b % tick == 0 && min <= b < min + tick
  }

  lemma OnlyMultiple(tick: int, q: int)
    requires tick > 0
    ensures (tick * q) % tick == 0
  {
    QuotientUnique(tick * q, tick, q);
    assert tick * q == tick * ((tick * q) / tick) + (tick * q) % tick;
  }

  /** The anchor is the first tradeable price unless the band starts below zero, off the grid;
      then it lies exactly one tick too high. */
  lemma GridBaseIff(min: int, tick: int)
    requires tick > 0
    ensures FirstOnGrid(GridBase(min, tick), min, tick) <==> min >= 0 || min % tick == 0
    ensures min < 0 && min % tick != 0 ==> FirstOnGrid(GridBase(min, tick) - tick, min, tick)
  {
    if tick > 1 {
      if min >= 0 {
        NonNegativeBase(min, tick);
      } else {
        NegativeBase(min, tick);
      }
    }
  }

  lemma NonNegativeBase(min: int, tick: int)
    requires tick > 1 && min >= 0
    ensures FirstOnGrid(GridBase(min, tick), min, tick)
  {
    var q := min / tick;
    Euclid(min, tick);
    OnlyMultiple(tick, q);
    OnlyMultiple(tick, q + 1);
    Distribute(tick, q, 1);
  }

  lemma NegativeBase(min: int, tick: int)
    requires tick > 1 && min < 0
    ensures min % tick == 0 ==> GridBase(min, tick) == min
    ensures min % tick != 0 ==>
      GridBase(min, tick) >= min + tick && FirstOnGrid(GridBase(min, tick) - tick, min, tick)
  {
    var q := (-min) / tick;
    Euclid(-min, tick);
    Commute(tick, q);
    Negate(q, tick);
    Commute(tick, -q);
    OnlyMultiple(tick, -q);
    Distribute(tick, -q, 1);
    if min % tick == 0 {
      var m := min / tick;
      Euclid(min, tick);
      assert min == tick * m;
      Negate(m, tick);
      Commute(m, tick);
      Commute(-m, tick);
      QuotientUnique(-min, tick, -m);
    } else if min == tick * -q {
      assert false;
    }
  }

  /** check_band(): None where the program throws, for a bad band or one with too many levels. */
  function CheckBand(min: int, max: int, tick: int): Option<Band> {
    if tick <= 0 || max < min then None
    else
      var base := GridBase(min, tick);
      if base > max || (max - base) / tick + 1 > 64 * 64 * 64 then None
      else Some(Band(base, max, tick))
  }

  /** Away from a multiple of the tick, the multiples are a whole number of ticks off. */
  lemma MultiplesApart(base: int, p: int, tick: int)
    requires tick > 0 && base % tick == 0
    ensures (p - base) % tick == 0 <==> p % tick == 0
    ensures p % tick == 0 && p < base ==> p + tick <= base
  {
    var k, m := base / tick, p / tick;
    Euclid(base, tick);
    Euclid(p, tick);
    Distribute(tick, m, k);
    QuotientUnique(p - base, tick, m - k);
    Euclid(p - base, tick);
    if p % tick == 0 && p < base {
      StepsBelow(p, base, tick, m, k);
    }
  }

  lemma StepsBelow(p: int, base: int, tick: int, m: int, k: int)
    requires tick > 0 && p == tick * m < base == tick * k
    ensures p + tick <= base
  {
    if m < k {
      Scale(m + 1, k, tick);
    } else {
      Scale(k, m, tick);
      assert false;
    }
  }

  /** The book has a slot for exactly the multiples of the tick inside the band. */
  ghost predicate CoversTheGrid(band: Band, min: int, max: int, tick: int)
    requires tick > 0 && band.Valid()
  {
    forall p {:trigger band.Contains(p)} :: band.Contains(p) <==> min <= p <= max && p % tick == 0
  }

  /** That is so exactly when the band starts at or above zero, or on the grid; otherwise the lowest price of the
      grid is left out. */
  lemma BandIsTheGridIff(min: int, max: int, tick: int)
    requires CheckBand(min, max, tick).Some?
    ensures tick > 0 && CheckBand(min, max, tick).value.Valid()
    ensures CoversTheGrid(CheckBand(min, max, tick).value, min, max, tick) <==> min >= 0 || min % tick == 0
  {
    var base, band := GridBase(min, tick), CheckBand(min, max, tick).value;
    GridBaseIff(min, tick);
    if min >= 0 || min % tick == 0 {
      forall p {:trigger band.Contains(p)} ensures band.Contains(p) <==> min <= p <= max && p % tick == 0 {
        MultiplesApart(base, p, tick);
      }
    } else {
      assert !band.Contains(base - tick);
    }
  }
}

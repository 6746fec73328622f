/** muldiv64(): a * b / c through a 96-bit intermediate result. */
module MulDiv {
  import opened Division

  const TWO32 := 0x1_0000_0000
  const TWO64 := 0x1_0000_0000_0000_0000

  type u32 = x: int | 0 <= x < 0x1_0000_0000
  type u64 = x: int | 0 <= x < 0x1_0000_0000_0000_0000

  /** The bits of the product above the lowest 32. */
  function HighPart(a: u64, b: u32): int { a as int * b as int / TWO32 }

  /** Every operation as the machine does it; the shift in Divide is the one that may lose bits. */
  function MulDiv64(a: u64, b: u32, c: u64): u64
    requires c > 0
  {
    Combine(a as int % TWO32 * b, a as int / TWO32 * b, c)
  }

  function Combine(lowProduct: int, highProduct: int, c: int): u64
    requires c > 0
  {
    var rl := lowProduct % TWO64;
    var rh := (highProduct % TWO64 + rl / TWO32) % TWO64;
    Divide(rh, rl % TWO32, c)
  }

  function Divide(rh: int, lo: int, c: int): u64
    requires c > 0
  {
    var resHigh := rh / c % TWO32;
    var resLow := ((rh % c * TWO32 % TWO64 + lo) % TWO64) / c % TWO32;
    resHigh * TWO32 + resLow
  }

  /** Both partial products and their sum fit in 64 bits. */
  lemma Halves(low: int, high: int, b: int, rl: int, rh: int)
    requires 0 <= low < TWO32 && 0 <= high < TWO32 && 0 <= b < TWO32
    requires rl == low * b && rh == high * b + rl / TWO32
    ensures 0 <= rl < TWO64 && 0 <= high * b < TWO64 && 0 <= rh < TWO64
    ensures (high * TWO32 + low) * b == rh * TWO32 + rl % TWO32
  {
    Bound(low, b);
    Bound(high, b);
    calc {
      (high * TWO32 + low) * b;
      { Spread(high, low, b); }
      high * b * TWO32 + rl;
    }
  }

  lemma Bound(x: int, b: int)
    requires 0 <= x < TWO32 && 0 <= b < TWO32
    ensures 0 <= x * b <= (TWO32 - 1) * (TWO32 - 1)
  {
    MulLe(0, x, b);
    MulLe(x, TWO32 - 1, b);
  }

  lemma Spread(high: int, low: int, b: int)
    ensures (high * TWO32 + low) * b == high * b * TWO32 + low * b
  {
    assert (high * TWO32 + low) * b == high * TWO32 * b + low * b;
  }


  /** Long division in two digits of 32 bits. */
  lemma LongDivision(rh: int, lo: int, c: int)
    requires 0 <= rh && 0 <= lo < TWO32 && c > 0
    ensures var rest := rh % c * TWO32 + lo;
            (rh * TWO32 + lo) / c == rh / c * TWO32 + rest / c && 0 <= rest / c < TWO32
  {
    var r, rest := rh % c, rh % c * TWO32 + lo;
    assert r * TWO32 + TWO32 <= c * TWO32 by { assert (r + 1) * TWO32 <= c * TWO32; }
    var q := rest / c;
    assert rest == q * c + rest % c;
    Below(q, TWO32, c);
    assert rh * TWO32 == rh / c * c * TWO32 + r * TWO32;
    assert rh / c * c * TWO32 == rh / c * TWO32 * c;
    assert (rh / c * TWO32 + q) * c == rh / c * TWO32 * c + q * c;
    QuotientIs(rh * TWO32 + lo, rh / c * TWO32 + q, rest % c, c);
  }

  /** Losing bits above the 64th always changes the quotient. */
  lemma LossShows(x: int, k: int, c: int)
    requires 0 <= x && k >= 1 && 0 < c < TWO64
    ensures (x + k * TWO64) / c > x / c
  {
    assert x + k * TWO64 >= x + c;
    assert (x + c) / c == x / c + 1 by { QuotientIs(x + c, x / c + 1, x % c, c); }
    Monotone(x + c, x + k * TWO64, c);
  }

  lemma Below(q: int, m: int, c: int)
    requires q * c < m * c && c > 0
    ensures q < m
  {
    if m <= q { MulLe(m, q, c); }
  }

  lemma Monotone(x: int, y: int, c: int)
    requires 0 <= x <= y && c > 0
    ensures x / c <= y / c
  {
    var p, q := x / c, y / c;
    assert x == p * c + x % c && y == q * c + y % c;
    assert (q + 1) * c == q * c + c;
    Below(p, q + 1, c);
  }

  lemma Wrapped(r: int, lo: int)
    requires 0 <= r && 0 <= lo < TWO32
    ensures (r * TWO32 % TWO64 + lo) % TWO64 == r % TWO32 * TWO32 + lo
    ensures r * TWO32 + lo == r % TWO32 * TWO32 + lo + r / TWO32 * TWO64
  {
    QuotientIs(r * TWO32, r / TWO32, r % TWO32 * TWO32, TWO64);
  }

  /** The low digit as computed, against the low digit of the quotient. */
  lemma LowDigit(r: int, lo: int, c: int, computed: int)
    requires 0 <= r && 0 <= lo < TWO32 && 0 < c < TWO64
    requires computed == ((r * TWO32 % TWO64 + lo) % TWO64) / c
    ensures 0 <= computed <= (r * TWO32 + lo) / c
    ensures computed == (r * TWO32 + lo) / c <==> r < TWO32
  {
    Wrapped(r, lo);
    QuotientIs(r, r / TWO32, r % TWO32, TWO32);
    WithoutTop(r % TWO32 * TWO32 + lo, r / TWO32, c, computed, r * TWO32 + lo);
  }

  /** A number against the same one with something in the bits above the 64th. */
  lemma WithoutTop(x: int, k: int, c: int, computed: int, full: int)
    requires 0 <= x && 0 <= k && 0 < c < TWO64 && computed == x / c && full == x + k * TWO64
    ensures 0 <= computed <= full / c
    ensures computed == full / c <==> k == 0
  {
    Monotone(0, x, c);
    if k >= 1 { LossShows(x, k, c); }
  }

  lemma TwoDigits(hi: int, low: int)
    requires 0 <= hi && 0 <= low < TWO32
    ensures (hi * TWO32 + low) % TWO64 == hi % TWO32 * TWO32 + low
  {
    QuotientIs(hi * TWO32 + low, hi / TWO32, hi % TWO32 * TWO32 + low, TWO64);
  }

  lemma Digits(q: int, r: int, low: int, computed: int, quotient: int, result: int)
    requires quotient == q * TWO32 + low && 0 <= q && 0 <= computed <= low < TWO32
    requires computed == low <==> r < TWO32
    requires result == q % TWO32 * TWO32 + computed % TWO32
    ensures result == quotient % TWO64 <==> r < TWO32
  {
    TwoDigits(q, low);
  }

  lemma DivideIff(rh: int, lo: int, c: int)
    requires 0 <= rh && 0 <= lo < TWO32 && 0 < c < TWO64
    ensures Divide(rh, lo, c) == (rh * TWO32 + lo) / c % TWO64 <==> rh % c < TWO32
  {
    var low := (rh % c * TWO32 + lo) / c;
    var computed := ((rh % c * TWO32 % TWO64 + lo) % TWO64) / c;
    LongDivision(rh, lo, c);
    LowDigit(rh % c, lo, c, computed);
    Monotone(0, rh, c);
    Digits(rh / c, rh % c, low, computed, (rh * TWO32 + lo) / c, Divide(rh, lo, c));
  }

  /** The partial products and their sum fit in 64 bits. */
  lemma CombineFits(lowProduct: int, highProduct: int, c: int, rh: int)
    requires c > 0 && 0 <= lowProduct < TWO64 && 0 <= highProduct && rh == highProduct + lowProduct / TWO32 < TWO64
    ensures Combine(lowProduct, highProduct, c) == Divide(rh, lowProduct % TWO32, c)
  {
    NoWrap(lowProduct, highProduct, rh);
  }

  lemma NoWrap(lowProduct: int, highProduct: int, rh: int)
    requires 0 <= lowProduct < TWO64 && 0 <= highProduct && rh == highProduct + lowProduct / TWO32 < TWO64
    ensures lowProduct % TWO64 == lowProduct && (highProduct % TWO64 + lowProduct % TWO64 / TWO32) % TWO64 == rh
  {
  }

  lemma NothingLost(a: u64, b: u32, c: u64, rh: int, lo: int)
    requires c > 0 && lo == a as int % TWO32 * b % TWO32
    requires rh == a as int / TWO32 * b + a as int % TWO32 * b / TWO32
    ensures 0 <= rh && MulDiv64(a, b, c) == Divide(rh, lo, c) && a as int * b as int == rh * TWO32 + lo
  {
    var low: int, high: int := a as int % TWO32, a as int / TWO32;
    var p1: int, p2: int := low * b, high * b;
    Halves(low, high, b, p1, rh);
    CombineFits(p1, p2, c, rh);
    assert high * TWO32 + low == a;
  }

  /** The result is a * b / c, modulo 2^64, exactly if the remainder of the high part fits in 32 bits. */
  lemma ExactIff(a: u64, b: u32, c: u64)
    requires c > 0
    ensures MulDiv64(a, b, c) == a as int * b as int / c % TWO64 <==> HighPart(a, b) % c < TWO32
  {
    var lo := a as int % TWO32 * b % TWO32;
    var rh := a as int / TWO32 * b + a as int % TWO32 * b / TWO32;
    NothingLost(a, b, c, rh, lo);
    QuotientIs(a as int * b as int, rh, lo, TWO32);
    DivideIff(rh, lo, c);
  }

  /** So it is exact for every divisor of at most 2^32. */
  lemma ExactForSmallDivisors(a: u64, b: u32, c: u64)
    requires 0 < c <= TWO32
    ensures MulDiv64(a, b, c) == a as int * b as int / c % TWO64
  {
    ExactIff(a, b, c);
  }

  /** 2^63 * 2 / 2^33 is 2^31, but nothing is left of it. */
  lemma InexactForLargeDivisors()
    ensures MulDiv64(0x8000_0000_0000_0000, 2, 0x2_0000_0000) == 0
    ensures 0x8000_0000_0000_0000 * 2 / 0x2_0000_0000 % TWO64 == 0x8000_0000
  {
    CombineFits(0, 0x8000_0000 * 2, 0x2_0000_0000, TWO32);
    assert Divide(TWO32, 0, 0x2_0000_0000) == 0;
  }
}

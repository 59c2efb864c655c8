/** Machine integers and powers of ten. */
module Ints {

  const U64_MAX: nat := 0xFFFF_FFFF_FFFF_FFFF

  /** Half the range of a 64-bit integer. */
  const HALF64: nat := 0x8000_0000_0000_0000

  /** Basis points in the whole. */
  const BPS: nat := 10_000

  type u64 = x: int | 0 <= x <= 0xFFFF_FFFF_FFFF_FFFF
  type i64 = x: int | -0x8000_0000_0000_0000 <= x <= 0x7FFF_FFFF_FFFF_FFFF
  type i32 = x: int | -0x8000_0000 <= x <= 0x7FFF_FFFF
  type u16 = x: int | 0 <= x <= 0xFFFF
  type u8 = x: int | 0 <= x <= 0xFF

  function Pow10(e: nat): (p: nat)
    ensures p >= 1
  {
    if e == 0 then 1 else 10 * Pow10(e - 1)
  }

  lemma {:induction false} Pow10Mono(a: nat, b: nat)
    requires a <= b
    ensures Pow10(a) <= Pow10(b)
    decreases b
  {
    if a < b { Pow10Mono(a, b - 1); }
  }

  /** The powers that fit 64 bits are those up to the nineteenth. */
  lemma Pow10Fits64(e: nat)
    ensures Pow10(e) <= U64_MAX <==> e <= 19
  {
    assert Pow10(10) == 10000000000;
    assert Pow10(19) == 10000000000000000000;
    assert Pow10(20) == 100000000000000000000;
    if e <= 19 { Pow10Mono(e, 19); } else { Pow10Mono(20, e); }
  }

  lemma MulStep(d: int, a: int, b: int)
    requires d > 0 && a < b
    ensures d * a + d <= d * b
  {
    var t := b - a - 1;
    assert 0 <= d * t;
    assert d * b == d * a + d + d * t;
  }

  lemma MulMono(d: int, a: int, b: int)
    requires d >= 0 && a <= b
    ensures d * a <= d * b
    ensures a * d <= b * d
  {
    assert 0 <= d * (b - a);
    assert d * b == d * a + d * (b - a);
  }

  /** What makes `q` the quotient of `x` by `d`. */
  lemma Quotient(x: int, d: int, q: int)
    requires d > 0
    requires d * q <= x < d * q + d
    ensures x / d == q
  {
    var t, r := x / d, x % d;
    assert x == d * t + r;
    if t < q { MulStep(d, t, q); }
    if q < t { MulStep(d, q, t); }
  }

  lemma QuotientBounds(x: int, d: int)
    requires d > 0
    ensures d * (x / d) <= x < d * (x / d) + d
    ensures x == d * (x / d) + x % d
  {
  }

  lemma QuotientNonNeg(x: nat, d: nat)
    requires d > 0
    ensures x / d >= 0
  {
  }

  lemma DivMono(a: int, b: int, d: int)
    requires d > 0 && a <= b
    ensures a / d <= b / d
  {
    QuotientBounds(a, d);
    QuotientBounds(b, d);
    var p, q := a / d, b / d;
    if q < p { MulStep(d, q, p); }
  }

  /** `x / d < q` exactly when `x < d * q`. */
  lemma DivLess(x: int, d: int, q: int)
    requires d > 0
    ensures x / d < q <==> x < d * q
  {
    QuotientBounds(x, d);
    var p := x / d;
    if p < q { MulStep(d, p, q); } else { MulMono(d, q, p); }
  }

  /** Rounding down two terms loses at most one unit against rounding their sum. */
  lemma FloorAdd(x: nat, y: nat, d: nat)
    requires d > 0
    ensures x / d + y / d <= (x + y) / d <= x / d + y / d + 1
    ensures d == 1 ==> (x + y) / d == x / d + y / d
  {
    QuotientBounds(x, d);
    QuotientBounds(y, d);
    var p, q := x / d, y / d;
    assert d * (p + q) == d * p + d * q;
    if x + y < d * (p + q) + d {
      Quotient(x + y, d, p + q);
    } else {
      assert d * (p + q + 1) == d * (p + q) + d;
      Quotient(x + y, d, p + q + 1);
    }
  }

  lemma DivideByOne(x: int)
    ensures x / 1 == x
  {
  }

  lemma DivideShifted(f: int, r: nat, d: nat)
    requires d > 0
    ensures (d * f + r) / d == f + r / d
  {
    QuotientBounds(r, d);
    var q := r / d;
    assert d * (f + q) == d * f + d * q;
    Quotient(d * f + r, d, f + q);
  }

  /** One less than a count, except that nothing is one less than none. */
  function Spare(c: int): int {
    if c <= 0 then 0 else c - 1
  }
}

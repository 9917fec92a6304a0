/**
 * Java's fixed-width integers and the semantics of `long` arithmetic:
 * two's-complement wrap-around on overflow (section 15.18.2 of the Java
 * Language Specification) and division and remainder that round toward zero
 * (sections 15.17.2 and 15.17.3), unlike Dafny's Euclidean `/` and `%`.
 */
module JavaInts {

  const TWO_63: int := 0x8000_0000_0000_0000
  const TWO_64: int := 0x1_0000_0000_0000_0000

  newtype i64 = x: int | -0x8000_0000_0000_0000 <= x < 0x8000_0000_0000_0000
  newtype i32 = x: int | -0x8000_0000 <= x < 0x8000_0000
  newtype i16 = x: int | -0x8000 <= x < 0x8000
  newtype i8 = x: int | -0x80 <= x < 0x80

  function Abs(x: int): nat {
    if x < 0 then -x else x
  }

  /** The `long` that an exact integer result is truncated to: the unique
      64-bit value congruent to it modulo 2^64. */
  function Wrap64(x: int): (r: i64)
    ensures (r as int - x) % TWO_64 == 0
    ensures -TWO_63 <= x < TWO_63 ==> r as int == x
  {
    var m := x % TWO_64;
    var q := x / TWO_64;
    assert x == q * TWO_64 + m;
    if m >= TWO_63 then
      assert m - TWO_64 - x == (-q - 1) * TWO_64;
      (m - TWO_64) as i64
    else
      assert m - x == -q * TWO_64;
      m as i64
  }

  /** Java's integer quotient: rounds toward zero. */
  function TruncDiv(a: int, b: int): (q: int)
    requires b != 0
    ensures Abs(q) == Abs(a) / Abs(b)
    ensures (a < 0) == (b < 0) ==> q >= 0
    ensures (a < 0) != (b < 0) ==> q <= 0
  {
    var x: nat := Abs(a);
    var y: nat := Abs(b);
    NatDivNat(x, y);
    var q := x / y;
    if (a < 0) != (b < 0) then -q else q
  }

  /** The quotient of two naturals is a natural. */
  lemma NatDivNat(x: nat, y: nat)
    requires y > 0
    ensures x / y >= 0
  {
  }

  /** Java's integer remainder: takes the sign of the dividend, and together
      with TruncDiv recomposes the dividend. */
  function TruncRem(a: int, b: int): (r: int)
    requires b != 0
    ensures a == TruncDiv(a, b) * b + r
    ensures Abs(r) < Abs(b)
    ensures r != 0 ==> ((r < 0) <==> (a < 0))
  {
    var q := Abs(a) / Abs(b);
    var m := Abs(a) % Abs(b);
    assert Abs(a) == q * Abs(b) + m;
    if a < 0 then
      if b < 0 then
        assert a == q * b - m;
        -m
      else
        assert a == (-q) * b - m;
        -m
    else
      if b < 0 then
        assert a == (-q) * b + m;
        m
      else
        m
  }

  /** `a + b` on Java longs: the exact sum modulo 2^64, and the exact sum when it fits. */
  function AddLong(a: i64, b: i64): (r: i64)
    ensures (r as int - (a as int + b as int)) % TWO_64 == 0
    ensures -TWO_63 <= a as int + b as int < TWO_63 ==> r as int == a as int + b as int
  {
    Wrap64(a as int + b as int)
  }

  /** `a - b` on Java longs: the exact difference modulo 2^64, and the exact difference when it fits. */
  function SubLong(a: i64, b: i64): (r: i64)
    ensures (r as int - (a as int - b as int)) % TWO_64 == 0
    ensures -TWO_63 <= a as int - b as int < TWO_63 ==> r as int == a as int - b as int
  {
    Wrap64(a as int - b as int)
  }

  /** `a * b` on Java longs: the exact product modulo 2^64, and the exact product when it fits. */
  function MulLong(a: i64, b: i64): (r: i64)
    ensures (r as int - a as int * b as int) % TWO_64 == 0
    ensures -TWO_63 <= a as int * b as int < TWO_63 ==> r as int == a as int * b as int
  {
    Wrap64(a as int * b as int)
  }

  /** `-a` on Java longs: exact except for Long.MIN_VALUE, which negates to itself. */
  function NegLong(a: i64): (r: i64)
    ensures a as int != -TWO_63 ==> r as int == -(a as int)
    ensures a as int == -TWO_63 ==> r == a
  {
    Wrap64(-(a as int))
  }

  /** `a / b` on Java longs (b != 0): the truncated quotient modulo 2^64;
      Long.MIN_VALUE / -1 overflows back to Long.MIN_VALUE. */
  function DivLong(a: i64, b: i64): (r: i64)
    requires b != 0
    ensures (r as int - TruncDiv(a as int, b as int)) % TWO_64 == 0
    ensures a as int == -TWO_63 && b == -1 ==> r == a
  {
    Wrap64(TruncDiv(a as int, b as int))
  }

  /** `a % b` on Java longs (b != 0); the remainder is always representable. */
  function RemLong(a: i64, b: i64): (r: i64)
    requires b != 0
    ensures r as int == TruncRem(a as int, b as int)
  {
    TruncRem(a as int, b as int) as i64
  }

  /** Long.compareTo: -1, 0 or 1. */
  function CompareLong(a: i64, b: i64): (c: int)
    ensures -1 <= c <= 1
    ensures (c < 0 <==> a < b) && (c == 0 <==> a == b) && (c > 0 <==> a > b)
  {
    if a < b then -1 else if a == b then 0 else 1
  }

  /** Only Long.MIN_VALUE / -1 leaves the 64-bit range; everywhere else DivLong is the exact truncated quotient. */
  lemma DivLongExact(a: i64, b: i64)
    requires b != 0 && !(a as int == -TWO_63 && b == -1)
    ensures DivLong(a, b) as int == TruncDiv(a as int, b as int)
  {
    var q := TruncDiv(a as int, b as int);
    DivBelowDividend(Abs(a as int), Abs(b as int));
    assert Abs(q) <= Abs(a as int) <= TWO_63;
    if Abs(b as int) == 1 {
      assert Abs(q) == Abs(a as int);
    } else {
      DivHalves(Abs(a as int), Abs(b as int));
    }
  }

  lemma DivBelowDividend(x: nat, y: nat)
    requires y > 0
    ensures x / y <= x
  {
    var q: nat := x / y;
    assert q * y + x % y == x;
    MulMonotone(q, 1, y);
  }

  lemma DivHalves(x: nat, y: nat)
    requires y >= 2
    ensures x > 0 ==> x / y < x
  {
    var q: nat := x / y;
    assert q * y + x % y == x;
    MulMonotone(q, 2, y);
  }

  /** Multiplying by a larger factor gives a larger product. */
  lemma {:induction false} MulMonotone(q: nat, a: nat, b: nat)
    requires a <= b
    ensures q * a <= q * b
    decreases b - a
  {
    if a < b {
      MulMonotone(q, a, b - 1);
      assert q * b == q * (b - 1) + q;
    }
  }

  /** Java's quotient and remainder against Dafny's Euclidean ones, for a
      positive divisor: they agree on a non-negative dividend and on an exact
      division; a negative dividend with a remainder rounds up by one instead
      of down, and its remainder is the Euclidean one less the divisor. */
  lemma TruncDivVersusEuclidean(a: int, b: int)
    requires b > 0
    ensures a >= 0 || a % b == 0 ==> TruncDiv(a, b) == a / b && TruncRem(a, b) == a % b
    ensures a < 0 && a % b != 0 ==> TruncDiv(a, b) == a / b + 1 && TruncRem(a, b) == a % b - b
  {
    var q, m := a / b, a % b;
    assert a == q * b + m;
    if a < 0 {
      if m == 0 {
        assert -a == (-q) * b;
        DivModUnique(-a, b, -q, 0);
      } else {
        assert -a == (-q - 1) * b + (b - m);
        DivModUnique(-a, b, -q - 1, b - m);
      }
    }
  }

  /** The same comparison for a negative divisor: they agree on a
      non-negative dividend and on an exact division; otherwise Java's
      quotient is one less than the Euclidean one, and its remainder the
      Euclidean one plus the (negative) divisor. */
  lemma TruncDivNegativeDivisor(a: int, b: int)
    requires b < 0
    ensures a >= 0 || a % b == 0 ==> TruncDiv(a, b) == a / b && TruncRem(a, b) == a % b
    ensures a < 0 && a % b != 0 ==> TruncDiv(a, b) == a / b - 1 && TruncRem(a, b) == a % b + b
  {
    assert a == (-(a / b)) * (-b) + a % b;
    DivModUnique(a, -b, -(a / b), a % b);
    TruncDivVersusEuclidean(a, -b);
    assert TruncDiv(a, b) == -TruncDiv(a, -b);
    assert TruncRem(a, b) == TruncRem(a, -b);
  }

  /** Euclidean division is determined by the quotient-remainder equation. */
  lemma DivModUnique(x: int, y: int, q: int, r: int)
    requires y > 0 && 0 <= r < y && x == q * y + r
    ensures x / y == q && x % y == r
  {
    var q', r' := x / y, x % y;
    assert (q - q') * y == r' - r;
    if q > q' {
      MulMonotone(y, 1, q - q');
    } else if q < q' {
      MulMonotone(y, 1, q' - q);
    }
  }
}

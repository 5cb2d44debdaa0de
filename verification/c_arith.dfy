/**
 * The C integer semantics the firmware relies on: 64-bit `long` range checks,
 * 32-bit `unsigned` wrap-around, `/` truncating toward zero, and the
 * double-to-long conversion (also a truncation toward zero).
 */
module CArith {

  const LONG_MIN: int := -0x8000_0000_0000_0000
  const LONG_MAX: int := 0x7FFF_FFFF_FFFF_FFFF
  const UINT_MODULUS: int := 0x1_0000_0000

  /** Nanoseconds per second and per millisecond. */
  const NS_PER_SEC: int := 1_000_000_000
  const NS_PER_MS: int := 1_000_000

  function Abs(x: int): nat {
    if x < 0 then -x else x
  }

  function AbsR(x: real): real {
    if x < 0.0 then -x else x
  }

  /** True when `x` fits in a signed 64-bit `long`. */
  predicate InLong(x: int) {
    LONG_MIN <= x <= LONG_MAX
  }

  /** True when `x` fits in a 32-bit `unsigned`. */
  predicate InUInt(x: int) {
    0 <= x < UINT_MODULUS
  }

  /** `a * b` computed in 32-bit `unsigned` arithmetic. */
  function UIntMul(a: int, b: int): (r: int)
    requires InUInt(a) && InUInt(b)
    ensures InUInt(r)
    ensures a * b < UINT_MODULUS ==> r == a * b
    ensures (a * b - r) % UINT_MODULUS == 0
  {
    (a * b) % UINT_MODULUS
  }

  /** C's integer `/`: the quotient rounded toward zero. */
  function Quot(a: int, b: int): (q: int)
    requires b != 0
    ensures Abs(a - q * b) < Abs(b)
    ensures a - q * b == 0 || (a - q * b > 0 <==> a > 0)
  {
    var m := Abs(a) / Abs(b);
    var q := if (a >= 0) == (b > 0) then m else -m;
    QuotRemainder(a, b, m, q);
    q
  }

  /** The remainder of the truncating quotient is the unsigned remainder carrying the dividend's sign. */
  lemma QuotRemainder(a: int, b: int, m: int, q: int)
    requires b != 0 && m == Abs(a) / Abs(b)
    requires q == if (a >= 0) == (b > 0) then m else -m
    ensures Abs(a - q * b) < Abs(b)
    ensures a - q * b == 0 || (a - q * b > 0 <==> a > 0)
  {
    var x, y := Abs(a), Abs(b);
    var p := m * y;
    DivBounds(x, y);
    assert 0 <= x - p < y && 0 <= p;
    if b > 0 {
      assert y == b;
      if a >= 0 {
        assert q * b == p;
        assert a - q * b == x - p;
      } else {
        NegMul(m, y);
        assert q * b == -p;
        assert a - q * b == -(x - p);
      }
    } else {
      assert y == -b;
      if a >= 0 {
        NegMul(m, y);
        MulNeg(-m, y);
        assert q * b == p;
        assert a - q * b == x - p;
      } else {
        MulNeg(m, y);
        assert q * b == -p;
        assert a - q * b == -(x - p);
      }
    }
  }

  /** Dafny's division by a positive divisor leaves a remainder in [0, y). */
  lemma DivBounds(x: int, y: int)
    requires x >= 0 && y > 0
    ensures 0 <= x - (x / y) * y < y
    ensures 0 <= (x / y) * y
  {
  }

  lemma NegMul(m: int, y: int)
    ensures (-m) * y == -(m * y)
  {
  }

  lemma MulNeg(m: int, y: int)
    ensures m * (-y) == -(m * y)
  {
  }

  /** The C conversion of a `double` to `long`: truncation toward zero. */
  function Trunc(x: real): (n: int)
    ensures Abs(n) as real <= AbsR(x) < Abs(n) as real + 1.0
    ensures n == 0 || (n > 0 <==> x > 0.0)
  {
    if x >= 0.0 then x.Floor else -((-x).Floor)
  }

  /** Truncation toward zero is odd: converting `-x` gives the negation of converting `x`. */
  lemma TruncOdd(x: real)
    ensures Trunc(-x) == -Trunc(x)
  {
    if x > 0.0 {
      assert -x < 0.0;
    }
  }

  /** Floor division by a positive divisor (Dafny's `/` on `int` with a positive divisor). */
  function FloorDiv(a: int, b: int): (q: int)
    requires b > 0
    ensures q * b <= a < q * b + b
  {
    a / b
  }

  /** `Quot` by a positive divisor agrees with Dafny's division on a non-negative dividend. */
  lemma QuotNonNegative(a: int, b: int)
    requires a >= 0 && b > 0
    ensures Quot(a, b) == a / b
  {
    var q := Quot(a, b);
    assert 0 <= a - q * b < b;
    assert q * b <= a < q * b + b;
  }

  /** Multiplication is associative. */
  lemma MulAssoc(a: int, b: int, c: int)
    ensures a * b * c == a * (b * c)
  {
  }

  /** One more copy of `s`. */
  lemma MulSucc(k: int, s: int)
    ensures (k + 1) * s == k * s + s
  {
  }

  /** A product of non-negative factors is non-negative. */
  lemma MulNonNegative(x: int, y: int)
    requires x >= 0 && y >= 0
    ensures x * y >= 0
  {
  }

  /** Multiplying by a non-negative `s` keeps the order of non-negative factors. */
  lemma MulBound(x: int, y: int, s: int)
    requires 0 <= x <= y && s >= 0
    ensures x * s <= y * s
  {
  }
}

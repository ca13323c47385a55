/** The fixed-width integer types and the two pieces of C integer semantics
    the controller relies on: signed division, which truncates toward zero,
    and the conversion of a signed value to `uint16_t`, which is reduction
    modulo 2^16. */
module CInt {

  newtype uint8 = x: int | 0 <= x < 0x100
  newtype uint16 = x: int | 0 <= x < 0x1_0000
  newtype uint32 = x: int | 0 <= x < 0x1_0000_0000

  function Abs(x: int): nat
  {
    if x < 0 then -x else x
  }

  /** C's `a / b` on signed operands. The remainder `a - q * b` is smaller
      than the divisor in magnitude and never has the opposite sign of the
      dividend, which is what makes the quotient round toward zero (Dafny's
      own `/` rounds so that the remainder is never negative). */
  function CDiv(a: int, b: int): (q: int)
    requires b != 0
    ensures Abs(a - q * b) < Abs(b)
    ensures a - q * b == 0 || (a - q * b < 0 <==> a < 0)
  {
    if a >= 0 then
      (if b > 0 then a / b else -(a / -b))
    else
      (if b > 0 then -((-a) / b) else (-a) / (-b))
  }

  /** Storing a signed value into a `uint16_t`: the stored value is congruent
      to the original modulo 2^16, and a value already in range is kept. */
  function ToUint16(v: int): (r: uint16)
    ensures (v - r as int) % 0x1_0000 == 0
    ensures 0 <= v < 0x1_0000 ==> r as int == v
  {
    (v % 0x1_0000) as uint16
  }

  /** Truncation toward zero is symmetric: negating the dividend negates the quotient. */
  lemma CDivNegate(a: int, b: int)
    requires b != 0
    ensures CDiv(-a, b) == -CDiv(a, b)
  {
  }

  /** Division of an exact multiple gives back the factor. */
  lemma CDivMultiple(k: int, d: int)
    requires d > 0
    ensures CDiv(k * d, d) == k
  {
    var q := CDiv(k * d, d);
    assert k * d - q * d == (k - q) * d;
    SmallMultipleIsZero(k - q, d);
  }

  lemma SmallMultipleIsZero(m: int, d: int)
    requires d > 0 && Abs(m * d) < d
    ensures m == 0
  {
    if m >= 1 {
      MulAtLeastDivisor(m, d);
    } else if m <= -1 {
      MulAtLeastDivisor(-m, d);
    }
  }

  lemma MulAtLeastDivisor(m: int, d: int)
    requires m >= 1 && d > 0
    ensures m * d >= d
  {
    assert m * d == (m - 1) * d + d;
  }

  /** For a positive divisor the truncated quotient is monotone in the dividend. */
  lemma CDivMonotone(a1: int, a2: int, b: int)
    requires b > 0 && a1 <= a2
    ensures CDiv(a1, b) <= CDiv(a2, b)
  {
    if 0 <= a1 {
      assert CDiv(a1, b) == a1 / b && CDiv(a2, b) == a2 / b;
      EuclideanDivMonotone(a1, a2, b);
    } else if a2 < 0 {
      assert CDiv(a1, b) == -((-a1) / b) && CDiv(a2, b) == -((-a2) / b);
      EuclideanDivMonotone(-a2, -a1, b);
    } else {
      assert CDiv(a1, b) == -((-a1) / b) && CDiv(a2, b) == a2 / b;
      EuclideanDivMonotone(0, -a1, b);
      EuclideanDivMonotone(0, a2, b);
    }
  }

  lemma EuclideanDivMonotone(a1: int, a2: int, b: int)
    requires b > 0 && 0 <= a1 <= a2
    ensures a1 / b <= a2 / b
  {
    var q1, q2 := a1 / b, a2 / b;
    assert a1 == q1 * b + a1 % b;
    assert a2 == q2 * b + a2 % b;
    assert (q1 - q2) * b == q1 * b - q2 * b;
    if q1 - q2 >= 1 {
      MulAtLeastDivisor(q1 - q2, b);
    }
  }
}

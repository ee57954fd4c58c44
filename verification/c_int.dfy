/** C integer semantics used by the firmware on an 8-bit AVR: `int` is 16 bits,
    `long` and `unsigned long` are 32 bits, division truncates toward zero. */
module CInt {

  /** Number of distinct values of a 32-bit `unsigned long`. */
  const ULONG_MODULUS: int := 0x1_0000_0000

  /** Number of non-negative values of a 32-bit signed `long`. */
  const LONG_HALF: int := 0x8000_0000

  predicate IsULong(x: int) {
    0 <= x < ULONG_MODULUS
  }

  /** A value of the 16-bit `int`. */
  predicate IsInt(x: int) {
    -0x8000 <= x < 0x8000
  }

  predicate IsLong(x: int) {
    -LONG_HALF <= x < LONG_HALF
  }

  function Abs(x: int): (r: nat)
    ensures r == x || r == -x
  {
    if x < 0 then -x else x
  }

  /** The C conversion of any integer to `unsigned long`: reduction modulo 2^32. */
  function ToULong(x: int): (r: int)
    ensures IsULong(r)
    ensures IsULong(x) ==> r == x
    ensures -ULONG_MODULUS <= x < 0 ==> r == x + ULONG_MODULUS
  {
    x % ULONG_MODULUS
  }

  /** The two's-complement reading of a 32-bit pattern as a signed `long`. */
  function ToLong(x: int): (r: int)
    requires IsULong(x)
    ensures IsLong(r)
    ensures x < LONG_HALF ==> r == x
    ensures ToULong(r) == x
  {
    if x < LONG_HALF then x else x - ULONG_MODULUS
  }

  /** C integer division: the quotient is truncated toward zero. */
  function CDiv(a: int, b: int): (q: int)
    requires b != 0
    ensures a >= 0 && b > 0 ==> q == a / b
  {
    var m := Abs(a) / Abs(b);
    if (a < 0) != (b < 0) then -m else m
  }

  /** The magnitude of the quotient is the quotient of the magnitudes, and a
      non-zero quotient is negative exactly when the operands' signs differ. */
  lemma CDivMagnitudeAndSign(a: int, b: int)
    requires b != 0
    ensures Abs(CDiv(a, b)) == Abs(a) / Abs(b)
    ensures CDiv(a, b) != 0 ==> ((CDiv(a, b) < 0) <==> ((a < 0) != (b < 0)))
  {
    var m := Abs(a) / Abs(b);
    assert Abs(b) > 0;
    assert m >= 0;
    if (a < 0) != (b < 0) {
      assert CDiv(a, b) == -m;
    } else {
      assert CDiv(a, b) == m;
    }
  }

  /** C remainder: takes the sign of the dividend, so that a == CDiv(a, b) * b + r. */
  function CMod(a: int, b: int): (r: int)
    requires b != 0
    ensures a >= 0 && b > 0 ==> r == a % b
  {
    a - CDiv(a, b) * b
  }

  /** The C remainder is the remainder of the magnitudes, carrying the sign
      of the dividend: it is always smaller in magnitude than the divisor, and
      a non-zero remainder is negative exactly when the dividend is. */
  lemma CModMagnitudeAndSign(a: int, b: int)
    requires b != 0
    ensures Abs(CMod(a, b)) == Abs(a) % Abs(b)
    ensures Abs(CMod(a, b)) < Abs(b)
    ensures CMod(a, b) != 0 ==> (CMod(a, b) < 0 <==> a < 0)
  {
    var x: int, y: int := Abs(a), Abs(b);
    var r: int := x % y;
    var my: int := x / y * y;
    assert x == my + r && 0 <= r < y;
    var q := CDiv(a, b);
    assert q * b == (if a >= 0 then my else -my) by {
      var m: int := x / y;
      if b > 0 {
        assert b == y;
        if a >= 0 { assert q == m; } else { assert q == -m; }
      } else {
        assert b == -y;
        if a >= 0 { assert q == -m; } else { assert q == m; }
      }
    }
  }
}

/** Integer powers by repeated multiplication: `power_int` and `power_long`
    (the same two loops appear in backend/power_funcs.h and in eurotools-v2.h). */
module Power {
  import opened CInt

  /** a^n for a natural exponent. */
  function Pow(a: int, n: nat): int
  {
    if n == 0 then 1 else a * Pow(a, n - 1)
  }

  /** The value the loop produces: a^b, and 1 when the loop never runs (b <= 0). */
  function PowerOf(a: int, b: int): int
  {
    if b <= 0 then 1 else Pow(a, b)
  }

  lemma {:induction false} PowAbs(a: int, n: nat)
    ensures Abs(Pow(a, n)) == Pow(Abs(a), n)
  {
    if n > 0 {
      PowAbs(a, n - 1);
      assert Abs(a * Pow(a, n - 1)) == Abs(a) * Abs(Pow(a, n - 1));
    }
  }

  /** For a base of magnitude at least 2, every earlier power is at most half
      of a later one in magnitude. */
  lemma {:induction false} PowGrows(m: int, k: nat, n: nat)
    requires m >= 2
    requires k < n
    ensures 0 < 2 * Pow(m, k) <= Pow(m, n)
  {
    PowPositive(m, n - 1);
    assert Pow(m, n) == m * Pow(m, n - 1);
    MulAtLeastDouble(m, Pow(m, n - 1));
    if k + 1 < n {
      PowGrows(m, k, n - 1);
    }
  }

  lemma MulAtLeastDouble(m: int, x: int)
    requires m >= 2
    requires x >= 0
    ensures m * x >= 2 * x
  {
  }

  lemma {:induction false} PowPositive(m: int, n: nat)
    requires m >= 1
    ensures Pow(m, n) >= 1
  {
    if n > 0 {
      PowPositive(m, n - 1);
      assert Pow(m, n) == m * Pow(m, n - 1);
    }
  }

  /** If the final power fits a C type whose range is [-h, h), so does every
      intermediate power the loop computes on the way. */
  lemma {:induction false} PowPrefixFits(a: int, i: nat, b: nat, h: int)
    requires h >= 2
    requires i <= b
    requires -h <= Pow(a, b) < h
    ensures -h <= Pow(a, i) < h
  {
    if i < b {
      PowAbs(a, i);
      PowAbs(a, b);
      if Abs(a) >= 2 {
        PowGrows(Abs(a), i, b);
      } else if a == 0 {
        assert Pow(a, b) == a * Pow(a, b - 1);
      } else {
        PowOne(i);
        PowOne(b);
      }
    }
  }

  lemma {:induction false} PowOne(n: nat)
    ensures Pow(1, n) == 1
  {
    if n > 0 {
      PowOne(n - 1);
    }
  }

  /** `power_int(a, b)`: multiplies an accumulator by `a`, `b` times, in a 16-bit int.
      The caller keeps the result inside `int`; then no intermediate overflows. */
  method PowerInt(a: int, b: int) returns (c: int)
    requires b <= 0 || IsInt(Pow(a, b))
    ensures c == PowerOf(a, b)
    ensures IsInt(c)
  {
    c := 1;
    var i := 0;
    while i < b
      invariant 0 <= i <= (if b > 0 then b else 0)
      invariant c == Pow(a, i)
      invariant IsInt(c)
    {
      PowPrefixFits(a, i + 1, b, 0x8000);
      c := c * a;
      i := i + 1;
    }
  }

  /** `power_long(a, b)`: the same loop with a 32-bit long accumulator. */
  method PowerLong(a: int, b: int) returns (c: int)
    requires b <= 0 || IsLong(Pow(a, b))
    ensures c == PowerOf(a, b)
    ensures IsLong(c)
  {
    c := 1;
    var i := 0;
    while i < b
      invariant 0 <= i <= (if b > 0 then b else 0)
      invariant c == Pow(a, i)
      invariant IsLong(c)
    {
      PowPrefixFits(a, i + 1, b, LONG_HALF);
      c := c * a;
      i := i + 1;
    }
  }

  /** The recurrence the loop implements: a^0 = 1 and a^(b+1) = a * a^b for b >= 0;
      and a non-positive exponent gives 1. */
  lemma PowerRecurrence(a: int, b: int)
    ensures PowerOf(a, 0) == 1
    ensures b >= 0 ==> PowerOf(a, b + 1) == a * PowerOf(a, b)
    ensures b < 0 ==> PowerOf(a, b) == 1
  {
  }

  /** Powers of two used as place values of the DAC's 12-bit field are the
      positive values 1 .. 2048, so they are safe divisors. */
  lemma {:induction false} PowTwoPlaceValues(i: nat)
    requires i <= 11
    ensures 1 <= Pow(2, i) <= 2048
    ensures Pow(2, i) * Pow(2, 11 - i) == 2048
  {
    PowPositive(2, i);
    PowAdd(2, i, 11 - i);
    if i < 11 {
      PowGrows(2, i, 11);
    }
  }

  lemma {:induction false} PowAdd(a: int, m: nat, n: nat)
    ensures Pow(a, m) * Pow(a, n) == Pow(a, m + n)
  {
    if m > 0 {
      PowAdd(a, m - 1, n);
      calc {
        Pow(a, m) * Pow(a, n);
        (a * Pow(a, m - 1)) * Pow(a, n);
        a * (Pow(a, m - 1) * Pow(a, n));
        a * Pow(a, m - 1 + n);
      }
    }
  }
}

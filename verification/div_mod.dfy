/** Facts about Euclidean division and remainder by a positive divisor, used by
    the bit-level codecs (for non-negative operands C's `/` and `%` agree with these). */
module DivMod {

  lemma MulLeft(a: int, b: int, m: int)
    requires m > 0
    requires a < b
    ensures a * m + m <= b * m
  {
    var d := b - a - 1;
    assert d >= 0;
    assert d * m >= 0;
    assert b * m == (a + d + 1) * m == a * m + d * m + m;
  }

  /** Quotient and remainder are the unique pair with x == q*m + r and 0 <= r < m. */
  lemma DivModUnique(x: int, m: int, q: int, r: int)
    requires m > 0
    requires 0 <= r < m
    requires x == q * m + r
    ensures x / m == q
    ensures x % m == r
  {
    var q', r' := x / m, x % m;
    assert x == q' * m + r';
    if q < q' {
      MulLeft(q, q', m);
    } else if q' < q {
      MulLeft(q', q, m);
    }
  }

  /** Splitting a remainder modulo 2m into the remainder modulo m and the next bit. */
  lemma ModDoubleSplit(x: int, m: int)
    requires m > 0
    ensures x % (2 * m) == x % m + ((x / m) % 2) * m
    ensures (x % (2 * m)) / m == (x / m) % 2
  {
    var q, r := x / m, x % m;
    var h, b := q / 2, q % 2;
    assert x == q * m + r;
    assert q == 2 * h + b;
    assert q * m == h * (2 * m) + b * m;
    assert b == 0 || b == 1;
    assert 0 <= b * m + r < 2 * m;
    DivModUnique(x, 2 * m, h, b * m + r);
    DivModUnique(b * m + r, m, b, r);
  }

  /** Reducing modulo a multiple of m first does not change the remainder modulo m. */
  lemma ModOfMultipleMod(x: int, m: int, k: int)
    requires m > 0
    requires k > 0
    ensures (x % (m * k)) % m == x % m
  {
    var n := m * k;
    var y := x % n;
    assert x == (x / n) * n + y;
    assert y == (y / m) * m + y % m;
    assert x == ((x / n) * k + y / m) * m + y % m by {
      calc {
        x;
        (x / n) * (m * k) + ((y / m) * m + y % m);
        ((x / n) * k + y / m) * m + y % m;
      }
    }
    DivModUnique(x, m, (x / n) * k + y / m, y % m);
  }

  /** Division by a positive divisor is monotonic. */
  lemma DivMonotonic(a: int, b: int, d: int)
    requires d > 0
    requires a <= b
    ensures a / d <= b / d
  {
    if a / d > b / d {
      assert a == (a / d) * d + a % d;
      assert b == (b / d) * d + b % d;
      MulLeft(b / d, a / d, d);
    }
  }

  /** A larger positive divisor gives a smaller quotient of a non-negative number. */
  lemma DivAntitone(x: int, d1: int, d2: int)
    requires x >= 0
    requires 0 < d1 <= d2
    ensures x / d2 <= x / d1
  {
    var q1, q2 := x / d1, x / d2;
    assert x == q1 * d1 + x % d1;
    assert x == q2 * d2 + x % d2;
    assert q2 >= 0;
    assert q2 * d1 <= q2 * d2;
    if q2 > q1 {
      MulLeft(q1, q2, d1);
    }
  }
}

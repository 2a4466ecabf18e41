/** Facts about Euclidean division on natural numbers, used to locate an
    element of a Cartesian product by its position. */
module Arith {

  /** A quotient and remainder that reconstruct `x` are the quotient and
      remainder. */
  lemma {:induction false} DivModUnique(x: int, n: int, q: int, r: int)
    requires n > 0 && 0 <= r < n && x == q * n + r
    ensures x / n == q && x % n == r
  {
    var q', r' := x / n, x % n;
    assert x == q' * n + r';
    if q' > q {
      assert (q' - q) * n >= n by { MulAtLeast(q' - q, n); }
      assert false;
    } else if q' < q {
      assert (q - q') * n >= n by { MulAtLeast(q - q', n); }
      assert false;
    }
  }

  lemma {:induction false} MulAtLeast(k: int, n: int)
    requires k >= 1 && n > 0
    ensures k * n >= n
  {
  }

  /** An index below `m * n` has a quotient by `n` below `m`. */
  lemma {:induction false} DivBelow(i: int, m: int, n: int)
    requires 0 <= i < m * n && n > 0
    ensures 0 <= i / n < m
  {
    if i / n >= m {
      MulMono(m, i / n, n);
    }
  }

  lemma {:induction false} MulMono(a: int, b: int, n: int)
    requires a <= b && n > 0
    ensures a * n <= b * n
  {
  }

  /** Dividing by `a` and then by `b` is dividing by `a * b`. */
  lemma {:induction false} DivDiv(i: int, a: int, b: int)
    requires i >= 0 && a > 0 && b > 0
    ensures (i / a) / b == i / (a * b)
  {
    var q1, r1 := i / a, i % a;
    var q2, r2 := q1 / b, q1 % b;
    Recompose(i, a, b, q1, r1, q2, r2);
    DigitsBelow(a, b, r1, r2);
    DivModUnique(i, a * b, q2, r2 * a + r1);
  }

  /** `i = q1 * a + r1` and `q1 = q2 * b + r2` give
      `i = q2 * (a * b) + (r2 * a + r1)`. */
  lemma {:induction false} Recompose(i: int, a: int, b: int, q1: int, r1: int, q2: int, r2: int)
    requires i == q1 * a + r1 && q1 == q2 * b + r2
    ensures i == q2 * (a * b) + (r2 * a + r1)
  {
    calc {
      i;
      q1 * a + r1;
      (q2 * b + r2) * a + r1;
      q2 * (a * b) + (r2 * a + r1);
    }
  }

  /** Two mixed-radix digits stay below the product of their radices. */
  lemma {:induction false} DigitsBelow(a: int, b: int, r1: int, r2: int)
    requires 0 <= r1 < a && 0 <= r2 < b
    ensures 0 <= r2 * a + r1 < a * b
  {
    MulMono(r2, b - 1, a);
    assert (b - 1) * a == a * b - a;
  }

  /** `DivDiv` with the divisor of the right-hand side given as a product
      in the other order. */
  lemma {:induction false} QuotientOfQuotient(i: int, n: int, s: int, m: int)
    requires i >= 0 && n > 0 && s > 0 && m == s * n
    ensures (i / n) / s == i / m
  {
    DivDiv(i, n, s);
    assert n * s == m;
  }
}

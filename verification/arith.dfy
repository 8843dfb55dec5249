/** Nonlinear facts kept out of the larger proofs. */
module Arithmetic {
  lemma MulLeftMonotone(a: int, b: int, c: int)
    requires 0 <= a <= b && 0 <= c
    ensures a * c <= b * c
  {
  }

  lemma MulRegroup(a: int, b: int, c: int)
    ensures a * b * c == b * (a * c)
  {
  }

  /** Rounding down to a multiple of `p` preserves order. */
  lemma RoundDownMonotone(x: int, y: int, p: int)
    requires 0 <= x <= y && p > 0
    ensures x - x % p <= y - y % p
  {
    var qx, qy := x / p, y / p;
    assert x - x % p == qx * p && y - y % p == qy * p;
    if qy < qx {
      MulLeftMonotone(qy + 1, qx, p);
      assert false;
    }
    MulLeftMonotone(qx, qy, p);
  }

  /** Euclidean division has exactly one quotient and remainder. */
  lemma ModUnique(v: int, m: int, a: int, c: int)
    requires 0 <= a && 0 <= c < m && v == m * a + c
    ensures v % m == c && v / m == a
  {
    var q := v / m;
    assert v == m * q + v % m;
    if q < a {
      MulLeftMonotone(q + 1, a, m);
      assert false;
    } else if a < q {
      MulLeftMonotone(a + 1, q, m);
      assert false;
    }
  }

  lemma Distribute(u: int, m: int, b: int, s: int)
    ensures u * (m * b + s) == (m * u) * b + u * s
  {
  }

  /** A digit below `m` in place `u`, plus a remainder below `u`, stays below `m * u`. */
  lemma MixedBound(u: int, m: int, s: int, r: int)
    requires 0 <= s < m && 0 <= r < u
    ensures u * s + r < m * u
  {
    MulLeftMonotone(s, m - 1, u);
    assert (m - 1) * u + u == m * u;
  }

  /** Dividing by `u` and then by `m` is dividing by `m * u`, and multiplying
      the quotient back rounds down to a multiple of `m * u`. */
  lemma DivDiv(n: int, u: int, m: int)
    requires 0 <= n && 0 < u && 0 < m
    ensures (n / u) / m == n / (m * u)
    ensures (n / u) / m * m * u == n - n % (m * u)
  {
    var a, r := n / u, n % u;
    var b, s := a / m, a % m;
    assert n == u * a + r;
    assert a == m * b + s;
    Distribute(u, m, b, s);
    MixedBound(u, m, s, r);
    ModUnique(n, m * u, b, u * s + r);
    MulRegroup(b, m, u);
  }


  /** A value below `(k + 1) * u` has quotient at most `k`. */
  lemma DivBound(n: int, u: int, k: int)
    requires 0 <= n < (k + 1) * u && 0 < u && 0 <= k
    ensures n / u <= k
  {
    if n / u > k {
      MulLeftMonotone(k + 1, n / u, u);
      assert false;
    }
  }
}

/** Facts about products that the solver is not left to find. */
module Arithmetic {

  lemma MulLe(a: int, b: int, e: int)
    requires a <= b && 0 <= e
    ensures a * e <= b * e
  {
  }

  /** A multiple of n is a multiple of whatever divides n. */
  lemma DividesThrough(a: nat, n: nat, u: nat)
    requires 1 <= u && 1 <= n && a % n == 0 && n % u == 0
    ensures a % u == 0
  {
    var m, q := a / n, n / u;
    assert a == m * n && n == q * u;
    assert a == (m * q) * u by {
      assert m * (q * u) == (m * q) * u;
    }
    MultipleOf(m * q, u);
  }

  lemma MultipleOf(k: nat, u: nat)
    requires 1 <= u
    ensures (k * u) % u == 0
  {
    var x := k * u;
    var q, rem := x / u, x % u;
    assert x == q * u + rem;
    if q < k {
      MulLe(q + 1, k, u);
    } else if k < q {
      MulLe(k + 1, q, u);
    }
  }
}

/** Facts about products and quotients used by the index calculations. */
module Nonlinear {
  lemma MulSteps(a: int, b: int, d: nat)
    ensures a < b ==> a * d + d <= b * d
    ensures a <= b ==> a * d <= b * d
    decreases if a < b then b - a else 0
  {
    if a < b {
      MulSteps(a, b - 1, d);
      assert b * d == (b - 1) * d + d;
    }
  }

  lemma DivUnique(n: nat, d: nat, q: int, r: nat)
    requires r < d && n == q * d + r
    ensures n / d == q && n % d == r
  {
    var q', r' := n / d, n % d;
    assert q' * d + r' == q * d + r;
    MulSteps(q', q, d);
    MulSteps(q, q', d);
  }
}

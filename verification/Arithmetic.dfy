/** Products, quotients and remainders. */
module Arithmetic {

  lemma Scale(a: nat, b: nat, k: nat)
    requires a <= b
    ensures a * k <= b * k
  {
  }

  lemma ScaleReal(a: real, b: real, k: real)
    requires a <= b && k >= 0.0
    ensures a * k <= b * k
  {
  }

  lemma OneMore(a: nat, k: nat)
    ensures (a + 1) * k == a * k + k
  {
  }

  lemma Divide(n: nat, k: nat) returns (q: nat, r: nat)
    requires k > 0
    ensures n == q * k + r && r < k && r == n % k
  {
    q, r := n / k, n % k;
  }

  /** Division by k has one quotient and one remainder. */
  lemma Divided(n: nat, k: nat, q: nat, r: nat)
    requires k > 0 && n == q * k + r && r < k
    ensures n / k == q && n % k == r
  {
    var q', r' := n / k, n % k;
    assert n == q' * k + r';
    if q < q' { Scale(q + 1, q', k); } else if q' < q { Scale(q' + 1, q, k); }
  }
}

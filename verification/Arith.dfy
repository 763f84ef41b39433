/** Small facts about division and powers that the solver does not find by itself. */
module Arith {
  lemma MulMonotone(k: nat, x: int, y: int)
    requires x <= y
    ensures k * x <= k * y
  {
    assert k * y == k * x + k * (y - x);
  }

  /** Quotient and remainder are determined by the equation they satisfy. */
  lemma DivModUnique(a: nat, k: nat, q: nat, r: nat)
    requires k > 0 && r < k && a == k * q + r
    ensures a / k == q && a % k == r
  {
    var q', r' := a / k, a % k;
    assert a == k * q' + r';
    if q < q' {
      MulMonotone(k, q + 1, q');
      assert false;
    } else if q' < q {
      MulMonotone(k, q' + 1, q);
      assert false;
    }
  }

  /** Counting one more: either the remainder grows or a round is complete. */
  lemma CountOne(a: nat, k: nat)
    requires k > 0
    ensures if a % k == k - 1 then (a + 1) % k == 0 && (a + 1) / k == a / k + 1
            else (a + 1) % k == a % k + 1 && (a + 1) / k == a / k
  {
    var q, r := a / k, a % k;
    assert a == k * q + r;
    if r == k - 1 {
      assert k * (q + 1) == k * q + k;
      DivModUnique(a + 1, k, q + 1, 0);
    } else {
      DivModUnique(a + 1, k, q, r + 1);
    }
  }
}

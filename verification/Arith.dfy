/** Arithmetic facts about products and quotients of naturals. */
module Arith {
  type pos = x: nat | x > 0 witness 1

  lemma MulMonotone(x: nat, y: nat, k: nat)
    requires x <= y
    ensures x * k <= y * k
  {
    assert y * k == x * k + (y - x) * k;
  }

  lemma MulCancel(x: nat, y: nat, k: nat)
    requires x * k < y * k
    ensures x < y
  {
    if y <= x {
      MulMonotone(y, x, k);
    }
  }

  lemma DivBelow(a: nat, q: nat, k: pos)
    requires a < q * k
    ensures a / k < q
  {
    assert a == a / k * k + a % k;
    MulCancel(a / k, q, k);
  }

  lemma DivAtLeast(a: nat, q: nat, k: pos)
    requires q * k <= a
    ensures q <= a / k
  {
    assert a == a / k * k + a % k;
    assert (a / k + 1) * k == a / k * k + k;
    MulCancel(q, a / k + 1, k);
  }

  lemma DivMonotone(a: nat, b: nat, k: pos)
    requires a <= b
    ensures a / k <= b / k
  {
    assert a == a / k * k + a % k;
    DivAtLeast(b, a / k, k);
  }

  lemma DivMultiple(a: nat, k: pos)
    ensures a * k / k == a
  {
    DivAtLeast(a * k, a, k);
    assert (a + 1) * k == a * k + k;
    DivBelow(a * k, a + 1, k);
  }
}

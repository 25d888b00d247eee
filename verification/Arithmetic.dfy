/** Integer division and the few facts about products that fee arithmetic needs. */
module Arithmetic {
  /** Integer division. */
  function Quotient(x: nat, d: nat): nat
    requires d > 0
  {
    if x < d then 0 else 1 + Quotient(x - d, d)
  }

  lemma {:induction false} QuotientBounds(x: nat, d: nat)
    requires d > 0
    ensures d * Quotient(x, d) <= x < d * Quotient(x, d) + d
  {
    if x >= d {
      QuotientBounds(x - d, d);
    }
  }

  /** Division, rounding up. */
  function Ceiling(x: nat, d: nat): nat
    requires d > 0
  {
    Quotient(x + d - 1, d)
  }

  lemma CeilingBounds(x: nat, d: nat)
    requires d > 0
    ensures x <= d * Ceiling(x, d) < x + d
  {
    QuotientBounds(x + d - 1, d);
  }

  lemma MulMonotone(a: nat, b: nat, c: nat)
    requires a <= b
    ensures a * c <= b * c
  {
  }

  lemma AtMost(q: nat, a: nat, total: nat)
    requires total > 0 && total * q <= total * a
    ensures q <= a
  {
    assert total * (a + 1) == total * a + total;
    CancelBelow(q, a + 1, total);
  }

  lemma CancelBelow(x: nat, y: nat, total: nat)
    requires total > 0 && total * x < total * y
    ensures x < y
  {
    if x >= y {
      MulMonotone(y, x, total);
    }
  }

  lemma CancelBetween(total: nat, net: nat, f: nat, n: nat)
    requires total > 0 && total * net <= total * f < total * net + total * n
    ensures net <= f < net + n
  {
    assert total * net + total * n == total * (net + n);
    CancelBelow(f, net + n, total);
    assert total * (f + 1) == total * f + total;
    CancelBelow(net, f + 1, total);
  }

  lemma QuotientIs(x: nat, d: nat, q: nat)
    requires d > 0 && d * q <= x < d * q + d
    ensures Quotient(x, d) == q
  {
    var r := Quotient(x, d);
    QuotientBounds(x, d);
    if r < q {
      MulMonotone(r + 1, q, d);
    } else if q < r {
      MulMonotone(q + 1, r, d);
    }
  }
}

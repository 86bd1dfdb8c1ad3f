/** Integer division and products, in the few forms the solver does not find alone. */
module Arithmetic {

  lemma ProductBound(m: nat, d: int)
    ensures d >= 1 ==> m * d >= m
    ensures d <= -1 ==> m * d + m <= 0
  {
    if d >= 1 {
      assert m * d == m + m * (d - 1) && m * (d - 1) >= 0;
    } else if d <= -1 {
      assert m * d + m == m * (d + 1) && m * (-d - 1) >= 0;
    }
  }

  /** Quotient and remainder are determined by the division equation. */
  lemma QuotientUnique(m: nat, q: int, i: nat)
    requires i < m
    ensures (m * q + i) % m == i && (m * q + i) / m == q
  {
    var d := q - (m * q + i) / m;
    assert m * d == m * q - m * ((m * q + i) / m);
    ProductBound(m, d);
  }

  /** Two consecutive blocks of size p merge into one of size 2p. */
  lemma MergeBlocks(i: nat, p: nat)
    ensures i * (2 * p) == (2 * i) * p
    ensures (2 * i + 1) * p == (2 * i) * p + p
    ensures (i + 1) * (2 * p) == (2 * i + 1) * p + p
  {
  }

  /** Halving a block count, rounding up, keeps the count right for blocks of twice the size. */
  lemma HalveBlockCount(w: nat, p: nat, g: nat)
    requires 0 < w && (w - 1) * p < g <= w * p
    ensures var half := (w + 1) / 2; (half - 1) * (2 * p) < g <= half * (2 * p)
  {
    var half := (w + 1) / 2;
    if w == 2 * half {
      HalveEven(half, p, g);
    } else {
      assert w == 2 * half - 1;
      HalveOdd(half, p, g);
    }
  }

  lemma HalveEven(half: nat, p: nat, g: nat)
    requires 0 < half && (2 * half - 1) * p < g <= (2 * half) * p
    ensures (half - 1) * (2 * p) < g <= half * (2 * p)
  {
    assert (half - 1) * (2 * p) == (2 * half - 1) * p - p;
  }

  lemma HalveOdd(half: nat, p: nat, g: nat)
    requires 0 < half && (2 * half - 2) * p < g <= (2 * half - 1) * p
    ensures (half - 1) * (2 * p) < g <= half * (2 * p)
  {
    assert (half - 1) * (2 * p) == (2 * half - 2) * p;
    assert half * (2 * p) == (2 * half - 1) * p + p;
  }

  lemma ProductMonotone(i: nat, j: nat, p: nat)
    requires i <= j
    ensures i * p <= j * p
  {
  }
}

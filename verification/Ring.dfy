/** The two's-complement ring of 64-bit words and vectors over it. */
module Ring {
  import opened Sequences

  const WORD_MODULUS: int := 0x1_0000_0000_0000_0000
  const WORD_HALF: int := 0x8000_0000_0000_0000

  /** The signed 64-bit word congruent to x. */
  function Wrap(x: int): (w: int)
    ensures -WORD_HALF <= w < WORD_HALF
  {
    (x + WORD_HALF) % WORD_MODULUS - WORD_HALF
  }

  /** Two integers wrap to the same word when they differ by a multiple of 2^64. */
  lemma WrapCongruent(x: int, k: int)
    ensures Wrap(x + WORD_MODULUS * k) == Wrap(x)
  {
    var q := (x + WORD_HALF) / WORD_MODULUS;
    assert x + WORD_HALF == WORD_MODULUS * q + (x + WORD_HALF) % WORD_MODULUS;
    assert (x + WORD_HALF) + WORD_MODULUS * k == WORD_MODULUS * (q + k) + (x + WORD_HALF) % WORD_MODULUS;
  }

  lemma WrapQuotient(x: int) returns (k: int)
    ensures Wrap(x) == x + WORD_MODULUS * k
  {
    k := -((x + WORD_HALF) / WORD_MODULUS);
  }

  /** Wrapping early or late makes no difference to a sum or a difference. */
  lemma WrapHomomorphic(x: int, y: int)
    ensures Wrap(Wrap(x) + Wrap(y)) == Wrap(x + y)
    ensures Wrap(Wrap(x) - Wrap(y)) == Wrap(x - y)
  {
    hide Wrap;
    var k := WrapQuotient(x);
    var l := WrapQuotient(y);
    WrapCongruent(x + y, k + l);
    WrapCongruent(x - y, k - l);
  }

  /** Wrapping changes nothing exactly when the number fits a signed word. */
  lemma WrapExactIffFits(x: int)
    ensures Wrap(x) == x <==> -WORD_HALF <= x < WORD_HALF
  {
  }

  /** A flattened int64 tensor. */
  type Tensor = seq<int>

  /** Coordinate i, zero outside the tensor. */
  function At(t: Tensor, i: nat): int {
    if i < |t| then t[i] else 0
  }

  function AddTensors(a: Tensor, b: Tensor): Tensor
    requires |a| == |b|
  {
    seq(|a|, i requires 0 <= i < |a| => Wrap(a[i] + b[i]))
  }
}

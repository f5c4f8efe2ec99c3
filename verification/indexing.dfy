/** Small integer and index-sequence helpers shared by the other modules. */
module Indexing {

  function Min(a: int, b: int): int
  {
    if a < b then a else b
  }

  /** The indices `0, 1, ..., n-1` in order: the trace of a loop that
      touches every position of an `n`-element buffer once, left to right. */
  function Indices(n: nat): (s: seq<int>)
    ensures |s| == n
    ensures forall k :: 0 <= k < n ==> s[k] == k
  {
    seq(n, k => k)
  }

  /** Multiplication by a positive factor preserves strict order. */
  lemma MulStrictMonotone(a: int, b: int, w: int)
    requires w > 0 && a * w < b * w
    ensures a < b
  {
  }

  /** Multiplication by a positive factor preserves order. */
  lemma MulMonotone(a: int, b: int, w: int)
    requires w > 0 && a <= b
    ensures a * w <= b * w
  {
    assert b * w - a * w == (b - a) * w;
  }

  /** The only multiple of `w` strictly between `-w` and `w` is 0. */
  lemma SmallMultiple(m: int, w: int)
    requires w > 0 && -w < m * w < w
    ensures m == 0
  {
    if m >= 1 {
      MulMonotone(1, m, w);
    } else if m <= -1 {
      MulMonotone(m, -1, w);
    }
  }

  /** If `k * w <= i < k * w + w` then `k` is the quotient `i / w`. */
  lemma DivUnique(i: int, w: int, k: int)
    requires w > 0 && k * w <= i < k * w + w
    ensures i / w == k
  {
    var q := i / w;
    var r := i % w;
    assert i == q * w + r && 0 <= r < w;
    assert (q - k) * w == q * w - k * w;
    SmallMultiple(q - k, w);
  }
}

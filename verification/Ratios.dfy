/** Comparing a quotient of two counts with a threshold. */
module Ratios {

  lemma ScaleBy(q: real, t: real, y: real)
    requires y > 0.0
    ensures q >= t <==> q * y >= t * y
  {
    if q >= t {
      assert (q - t) * y >= 0.0;
    } else {
      assert (t - q) * y > 0.0;
    }
  }

  lemma RatioAtLeast(p: nat, q: nat, t: real)
    requires q > 0
    ensures p as real / q as real >= t <==> p as real >= t * q as real
  {
    var r := p as real / q as real;
    ScaleBy(r, t, q as real);
    assert r * q as real == p as real;
  }

  lemma RatioRange(p: nat, q: nat)
    requires p <= q && q > 0
    ensures 0.0 <= p as real / q as real <= 1.0
    ensures p == q ==> p as real / q as real == 1.0
  {
  }

  lemma UnionSize<T>(x: set<T>, y: set<T>)
    ensures |x + y| == |x| + |y| - |x * y|
    ensures |x * y| <= |x + y|
  {
    assert x + y == x + (y - x) && y == (y - x) + x * y;
    assert |x + y| == |x| + |y - x| && |y| == |y - x| + |x * y|;
  }
}

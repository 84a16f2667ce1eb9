/** The game draws every random quantity with `Math.random()`. The model takes
    each draw as a real number supplied by the caller together with the range
    `Math.random` promises, and computes what the source derives from it. */
module Randomness {

  /** A value `Math.random()` can return: in [0, 1). */
  predicate IsRandom(r: real) {
    0.0 <= r < 1.0
  }

  /** `lo + Math.floor(r * (hi - lo + 1))`, the source's integer draw in [lo, hi],
      in exact real arithmetic. The pumpkin counts are written
      `Math.floor(r * (hi - lo + 1) + lo)`: over the reals that is the same value,
      but in binary64 the sum can round up to `hi + 1` for the largest values
      `Math.random()` returns, which this model does not capture. */
  function RandomInt(r: real, lo: int, hi: int): int {
    lo + (r * (hi - lo + 1) as real).Floor
  }

  /** A draw from a non-empty range lands in that range. */
  lemma RandomIntInRange(r: real, lo: int, hi: int)
    requires IsRandom(r) && lo <= hi
    ensures lo <= RandomInt(r, lo, hi) <= hi
  {
    var n := (hi - lo + 1) as real;
    assert 0.0 <= r * n;
    assert r * n < n by {
      assert (1.0 - r) * n > 0.0;
    }
  }

  /** Every value of a non-empty range is the result of some draw: modelling the
      draws as parameters leaves out no outcome of the source. */
  lemma RandomIntCovers(lo: int, hi: int, k: int)
    requires lo <= k <= hi
    ensures exists r :: IsRandom(r) && RandomInt(r, lo, hi) == k
  {
    var n := (hi - lo + 1) as real;
    var r := (k - lo) as real / n;
    assert r * n == (k - lo) as real;
    assert IsRandom(r);
    assert RandomInt(r, lo, hi) == k;
  }
}

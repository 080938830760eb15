/** Arithmetic on confidence scores: sums and means of `number[]` (`reduce((s, c) => s + c, 0)`
    divided by the length) and `Math.round(x * 100) / 100`, stated exactly over the reals. */
module Numbers {

  /** `xs.reduce((sum, x) => sum + x, 0)`, adding from the left. */
  function Sum(xs: seq<real>): real
    decreases |xs|
  {
    if xs == [] then 0.0 else Sum(xs[..|xs| - 1]) + xs[|xs| - 1]
  }

  /** The arithmetic mean of a non-empty list. */
  function Mean(xs: seq<real>): real
    requires |xs| > 0
  {
    Sum(xs) / (|xs| as real)
  }

  /** A sum of values between `lo` and `hi` lies between `n * lo` and `n * hi`. */
  lemma {:induction false} SumBounds(xs: seq<real>, lo: real, hi: real)
    requires forall i :: 0 <= i < |xs| ==> lo <= xs[i] <= hi
    ensures (|xs| as real) * lo <= Sum(xs) <= (|xs| as real) * hi
    decreases |xs|
  {
    if xs != [] {
      var front := xs[..|xs| - 1];
      SumBounds(front, lo, hi);
      assert (|xs| as real) * lo == (|front| as real) * lo + lo;
      assert (|xs| as real) * hi == (|front| as real) * hi + hi;
    }
  }

  /** The mean of values between `lo` and `hi` lies between them too. */
  lemma MeanBounds(xs: seq<real>, lo: real, hi: real)
    requires |xs| > 0
    requires forall i :: 0 <= i < |xs| ==> lo <= xs[i] <= hi
    ensures lo <= Mean(xs) <= hi
  {
    SumBounds(xs, lo, hi);
    var n := |xs| as real;
    assert n * lo <= Sum(xs) <= n * hi;
    assert Mean(xs) * n == Sum(xs);
  }

  /** The sum of `n` equal values is `n` times that value. */
  lemma {:induction false} SumConstant(xs: seq<real>, c: real)
    requires forall i :: 0 <= i < |xs| ==> xs[i] == c
    ensures Sum(xs) == (|xs| as real) * c
    decreases |xs|
  {
    if xs != [] {
      SumConstant(xs[..|xs| - 1], c);
    }
  }

  /** `Math.round(x * 100) / 100`: `Math.round` rounds halves up, that is `floor(y + 0.5)`.
      The result is the multiple of 0.01 nearest to `x`, halves going up. */
  function Round2(x: real): (r: real)
    ensures r - 0.005 <= x < r + 0.005
    ensures ((r * 100.0).Floor as real) == r * 100.0
  {
    var k := (x * 100.0 + 0.5).Floor;
    assert (k as real) <= x * 100.0 + 0.5 < (k as real) + 1.0;
    (k as real) / 100.0
  }

  /** Rounding a value between 0 and 1 stays between 0 and 1. */
  lemma Round2UnitInterval(x: real)
    requires 0.0 <= x <= 1.0
    ensures 0.0 <= Round2(x) <= 1.0
  {
    var k := (x * 100.0 + 0.5).Floor;
    assert 0.5 <= x * 100.0 + 0.5 <= 100.5;
    assert 0 <= k <= 100;
  }

  /** A value that already has two decimals is left unchanged; in particular the 0.9 default. */
  lemma Round2Exact(k: int)
    ensures Round2((k as real) / 100.0) == (k as real) / 100.0
  {
    var x := (k as real) / 100.0;
    assert x * 100.0 + 0.5 == (k as real) + 0.5;
    assert (x * 100.0 + 0.5).Floor == k;
  }
}

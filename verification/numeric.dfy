/**
  Arithmetic building blocks shared by every stage of the ADXL345 pipeline:
  bytes, the int16_t conversion, C's `(int)` cast of a double, and sums,
  means and powers over reals (the driver's doubles).
 */
module Numeric {

  /** An unsigned 8-bit value (`uint8_t`). */
  type Byte = b: int | 0 <= b < 256

  /** A signed 16-bit value (`int16_t`). */
  type Int16 = v: int | -0x8000 <= v < 0x8000

  /** The conversion of a 16-bit word to `int16_t`: modular, as the target's
      compiler defines it for words above 0x7FFF. */
  function WrapInt16(w: int): (v: Int16)
    requires 0 <= w < 0x1_0000
    ensures (v - w) % 0x1_0000 == 0
    ensures v < 0 <==> w >= 0x8000
  {
    if w < 0x8000 then w else w - 0x1_0000
  }

  /** C's `(int)` cast of a double: truncation toward zero. */
  function Trunc(x: real): (n: int)
    ensures 0.0 <= x ==> n as real <= x < n as real + 1.0
    ensures x < 0.0 ==> n as real - 1.0 < x <= n as real
    ensures n == 0 <==> -1.0 < x < 1.0
  {
    if x >= 0.0 then x.Floor else -((-x).Floor)
  }

  /** Sum of a sequence, accumulated left to right as the driver's loops do. */
  function Sum(xs: seq<real>): real
  {
    if |xs| == 0 then 0.0 else Sum(xs[..|xs| - 1]) + xs[|xs| - 1]
  }

  /** Arithmetic mean of a non-empty sequence. */
  function Mean(xs: seq<real>): real
    requires |xs| > 0
  {
    Sum(xs) / |xs| as real
  }

  /** `base` raised to a natural power. */
  function Pow(base: real, k: nat): real
  {
    if k == 0 then 1.0 else base * Pow(base, k - 1)
  }

  /** `v0` advanced `k` times by the constant step `c`. */
  function Drift(v0: real, c: real, k: nat): real
  {
    if k == 0 then v0 else Drift(v0, c, k - 1) + c
  }

  /** `k` constant steps add up to `k * c`. */
  lemma {:induction false} DriftIsLinear(v0: real, c: real, k: nat)
    ensures Drift(v0, c, k) == v0 + k as real * c
  {
    if k > 0 {
      DriftIsLinear(v0, c, k - 1);
      assert (k - 1) as real * c + c == k as real * c;
    }
  }

  /** Extending a prefix by one element adds that element to the sum; this is
      the step every accumulation loop takes. */
  lemma SumPrefixStep(xs: seq<real>, n: nat)
    requires n < |xs|
    ensures Sum(xs[..n + 1]) == Sum(xs[..n]) + xs[n]
  {
    assert xs[..n + 1][..n] == xs[..n];
  }

  /** The sum of `|xs|` copies of `v` is `|xs| * v`. */
  lemma {:induction false} SumOfConstant(xs: seq<real>, v: real)
    requires forall k | 0 <= k < |xs| :: xs[k] == v
    ensures Sum(xs) == |xs| as real * v
  {
    if |xs| > 0 {
      SumOfConstant(xs[..|xs| - 1], v);
    }
  }

  /** The mean of identical values is that value. */
  lemma MeanOfConstant(xs: seq<real>, v: real)
    requires |xs| > 0
    requires forall k | 0 <= k < |xs| :: xs[k] == v
    ensures Mean(xs) == v
  {
    SumOfConstant(xs, v);
  }

  /** A sum of values within `[lo, hi]` lies within `[|xs| * lo, |xs| * hi]`. */
  lemma {:induction false} SumBetween(xs: seq<real>, lo: real, hi: real)
    requires forall k | 0 <= k < |xs| :: lo <= xs[k] <= hi
    ensures |xs| as real * lo <= Sum(xs) <= |xs| as real * hi
  {
    if |xs| > 0 {
      SumBetween(xs[..|xs| - 1], lo, hi);
    }
  }

  /** The mean of values within `[lo, hi]` lies within `[lo, hi]`. */
  lemma MeanBetween(xs: seq<real>, lo: real, hi: real)
    requires |xs| > 0
    requires forall k | 0 <= k < |xs| :: lo <= xs[k] <= hi
    ensures lo <= Mean(xs) <= hi
  {
    SumBetween(xs, lo, hi);
    var n := |xs| as real;
    assert n * lo <= Sum(xs) <= n * hi;
    assert Sum(xs) / n >= lo by {
      assert Sum(xs) / n * n == Sum(xs);
    }
    assert Sum(xs) / n <= hi by {
      assert Sum(xs) / n * n == Sum(xs);
    }
  }
}

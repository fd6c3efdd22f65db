/**
 The numeric steps between a random draw and a stored value: `np.clip` to a closed interval,
 Python's `int()` of a float (truncation toward zero), and the value of a normal draw.

 A normal draw `np.random.normal(mean, sd)` is modelled by its standard deviate `z`, given in
 hundredths; with the mean and standard deviation in tenths, `mean + sd * z` is then exact in
 thousandths.
 */
module Numeric {

  function Max(a: int, b: int): (m: int) { if a < b then b else a }
  function Min(a: int, b: int): (m: int) { if a < b then a else b }
  function Abs(x: int): (m: nat) { if x < 0 then -x else x }

  /** `np.clip(x, lo, hi)`, which is `minimum(maximum(x, lo), hi)`. */
  function Clip(x: int, lo: int, hi: int): (r: int)
    ensures lo <= hi ==> lo <= r <= hi
    ensures lo <= x <= hi ==> r == x
    ensures x < lo <= hi ==> r == lo
    ensures lo <= hi < x ==> r == hi
  {
    Min(Max(x, lo), hi)
  }

  lemma ClipMonotone(x: int, y: int, lo: int, hi: int)
    requires x <= y
    ensures Clip(x, lo, hi) <= Clip(y, lo, hi)
  {
  }

  /** `np.clip` applied to a whole column. */
  function ClipColumn(xs: seq<int>, lo: int, hi: int): (r: seq<int>)
    ensures |r| == |xs|
    ensures forall i :: 0 <= i < |r| ==> r[i] == Clip(xs[i], lo, hi)
    ensures lo <= hi ==> forall i :: 0 <= i < |r| ==> lo <= r[i] <= hi
  {
    seq(|xs|, i requires 0 <= i < |xs| => Clip(xs[i], lo, hi))
  }

  /** `int(x / 1000)`: a value in thousandths truncated toward zero to a whole number. */
  function TruncThousandths(x: int): (r: int)
    ensures 0 <= x ==> 0 <= r && 1000 * r <= x < 1000 * r + 1000
    ensures x < 0 ==> r <= 0 && 1000 * r - 1000 < x <= 1000 * r
  {
    if x >= 0 then x / 1000 else -((-x) / 1000)
  }

  /** A normal distribution with its mean and standard deviation in tenths. */
  datatype Normal = Normal(mean: int, sd: int)

  /** The value of a normal draw with standard deviate `z` hundredths, in thousandths. */
  function Value(n: Normal, z: int): (v: int) {
    n.mean * 100 + n.sd * z
  }

  /** `int(np.random.normal(mean, sd))` clipped to `[1, 10]`, the shape of the two survey
      scores: always a valid score, and never lower for a larger draw. */
  function Score(n: Normal, z: int): (r: int)
    ensures 1 <= r <= 10
  {
    Clip(TruncThousandths(Value(n, z)), 1, 10)
  }

  /** A larger value in thousandths never gives a lower score. */
  lemma ScoreMonotone(x: int, y: int)
    requires x <= y
    ensures Clip(TruncThousandths(x), 1, 10) <= Clip(TruncThousandths(y), 1, 10)
  {
    ClipMonotone(TruncThousandths(x), TruncThousandths(y), 1, 10);
  }
}

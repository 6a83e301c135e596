/** The statistics the benchmark computes over lists of telemetry samples:
    `sum`, `np.mean` and the population variance behind `np.std`, over exact reals. */
module Stats {

  function Sum(xs: seq<real>): real
  {
    if xs == [] then 0.0 else xs[0] + Sum(xs[1..])
  }

  /** `np.mean` of a non-empty list. */
  function Mean(xs: seq<real>): real
    requires xs != []
  {
    Sum(xs) / (|xs| as real)
  }

  function SquaredDeviations(xs: seq<real>, m: real): (ds: seq<real>)
    ensures |ds| == |xs|
  {
    if xs == [] then [] else [(xs[0] - m) * (xs[0] - m)] + SquaredDeviations(xs[1..], m)
  }

  /** Population variance (`np.std` squared; no Bessel correction). */
  function Variance(xs: seq<real>): real
    requires xs != []
  {
    Sum(SquaredDeviations(xs, Mean(xs))) / (|xs| as real)
  }

  function Min(xs: seq<real>): (m: real)
    requires xs != []
    ensures m in xs
    ensures forall i :: 0 <= i < |xs| ==> m <= xs[i]
  {
    if |xs| == 1 then xs[0]
    else var rest := Min(xs[1..]); if xs[0] <= rest then xs[0] else rest
  }

  function Max(xs: seq<real>): (m: real)
    requires xs != []
    ensures m in xs
    ensures forall i :: 0 <= i < |xs| ==> xs[i] <= m
  {
    if |xs| == 1 then xs[0]
    else var rest := Max(xs[1..]); if xs[0] >= rest then xs[0] else rest
  }

  lemma {:induction false} SumBounds(xs: seq<real>, lo: real, hi: real)
    requires forall i :: 0 <= i < |xs| ==> lo <= xs[i] <= hi
    ensures (|xs| as real) * lo <= Sum(xs) <= (|xs| as real) * hi
  {
    if xs != [] {
      SumBounds(xs[1..], lo, hi);
    }
  }

  lemma QuotientBetween(s: real, n: real, lo: real, hi: real)
    requires 0.0 < n && n * lo <= s <= n * hi
    ensures lo <= s / n <= hi
  {
    var q := s / n;
    assert q * n == s;
    assert (q - lo) * n == s - n * lo;
    assert (hi - q) * n == n * hi - s;
  }

  /** Samples that all lie in `[lo, hi]` have their mean there too. */
  lemma MeanBounds(xs: seq<real>, lo: real, hi: real)
    requires xs != []
    requires forall i :: 0 <= i < |xs| ==> lo <= xs[i] <= hi
    ensures lo <= Mean(xs) <= hi
  {
    SumBounds(xs, lo, hi);
    QuotientBetween(Sum(xs), |xs| as real, lo, hi);
  }

  /** The mean lies between the smallest and the largest sample. */
  lemma MeanBetweenMinAndMax(xs: seq<real>)
    requires xs != []
    ensures Min(xs) <= Mean(xs) <= Max(xs)
  {
    var lo, hi := Min(xs), Max(xs);
    MeanBounds(xs, lo, hi);
  }

  /** A list of one repeated value has that value as its mean and no spread. */
  lemma {:induction false} ConstantSamples(xs: seq<real>, c: real)
    requires xs != []
    requires forall i :: 0 <= i < |xs| ==> xs[i] == c
    ensures Mean(xs) == c && Variance(xs) == 0.0
  {
    MeanBounds(xs, c, c);
    ZeroDeviations(xs, c);
    assert Sum(SquaredDeviations(xs, Mean(xs))) == 0.0;
  }

  lemma {:induction false} ZeroDeviations(xs: seq<real>, c: real)
    requires forall i :: 0 <= i < |xs| ==> xs[i] == c
    ensures Sum(SquaredDeviations(xs, c)) == 0.0
  {
    if xs != [] {
      ZeroDeviations(xs[1..], c);
    }
  }

  lemma {:induction false} SquaresNonNegative(xs: seq<real>, m: real)
    ensures 0.0 <= Sum(SquaredDeviations(xs, m))
  {
    if xs != [] {
      SquaresNonNegative(xs[1..], m);
      assert 0.0 <= (xs[0] - m) * (xs[0] - m);
    }
  }

  lemma VarianceNonNegative(xs: seq<real>)
    requires xs != []
    ensures 0.0 <= Variance(xs)
  {
    SquaresNonNegative(xs, Mean(xs));
  }
}

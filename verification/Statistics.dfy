/** Sums, means and sample variances of sequences of reals. */
module Statistics {
  function Sum(xs: seq<real>): real {
    if xs == [] then 0.0 else Sum(xs[..|xs| - 1]) + xs[|xs| - 1]
  }

  lemma SumAppend(xs: seq<real>, x: real)
    ensures Sum(xs + [x]) == Sum(xs) + x
  {
    assert (xs + [x])[..|xs|] == xs;
  }

  function Mean(xs: seq<real>): real
    requires xs != []
  {
    Sum(xs) / |xs| as real
  }

  function SquaredDeviations(xs: seq<real>, center: real): real {
    if xs == [] then 0.0
    else
      var d := xs[|xs| - 1] - center;
      SquaredDeviations(xs[..|xs| - 1], center) + d * d
  }

  /** The sample variance, with |xs| - 1 in the denominator. */
  function Variance(xs: seq<real>): real
    requires |xs| > 1
  {
    SquaredDeviations(xs, Mean(xs)) / (|xs| as real - 1.0)
  }

  function SumOfSquares(xs: seq<real>): real {
    if xs == [] then 0.0 else SumOfSquares(xs[..|xs| - 1]) + xs[|xs| - 1] * xs[|xs| - 1]
  }

  lemma SquareOfDifference(x: real, c: real, n: real)
    ensures (x - c) * (x - c) + n * (c * c) == x * x - 2.0 * (c * x) + (n + 1.0) * (c * c)
  {
  }

  lemma {:induction false} DeviationsExpand(xs: seq<real>, c: real)
    ensures IsExpansion(|xs| as real, c, SquaredDeviations(xs, c), Sum(xs), SumOfSquares(xs))
  {
    if xs != [] {
      var rest, x := xs[..|xs| - 1], xs[|xs| - 1];
      DeviationsExpand(rest, c);
      SquareOfDifference(x, c, |rest| as real);
      assert c * Sum(xs) == c * Sum(rest) + c * x;
    }
  }

  /** n(n-1) times a variance against the gap in the Cauchy-Schwarz inequality. */
  predicate IsGap(n: real, variance: real, sum: real, squares: real) {
    n * ((n - 1.0) * variance) == n * squares - sum * sum
  }

  predicate IsExpansion(n: real, mean: real, deviations: real, sum: real, squares: real) {
    deviations == squares - 2.0 * (mean * sum) + n * (mean * mean)
  }

  lemma ScaledVariance(n: real, mean: real, variance: real, deviations: real, sum: real, squares: real)
    requires n > 1.0 && mean == sum / n && variance == deviations / (n - 1.0)
    requires IsExpansion(n, mean, deviations, sum, squares)
    ensures IsGap(n, variance, sum, squares)
  {
    assert n * mean == sum;
    assert (n - 1.0) * variance == deviations;
    assert n * (mean * mean) == mean * sum;
    assert n * (mean * sum) == sum * sum;
  }

  lemma VarianceIsGap(xs: seq<real>)
    requires |xs| > 1
    ensures IsGap(|xs| as real, Variance(xs), Sum(xs), SumOfSquares(xs))
  {
    DeviationsExpand(xs, Mean(xs));
    hide Sum, SquaredDeviations, SumOfSquares, IsGap, IsExpansion;
    ScaledVariance(|xs| as real, Mean(xs), Variance(xs), SquaredDeviations(xs, Mean(xs)), Sum(xs), SumOfSquares(xs));
  }
}

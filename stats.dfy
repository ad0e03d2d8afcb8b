/** The summary statistics both pipelines report: `np.mean` and `np.std` (population, ddof = 0)
    over the collected scores, and "No valid scores computed." when nothing was collected.
    Reals are exact; the square root that turns the variance into `np.std` is not modelled,
    so a summary carries the variance. */
module Stats {
  import opened Common

  /** Python's `sum`, adding from the left. */
  function Sum(xs: seq<real>): real
  {
    if xs == [] then 0.0 else Sum(xs[..|xs| - 1]) + xs[|xs| - 1]
  }

  /** The sum of the squared deviations of `xs` from `m`. */
  function SquaredDeviations(xs: seq<real>, m: real): real
  {
    if xs == [] then 0.0
    else SquaredDeviations(xs[..|xs| - 1], m) + (xs[|xs| - 1] - m) * (xs[|xs| - 1] - m)
  }

  /** `sum(xs) / len(xs)`, which is also `np.mean(xs)` in exact arithmetic. */
  function Mean(xs: seq<real>): (m: real)
    requires xs != []
    ensures m * (|xs| as real) == Sum(xs)
  {
    Sum(xs) / (|xs| as real)
  }

  /** The population variance, `np.var(xs)` with ddof = 0; `np.std(xs)` is its square root. */
  function Variance(xs: seq<real>): real
    requires xs != []
  {
    SquaredDeviations(xs, Mean(xs)) / (|xs| as real)
  }

  /** What `compute_mean_std` prints for one metric; the printed deviation is the square root
      of `variance`. */
  datatype Summary = NoValidScores | MeanVariance(mean: real, variance: real)

  /** `compute_mean_std` (inference.py): mean and population variance of a non-empty list,
      "No valid scores computed." for an empty one. */
  function Summarise(scores: seq<real>): (r: Summary)
    ensures r.NoValidScores? <==> scores == []
    ensures r.MeanVariance? ==> r.mean * (|scores| as real) == Sum(scores)
    ensures r.MeanVariance? ==> r.variance * (|scores| as real) == SquaredDeviations(scores, r.mean)
  {
    if scores == [] then NoValidScores else MeanVariance(Mean(scores), Variance(scores))
  }

  /** The mean error rate of error_rate.py: `sum(error_scores) / len(error_scores)`, or nothing
      when no score was collected. */
  function MeanOrNone(scores: seq<real>): (r: Option<real>)
    ensures r.None? <==> scores == []
    ensures r.Some? ==> r.value * (|scores| as real) == Sum(scores)
  {
    if scores == [] then None else Some(Mean(scores))
  }

  lemma {:induction false} SumBounds(xs: seq<real>, lo: real, hi: real)
    requires forall i :: 0 <= i < |xs| ==> lo <= xs[i] <= hi
    ensures (|xs| as real) * lo <= Sum(xs) <= (|xs| as real) * hi
  {
    if xs != [] {
      SumBounds(xs[..|xs| - 1], lo, hi);
    }
  }

  /** The mean lies between any lower and any upper bound of the scores. */
  lemma MeanWithinBounds(xs: seq<real>, lo: real, hi: real)
    requires xs != []
    requires forall i :: 0 <= i < |xs| ==> lo <= xs[i] <= hi
    ensures lo <= Mean(xs) <= hi
  {
    SumBounds(xs, lo, hi);
    var n := |xs| as real;
    assert (Mean(xs) - lo) * n >= 0.0;
    assert (hi - Mean(xs)) * n >= 0.0;
  }

  lemma Square(d: real)
    ensures d * d >= 0.0
  {
    if d < 0.0 {
      var e := -d;
      assert e * e > 0.0 * e;
      assert d * d == e * e;
    }
  }

  lemma {:induction false} SquaredDeviationsNonNegative(xs: seq<real>, m: real)
    ensures SquaredDeviations(xs, m) >= 0.0
  {
    if xs != [] {
      SquaredDeviationsNonNegative(xs[..|xs| - 1], m);
      Square(xs[|xs| - 1] - m);
    }
  }

  /** Scores that all equal the centre deviate from it by nothing. */
  lemma {:induction false} SquaredDeviationsOfConstant(xs: seq<real>, m: real)
    requires forall i :: 0 <= i < |xs| ==> xs[i] == m
    ensures SquaredDeviations(xs, m) == 0.0
  {
    if xs != [] {
      SquaredDeviationsOfConstant(xs[..|xs| - 1], m);
    }
  }

  /** The reported variance is never negative. */
  lemma VarianceNonNegative(xs: seq<real>)
    requires xs != []
    ensures Variance(xs) >= 0.0
  {
    SquaredDeviationsNonNegative(xs, Mean(xs));
  }

  /** A list whose scores all equal `c` summarises to mean `c` and variance zero. */
  lemma ConstantSummary(xs: seq<real>, c: real)
    requires xs != []
    requires forall i :: 0 <= i < |xs| ==> xs[i] == c
    ensures Summarise(xs) == MeanVariance(c, 0.0)
  {
    MeanWithinBounds(xs, c, c);
    SquaredDeviationsOfConstant(xs, c);
  }
}

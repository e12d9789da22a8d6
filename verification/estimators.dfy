/**
 Reference definitions of the statistics the accumulators are meant to
 produce, written in the textbook two-pass form (centre each column on its
 mean, then average the products with the n-1 correction), and the algebra
 showing that the one-pass running-sum form used by the accumulators agrees
 with them.
 */
module Estimators {
  import opened LinAlg

  /** The mean of each of the `d` columns of `x`. */
  function ColumnMeans(x: Matrix, d: nat): Vector
    requires |x| > 0 && HasWidth(x, d)
  {
    seq(d, j requires 0 <= j < d => Mean(Col(x, j)))
  }

  /**
   The unbiased sample cross-covariance of paired observations x_k, y_k:
   entry (i, j) is Σ_k (x_k[i] - mean_i(x)) (y_k[j] - mean_j(y)) / (n - 1).
   With y = x this is the ordinary sample covariance.
   */
  function SampleCovariance(x: Matrix, y: Matrix, d: nat): Matrix
    requires |x| == |y| >= 2 && HasWidth(x, d) && HasWidth(y, d)
  {
    seq(d, i requires 0 <= i < d =>
      seq(d, j requires 0 <= j < d =>
        Dot(Shift(Col(x, i), Mean(Col(x, i))), Shift(Col(y, j), Mean(Col(y, j))))
          / ((|x| as real) - 1.0)))
  }

  /**
   The running-sum form of one covariance entry: from the sum of products
   `sxy`, the two sums `sx`, `sy` and the count `n`, (sxy - (sx/n) sy)/(n-1).
   */
  function OnePass(sxy: real, sx: real, sy: real, n: real): real
    requires n >= 2.0
  {
    (sxy - (sx / n) * sy) / (n - 1.0)
  }

  /**
   One entry of the sample cross-covariance in running-sum form: it needs
   only Σ x_k[i] y_k[j], Σ x_k[i] and Σ y_k[j] and the count.
   */
  lemma OnePassEntry(x: Matrix, y: Matrix, d: nat, i: nat, j: nat)
    requires |x| == |y| >= 2 && HasWidth(x, d) && HasWidth(y, d)
    requires i < d && j < d
    ensures SampleCovariance(x, y, d)[i][j]
            == OnePass(Cross(x, y, d)[i][j], ColumnSums(x, d)[i], ColumnSums(y, d)[j], |x| as real)
  {
    var u, v := Col(x, i), Col(y, j);
    var n := |x| as real;
    var c, su, sv, m := Dot(u, v), Sum(u), Sum(v), Mean(u);
    var centred := Dot(Shift(u, Mean(u)), Shift(v, Mean(v)));
    assert SampleCovariance(x, y, d)[i][j] == centred / (n - 1.0);
    assert centred == c - m * sv by {
      CenteredDot(u, v);
    }
    assert m == su / n;
    assert Cross(x, y, d)[i][j] == c;
    assert ColumnSums(x, d)[i] == su && ColumnSums(y, d)[j] == sv;
    CentredOnePass(centred, c, su, sv, m, n);
  }

  /** The centred sum of products over n - 1 is the running-sum form, once
      the mean is the sum over n. */
  lemma CentredOnePass(centred: real, c: real, su: real, sv: real, m: real, n: real)
    requires n >= 2.0 && m == su / n && centred == c - m * sv
    ensures centred / (n - 1.0) == OnePass(c, su, sv, n)
  {
  }

  /**
   The matrix whose entry (i, j) is the running-sum form of the covariance
   from the sums of products `c`, the sums `a` and `b` and the count `n`.
   */
  function RunningCov(c: Matrix, a: Vector, b: Vector, n: real): (r: Matrix)
    requires IsMatrix(c, |a|, |a|) && |b| == |a| && n >= 2.0
    ensures IsMatrix(r, |a|, |a|)
  {
    seq(|a|, i requires 0 <= i < |a| =>
      seq(|a|, j requires 0 <= j < |a| => OnePass(c[i][j], a[i], b[j], n)))
  }

  /** The sample cross-covariance is the running-sum form of the data's sums. */
  lemma SampleCovarianceOnePass(x: Matrix, y: Matrix, d: nat)
    requires |x| == |y| >= 2 && HasWidth(x, d) && HasWidth(y, d)
    ensures SampleCovariance(x, y, d)
            == RunningCov(Cross(x, y, d), ColumnSums(x, d), ColumnSums(y, d), |x| as real)
  {
    var lhs := SampleCovariance(x, y, d);
    var rhs := RunningCov(Cross(x, y, d), ColumnSums(x, d), ColumnSums(y, d), |x| as real);
    forall i, j | 0 <= i < d && 0 <= j < d
      ensures lhs[i][j] == rhs[i][j]
    {
      OnePassEntry(x, y, d, i, j);
    }
    MatrixExt(lhs, rhs, d, d);
  }

  /** The column means are the column sums divided by the count. */
  lemma ColumnMeansFromSums(x: Matrix, d: nat)
    requires |x| > 0 && HasWidth(x, d)
    ensures ColumnMeans(x, d) == Div(ColumnSums(x, d), |x| as real)
  {
  }

  /**
   The plain accumulator's finishing formula S/(n-1) - s_i s_j / (n(n-1))
   is the running-sum form (S - (s_i/n) s_j)/(n-1).
   */
  lemma UnbiasedRearrange(s: real, si: real, sj: real, n: real)
    requires n >= 2.0
    ensures s / (n - 1.0) - si * sj / (n * (n - 1.0)) == OnePass(s, si, sj, n)
  {
    var m := n - 1.0;
    assert (si / n) * sj / m == si * sj / (n * m);
    assert s / m - (si / n) * sj / m == (s - (si / n) * sj) / m;
  }

  /** The delayed accumulator's finishing formula (C - a b / n)/(n-1) is the same form. */
  lemma DelayedRearrange(c: real, a: real, b: real, n: real)
    requires n >= 2.0
    ensures (c - a * b / n) / (n - 1.0) == OnePass(c, a, b, n)
  {
    assert a * b / n == (a / n) * b;
  }
}

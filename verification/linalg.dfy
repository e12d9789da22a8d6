/**
 Exact-real vectors and matrices: the handful of numeric-array primitives the
 covariance accumulators use (zeros, element-wise add/subtract/divide, column
 sums, transpose, matrix product, outer product), defined as pure
 functions over `seq<real>` and `seq<seq<real>>`, together with the algebraic
 facts about sums and dot products that the accumulator proofs rest on.
 */
module LinAlg {

  type Vector = seq<real>
  type Matrix = seq<seq<real>>

  /** Every row of `m` has length `cols` (a 0-row matrix has every width). */
  predicate HasWidth(m: Matrix, cols: nat) {
    forall i :: 0 <= i < |m| ==> |m[i]| == cols
  }

  /** `m` is a `rows` x `cols` matrix. */
  predicate IsMatrix(m: Matrix, rows: nat, cols: nat) {
    |m| == rows && HasWidth(m, cols)
  }

  /** `m` is square and equal to its own transpose. */
  predicate IsSymmetric(m: Matrix) {
    && IsMatrix(m, |m|, |m|)
    && forall i, j :: 0 <= i < |m| && 0 <= j < |m| ==> m[i][j] == m[j][i]
  }

  function Zeros(n: nat): Vector {
    seq(n, _ => 0.0)
  }

  function ZeroMatrix(rows: nat, cols: nat): Matrix {
    seq(rows, _ => Zeros(cols))
  }

  function Add(u: Vector, v: Vector): Vector
    requires |u| == |v|
  {
    seq(|u|, i requires 0 <= i < |u| => u[i] + v[i])
  }

  function Sub(u: Vector, v: Vector): Vector
    requires |u| == |v|
  {
    seq(|u|, i requires 0 <= i < |u| => u[i] - v[i])
  }

  function Scale(c: real, u: Vector): Vector {
    seq(|u|, i requires 0 <= i < |u| => c * u[i])
  }

  function Div(u: Vector, c: real): Vector
    requires c != 0.0
  {
    seq(|u|, i requires 0 <= i < |u| => u[i] / c)
  }

  function MatAdd(a: Matrix, b: Matrix): Matrix
    requires |a| == |b|
    requires forall i :: 0 <= i < |a| ==> |a[i]| == |b[i]|
  {
    seq(|a|, i requires 0 <= i < |a| => Add(a[i], b[i]))
  }

  function MatSub(a: Matrix, b: Matrix): Matrix
    requires |a| == |b|
    requires forall i :: 0 <= i < |a| ==> |a[i]| == |b[i]|
  {
    seq(|a|, i requires 0 <= i < |a| => Sub(a[i], b[i]))
  }

  function MatDiv(a: Matrix, c: real): Matrix
    requires c != 0.0
  {
    seq(|a|, i requires 0 <= i < |a| => Div(a[i], c))
  }

  /** The outer product u vᵀ. */
  function Outer(u: Vector, v: Vector): Matrix {
    seq(|u|, i requires 0 <= i < |u| => seq(|v|, j requires 0 <= j < |v| => u[i] * v[j]))
  }

  /** Column `j` of `m`. */
  function Col(m: Matrix, j: nat): Vector
    requires forall k :: 0 <= k < |m| ==> j < |m[k]|
  {
    seq(|m|, k requires 0 <= k < |m| => m[k][j])
  }

  /** The transpose of a matrix of width `cols`. */
  function Transpose(m: Matrix, cols: nat): Matrix
    requires HasWidth(m, cols)
  {
    seq(cols, j requires 0 <= j < cols => Col(m, j))
  }

  function Sum(u: Vector): real {
    if |u| == 0 then 0.0 else u[0] + Sum(u[1..])
  }

  /** Component-wise product. */
  function Times(u: Vector, v: Vector): Vector
    requires |u| == |v|
  {
    seq(|u|, k requires 0 <= k < |u| => u[k] * v[k])
  }

  /** Σ u_k v_k. */
  function Dot(u: Vector, v: Vector): real
    requires |u| == |v|
  {
    Sum(Times(u, v))
  }

  /** The matrix product a·b, where b has width `cols`. */
  function MatMul(a: Matrix, b: Matrix, cols: nat): Matrix
    requires forall i :: 0 <= i < |a| ==> |a[i]| == |b|
    requires HasWidth(b, cols)
  {
    seq(|a|, i requires 0 <= i < |a| =>
      seq(cols, j requires 0 <= j < cols => Dot(a[i], Col(b, j))))
  }

  /** xᵀy for two stacks of rows of width `cols`: Σ_k x_k y_kᵀ. */
  function Cross(x: Matrix, y: Matrix, cols: nat): Matrix
    requires |x| == |y| && HasWidth(x, cols) && HasWidth(y, cols)
  {
    MatMul(Transpose(x, cols), y, cols)
  }

  /** Sum over the rows of a matrix of width `cols` (axis-0 sum). */
  function ColumnSums(m: Matrix, cols: nat): Vector
    requires HasWidth(m, cols)
  {
    seq(cols, j requires 0 <= j < cols => Sum(Col(m, j)))
  }

  /** The vector `u` with `c` subtracted from every component. */
  function Shift(u: Vector, c: real): Vector {
    seq(|u|, k requires 0 <= k < |u| => u[k] - c)
  }

  /** The average of the components of `u`. */
  function Mean(u: Vector): real
    requires |u| > 0
  {
    Sum(u) / (|u| as real)
  }

  /** The congruence transform a·c·aᵀ of a square matrix c of size `cols`
      by a matrix a with `cols` columns. */
  function Transform(a: Matrix, c: Matrix, cols: nat): (r: Matrix)
    requires HasWidth(a, cols) && IsMatrix(c, cols, cols)
    ensures IsMatrix(r, |a|, |a|)
  {
    MatMul(a, MatMul(c, Transpose(a, cols), |a|), |a|)
  }

  /** The identity matrix of size n. */
  function Identity(n: nat): Matrix {
    seq(n, i requires 0 <= i < n => seq(n, j requires 0 <= j < n => if i == j then 1.0 else 0.0))
  }

  // ---------------------------------------------------------------------------
  // Algebra of sums and dot products
  // ---------------------------------------------------------------------------

  /** Two matrices of the same shape with the same entries are equal. */
  lemma MatrixExt(a: Matrix, b: Matrix, rows: nat, cols: nat)
    requires IsMatrix(a, rows, cols) && IsMatrix(b, rows, cols)
    requires forall i, j :: 0 <= i < rows && 0 <= j < cols ==> a[i][j] == b[i][j]
    ensures a == b
  {
    forall i | 0 <= i < rows
      ensures a[i] == b[i]
    {
      assert forall j :: 0 <= j < cols ==> a[i][j] == b[i][j];
    }
  }

  lemma {:induction false} SumAppend(u: Vector, v: Vector)
    ensures Sum(u + v) == Sum(u) + Sum(v)
  {
    if |u| == 0 {
      assert u + v == v;
    } else {
      assert (u + v)[1..] == u[1..] + v;
      SumAppend(u[1..], v);
    }
  }

  lemma {:induction false} SumSub(u: Vector, v: Vector)
    requires |u| == |v|
    ensures Sum(Sub(u, v)) == Sum(u) - Sum(v)
  {
    if |u| > 0 {
      assert Sub(u, v)[1..] == Sub(u[1..], v[1..]);
      SumSub(u[1..], v[1..]);
    }
  }

  lemma {:induction false} SumScale(c: real, u: Vector)
    ensures Sum(Scale(c, u)) == c * Sum(u)
  {
    if |u| > 0 {
      forall k | 0 <= k < |u| - 1
        ensures Scale(c, u)[1..][k] == Scale(c, u[1..])[k]
      {
        assert u[1..][k] == u[k + 1];
      }
      assert Scale(c, u)[1..] == Scale(c, u[1..]);
      SumScale(c, u[1..]);
      assert c * u[0] + c * Sum(u[1..]) == c * (u[0] + Sum(u[1..]));
    }
  }

  /** A vector that is zero everywhere except at `p` sums to its `p`-th component. */
  lemma {:induction false} SumSingle(u: Vector, p: nat)
    requires p < |u|
    requires forall k :: 0 <= k < |u| && k != p ==> u[k] == 0.0
    ensures Sum(u) == u[p]
  {
    if p == 0 {
      SumZero(u[1..]);
    } else {
      SumSingle(u[1..], p - 1);
    }
  }

  lemma {:induction false} SumZero(u: Vector)
    requires forall k :: 0 <= k < |u| ==> u[k] == 0.0
    ensures Sum(u) == 0.0
  {
    if |u| > 0 {
      SumZero(u[1..]);
    }
  }

  lemma DotAppend(u1: Vector, u2: Vector, v1: Vector, v2: Vector)
    requires |u1| == |v1| && |u2| == |v2|
    ensures Dot(u1 + u2, v1 + v2) == Dot(u1, v1) + Dot(u2, v2)
  {
    var lhs, rhs := Times(u1 + u2, v1 + v2), Times(u1, v1) + Times(u2, v2);
    forall k | 0 <= k < |lhs|
      ensures lhs[k] == rhs[k]
    {
      if k < |u1| {
        assert (u1 + u2)[k] == u1[k] && (v1 + v2)[k] == v1[k];
      } else {
        assert (u1 + u2)[k] == u2[k - |u1|] && (v1 + v2)[k] == v2[k - |u1|];
      }
    }
    assert lhs == rhs;
    SumAppend(Times(u1, v1), Times(u2, v2));
  }

  lemma DotComm(u: Vector, v: Vector)
    requires |u| == |v|
    ensures Dot(u, v) == Dot(v, u)
  {
    assert Times(u, v) == Times(v, u);
  }

  lemma TimesShift(u: Vector, w: Vector, a: real)
    requires |u| == |w|
    ensures Times(Shift(u, a), w) == Sub(Times(u, w), Scale(a, w))
  {
    var lhs, rhs := Times(Shift(u, a), w), Sub(Times(u, w), Scale(a, w));
    forall k | 0 <= k < |lhs|
      ensures lhs[k] == rhs[k]
    {
      assert lhs[k] == (u[k] - a) * w[k];
      assert rhs[k] == u[k] * w[k] - a * w[k];
    }
  }

  /** Σ (u_k - a) w_k = Σ u_k w_k - a Σ w_k. */
  lemma DotShiftLeft(u: Vector, w: Vector, a: real)
    requires |u| == |w|
    ensures Dot(Shift(u, a), w) == Dot(u, w) - a * Sum(w)
  {
    TimesShift(u, w, a);
    assert Sum(Sub(Times(u, w), Scale(a, w))) == Sum(Times(u, w)) - Sum(Scale(a, w)) by {
      SumSub(Times(u, w), Scale(a, w));
    }
    SumScale(a, w);
  }

  /** Σ (v_k - b) = Σ v_k - n b. */
  lemma {:induction false} SumShift(v: Vector, b: real)
    ensures Sum(Shift(v, b)) == Sum(v) - (|v| as real) * b
  {
    if |v| > 0 {
      assert Shift(v, b)[1..] == Shift(v[1..], b);
      SumShift(v[1..], b);
    }
  }

  /** A column minus its own mean sums to zero. */
  lemma CenteredSumZero(u: Vector)
    requires |u| > 0
    ensures Sum(Shift(u, Mean(u))) == 0.0
  {
    SumShift(u, Mean(u));
  }

  /**
   Once `u` is shifted by a value that makes it sum to zero, the shift of `v`
   no longer matters: Σ (u_k - a)(v_k - b) = Σ u_k v_k - a Σ v_k.
   */
  lemma ShiftedDot(u: Vector, v: Vector, a: real, b: real)
    requires |u| == |v|
    requires Sum(Shift(u, a)) == 0.0
    ensures Dot(Shift(u, a), Shift(v, b)) == Dot(u, v) - a * Sum(v)
  {
    DropShiftOfZeroSum(Shift(u, a), v, b);
    DotShiftLeft(u, v, a);
  }

  /** Shifting the right factor changes nothing when the left one sums to zero. */
  lemma DropShiftOfZeroSum(w: Vector, v: Vector, b: real)
    requires |w| == |v|
    requires Sum(w) == 0.0
    ensures Dot(w, Shift(v, b)) == Dot(w, v)
  {
    DotComm(w, Shift(v, b));
    DotShiftLeft(v, w, b);
    DotComm(v, w);
  }

  /**
   The centred (two-pass) cross product of two columns equals the one-pass
   form Σ u_k v_k - mean(u) Σ v used by the streaming accumulators.
   */
  lemma CenteredDot(u: Vector, v: Vector)
    requires |u| == |v| > 0
    ensures Dot(Shift(u, Mean(u)), Shift(v, Mean(v))) == Dot(u, v) - Mean(u) * Sum(v)
  {
    CenteredSumZero(u);
    ShiftedDot(u, v, Mean(u), Mean(v));
  }

  // ---------------------------------------------------------------------------
  // Columns of stacked matrices
  // ---------------------------------------------------------------------------

  lemma ColAppend(a: Matrix, b: Matrix, j: nat)
    requires forall k :: 0 <= k < |a| ==> j < |a[k]|
    requires forall k :: 0 <= k < |b| ==> j < |b[k]|
    ensures Col(a + b, j) == Col(a, j) + Col(b, j)
  {
  }

  /** Stacking rows adds their column sums. */
  lemma ColumnSumsAppend(a: Matrix, b: Matrix, cols: nat)
    requires HasWidth(a, cols) && HasWidth(b, cols)
    ensures HasWidth(a + b, cols)
    ensures ColumnSums(a + b, cols) == Add(ColumnSums(a, cols), ColumnSums(b, cols))
  {
    forall j | 0 <= j < cols
      ensures Sum(Col(a + b, j)) == Sum(Col(a, j)) + Sum(Col(b, j))
    {
      ColAppend(a, b, j);
      SumAppend(Col(a, j), Col(b, j));
    }
  }

  /** Stacking row pairs adds their cross products xᵀy. */
  lemma CrossAppend(x1: Matrix, x2: Matrix, y1: Matrix, y2: Matrix, cols: nat)
    requires HasWidth(x1, cols) && HasWidth(x2, cols) && HasWidth(y1, cols) && HasWidth(y2, cols)
    requires |x1| == |y1| && |x2| == |y2|
    ensures HasWidth(x1 + x2, cols) && HasWidth(y1 + y2, cols)
    ensures Cross(x1 + x2, y1 + y2, cols) == MatAdd(Cross(x1, y1, cols), Cross(x2, y2, cols))
  {
    var lhs := Cross(x1 + x2, y1 + y2, cols);
    var rhs := MatAdd(Cross(x1, y1, cols), Cross(x2, y2, cols));
    forall i, j | 0 <= i < cols && 0 <= j < cols
      ensures lhs[i][j] == rhs[i][j]
    {
      ColAppend(x1, x2, i);
      ColAppend(y1, y2, j);
      DotAppend(Col(x1, i), Col(x2, i), Col(y1, j), Col(y2, j));
    }
    MatrixExt(lhs, rhs, cols, cols);
  }

  /** The cross product of no rows is the zero matrix. */
  lemma CrossEmpty(x: Matrix, y: Matrix, cols: nat)
    requires |x| == |y| == 0
    ensures Cross(x, y, cols) == ZeroMatrix(cols, cols)
    ensures ColumnSums(x, cols) == Zeros(cols)
  {
    MatrixExt(Cross(x, y, cols), ZeroMatrix(cols, cols), cols, cols);
  }

  /** xᵀx is symmetric. */
  lemma GramSymmetric(x: Matrix, cols: nat)
    requires HasWidth(x, cols)
    ensures IsSymmetric(Cross(x, x, cols))
  {
    var g := Cross(x, x, cols);
    forall i, j | 0 <= i < cols && 0 <= j < cols
      ensures g[i][j] == g[j][i]
    {
      DotComm(Col(x, i), Col(x, j));
    }
  }

  // ---------------------------------------------------------------------------
  // The identity matrix
  // ---------------------------------------------------------------------------

  /** Dotting with a unit vector picks one component. */
  lemma DotUnit(u: Vector, e: Vector, p: nat)
    requires |u| == |e| && p < |u|
    requires forall k :: 0 <= k < |e| ==> e[k] == (if k == p then 1.0 else 0.0)
    ensures Dot(u, e) == u[p] && Dot(e, u) == u[p]
  {
    SumSingle(Times(u, e), p);
    SumSingle(Times(e, u), p);
  }

  /** I·c·Iᵀ = c for a square matrix c. */
  lemma IdentityTransform(c: Matrix, n: nat)
    requires IsMatrix(c, n, n)
    ensures HasWidth(Identity(n), n) && Transform(Identity(n), c, n) == c
  {
    var id := Identity(n);
    var t := Transpose(id, n);
    var ct := MatMul(c, t, n);
    forall i, j | 0 <= i < n && 0 <= j < n
      ensures ct[i][j] == c[i][j]
    {
      assert Col(t, j) == id[j];
      DotUnit(c[i], Col(t, j), j);
    }
    MatrixExt(ct, c, n, n);
    var r := MatMul(id, ct, n);
    forall i, j | 0 <= i < n && 0 <= j < n
      ensures r[i][j] == c[i][j]
    {
      DotUnit(Col(ct, j), id[i], i);
    }
    MatrixExt(r, c, n, n);
  }
}

/**
 The plain streaming covariance accumulator (`CovarianceMatrix` in
 mdp/nodes/lcov.py). Its state is either Empty (no buffers, count 0) or
 Accumulating, holding the running sum of outer products xᵀx, the running
 column sums and the number of rows seen. `Update` adds a batch; `Fix` turns
 the sums into covariance, mean and count and empties the accumulator again.
 */
module Covariance {
  import opened LinAlg
  import opened Roundoff
  import opened Batches
  import opened Estimators

  datatype Phase =
    | Empty
    | Accumulating(dim: nat, outerSum: Matrix, total: Vector, count: nat)

  /** An accumulator: the typecode ("" until set) survives `Fix`, the phase does not. */
  datatype CovarianceMatrix = CovarianceMatrix(typecode: Typecode, phase: Phase)

  /** What `Fix` returns: covariance matrix, average and number of observations. */
  datatype Statistics = Statistics(cov: Matrix, avg: Vector, count: nat)

  /** A freshly constructed accumulator, optionally with a fixed typecode:
      no buffers yet, so it summarizes no observations. */
  function New(typecode: Typecode): (r: CovarianceMatrix)
    ensures Valid(r) && r.typecode == typecode && r.phase.Empty?
    ensures Summarizes(r.phase, [])
  {
    CovarianceMatrix(typecode, Empty)
  }

  /** The observation count: 0 when there are no buffers. */
  function Count(p: Phase): nat {
    if p.Empty? then 0 else p.count
  }

  /** The buffers have the shapes of the input dimension. */
  predicate ValidPhase(p: Phase) {
    p.Accumulating? ==> IsMatrix(p.outerSum, p.dim, p.dim) && |p.total| == p.dim
  }

  predicate Valid(acc: CovarianceMatrix) {
    ValidPhase(acc.phase)
  }

  /** `x` is a well-formed batch of the accumulator's input dimension (the
      source does not check the dimension; a mismatch is the caller's error). */
  predicate Accepts(acc: CovarianceMatrix, x: Batch) {
    WellFormed(x) && (acc.phase.Accumulating? ==> x.width == acc.phase.dim)
  }

  /** Creates zeroed buffers of the batch's width and settles the typecode:
      the new buffers summarize no observations. */
  function InitInternals(acc: CovarianceMatrix, x: Batch): (r: CovarianceMatrix)
    requires acc.phase.Empty?
    ensures Valid(r) && r.phase.Accumulating? && r.phase.dim == x.width && r.phase.count == 0
    ensures r.typecode == Inherit(acc.typecode, x)
    ensures forall i, j :: 0 <= i < x.width && 0 <= j < x.width ==> r.phase.outerSum[i][j] == 0.0
    ensures forall j :: 0 <= j < x.width ==> r.phase.total[j] == 0.0
    ensures Summarizes(r.phase, [])
  {
    CrossEmpty([], [], x.width);
    CovarianceMatrix(Inherit(acc.typecode, x),
                     Accumulating(x.width, ZeroMatrix(x.width, x.width), Zeros(x.width), 0))
  }

  /**
   Adds a batch: xᵀx to the matrix sum, the column sums of x to the vector
   sum and the number of rows to the count. Buffers are created on the first
   batch after construction or after `Fix`.
   */
  function Update(acc: CovarianceMatrix, x: Batch): (r: CovarianceMatrix)
    requires Valid(acc) && Accepts(acc, x)
    ensures Valid(r) && r.phase.Accumulating? && r.phase.dim == x.width
    ensures r.typecode == (if acc.phase.Empty? then Inherit(acc.typecode, x) else acc.typecode)
    ensures r.phase.count == Count(acc.phase) + |x.rows|
    ensures acc.phase.Empty? ==>
      && (forall i, j :: 0 <= i < x.width && 0 <= j < x.width ==>
            r.phase.outerSum[i][j] == Dot(Col(x.rows, i), Col(x.rows, j)))
      && (forall j :: 0 <= j < x.width ==> r.phase.total[j] == Sum(Col(x.rows, j)))
    ensures acc.phase.Accumulating? ==>
      && (forall i, j :: 0 <= i < x.width && 0 <= j < x.width ==>
            r.phase.outerSum[i][j] == acc.phase.outerSum[i][j] + Dot(Col(x.rows, i), Col(x.rows, j)))
      && (forall j :: 0 <= j < x.width ==> r.phase.total[j] == acc.phase.total[j] + Sum(Col(x.rows, j)))
  {
    var a := if acc.phase.Empty? then InitInternals(acc, x) else acc;
    var p := a.phase;
    a.(phase := p.(outerSum := MatAdd(p.outerSum, MatMul(Transpose(x.rows, p.dim), x.rows, p.dim)),
                   total := Add(p.total, ColumnSums(x.rows, p.dim)),
                   count := p.count + |x.rows|))
  }

  /**
   `st` holds the finished statistics of the running sums in `p`: each
   covariance entry in running-sum form (S - (s_i/n) s_j)/(n-1), the average
   s/n, the count n, and a symmetric covariance whenever S is symmetric.
   */
  ghost predicate Finished(p: Phase, st: Statistics)
    requires ValidPhase(p) && p.Accumulating? && p.count >= 2
  {
    var d, s, t, n := p.dim, p.outerSum, p.total, p.count as real;
    && st.count == p.count
    && IsMatrix(st.cov, d, d) && |st.avg| == d
    && (forall i, j :: 0 <= i < d && 0 <= j < d ==> st.cov[i][j] == OnePass(s[i][j], t[i], t[j], n))
    && (forall j :: 0 <= j < d ==> st.avg[j] == t[j] / n)
    && (IsSymmetric(s) ==> IsSymmetric(st.cov))
  }

  /**
   Finishes the estimate. The guard runs first: if it trips, nothing has been
   touched and the accumulator is returned as it was. Otherwise the
   covariance is S/(n-1) - s sᵀ/(n(n-1)), the average s/n, and the
   accumulator goes back to Empty (keeping its typecode).
   */
  function Fix(acc: CovarianceMatrix): (r: (CovarianceMatrix, Result<Statistics>))
    requires Valid(acc) && acc.phase.Accumulating? && acc.phase.count >= 2
    ensures r.1.Err? <==> CheckRoundoff(acc.phase.count, acc.typecode).Fail?
    ensures r.1.Err? ==> r.0 == acc && r.1.error == RoundoffWarning(acc.phase.count, acc.typecode)
    ensures r.1.Ok? ==> r.0 == New(acc.typecode)
    ensures r.1.Ok? ==> Finished(acc.phase, r.1.value)
  {
    var p := acc.phase;
    match CheckRoundoff(p.count, acc.typecode)
    case Fail(e) => (acc, Err(e))
    case Pass =>
      var (cov, avg) := FinishSums(p.outerSum, p.total, p.count as real);
      (New(acc.typecode), Ok(Statistics(cov, avg, p.count)))
  }

  /**
   The arithmetic of `fix` on sums S (d x d) and s (d) over n observations:
   S/(n-1) - s sᵀ/(n(n-1)) and s/n. Each entry of the former is the
   running-sum form of the covariance, and it is symmetric when S is.
   */
  function FinishSums(s: Matrix, t: Vector, n: real): (r: (Matrix, Vector))
    requires IsMatrix(s, |t|, |t|) && n >= 2.0
    ensures IsMatrix(r.0, |t|, |t|) && |r.1| == |t|
    ensures forall i, j :: 0 <= i < |t| && 0 <= j < |t| ==> r.0[i][j] == OnePass(s[i][j], t[i], t[j], n)
    ensures forall j :: 0 <= j < |t| ==> r.1[j] == t[j] / n
    ensures IsSymmetric(s) ==> IsSymmetric(r.0)
  {
    var avgMtx := MatDiv(Outer(t, t), n * (n - 1.0));
    var cov := MatSub(MatDiv(s, n - 1.0), avgMtx);
    CovEntries(s, t, n, cov);
    (cov, Div(t, n))
  }

  lemma CovEntries(s: Matrix, t: Vector, n: real, cov: Matrix)
    requires IsMatrix(s, |t|, |t|) && n >= 2.0
    requires cov == MatSub(MatDiv(s, n - 1.0), MatDiv(Outer(t, t), n * (n - 1.0)))
    ensures IsMatrix(cov, |t|, |t|)
    ensures forall i, j :: 0 <= i < |t| && 0 <= j < |t| ==> cov[i][j] == OnePass(s[i][j], t[i], t[j], n)
    ensures IsSymmetric(s) ==> IsSymmetric(cov)
  {
    forall i, j | 0 <= i < |t| && 0 <= j < |t|
      ensures cov[i][j] == OnePass(s[i][j], t[i], t[j], n)
    {
      CovEntry(s, t, n, cov, i, j);
    }
    if IsSymmetric(s) {
      forall i, j | 0 <= i < |t| && 0 <= j < |t|
        ensures cov[i][j] == cov[j][i]
      {
        CovEntry(s, t, n, cov, i, j);
        CovEntry(s, t, n, cov, j, i);
        assert t[i] * t[j] == t[j] * t[i];
      }
    }
  }

  lemma CovEntry(s: Matrix, t: Vector, n: real, cov: Matrix, i: nat, j: nat)
    requires IsMatrix(s, |t|, |t|) && n >= 2.0 && i < |t| && j < |t|
    requires cov == MatSub(MatDiv(s, n - 1.0), MatDiv(Outer(t, t), n * (n - 1.0)))
    ensures cov[i][j] == s[i][j] / (n - 1.0) - t[i] * t[j] / (n * (n - 1.0))
    ensures cov[i][j] == OnePass(s[i][j], t[i], t[j], n)
  {
    UnbiasedRearrange(s[i][j], t[i], t[j], n);
  }

  // ---------------------------------------------------------------------------
  // What the running sums mean
  // ---------------------------------------------------------------------------

  /** The running state of `p` is exactly that of having seen the observations `rows`. */
  ghost predicate Summarizes(p: Phase, rows: Matrix) {
    match p
    case Empty => rows == []
    case Accumulating(d, s, t, n) =>
      && HasWidth(rows, d)
      && n == |rows|
      && s == Cross(rows, rows, d)
      && t == ColumnSums(rows, d)
  }

  /** Every update keeps the state a summary of all observations so far. */
  lemma UpdateSummarizes(acc: CovarianceMatrix, x: Batch, rows: Matrix)
    requires Valid(acc) && Accepts(acc, x) && Summarizes(acc.phase, rows)
    ensures Summarizes(Update(acc, x).phase, rows + x.rows)
  {
    var d := x.width;
    var r := Update(acc, x).phase;
    if acc.phase.Empty? {
      assert rows + x.rows == x.rows;
      CrossEmpty(rows, rows, d);
      CrossAppend(rows, x.rows, rows, x.rows, d);
      ColumnSumsAppend(rows, x.rows, d);
    } else {
      CrossAppend(rows, x.rows, rows, x.rows, d);
      ColumnSumsAppend(rows, x.rows, d);
    }
  }

  /**
   Batch splitting: adding two batches one after the other leaves exactly the
   state that adding their concatenation in one call does.
   */
  lemma BatchSplitting(acc: CovarianceMatrix, b1: Batch, b2: Batch)
    requires Valid(acc) && Accepts(acc, b1) && WellFormed(b2) && b2.width == b1.width
    requires b2.typecode == b1.typecode
    ensures Accepts(Update(acc, b1), b2) && Accepts(acc, Concat(b1, b2))
    ensures Update(Update(acc, b1), b2) == Update(acc, Concat(b1, b2))
  {
    var d := b1.width;
    var b := Concat(b1, b2);
    var two := Update(Update(acc, b1), b2);
    var one := Update(acc, b);
    assert HasWidth(b.rows, d);
    forall i, j | 0 <= i < d && 0 <= j < d
      ensures two.phase.outerSum[i][j] == one.phase.outerSum[i][j]
    {
      ColAppend(b1.rows, b2.rows, i);
      ColAppend(b1.rows, b2.rows, j);
      DotAppend(Col(b1.rows, i), Col(b2.rows, i), Col(b1.rows, j), Col(b2.rows, j));
    }
    MatrixExt(two.phase.outerSum, one.phase.outerSum, d, d);
    forall j | 0 <= j < d
      ensures two.phase.total[j] == one.phase.total[j]
    {
      ColAppend(b1.rows, b2.rows, j);
      SumAppend(Col(b1.rows, j), Col(b2.rows, j));
    }
  }

  /** Feeds a sequence of batches of width `d`, in order. */
  function Feed(acc: CovarianceMatrix, bs: seq<Batch>, d: nat): (r: CovarianceMatrix)
    requires Valid(acc) && AllWidth(bs, d) && (acc.phase.Accumulating? ==> acc.phase.dim == d)
    ensures Valid(r) && (r.phase.Accumulating? ==> r.phase.dim == d)
    ensures |bs| > 0 ==> r.phase.Accumulating?
    ensures Count(r.phase) == Count(acc.phase) + |AllRows(bs, d)|
    decreases |bs|
  {
    if |bs| == 0 then acc else Feed(Update(acc, bs[0]), bs[1..], d)
  }

  lemma {:induction false} FeedSummarizes(acc: CovarianceMatrix, bs: seq<Batch>, d: nat, rows: Matrix)
    requires Valid(acc) && AllWidth(bs, d) && (acc.phase.Accumulating? ==> acc.phase.dim == d)
    requires Summarizes(acc.phase, rows)
    ensures Summarizes(Feed(acc, bs, d).phase, rows + AllRows(bs, d))
    decreases |bs|
  {
    if |bs| == 0 {
      assert rows + AllRows(bs, d) == rows;
    } else {
      UpdateSummarizes(acc, bs[0], rows);
      FeedSummarizes(Update(acc, bs[0]), bs[1..], d, rows + bs[0].rows);
      assert rows + bs[0].rows + AllRows(bs[1..], d) == rows + AllRows(bs, d);
    }
  }

  /**
   Fixing a state that summarizes the observations `rows` yields their
   unbiased two-pass sample covariance, their column means and their number.
   */
  lemma FixIsSampleCovariance(acc: CovarianceMatrix, rows: Matrix)
    requires Valid(acc) && acc.phase.Accumulating? && acc.phase.count >= 2
    requires Summarizes(acc.phase, rows)
    requires Fix(acc).1.Ok?
    ensures Fix(acc).1.value
            == Statistics(SampleCovariance(rows, rows, acc.phase.dim), ColumnMeans(rows, acc.phase.dim), |rows|)
  {
    FinishedIsSampleCovariance(acc.phase, rows, Fix(acc).1.value);
  }

  lemma FinishedIsSampleCovariance(p: Phase, rows: Matrix, st: Statistics)
    requires p.Accumulating? && p.count >= 2
    requires Summarizes(p, rows) && Finished(p, st)
    ensures st == Statistics(SampleCovariance(rows, rows, p.dim), ColumnMeans(rows, p.dim), |rows|)
  {
    var d := p.dim;
    var reference := SampleCovariance(rows, rows, d);
    assert p.count as real == |rows| as real;
    forall i, j | 0 <= i < d && 0 <= j < d
      ensures st.cov[i][j] == reference[i][j]
    {
      OnePassEntry(rows, rows, d, i, j);
    }
    MatrixExt(st.cov, reference, d, d);
    var means := ColumnMeans(rows, d);
    forall j | 0 <= j < d
      ensures st.avg[j] == means[j]
    {
    }
  }

  /**
   End to end: feeding any non-empty sequence of batches to a fresh
   accumulator and fixing it either trips the guard on the total row count or
   returns the sample covariance and means of all rows, which is symmetric.
   */
  lemma StreamedStatistics(typecode: Typecode, bs: seq<Batch>, d: nat)
    requires |bs| > 0 && AllWidth(bs, d) && |AllRows(bs, d)| >= 2
    ensures var acc := Feed(New(typecode), bs, d);
      && acc.phase.Accumulating? && acc.phase.count == |AllRows(bs, d)|
      && (Fix(acc).1.Err? <==> CheckRoundoff(|AllRows(bs, d)|, acc.typecode).Fail?)
      && (Fix(acc).1.Ok? ==>
            && Fix(acc).1.value == Statistics(SampleCovariance(AllRows(bs, d), AllRows(bs, d), d),
                                               ColumnMeans(AllRows(bs, d), d), |AllRows(bs, d)|)
            && IsSymmetric(Fix(acc).1.value.cov))
  {
    var acc := Feed(New(typecode), bs, d);
    FeedSummarizes(New(typecode), bs, d, []);
    assert [] + AllRows(bs, d) == AllRows(bs, d);
    if Fix(acc).1.Ok? {
      FixIsSampleCovariance(acc, AllRows(bs, d));
      GramSymmetric(AllRows(bs, d), d);
    }
  }

  /** Feeding batches does not depend on the typecode once the buffers exist,
      and from Empty it depends on the typecode only through `Inherit`. */
  lemma {:induction false} FeedPhaseIgnoresTypecode(t1: Typecode, t2: Typecode, p: Phase, bs: seq<Batch>, d: nat)
    requires Valid(CovarianceMatrix(t1, p)) && AllWidth(bs, d) && (p.Accumulating? ==> p.dim == d)
    ensures Feed(CovarianceMatrix(t1, p), bs, d).phase == Feed(CovarianceMatrix(t2, p), bs, d).phase
    decreases |bs|
  {
    if |bs| > 0 {
      var a1 := Update(CovarianceMatrix(t1, p), bs[0]);
      var a2 := Update(CovarianceMatrix(t2, p), bs[0]);
      assert a1.phase == a2.phase;
      FeedPhaseIgnoresTypecode(a1.typecode, a2.typecode, a1.phase, bs[1..], d);
      assert a2 == CovarianceMatrix(a2.typecode, a1.phase);
    }
  }

  lemma {:induction false} FeedTypecode(acc: CovarianceMatrix, bs: seq<Batch>, d: nat)
    requires Valid(acc) && AllWidth(bs, d) && (acc.phase.Accumulating? ==> acc.phase.dim == d)
    requires acc.typecode != "" || acc.phase.Accumulating? || |bs| == 0
    ensures Feed(acc, bs, d).typecode == acc.typecode
    decreases |bs|
  {
    if |bs| > 0 {
      FeedTypecode(Update(acc, bs[0]), bs[1..], d);
    }
  }

  /**
   Reset: after a successful `Fix`, feeding the same batches again and fixing
   reproduces the first result exactly; the accumulator behaves as freshly
   constructed.
   */
  lemma ResetReproduces(typecode: Typecode, bs: seq<Batch>, d: nat)
    requires |bs| > 0 && AllWidth(bs, d) && |AllRows(bs, d)| >= 2
    requires Fix(Feed(New(typecode), bs, d)).1.Ok?
    ensures var again := Feed(Fix(Feed(New(typecode), bs, d)).0, bs, d);
      && again.phase.Accumulating? && again.phase.count >= 2
      && Fix(again) == (Fix(Feed(New(typecode), bs, d)).0, Fix(Feed(New(typecode), bs, d)).1)
  {
    var first := Feed(New(typecode), bs, d);
    var reset := Fix(first).0;
    assert reset == New(first.typecode);
    var again := Feed(reset, bs, d);
    FeedPhaseIgnoresTypecode(first.typecode, typecode, Empty, bs, d);
    var a1 := Update(New(typecode), bs[0]);
    FeedTypecode(a1, bs[1..], d);
    assert first.typecode == Inherit(typecode, bs[0]);
    var b1 := Update(reset, bs[0]);
    FeedTypecode(b1, bs[1..], d);
    assert again.typecode == Inherit(first.typecode, bs[0]);
    assert again.typecode == first.typecode;
    assert again == first;
  }

  /** Σ of a three-element vector. */
  lemma Sum3(a: real, b: real, c: real)
    ensures Sum([a, b, c]) == a + b + c
  {
    var v := [a, b, c];
    assert v[1..] == [b, c];
    assert v[1..][1..] == [c];
    assert v[1..][1..][1..] == [];
    assert Sum([c]) == c + Sum([]);
    assert Sum([b, c]) == b + Sum([c]);
    assert Sum(v) == a + Sum([b, c]);
  }

  /** Σ u_k v_k of two three-element vectors. */
  lemma Dot3(a: real, b: real, c: real, d: real, e: real, f: real)
    ensures Dot([a, b, c], [d, e, f]) == a * d + b * e + c * f
  {
    var t := Times([a, b, c], [d, e, f]);
    assert |t| == 3 && t[0] == a * d && t[1] == b * e && t[2] == c * f;
    assert t == [a * d, b * e, c * f];
    Sum3(a * d, b * e, c * f);
  }

  /** The columns of the worked batch, and their sums and products. */
  lemma WorkedColumns(x: Matrix)
    requires x == [[1.0, 2.0], [3.0, 4.0], [5.0, 6.0]]
    ensures HasWidth(x, 2)
    ensures Col(x, 0) == [1.0, 3.0, 5.0] && Col(x, 1) == [2.0, 4.0, 6.0]
    ensures Sum(Col(x, 0)) == 9.0 && Sum(Col(x, 1)) == 12.0
    ensures Dot(Col(x, 0), Col(x, 0)) == 35.0 && Dot(Col(x, 1), Col(x, 1)) == 56.0
    ensures Dot(Col(x, 0), Col(x, 1)) == 44.0 && Dot(Col(x, 1), Col(x, 0)) == 44.0
  {
    assert Col(x, 0) == [1.0, 3.0, 5.0];
    assert Col(x, 1) == [2.0, 4.0, 6.0];
    Sum3(1.0, 3.0, 5.0);
    Sum3(2.0, 4.0, 6.0);
    Dot3(1.0, 3.0, 5.0, 1.0, 3.0, 5.0);
    Dot3(2.0, 4.0, 6.0, 2.0, 4.0, 6.0);
    Dot3(1.0, 3.0, 5.0, 2.0, 4.0, 6.0);
    Dot3(2.0, 4.0, 6.0, 1.0, 3.0, 5.0);
  }

  /** The running sums after adding [[1,2],[3,4],[5,6]] to a fresh accumulator. */
  lemma WorkedUpdate()
    ensures Update(New("d"), Batch([[1.0, 2.0], [3.0, 4.0], [5.0, 6.0]], 2, "d"))
            == CovarianceMatrix("d", Accumulating(2, [[35.0, 44.0], [44.0, 56.0]], [9.0, 12.0], 3))
  {
    var x := Batch([[1.0, 2.0], [3.0, 4.0], [5.0, 6.0]], 2, "d");
    WorkedColumns(x.rows);
    var p := Update(New("d"), x).phase;
    MatrixExt(p.outerSum, [[35.0, 44.0], [44.0, 56.0]], 2, 2);
    assert p.total == [9.0, 12.0];
  }

  /** Finishing those sums: covariance [[4,4],[4,4]], mean [3,4], count 3. */
  lemma WorkedFix()
    ensures Fix(CovarianceMatrix("d", Accumulating(2, [[35.0, 44.0], [44.0, 56.0]], [9.0, 12.0], 3))).1
            == Ok(Statistics([[4.0, 4.0], [4.0, 4.0]], [3.0, 4.0], 3))
  {
    var acc := CovarianceMatrix("d", Accumulating(2, [[35.0, 44.0], [44.0, 56.0]], [9.0, 12.0], 3));
    var st := Fix(acc).1.value;
    assert OnePass(35.0, 9.0, 9.0, 3.0) == 4.0;
    assert OnePass(44.0, 9.0, 12.0, 3.0) == 4.0;
    assert OnePass(44.0, 12.0, 9.0, 3.0) == 4.0;
    assert OnePass(56.0, 12.0, 12.0, 3.0) == 4.0;
    MatrixExt(st.cov, [[4.0, 4.0], [4.0, 4.0]], 2, 2);
    assert st.avg == [3.0, 4.0];
  }

  /** The concrete batch [[1,2],[3,4],[5,6]]: count 3, mean [3,4], covariance [[4,4],[4,4]]. */
  lemma WorkedExample()
    ensures var acc := Update(New("d"), Batch([[1.0, 2.0], [3.0, 4.0], [5.0, 6.0]], 2, "d"));
      && acc.phase.count == 3
      && Fix(acc).1 == Ok(Statistics([[4.0, 4.0], [4.0, 4.0]], [3.0, 4.0], 3))
  {
    WorkedUpdate();
    WorkedFix();
  }
}

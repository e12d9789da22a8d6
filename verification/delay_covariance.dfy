/**
 The streaming time-delayed covariance accumulator (`DelayCovarianceMatrix`
 in mdp/nodes/lcov.py). Every block of length n contributes the n - dt pairs
 (x_k, x_{k+dt}) that lie inside it: the running sum of x_k x_{k+dt}ᵀ, the sum
 of the leading rows x_k, the sum of the lagged rows x_{k+dt}, and their
 number. Pairs that straddle two blocks are never formed.
 */
module DelayCovariance {
  import opened LinAlg
  import opened Roundoff
  import opened Batches
  import opened Estimators

  /** The optional transformation matrix of `fix`. */
  datatype Option<T> = None | Some(value: T)

  datatype Phase =
    | Empty
    | Accumulating(dim: nat, crossSum: Matrix, leadSum: Vector, lagSum: Vector, count: nat)

  /** An accumulator with time delay `dt`; the typecode ("" until set) survives `Fix`. */
  datatype DelayCovarianceMatrix = DelayCovarianceMatrix(dt: nat, typecode: Typecode, phase: Phase)

  /** What `Fix` returns: covariance, mean of the leading rows, mean of the
      lagged rows, and the number of pairs. */
  datatype Statistics = Statistics(cov: Matrix, avg: Vector, avgDt: Vector, count: nat)

  /** A freshly constructed accumulator with delay `dt`, optionally with a
      fixed typecode: no buffers yet, so it summarizes no pairs. */
  function New(dt: nat, typecode: Typecode): (r: DelayCovarianceMatrix)
    ensures Valid(r) && r.dt == dt && r.typecode == typecode && r.phase.Empty?
    ensures Summarizes(r.phase, [], [])
  {
    DelayCovarianceMatrix(dt, typecode, Empty)
  }

  /** The pair count: 0 when there are no buffers. */
  function Count(p: Phase): nat {
    if p.Empty? then 0 else p.count
  }

  predicate ValidPhase(p: Phase) {
    p.Accumulating? ==>
      IsMatrix(p.crossSum, p.dim, p.dim) && |p.leadSum| == p.dim && |p.lagSum| == p.dim
  }

  predicate Valid(acc: DelayCovarianceMatrix) {
    ValidPhase(acc.phase)
  }

  /** `x` is a well-formed batch of the accumulator's input dimension. */
  predicate Accepts(acc: DelayCovarianceMatrix, x: Batch) {
    WellFormed(x) && (acc.phase.Accumulating? ==> x.width == acc.phase.dim)
  }

  /** Creates zeroed buffers of the batch's width and settles the typecode. */
  function InitInternals(acc: DelayCovarianceMatrix, x: Batch): (r: DelayCovarianceMatrix)
    requires acc.phase.Empty?
    ensures Valid(r) && r.dt == acc.dt && r.typecode == Inherit(acc.typecode, x)
    ensures r.phase.Accumulating? && r.phase.dim == x.width && r.phase.count == 0
    ensures forall i, j :: 0 <= i < x.width && 0 <= j < x.width ==> r.phase.crossSum[i][j] == 0.0
    ensures forall j :: 0 <= j < x.width ==> r.phase.leadSum[j] == 0.0 && r.phase.lagSum[j] == 0.0
  {
    DelayCovarianceMatrix(acc.dt, Inherit(acc.typecode, x),
                          Accumulating(x.width, ZeroMatrix(x.width, x.width), Zeros(x.width), Zeros(x.width), 0))
  }

  /** The accumulator as `update` finds it after creating missing buffers. */
  function Prepared(acc: DelayCovarianceMatrix, x: Batch): (r: DelayCovarianceMatrix)
    requires Valid(acc) && Accepts(acc, x)
    ensures Valid(r) && r.dt == acc.dt && r.phase.Accumulating? && r.phase.dim == x.width
  {
    if acc.phase.Empty? then InitInternals(acc, x) else acc
  }

  /** The leading rows x_0 … x_{n-dt-1} of a block. */
  function Leading(x: Matrix, dt: nat): Matrix
    requires dt <= |x|
  {
    x[..|x| - dt]
  }

  /** The lagged rows x_dt … x_{n-1} of a block. */
  function Lagged(x: Matrix, dt: nat): Matrix
    requires dt <= |x|
  {
    x[dt..]
  }

  /**
   `q` is `p` with the block `x` absorbed: its n - dt pairs added to the cross
   sum, its leading rows to the lead sum, its lagged rows to the lag sum.
   */
  ghost predicate Absorbed(p: Phase, x: Matrix, dt: nat, q: Phase)
    requires ValidPhase(p) && p.Accumulating? && HasWidth(x, p.dim) && dt < |x|
  {
    var d, lead, lag := p.dim, Leading(x, dt), Lagged(x, dt);
    && ValidPhase(q) && q.Accumulating? && q.dim == d
    && q.count == p.count + (|x| - dt)
    && (forall i, j :: 0 <= i < d && 0 <= j < d ==>
          q.crossSum[i][j] == p.crossSum[i][j] + Dot(Col(lead, i), Col(lag, j)))
    && (forall j :: 0 <= j < d ==> q.leadSum[j] == p.leadSum[j] + Sum(Col(lead, j)))
    && (forall j :: 0 <= j < d ==> q.lagSum[j] == p.lagSum[j] + Sum(Col(lag, j)))
  }

  /**
   Adds a block. Buffers are created first; then a block shorter than dt + 1
   is refused with the buffers as they are. Otherwise the pairs inside the
   block are absorbed; the lead and lag sums are computed as the block total
   minus its last dt rows and minus its first dt rows.
   */
  function Update(acc: DelayCovarianceMatrix, x: Batch): (r: (DelayCovarianceMatrix, Outcome))
    requires Valid(acc) && Accepts(acc, x)
    ensures Valid(r.0) && r.0.dt == acc.dt && r.0.typecode == Prepared(acc, x).typecode
    ensures r.0.phase.Accumulating? && r.0.phase.dim == x.width
    ensures r.1.Fail? <==> |x.rows| < acc.dt + 1
    ensures r.1.Fail? ==> r.0 == Prepared(acc, x) && r.1.error == BlockTooShort(|x.rows|, acc.dt + 1)
    ensures r.1.Pass? ==> Absorbed(Prepared(acc, x).phase, x.rows, acc.dt, r.0.phase)
  {
    var a := Prepared(acc, x);
    var p := a.phase;
    var n := |x.rows|;
    var dt := acc.dt;
    if n < dt + 1 then
      (a, Fail(BlockTooShort(n, dt + 1)))
    else
      var totalSum := ColumnSums(x.rows, p.dim);
      var q := p.(crossSum := MatAdd(p.crossSum, MatMul(Transpose(x.rows[..n - dt], p.dim), x.rows[dt..], p.dim)),
                  leadSum := Add(p.leadSum, Sub(totalSum, ColumnSums(x.rows[n - dt..], p.dim))),
                  lagSum := Add(p.lagSum, Sub(totalSum, ColumnSums(x.rows[..dt], p.dim))),
                  count := p.count + (n - dt));
      UpdateEntries(p, x.rows, dt, q);
      (a.(phase := q), Pass)
  }

  /** The block arithmetic of `Update` absorbs the block. */
  lemma UpdateEntries(p: Phase, x: Matrix, dt: nat, q: Phase)
    requires ValidPhase(p) && p.Accumulating? && HasWidth(x, p.dim) && dt < |x|
    requires var n, d := |x|, p.dim;
      && HasWidth(x[..n - dt], d) && HasWidth(x[dt..], d) && HasWidth(x[n - dt..], d) && HasWidth(x[..dt], d)
      && q == p.(crossSum := MatAdd(p.crossSum, MatMul(Transpose(x[..n - dt], d), x[dt..], d)),
                 leadSum := Add(p.leadSum, Sub(ColumnSums(x, d), ColumnSums(x[n - dt..], d))),
                 lagSum := Add(p.lagSum, Sub(ColumnSums(x, d), ColumnSums(x[..dt], d))),
                 count := p.count + (n - dt))
    ensures Absorbed(p, x, dt, q)
  {
    var n, d := |x|, p.dim;
    assert x[..n - dt] + x[n - dt..] == x;
    ColumnSumsAppend(x[..n - dt], x[n - dt..], d);
    assert x[..dt] + x[dt..] == x;
    ColumnSumsAppend(x[..dt], x[dt..], d);
  }

  /**
   `st` holds the finished statistics of the sums in `p`: the covariance in
   running-sum form (C - (a_i/n) b_j)/(n-1), transformed to A·cov·Aᵀ when a
   matrix A is given, the two means a/n and b/n, and the count n.
   */
  ghost predicate Finished(p: Phase, a: Option<Matrix>, st: Statistics)
    requires ValidPhase(p) && p.Accumulating? && p.count >= 2
    requires a.Some? ==> HasWidth(a.value, p.dim)
  {
    var d, n := p.dim, p.count as real;
    var raw := RunningCov(p.crossSum, p.leadSum, p.lagSum, n);
    && st.count == p.count
    && st.cov == (if a.None? then raw else Transform(a.value, raw, d))
    && |st.avg| == d && |st.avgDt| == d
    && (forall j :: 0 <= j < d ==> st.avg[j] == p.leadSum[j] / n)
    && (forall j :: 0 <= j < d ==> st.avgDt[j] == p.lagSum[j] / n)
  }

  /**
   Finishes the estimate. The guard runs first and, if it trips, leaves the
   accumulator as it was. Otherwise the covariance is (C - a bᵀ/n)/(n-1),
   optionally transformed by A, the means are a/n and b/n, and the
   accumulator goes back to Empty (keeping its delay and typecode).
   */
  function Fix(acc: DelayCovarianceMatrix, a: Option<Matrix>): (r: (DelayCovarianceMatrix, Result<Statistics>))
    requires Valid(acc) && acc.phase.Accumulating? && acc.phase.count >= 2
    requires a.Some? ==> HasWidth(a.value, acc.phase.dim)
    ensures r.1.Err? <==> CheckRoundoff(acc.phase.count, acc.typecode).Fail?
    ensures r.1.Err? ==> r.0 == acc && r.1.error == RoundoffWarning(acc.phase.count, acc.typecode)
    ensures r.1.Ok? ==> r.0 == New(acc.dt, acc.typecode)
    ensures r.1.Ok? ==> Finished(acc.phase, a, r.1.value)
  {
    var p := acc.phase;
    match CheckRoundoff(p.count, acc.typecode)
    case Fail(e) => (acc, Err(e))
    case Pass =>
      var raw := FinishCross(p.crossSum, p.leadSum, p.lagSum, p.count as real);
      var cov := if a.None? then raw else Transform(a.value, raw, p.dim);
      var avg := Div(p.leadSum, p.count as real);
      var avgDt := Div(p.lagSum, p.count as real);
      (New(acc.dt, acc.typecode), Ok(Statistics(cov, avg, avgDt, p.count)))
  }

  /**
   The arithmetic of `fix` on a cross sum C and sums a, b over n pairs:
   (C - a bᵀ/n)/(n-1), which is the running-sum form of the covariance.
   */
  function FinishCross(c: Matrix, a: Vector, b: Vector, n: real): (r: Matrix)
    requires IsMatrix(c, |a|, |a|) && |b| == |a| && n >= 2.0
    ensures r == RunningCov(c, a, b, n)
  {
    var cov := MatDiv(MatSub(c, MatDiv(Outer(a, b), n)), n - 1.0);
    forall i, j | 0 <= i < |a| && 0 <= j < |a|
      ensures cov[i][j] == OnePass(c[i][j], a[i], b[j], n)
    {
      CrossEntry(c, a, b, n, cov, i, j);
    }
    MatrixExt(cov, RunningCov(c, a, b, n), |a|, |a|);
    cov
  }

  lemma CrossEntry(c: Matrix, a: Vector, b: Vector, n: real, cov: Matrix, i: nat, j: nat)
    requires IsMatrix(c, |a|, |a|) && |b| == |a| && n >= 2.0 && i < |a| && j < |a|
    requires cov == MatDiv(MatSub(c, MatDiv(Outer(a, b), n)), n - 1.0)
    ensures cov[i][j] == OnePass(c[i][j], a[i], b[j], n)
  {
    var m := MatSub(c, MatDiv(Outer(a, b), n));
    var x, y, z := c[i][j], a[i], b[j];
    assert m[i][j] == x - y * z / n;
    DelayedRearrange(x, y, z, n);
    assert (x - y * z / n) / (n - 1.0) == OnePass(x, y, z, n);
  }

  /** Fixing with A gives A·cov·Aᵀ of the untransformed result and changes nothing else. */
  lemma FixTransforms(acc: DelayCovarianceMatrix, a: Matrix)
    requires Valid(acc) && acc.phase.Accumulating? && acc.phase.count >= 2
    requires HasWidth(a, acc.phase.dim)
    requires Fix(acc, None).1.Ok?
    ensures Fix(acc, Some(a)).0 == Fix(acc, None).0
    ensures var plain, st := Fix(acc, None).1.value, Fix(acc, Some(a)).1.value;
      && IsMatrix(plain.cov, acc.phase.dim, acc.phase.dim)
      && st == plain.(cov := Transform(a, plain.cov, acc.phase.dim))
  {
  }

  /** The identity transformation leaves the result unchanged. */
  lemma FixIdentity(acc: DelayCovarianceMatrix)
    requires Valid(acc) && acc.phase.Accumulating? && acc.phase.count >= 2
    ensures HasWidth(Identity(acc.phase.dim), acc.phase.dim)
    ensures Fix(acc, Some(Identity(acc.phase.dim))) == Fix(acc, None)
  {
    var p := acc.phase;
    IdentityTransform(RunningCov(p.crossSum, p.leadSum, p.lagSum, p.count as real), p.dim);
  }

  // ---------------------------------------------------------------------------
  // What the running sums mean
  // ---------------------------------------------------------------------------

  /** The state of `p` is exactly that of having seen the pairs (lead_k, lag_k). */
  ghost predicate Summarizes(p: Phase, lead: Matrix, lag: Matrix) {
    match p
    case Empty => lead == [] && lag == []
    case Accumulating(d, c, a, b, n) =>
      && HasWidth(lead, d) && HasWidth(lag, d)
      && |lead| == |lag| == n
      && c == Cross(lead, lag, d)
      && a == ColumnSums(lead, d)
      && b == ColumnSums(lag, d)
  }

  /** A refused block leaves the accumulator summarizing the pairs it had. */
  lemma RejectedSummarizes(acc: DelayCovarianceMatrix, x: Batch, lead: Matrix, lag: Matrix)
    requires Valid(acc) && Accepts(acc, x) && Summarizes(acc.phase, lead, lag)
    requires |x.rows| < acc.dt + 1
    ensures Summarizes(Update(acc, x).0.phase, lead, lag)
  {
    if acc.phase.Empty? {
      var d := x.width;
      var p := Update(acc, x).0.phase;
      CrossEmpty(lead, lag, d);
      CrossEmpty(lag, lag, d);
      MatrixExt(p.crossSum, ZeroMatrix(d, d), d, d);
    }
  }

  /** An accepted block appends its leading and lagged rows to the pairs seen. */
  lemma AcceptedSummarizes(acc: DelayCovarianceMatrix, x: Batch, lead: Matrix, lag: Matrix)
    requires Valid(acc) && Accepts(acc, x) && Summarizes(acc.phase, lead, lag)
    requires |x.rows| >= acc.dt + 1
    ensures Summarizes(Update(acc, x).0.phase,
                       lead + Leading(x.rows, acc.dt), lag + Lagged(x.rows, acc.dt))
  {
    PreparedSummarizes(acc, x, lead, lag);
    AbsorbedSummarizes(Prepared(acc, x).phase, x.rows, acc.dt, Update(acc, x).0.phase, lead, lag);
  }

  /** Creating the buffers keeps the state a summary of the same pairs. */
  lemma PreparedSummarizes(acc: DelayCovarianceMatrix, x: Batch, lead: Matrix, lag: Matrix)
    requires Valid(acc) && Accepts(acc, x) && Summarizes(acc.phase, lead, lag)
    ensures Summarizes(Prepared(acc, x).phase, lead, lag)
  {
    if acc.phase.Empty? {
      var d := x.width;
      var p := Prepared(acc, x).phase;
      CrossEmpty(lead, lag, d);
      CrossEmpty(lag, lead, d);
      MatrixExt(p.crossSum, ZeroMatrix(d, d), d, d);
    }
  }

  /** Absorbing a block appends its leading and lagged rows to the pairs summarized. */
  lemma AbsorbedSummarizes(p: Phase, x: Matrix, dt: nat, q: Phase, lead: Matrix, lag: Matrix)
    requires ValidPhase(p) && p.Accumulating? && HasWidth(x, p.dim) && dt < |x|
    requires Summarizes(p, lead, lag) && Absorbed(p, x, dt, q)
    ensures Summarizes(q, lead + Leading(x, dt), lag + Lagged(x, dt))
  {
    var d := p.dim;
    var xl, xg := Leading(x, dt), Lagged(x, dt);
    assert HasWidth(xl, d) && HasWidth(xg, d);
    CrossAppend(lead, xl, lag, xg, d);
    MatrixExt(q.crossSum, Cross(lead + xl, lag + xg, d), d, d);
    ColumnSumsAppend(lead, xl, d);
    ColumnSumsAppend(lag, xg, d);
  }

  /**
   Splitting a block x1 ++ x2 in two loses exactly the dt pairs that straddle
   the cut, (x1[n1-dt+k], x2[k]) for k < dt: the concatenation's leading rows
   are those of x1, the last dt rows of x1, then those of x2, and its lagged
   rows are those of x1, the first dt rows of x2, then those of x2.
   */
  lemma StraddlingPairs(x1: Matrix, x2: Matrix, dt: nat)
    requires dt < |x1| && dt < |x2|
    ensures Leading(x1 + x2, dt) == Leading(x1, dt) + x1[|x1| - dt..] + Leading(x2, dt)
    ensures Lagged(x1 + x2, dt) == Lagged(x1, dt) + x2[..dt] + Lagged(x2, dt)
  {
    var x, n1 := x1 + x2, |x1|;
    assert Leading(x, dt) == x1 + x2[..|x2| - dt];
    assert x1 == Leading(x1, dt) + x1[n1 - dt..];
    assert Lagged(x, dt) == x1[dt..] + x2;
    assert x2 == x2[..dt] + Lagged(x2, dt);
  }

  /**
   Batch splitting with boundary loss: from a state summarizing the pairs
   (lead, lag), adding x1 then x2 summarizes the pairs inside each block,
   while adding x1 ++ x2 at once also holds the dt straddling pairs; the
   split stream therefore counts dt pairs fewer.
   */
  lemma SplitMissesStraddlingPairs(acc: DelayCovarianceMatrix, b1: Batch, b2: Batch, lead: Matrix, lag: Matrix)
    requires Valid(acc) && Accepts(acc, b1) && WellFormed(b2) && b2.width == b1.width
    requires b2.typecode == b1.typecode && Summarizes(acc.phase, lead, lag)
    requires |b1.rows| >= acc.dt + 1 && |b2.rows| >= acc.dt + 1
    ensures Update(acc, b1).1.Pass? && Accepts(Update(acc, b1).0, b2) && Accepts(acc, Concat(b1, b2))
    ensures var dt, x1, x2 := acc.dt, b1.rows, b2.rows;
      && Update(Update(acc, b1).0, b2).1.Pass?
      && Summarizes(Update(Update(acc, b1).0, b2).0.phase,
                    lead + Leading(x1, dt) + Leading(x2, dt), lag + Lagged(x1, dt) + Lagged(x2, dt))
      && Update(acc, Concat(b1, b2)).1.Pass?
      && Summarizes(Update(acc, Concat(b1, b2)).0.phase,
                    lead + Leading(x1, dt) + x1[|x1| - dt..] + Leading(x2, dt),
                    lag + Lagged(x1, dt) + x2[..dt] + Lagged(x2, dt))
      && Update(Update(acc, b1).0, b2).0.phase.count + dt == Update(acc, Concat(b1, b2)).0.phase.count
  {
    SplitSummary(acc, b1, b2, lead, lag);
    ConcatSummary(acc, b1, b2, lead, lag);
  }

  /** Adding two blocks one after the other appends the pairs inside each. */
  lemma SplitSummary(acc: DelayCovarianceMatrix, b1: Batch, b2: Batch, lead: Matrix, lag: Matrix)
    requires Valid(acc) && Accepts(acc, b1) && WellFormed(b2) && b2.width == b1.width
    requires Summarizes(acc.phase, lead, lag)
    requires |b1.rows| >= acc.dt + 1 && |b2.rows| >= acc.dt + 1
    ensures Update(acc, b1).1.Pass? && Accepts(Update(acc, b1).0, b2)
    ensures var dt, x1, x2 := acc.dt, b1.rows, b2.rows;
      && Update(Update(acc, b1).0, b2).1.Pass?
      && Summarizes(Update(Update(acc, b1).0, b2).0.phase,
                    lead + Leading(x1, dt) + Leading(x2, dt), lag + Lagged(x1, dt) + Lagged(x2, dt))
  {
    var dt := acc.dt;
    AcceptedSummarizes(acc, b1, lead, lag);
    AcceptedSummarizes(Update(acc, b1).0, b2, lead + Leading(b1.rows, dt), lag + Lagged(b1.rows, dt));
  }

  /** Adding the concatenation appends the pairs inside each block and the straddling ones. */
  lemma ConcatSummary(acc: DelayCovarianceMatrix, b1: Batch, b2: Batch, lead: Matrix, lag: Matrix)
    requires Valid(acc) && Accepts(acc, b1) && WellFormed(b2) && b2.width == b1.width
    requires b2.typecode == b1.typecode && Summarizes(acc.phase, lead, lag)
    requires |b1.rows| >= acc.dt + 1 && |b2.rows| >= acc.dt + 1
    ensures Accepts(acc, Concat(b1, b2))
    ensures var dt, x1, x2 := acc.dt, b1.rows, b2.rows;
      && Update(acc, Concat(b1, b2)).1.Pass?
      && Summarizes(Update(acc, Concat(b1, b2)).0.phase,
                    lead + Leading(x1, dt) + x1[|x1| - dt..] + Leading(x2, dt),
                    lag + Lagged(x1, dt) + x2[..dt] + Lagged(x2, dt))
  {
    var dt, x1, x2 := acc.dt, b1.rows, b2.rows;
    var b := Concat(b1, b2);
    assert HasWidth(b.rows, b1.width);
    AcceptedSummarizes(acc, b, lead, lag);
    StraddlingPairs(x1, x2, dt);
    Regroup(lead, Leading(b.rows, dt), Leading(x1, dt), x1[|x1| - dt..], Leading(x2, dt));
    Regroup(lag, Lagged(b.rows, dt), Lagged(x1, dt), x2[..dt], Lagged(x2, dt));
  }

  /** Appending a three-part sequence appends its parts in turn. */
  lemma Regroup(a: Matrix, whole: Matrix, u: Matrix, v: Matrix, w: Matrix)
    requires whole == u + v + w
    ensures a + whole == a + u + v + w
  {
  }

  /**
   With delay 0 nothing straddles a cut: adding two non-empty blocks one
   after the other leaves the same state as adding their concatenation.
   */
  lemma ZeroDelaySplitting(acc: DelayCovarianceMatrix, b1: Batch, b2: Batch)
    requires Valid(acc) && acc.dt == 0 && Accepts(acc, b1) && WellFormed(b2) && b2.width == b1.width
    requires b2.typecode == b1.typecode
    requires |b1.rows| >= 1 && |b2.rows| >= 1
    ensures Accepts(Update(acc, b1).0, b2) && Accepts(acc, Concat(b1, b2))
    ensures Update(Update(acc, b1).0, b2) == Update(acc, Concat(b1, b2))
  {
    var b := Concat(b1, b2);
    assert HasWidth(b.rows, b1.width);
    var p := Prepared(acc, b1).phase;
    assert Prepared(acc, b) == Prepared(acc, b1);
    var s1 := Update(acc, b1).0;
    assert Prepared(s1, b2) == s1;
    AbsorbTwice(p, s1.phase, Update(s1, b2).0.phase, Update(acc, b).0.phase, b1.rows, b2.rows);
  }

  /** With delay 0, absorbing x1 then x2 is absorbing x1 ++ x2. */
  lemma AbsorbTwice(p: Phase, q1: Phase, q2: Phase, q: Phase, x1: Matrix, x2: Matrix)
    requires ValidPhase(p) && p.Accumulating? && HasWidth(x1, p.dim) && HasWidth(x2, p.dim)
    requires |x1| >= 1 && |x2| >= 1
    requires Absorbed(p, x1, 0, q1)
    requires Absorbed(q1, x2, 0, q2)
    requires HasWidth(x1 + x2, p.dim) && Absorbed(p, x1 + x2, 0, q)
    ensures q2 == q
  {
    var d := p.dim;
    assert Leading(x1, 0) == x1 && Lagged(x1, 0) == x1;
    assert Leading(x2, 0) == x2 && Lagged(x2, 0) == x2;
    assert Leading(x1 + x2, 0) == x1 + x2 && Lagged(x1 + x2, 0) == x1 + x2;
    forall i, j | 0 <= i < d && 0 <= j < d
      ensures q2.crossSum[i][j] == q.crossSum[i][j]
    {
      ColAppend(x1, x2, i);
      ColAppend(x1, x2, j);
      DotAppend(Col(x1, i), Col(x2, i), Col(x1, j), Col(x2, j));
    }
    MatrixExt(q2.crossSum, q.crossSum, d, d);
    forall j | 0 <= j < d
      ensures q2.leadSum[j] == q.leadSum[j] && q2.lagSum[j] == q.lagSum[j]
    {
      ColAppend(x1, x2, j);
      SumAppend(Col(x1, j), Col(x2, j));
    }
  }

  /** Every block of `bs` is long enough for the delay. */
  predicate LongEnough(bs: seq<Batch>, dt: nat) {
    forall k :: 0 <= k < |bs| ==> |bs[k].rows| >= dt + 1
  }

  /** The leading rows of every block, in order. */
  function LeadRows(bs: seq<Batch>, dt: nat, d: nat): (r: Matrix)
    requires AllWidth(bs, d) && LongEnough(bs, dt)
    ensures HasWidth(r, d)
  {
    if |bs| == 0 then [] else Leading(bs[0].rows, dt) + LeadRows(bs[1..], dt, d)
  }

  /** The lagged rows of every block, in order. */
  function LagRows(bs: seq<Batch>, dt: nat, d: nat): (r: Matrix)
    requires AllWidth(bs, d) && LongEnough(bs, dt)
    ensures HasWidth(r, d) && |r| == |LeadRows(bs, dt, d)|
  {
    if |bs| == 0 then [] else Lagged(bs[0].rows, dt) + LagRows(bs[1..], dt, d)
  }

  /**
   Boundary loss: over a sequence of blocks, dt pairs are lost per block;
   together with dt rows per block the pairs make up all the rows.
   */
  lemma {:induction false} BoundaryLoss(bs: seq<Batch>, dt: nat, d: nat)
    requires AllWidth(bs, d) && LongEnough(bs, dt)
    ensures |LeadRows(bs, dt, d)| + |bs| * dt == |AllRows(bs, d)|
    decreases |bs|
  {
    if |bs| > 0 {
      BoundaryLoss(bs[1..], dt, d);
    }
  }

  /**
   Feeds blocks of width `d` in order, stopping at the first refused block
   (the caller sees the exception; later blocks are not added): a failure
   names the first block shorter than dt + 1.
   */
  function Feed(acc: DelayCovarianceMatrix, bs: seq<Batch>, d: nat): (r: (DelayCovarianceMatrix, Outcome))
    requires Valid(acc) && AllWidth(bs, d) && (acc.phase.Accumulating? ==> acc.phase.dim == d)
    ensures Valid(r.0) && r.0.dt == acc.dt && (r.0.phase.Accumulating? ==> r.0.phase.dim == d)
    ensures |bs| > 0 ==> r.0.phase.Accumulating?
    ensures r.1.Pass? <==> LongEnough(bs, acc.dt)
    ensures r.1.Pass? ==> Count(r.0.phase) == Count(acc.phase) + |LeadRows(bs, acc.dt, d)|
    ensures r.1.Fail? ==>
      exists k :: 0 <= k < |bs| && LongEnough(bs[..k], acc.dt) && |bs[k].rows| < acc.dt + 1
                  && r.1.error == BlockTooShort(|bs[k].rows|, acc.dt + 1)
    decreases |bs|
  {
    if |bs| == 0 then (acc, Pass)
    else
      var (a, o) := Update(acc, bs[0]);
      if o.Fail? then
        assert LongEnough(bs[..0], acc.dt);
        (a, o)
      else
        var r := Feed(a, bs[1..], d);
        FirstRefusalShift(bs, acc.dt, r.1);
        r
  }

  /** A refusal located in the tail is located one block later in the whole. */
  lemma FirstRefusalShift(bs: seq<Batch>, dt: nat, o: Outcome)
    requires |bs| > 0 && |bs[0].rows| >= dt + 1
    requires o.Fail? ==>
      exists k :: 0 <= k < |bs[1..]| && LongEnough(bs[1..][..k], dt) && |bs[1..][k].rows| < dt + 1
                  && o.error == BlockTooShort(|bs[1..][k].rows|, dt + 1)
    ensures o.Fail? ==>
      exists k :: 0 <= k < |bs| && LongEnough(bs[..k], dt) && |bs[k].rows| < dt + 1
                  && o.error == BlockTooShort(|bs[k].rows|, dt + 1)
  {
    if o.Fail? {
      var k :| 0 <= k < |bs[1..]| && LongEnough(bs[1..][..k], dt) && |bs[1..][k].rows| < dt + 1
               && o.error == BlockTooShort(|bs[1..][k].rows|, dt + 1);
      var pre := bs[..k + 1];
      forall m | 0 <= m < |pre|
        ensures |pre[m].rows| >= dt + 1
      {
        if m > 0 {
          assert pre[m] == bs[1..][..k][m - 1];
        }
      }
      assert bs[k + 1] == bs[1..][k];
    }
  }

  /**
   Blocks after the first refused one are never added: feeding all blocks
   ends exactly as feeding them up to and including the refused one.
   */
  lemma {:induction false} FeedStopsAtRefusal(acc: DelayCovarianceMatrix, bs: seq<Batch>, d: nat, k: nat)
    requires Valid(acc) && AllWidth(bs, d) && (acc.phase.Accumulating? ==> acc.phase.dim == d)
    requires k < |bs| && LongEnough(bs[..k], acc.dt) && |bs[k].rows| < acc.dt + 1
    ensures AllWidth(bs[..k + 1], d)
    ensures Feed(acc, bs, d) == Feed(acc, bs[..k + 1], d)
    decreases k
  {
    if k == 0 {
      FeedRefusedFirst(acc, bs, d);
      FeedRefusedFirst(acc, bs[..1], d);
    } else {
      FeedShift(acc, bs, d, k);
      var a := Update(acc, bs[0]).0;
      FeedStopsAtRefusal(a, bs[1..], d, k - 1);
    }
  }

  /**
   Before a refusal at block k > 0, the first block is accepted, and feeding
   all blocks or the first k + 1 is feeding the rest from the state after it.
   */
  lemma FeedShift(acc: DelayCovarianceMatrix, bs: seq<Batch>, d: nat, k: nat)
    requires Valid(acc) && AllWidth(bs, d) && (acc.phase.Accumulating? ==> acc.phase.dim == d)
    requires 0 < k < |bs| && LongEnough(bs[..k], acc.dt)
    ensures AllWidth(bs[..k + 1], d) && AllWidth(bs[1..], d) && |bs[0].rows| >= acc.dt + 1
    ensures var a := Update(acc, bs[0]).0; Valid(a) && a.dt == acc.dt && a.phase.Accumulating? && a.phase.dim == d
    ensures Feed(acc, bs, d) == Feed(Update(acc, bs[0]).0, bs[1..], d)
    ensures Feed(acc, bs[..k + 1], d) == Feed(Update(acc, bs[0]).0, bs[1..][..k], d)
    ensures LongEnough(bs[1..][..k - 1], acc.dt) && bs[1..][k - 1] == bs[k]
  {
    PrefixTail(bs, acc.dt, d, k);
    FeedStep(acc, bs, d);
    FeedStep(acc, bs[..k + 1], d);
  }

  /** The sequence facts behind `FeedShift`: the prefix up to block k, less
      its first block, is the prefix of the tail. */
  lemma PrefixTail(bs: seq<Batch>, dt: nat, d: nat, k: nat)
    requires AllWidth(bs, d) && 0 < k < |bs| && LongEnough(bs[..k], dt)
    ensures AllWidth(bs[..k + 1], d) && AllWidth(bs[1..], d)
    ensures |bs[0].rows| >= dt + 1 && bs[..k + 1][0] == bs[0] && |bs[..k + 1]| > 0
    ensures bs[..k + 1][1..] == bs[1..][..k]
    ensures LongEnough(bs[1..][..k - 1], dt) && bs[1..][k - 1] == bs[k]
  {
    assert AllWidth(bs[..k + 1], d);
    assert |bs[0].rows| >= dt + 1 by { assert bs[0] == bs[..k][0]; }
    assert bs[..k + 1][1..] == bs[1..][..k];
    var rest := bs[1..][..k - 1];
    forall m | 0 <= m < |rest|
      ensures |rest[m].rows| >= dt + 1
    {
      assert rest[m] == bs[..k][m + 1];
    }
  }

  /** An accepted first block is absorbed and feeding goes on with the rest. */
  lemma FeedStep(acc: DelayCovarianceMatrix, bs: seq<Batch>, d: nat)
    requires Valid(acc) && AllWidth(bs, d) && (acc.phase.Accumulating? ==> acc.phase.dim == d)
    requires |bs| > 0 && |bs[0].rows| >= acc.dt + 1
    ensures Feed(acc, bs, d) == Feed(Update(acc, bs[0]).0, bs[1..], d)
  {
  }

  /** A refused first block ends feeding with the state its buffer creation left. */
  lemma FeedRefusedFirst(acc: DelayCovarianceMatrix, bs: seq<Batch>, d: nat)
    requires Valid(acc) && AllWidth(bs, d) && (acc.phase.Accumulating? ==> acc.phase.dim == d)
    requires |bs| > 0 && |bs[0].rows| < acc.dt + 1
    ensures Feed(acc, bs, d) == (Prepared(acc, bs[0]), Fail(BlockTooShort(|bs[0].rows|, acc.dt + 1)))
  {
  }

  lemma {:induction false} FeedSummarizes(acc: DelayCovarianceMatrix, bs: seq<Batch>, d: nat,
                                          lead: Matrix, lag: Matrix)
    requires Valid(acc) && AllWidth(bs, d) && (acc.phase.Accumulating? ==> acc.phase.dim == d)
    requires LongEnough(bs, acc.dt) && Summarizes(acc.phase, lead, lag)
    ensures Summarizes(Feed(acc, bs, d).0.phase,
                       lead + LeadRows(bs, acc.dt, d), lag + LagRows(bs, acc.dt, d))
    decreases |bs|
  {
    var dt := acc.dt;
    if |bs| == 0 {
      assert lead + LeadRows(bs, dt, d) == lead;
      assert lag + LagRows(bs, dt, d) == lag;
    } else {
      var xl, xg := Leading(bs[0].rows, dt), Lagged(bs[0].rows, dt);
      AcceptedSummarizes(acc, bs[0], lead, lag);
      FeedSummarizes(Update(acc, bs[0]).0, bs[1..], d, lead + xl, lag + xg);
      RowsStep(bs, dt, d, lead, lag);
    }
  }

  /** The rows of the first block, then those of the rest, are those of all blocks. */
  lemma RowsStep(bs: seq<Batch>, dt: nat, d: nat, lead: Matrix, lag: Matrix)
    requires |bs| > 0 && AllWidth(bs, d) && LongEnough(bs, dt)
    ensures lead + Leading(bs[0].rows, dt) + LeadRows(bs[1..], dt, d) == lead + LeadRows(bs, dt, d)
    ensures lag + Lagged(bs[0].rows, dt) + LagRows(bs[1..], dt, d) == lag + LagRows(bs, dt, d)
  {
    var xl, xg := Leading(bs[0].rows, dt), Lagged(bs[0].rows, dt);
    assert LeadRows(bs, dt, d) == xl + LeadRows(bs[1..], dt, d);
    assert LagRows(bs, dt, d) == xg + LagRows(bs[1..], dt, d);
    assert lead + xl + LeadRows(bs[1..], dt, d) == lead + (xl + LeadRows(bs[1..], dt, d));
    assert lag + xg + LagRows(bs[1..], dt, d) == lag + (xg + LagRows(bs[1..], dt, d));
  }

  /**
   Fixing (without A) a state that summarizes the pairs (lead_k, lag_k)
   yields their sample cross-covariance, the means of the leading and of the
   lagged rows, and the number of pairs.
   */
  lemma FixIsLaggedCovariance(acc: DelayCovarianceMatrix, lead: Matrix, lag: Matrix)
    requires Valid(acc) && acc.phase.Accumulating? && acc.phase.count >= 2
    requires Summarizes(acc.phase, lead, lag)
    requires Fix(acc, None).1.Ok?
    ensures Fix(acc, None).1.value
            == Statistics(SampleCovariance(lead, lag, acc.phase.dim),
                          ColumnMeans(lead, acc.phase.dim), ColumnMeans(lag, acc.phase.dim), |lead|)
  {
    var d := acc.phase.dim;
    var st := Fix(acc, None).1.value;
    assert acc.phase.count as real == |lead| as real;
    SampleCovarianceOnePass(lead, lag, d);
    ColumnMeansFromSums(lead, d);
    ColumnMeansFromSums(lag, d);
  }

  /**
   End to end: feeding blocks to a fresh accumulator either stops at the
   first block shorter than dt + 1 or, when every block is long enough,
   leaves one pair per (x_k, x_{k+dt}) inside a block, and fixing then trips
   the guard on that pair count or returns the sample cross-covariance and
   means of the leading and lagged rows.
   */
  lemma StreamedLaggedStatistics(dt: nat, typecode: Typecode, bs: seq<Batch>, d: nat)
    requires |bs| > 0 && AllWidth(bs, d) && LongEnough(bs, dt) && |LeadRows(bs, dt, d)| >= 2
    ensures var (acc, o) := Feed(New(dt, typecode), bs, d);
      && o.Pass? && acc.phase.Accumulating?
      && acc.phase.count + |bs| * dt == |AllRows(bs, d)|
      && (Fix(acc, None).1.Err? <==> CheckRoundoff(acc.phase.count, acc.typecode).Fail?)
      && (Fix(acc, None).1.Ok? ==>
            Fix(acc, None).1.value
            == Statistics(SampleCovariance(LeadRows(bs, dt, d), LagRows(bs, dt, d), d),
                          ColumnMeans(LeadRows(bs, dt, d), d), ColumnMeans(LagRows(bs, dt, d), d),
                          |LeadRows(bs, dt, d)|))
  {
    var acc := Feed(New(dt, typecode), bs, d).0;
    BoundaryLoss(bs, dt, d);
    FeedSummarizes(New(dt, typecode), bs, d, [], []);
    assert [] + LeadRows(bs, dt, d) == LeadRows(bs, dt, d);
    assert [] + LagRows(bs, dt, d) == LagRows(bs, dt, d);
    if Fix(acc, None).1.Ok? {
      FixIsLaggedCovariance(acc, LeadRows(bs, dt, d), LagRows(bs, dt, d));
    }
  }

  /**
   With dt = 3 a 5-row block contributes its 2 pairs; a following 2-row block
   is refused with "length 2, at least 4" and the state stays as it was.
   */
  lemma RejectionExample()
    ensures var b5 := Batch([[1.0], [2.0], [3.0], [4.0], [5.0]], 1, "d");
      var b2 := Batch([[6.0], [7.0]], 1, "d");
      var (s1, o1) := Update(New(3, ""), b5);
      && o1.Pass? && s1.phase.count == 2 && s1.typecode == "d"
      && Update(s1, b2) == (s1, Fail(BlockTooShort(2, 4)))
  {
  }
}

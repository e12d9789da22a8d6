/**
 The delayed accumulator with time delay 0 against the plain accumulator
 (mdp/nodes/lcov.py documents that the two are then equal). With dt = 0 the
 leading and the lagged rows of a block are the block itself, so the cross
 sum is xᵀx and both partial sums are the column sums: the two accumulators
 move in lock-step and finish with the same covariance, with avg = avg_dt
 equal to the plain average. The one difference is the empty block, which
 the delayed accumulator refuses (length 0 < dt + 1) and the plain one adds
 as a no-op.
 */
module LagZero {
  import opened LinAlg
  import opened Roundoff
  import opened Batches
  import opened Estimators
  import Covariance
  import DelayCovariance

  /** The delayed phase `dp` holds the same sums as the plain phase `pp`. */
  predicate Tracks(dp: DelayCovariance.Phase, pp: Covariance.Phase) {
    match dp
    case Empty => pp.Empty?
    case Accumulating(d, c, a, b, n) =>
      && pp.Accumulating? && pp.dim == d && pp.count == n
      && c == pp.outerSum && a == pp.total && b == pp.total
  }

  /** A delayed accumulator with dt = 0 in lock-step with a plain one. */
  predicate Tracking(da: DelayCovariance.DelayCovarianceMatrix, pa: Covariance.CovarianceMatrix) {
    da.dt == 0 && da.typecode == pa.typecode && Tracks(da.phase, pa.phase)
  }

  /** Freshly constructed accumulators with the same typecode are in lock-step. */
  lemma NewTracking(typecode: Typecode)
    ensures Tracking(DelayCovariance.New(0, typecode), Covariance.New(typecode))
  {
  }

  /** With dt = 0 a block's leading and lagged rows are the block. */
  lemma ZeroDelayRows(x: Matrix)
    ensures DelayCovariance.Leading(x, 0) == x && DelayCovariance.Lagged(x, 0) == x
  {
  }

  /** A non-empty block keeps the two accumulators in lock-step. */
  lemma UpdateTracking(da: DelayCovariance.DelayCovarianceMatrix, pa: Covariance.CovarianceMatrix, x: Batch)
    requires DelayCovariance.Valid(da) && Covariance.Valid(pa) && Tracking(da, pa)
    requires Covariance.Accepts(pa, x) && |x.rows| >= 1
    ensures DelayCovariance.Accepts(da, x)
    ensures DelayCovariance.Update(da, x).1.Pass?
    ensures Tracking(DelayCovariance.Update(da, x).0, Covariance.Update(pa, x))
  {
    var d := x.width;
    var dq := DelayCovariance.Update(da, x).0.phase;
    var pq := Covariance.Update(pa, x).phase;
    ZeroDelayRows(x.rows);
    var dp := DelayCovariance.Prepared(da, x).phase;
    assert forall i, j :: 0 <= i < d && 0 <= j < d ==> dq.crossSum[i][j] == pq.outerSum[i][j];
    MatrixExt(dq.crossSum, pq.outerSum, d, d);
    assert forall j :: 0 <= j < d ==> dq.leadSum[j] == pq.total[j];
    assert forall j :: 0 <= j < d ==> dq.lagSum[j] == pq.total[j];
  }

  /** Every block of `bs` is non-empty. */
  predicate NonEmptyBlocks(bs: seq<Batch>) {
    forall k :: 0 <= k < |bs| ==> |bs[k].rows| >= 1
  }

  /** Feeding the same non-empty blocks keeps the two accumulators in lock-step. */
  lemma {:induction false} FeedTracking(da: DelayCovariance.DelayCovarianceMatrix, pa: Covariance.CovarianceMatrix,
                                        bs: seq<Batch>, d: nat)
    requires DelayCovariance.Valid(da) && Covariance.Valid(pa) && Tracking(da, pa)
    requires AllWidth(bs, d) && NonEmptyBlocks(bs) && (pa.phase.Accumulating? ==> pa.phase.dim == d)
    ensures (da.phase.Accumulating? ==> da.phase.dim == d)
    ensures DelayCovariance.Feed(da, bs, d).1.Pass?
    ensures Tracking(DelayCovariance.Feed(da, bs, d).0, Covariance.Feed(pa, bs, d))
    decreases |bs|
  {
    if |bs| > 0 {
      UpdateTracking(da, pa, bs[0]);
      FeedTracking(DelayCovariance.Update(da, bs[0]).0, Covariance.Update(pa, bs[0]), bs[1..], d);
    }
  }

  /**
   Accumulators in lock-step finish alike: both trip the guard or neither
   does; on success the covariances are equal, avg and avg_dt both equal the
   plain average, the counts agree and the reset states are in lock-step.
   */
  lemma FixAgrees(da: DelayCovariance.DelayCovarianceMatrix, pa: Covariance.CovarianceMatrix)
    requires DelayCovariance.Valid(da) && Covariance.Valid(pa) && Tracking(da, pa)
    requires pa.phase.Accumulating? && pa.phase.count >= 2
    ensures da.phase.Accumulating? && da.phase.count >= 2
    ensures var (dr, ds) := DelayCovariance.Fix(da, DelayCovariance.None);
      var (pr, ps) := Covariance.Fix(pa);
      && (ds.Err? <==> ps.Err?)
      && (ds.Err? ==> ds.error == ps.error)
      && Tracking(dr, pr)
      && (ds.Ok? ==>
            && ds.value.cov == ps.value.cov
            && ds.value.avg == ps.value.avg
            && ds.value.avgDt == ps.value.avg
            && ds.value.count == ps.value.count)
  {
    var (dr, ds) := DelayCovariance.Fix(da, DelayCovariance.None);
    var (pr, ps) := Covariance.Fix(pa);
    var p := pa.phase;
    if ds.Ok? {
      var d := p.dim;
      var n := p.count as real;
      assert forall i, j :: 0 <= i < d && 0 <= j < d ==>
        ds.value.cov[i][j] == OnePass(p.outerSum[i][j], p.total[i], p.total[j], n);
      MatrixExt(ds.value.cov, ps.value.cov, d, d);
    }
  }

  /**
   End to end: for non-empty blocks, the delayed accumulator with dt = 0 and
   the plain accumulator, fed the same blocks from fresh, fix to the same
   covariance, average and count, and avg_dt equals avg.
   */
  lemma ZeroDelayIsPlain(typecode: Typecode, bs: seq<Batch>, d: nat)
    requires |bs| > 0 && AllWidth(bs, d) && NonEmptyBlocks(bs) && |AllRows(bs, d)| >= 2
    ensures var (da, o) := DelayCovariance.Feed(DelayCovariance.New(0, typecode), bs, d);
      var pa := Covariance.Feed(Covariance.New(typecode), bs, d);
      && o.Pass? && da.phase.Accumulating? && da.phase.count >= 2
      && pa.phase.Accumulating? && pa.phase.count >= 2
      && (DelayCovariance.Fix(da, DelayCovariance.None).1.Ok? <==> Covariance.Fix(pa).1.Ok?)
      && (Covariance.Fix(pa).1.Ok? ==>
            && DelayCovariance.Fix(da, DelayCovariance.None).1.value.cov == Covariance.Fix(pa).1.value.cov
            && DelayCovariance.Fix(da, DelayCovariance.None).1.value.avg == Covariance.Fix(pa).1.value.avg
            && DelayCovariance.Fix(da, DelayCovariance.None).1.value.avgDt == Covariance.Fix(pa).1.value.avg)
  {
    NewTracking(typecode);
    FeedTracking(DelayCovariance.New(0, typecode), Covariance.New(typecode), bs, d);
    var da := DelayCovariance.Feed(DelayCovariance.New(0, typecode), bs, d).0;
    var pa := Covariance.Feed(Covariance.New(typecode), bs, d);
    FixAgrees(da, pa);
  }

  /** The exception to lock-step: from fresh accumulators, an empty block
      makes both create their zeroed buffers; the delayed one then refuses it,
      the plain one adds nothing to its sums or count. */
  lemma EmptyBlockDiffers(typecode: Typecode, d: nat)
    ensures var x := Batch([], d, typecode);
      && DelayCovariance.Update(DelayCovariance.New(0, typecode), x)
         == (DelayCovariance.Prepared(DelayCovariance.New(0, typecode), x), Fail(BlockTooShort(0, 1)))
      && Covariance.Update(Covariance.New(typecode), x) == Covariance.InitInternals(Covariance.New(typecode), x)
  {
    var x := Batch([], d, typecode);
    var r := Covariance.Update(Covariance.New(typecode), x).phase;
    var z := Covariance.InitInternals(Covariance.New(typecode), x).phase;
    MatrixExt(r.outerSum, z.outerSum, d, d);
    assert r.total == z.total;
  }
}

# Streaming covariance accumulators of MDP, in Dafny

This project models the two streaming covariance accumulators of
`mdp/nodes/lcov.py` (Modular toolkit for Data Processing) and the round-off
guard they share, and proves what they compute.

- `CovarianceMatrix` collects batches of observations (rows). It keeps the
  running sum of outer products XᵀX, the running column sums and the row count.
  `fix` turns these into the unbiased covariance matrix, the mean and the
  count, then empties the accumulator.
- `DelayCovarianceMatrix` does the same for the pairs (x_k, x_{k+dt}) inside
  each block, for a time delay dt. It keeps a cross sum, a sum of the leading
  rows and a sum of the lagged rows. It refuses blocks shorter than dt + 1.
  Its `fix` can transform the covariance by a matrix A into A·cov·Aᵀ.
- `_check_roundoff` refuses to finish once the count reaches 1e13 for typecode
  'd' or 1e5 for typecode 'f'. Beyond that count, summed values have probably
  lost too much precision.

Each accumulator is an immutable value with two phases:

- `Empty`: no buffers, count 0.
- `Accumulating`: the running sums and the count.

`Update` and `Fix` are pure functions from state to state. `Fix` returns the
next state together with either the statistics or the round-off error.

Modules, one per concern:

| file | module | contents |
|---|---|---|
| `linalg.dfy` | `LinAlg` | vectors and matrices over `real`: sums, dot products, xᵀy, column sums, A·C·Aᵀ, and the algebra of these |
| `roundoff.dfy` | `Roundoff` | typecodes, the ceilings of `_limits`, the guard, the two error kinds |
| `batches.dfy` | `Batches` | a batch of rows with its width and typecode, and typecode inheritance |
| `estimators.dfy` | `Estimators` | reference definitions: column means and the two-pass sample (cross-)covariance, plus the running-sum form and its equivalence |
| `covariance.dfy` | `Covariance` | `CovarianceMatrix` |
| `delay_covariance.dfy` | `DelayCovariance` | `DelayCovarianceMatrix` |
| `lag_zero.dfy` | `LagZero` | the delayed accumulator with dt = 0 against the plain one |

The central results are stated against independent reference definitions:

- `Covariance.StreamedStatistics`: any stream of batches, once fixed, gives
  exactly the two-pass unbiased sample covariance and the column means of all
  the rows it saw.
- `DelayCovariance.StreamedLaggedStatistics`: the same for the delayed
  accumulator and the pairs inside each block. `BoundaryLoss` and
  `SplitMissesStraddlingPairs` say exactly which pairs are lost at block
  boundaries.
- `LagZero.ZeroDelayIsPlain`: with dt = 0 the two accumulators agree, as the
  docstring at lcov.py:134 says. The exception is a block with no rows: the
  delayed accumulator refuses it and the plain one adds nothing
  (`LagZero.EmptyBlockDiffers`).

`update` of the delayed accumulator creates missing buffers and settles the
typecode before it checks the block length (lcov.py:170-182). So a first,
refused call moves the accumulator from `Empty` to zeroed buffers.
`DelayCovariance.Update` states this through `Prepared`. The running sums are
untouched either way (`DelayCovariance.RejectedSummarizes`).

## Model

| member | source | states |
|---|---|---|
| Roundoff.CheckRoundoff | mdp/nodes/lcov.py:11-22 | the guard fails exactly for typecode 'd' with count at least 1e13 or typecode 'f' with count at least 1e5, never for any other typecode, and the failure carries the count and typecode |
| Batches.Inherit | mdp/nodes/lcov.py:62-64 | the accumulator's own typecode is kept when it is set; otherwise the batch's is taken; the result is unset only when both are |
| Batches.InheritSettled | mdp/nodes/lcov.py:158-160 | once the typecode is settled, inheriting again from any later batch keeps it |
| Covariance.New | mdp/nodes/lcov.py:40-54 | a fresh accumulator has no buffers (phase `Empty`) and the given typecode, and summarizes no observations |
| Roundoff.CheckRoundoffMonotone | mdp/nodes/lcov.py:13-22 | once the guard trips for a count, it trips for every larger count with the same typecode, so accumulating more never clears the warning |
| Covariance.InitInternals | mdp/nodes/lcov.py:56-71 | creating the buffers gives a valid state of the batch's width with a zero matrix sum, a zero vector sum and count 0, summarizing no observations, and inherits the typecode when it is unset |
| Covariance.Update | mdp/nodes/lcov.py:73-86 | entry (i, j) of the matrix sum grows by Σ_k x_k[i] x_k[j], entry j of the vector sum by Σ_k x_k[j], the count by the number of rows; buffers are created first when absent, and the typecode is inherited only when it was unset |
| Covariance.UpdateSummarizes | mdp/nodes/lcov.py:84-86 | if the state is XᵀX, the column sums and the count of the rows seen so far, after an update it is the same for those rows followed by the batch |
| Covariance.BatchSplitting | mdp/nodes/lcov.py:84-86 | updating with B1 then B2 leaves the same state as updating with B1 ++ B2 |
| Covariance.Feed | mdp/nodes/lcov.py:73-86 | after a sequence of batches the count is the old count plus the total number of rows |
| Covariance.FeedSummarizes | mdp/nodes/lcov.py:73-86 | after any sequence of batches the state is XᵀX, the column sums and the count of all the rows, in order |
| Covariance.Fix | mdp/nodes/lcov.py:88-116 | the guard runs on the count first and, if it trips, the accumulator is returned unchanged with the warning; otherwise each covariance entry is (S_ij − (s_i/n) s_j)/(n−1), the mean is s/n, the count n, the covariance is symmetric when S is, and the accumulator is Empty again with its typecode kept |
| Covariance.FinishSums | mdp/nodes/lcov.py:101-106 | S/(n−1) − s sᵀ/(n(n−1)) has the running-sum form (S_ij − (s_i/n) s_j)/(n−1) in every entry and is symmetric when S is; s/n has entries s_j/n |
| Covariance.FixIsSampleCovariance | mdp/nodes/lcov.py:88-116 | fixing a state that summarizes some rows gives their two-pass sample covariance Σ_k (x_k − x̄)(x_k − x̄)ᵀ/(n−1), their column means and their number |
| Covariance.StreamedStatistics | mdp/nodes/lcov.py:73-116 | for any batches fed to a fresh accumulator, fix fails exactly when the guard trips on the total row count, and otherwise returns the sample covariance and means of all rows, with a symmetric covariance |
| Covariance.FeedPhaseIgnoresTypecode | mdp/nodes/lcov.py:62-86 | with casting left out, the running sums never depend on the typecode |
| Covariance.FeedTypecode | mdp/nodes/lcov.py:62-64 | once set, the typecode is never changed by updates |
| Covariance.ResetReproduces | mdp/nodes/lcov.py:108-114 | after a successful fix, feeding the same batches again and fixing reproduces the first result and state exactly |
| Covariance.WorkedUpdate | mdp/nodes/lcov.py:84-86 | the batch [[1,2],[3,4],[5,6]] gives the sums [[35,44],[44,56]] and [9,12] and count 3 |
| Covariance.WorkedFix | mdp/nodes/lcov.py:101-106 | those sums fix to covariance [[4,4],[4,4]], mean [3,4] and count 3 |
| Covariance.WorkedExample | mdp/nodes/lcov.py:73-116 | a fresh 'd' accumulator fed [[1,2],[3,4],[5,6]] fixes to count 3, mean [3,4] and covariance [[4,4],[4,4]] |
| Estimators.OnePassEntry | mdp/nodes/lcov.py:101-104 | each entry of the two-pass sample cross-covariance equals the running-sum form computed from Σ x_k[i] y_k[j], Σ x_k[i], Σ y_k[j] and n |
| Estimators.SampleCovarianceOnePass | mdp/nodes/lcov.py:215-219 | the two-pass sample cross-covariance of paired rows is the running-sum matrix of their cross sum, sums and count |
| Estimators.UnbiasedRearrange | mdp/nodes/lcov.py:101-104 | the plain formula S/(n−1) − s_i s_j/(n(n−1)) equals the running-sum form |
| Estimators.DelayedRearrange | mdp/nodes/lcov.py:215-219 | the delayed formula (C − a b/n)/(n−1) equals the running-sum form |
| DelayCovariance.New | mdp/nodes/lcov.py:133-150 | a fresh accumulator has no buffers (phase `Empty`), the given dt and typecode, and summarizes no pairs |
| DelayCovariance.InitInternals | mdp/nodes/lcov.py:152-167 | creating the buffers gives a valid state of the batch's width with a zero cross sum, zero lead and lag sums and count 0, keeping dt |
| DelayCovariance.Update | mdp/nodes/lcov.py:169-190 | a block with fewer than dt + 1 rows is refused with its length and dt + 1, leaving the accumulator as buffer creation left it; otherwise the block is absorbed: the cross sum grows by Σ x_k x_{k+dt}ᵀ over the pairs in the block, the lead sum by the sum of rows [0, n−dt), the lag sum by that of rows [dt, n), and the count by n − dt |
| DelayCovariance.UpdateEntries | mdp/nodes/lcov.py:186-190 | the block total minus the last dt rows is the sum of the leading rows, the total minus the first dt rows is the sum of the lagged rows, and X[0:n−dt]ᵀ X[dt:n] is the sum over the pairs |
| DelayCovariance.RejectedSummarizes | mdp/nodes/lcov.py:169-182 | a refused block leaves the running sums summarizing the same pairs as before |
| DelayCovariance.AcceptedSummarizes | mdp/nodes/lcov.py:186-190 | an accepted block appends its leading rows and its lagged rows to the pairs the state summarizes |
| DelayCovariance.StraddlingPairs | mdp/nodes/lcov.py:186 | the pairs of x1 ++ x2 are those of x1, then the dt pairs (last dt rows of x1, first dt rows of x2), then those of x2 |
| DelayCovariance.SplitMissesStraddlingPairs | mdp/nodes/lcov.py:186-190 | updating with x1 then x2 summarizes only the pairs inside each block, updating with x1 ++ x2 also the dt straddling pairs, so the split stream counts dt pairs fewer |
| DelayCovariance.SplitSummary | mdp/nodes/lcov.py:186-190 | updating with x1 then x2 summarizes the pairs inside x1 followed by those inside x2 |
| DelayCovariance.ConcatSummary | mdp/nodes/lcov.py:186-190 | updating with x1 ++ x2 summarizes the pairs inside x1, the straddling pairs, then the pairs inside x2 |
| DelayCovariance.ZeroDelaySplitting | mdp/nodes/lcov.py:186-190 | with dt = 0, updating with two non-empty blocks one after the other leaves the same state as updating with their concatenation |
| DelayCovariance.AbsorbTwice | mdp/nodes/lcov.py:186-190 | with dt = 0, absorbing x1 then x2 gives the same sums and count as absorbing x1 ++ x2 |
| DelayCovariance.LagRows | mdp/nodes/lcov.py:186 | over a sequence of blocks there are as many lagged rows as leading rows |
| DelayCovariance.BoundaryLoss | mdp/nodes/lcov.py:178-190 | over a sequence of blocks the pairs plus dt rows per block make up all the rows |
| DelayCovariance.Feed | mdp/nodes/lcov.py:169-190 | feeding blocks in order succeeds exactly when every block has at least dt + 1 rows, and then adds the number of pairs to the count; a failure is the refusal (length, dt + 1) of a block shorter than dt + 1 all of whose predecessors were long enough |
| DelayCovariance.FeedStopsAtRefusal | mdp/nodes/lcov.py:178-182 | the blocks after the first refused one change nothing: feeding all blocks ends exactly as feeding them up to the refused one |
| DelayCovariance.FeedSummarizes | mdp/nodes/lcov.py:169-190 | after blocks that are all long enough, the state summarizes the leading rows and the lagged rows of all blocks, in order |
| DelayCovariance.Fix | mdp/nodes/lcov.py:192-234 | the guard runs first and, if it trips, the accumulator is returned unchanged; otherwise the covariance has entries (C_ij − (a_i/n) b_j)/(n−1), transformed to A·cov·Aᵀ when A is given, the means are a/n and b/n, the count n, and the accumulator is Empty again with its dt and typecode |
| DelayCovariance.FinishCross | mdp/nodes/lcov.py:215-219 | (C − a bᵀ/n)/(n−1) is the running-sum covariance matrix of C, a, b and n |
| DelayCovariance.FixTransforms | mdp/nodes/lcov.py:221-222 | fixing with A gives A·cov·Aᵀ of the untransformed covariance and the same means, count and next state |
| DelayCovariance.FixIdentity | mdp/nodes/lcov.py:221-222 | fixing with the identity matrix gives exactly what fixing without A gives |
| DelayCovariance.FixIsLaggedCovariance | mdp/nodes/lcov.py:192-226 | fixing a state that summarizes pairs (lead_k, lag_k) gives their two-pass sample cross-covariance, the means of the leading and of the lagged rows, and the number of pairs |
| DelayCovariance.StreamedLaggedStatistics | mdp/nodes/lcov.py:169-234 | for blocks that are all long enough, fed to a fresh accumulator, the count is the row total minus dt per block, and fix fails exactly when the guard trips or returns the sample cross-covariance and means of the in-block pairs |
| DelayCovariance.RejectionExample | mdp/nodes/lcov.py:178-182 | with dt = 3 a 5-row block adds 2 pairs and a following 2-row block is refused ("length 2, at least 4"), the state unchanged |
| LagZero.NewTracking | mdp/nodes/lcov.py:133-150 | fresh accumulators, delayed with dt = 0 and plain, hold the same sums |
| LagZero.ZeroDelayRows | mdp/nodes/lcov.py:186 | with dt = 0 the leading and lagged rows of a block are the block |
| LagZero.UpdateTracking | mdp/nodes/lcov.py:169-190 | with dt = 0 a non-empty block is accepted and keeps the cross sum equal to the plain matrix sum and both lead and lag sums equal to the plain vector sum |
| LagZero.FeedTracking | mdp/nodes/lcov.py:169-190 | the same holds after any sequence of non-empty blocks |
| LagZero.FixAgrees | mdp/nodes/lcov.py:215-226 | accumulators in lock-step trip the guard together, and otherwise give the same covariance and count with avg and avg_dt both equal to the plain mean |
| LagZero.ZeroDelayIsPlain | mdp/nodes/lcov.py:133-135 | with dt = 0 and non-empty blocks, the delayed accumulator gives the plain accumulator's covariance and mean, and avg_dt equals avg |
| LagZero.EmptyBlockDiffers | mdp/nodes/lcov.py:170-182 | from fresh accumulators with dt = 0, an empty block makes both create their zeroed buffers and settle the typecode; the delayed one then refuses it with (0, 1), and the plain one ends exactly at its freshly created buffers, adding nothing to the sums or the count |
| LinAlg.IdentityTransform | mdp/nodes/lcov.py:221-222 | I·C·Iᵀ = C for every square C |
| LinAlg.GramSymmetric | mdp/nodes/lcov.py:84 | XᵀX is symmetric |
| LinAlg.CrossAppend | mdp/nodes/lcov.py:84 | (X1 ++ X2)ᵀ(Y1 ++ Y2) = X1ᵀY1 + X2ᵀY2 |

## Left out

- Floating point. All arithmetic is over exact `real`, so round-off itself is not modelled. The guard is the integer threshold test on the count. Casting the count to 'd' or 'f' (`utils.scast`) is exact below the ceilings (1e13 < 2^53 and 1e5 < 2^24) and monotone above them, so testing the exact count gives the same verdict.
- Typecode inference and casting (`x.typecode()`, `utils.refcast`). The typecode is an opaque string, "" while unset, inherited from the first batch and never used to change values.
- Integer typecodes. With an integer typecode the source's divisions would be integer divisions. The model divides over `real` whatever the typecode.
- Covariance.Update: requires a well-formed batch of the accumulator's width (`Accepts`). The source has no dimension check (lcov.py:77), so a mismatch is left as the caller's error rather than modelled as a failure.
- DelayCovariance.Update: requires a batch of the accumulator's width, for the same reason.
- Covariance.Fix: requires at least two observations. The source divides by n − 1 without a check.
- DelayCovariance.Fix: requires at least two pairs, for the same reason. When A is given, it also requires A to have as many columns as the input dimension.
- Covariance.BatchSplitting: requires both batches to share one typecode. Concatenating arrays of different typecodes upcasts, so an accumulator with no typecode could settle a different typecode under one update of B1 ++ B2 than under two updates; `Batches.Concat` does not model the upcast.
- DelayCovariance.SplitMissesStraddlingPairs: requires both blocks to share one typecode, for the same reason.
- DelayCovariance.ConcatSummary: requires both blocks to share one typecode, for the same reason.
- DelayCovariance.ZeroDelaySplitting: requires both blocks to share one typecode, for the same reason.
- Negative or non-integer dt (`int(dt)` at lcov.py:142). dt is a `nat`.
- In-place buffer reuse and aliasing: `fix` hands out the arrays it then forgets. With immutable values this is not observable.
- Warning and exception machinery. `MDPWarning` and `MDPException` become the `RoundoffWarning` and `BlockTooShort` error values; their message texts are not modelled.
- Feeding sequences of batches (`Covariance.Feed`, `DelayCovariance.Feed`) stands for the caller's loop. For the delayed accumulator it stops at the first refused block, as an exception would.
- Statistical claims (convergence, unbiasedness in expectation). These are probabilistic. The model proves equality with the sample covariance of the data instead.
- mdp/test/__init__.py, the test runner, is not part of this model.

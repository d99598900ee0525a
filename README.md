# MLBatLife: a Dafny model of the battery State-of-Health predictor

MLBatLife predicts how the State of Health (SOH: remaining capacity over
initial capacity) of a home battery evolves, day by day, from a per-minute
power profile (demand minus photovoltaic generation, in watts), an
operational strategy (0: Greedy, 1: FeedInDamp), the nominal capacity of the
battery, and a trained random-forest model of daily capacity loss.

This project models the two numeric routines of `MLBatLife_Pred.py`, with
exact `real` and `int` arithmetic:

- `extract_features` (module `Features`, file `extract_features.dfy`): the
  profile is cut into consecutive 1440-sample days; a trailing partial day is
  dropped. For each day the method fills a row of `bf` with T1 (mean power)
  and T4 (mean absolute power), and fills `day` with the first timestamp of
  the block divided by 1440. The method works over arrays allocated inside
  it, as the source does. When the time column is too short for a block's
  first timestamp, the source raises an index error; the model returns
  `IndexError` with that index.
- `estimate_soh` (module `SohEstimation`, file `estimate_soh.dfy`): the
  design matrix `[SOH0, T1*Qtr/Qnom, strategy, T4*Qtr/Qnom, day]` is built
  (`DesignMatrix`). Then, for each day, the running capacity `Q0` is
  written into column 0 of that day's row and recorded as the day's output.
  The row is normalised elementwise as `(x - mu) / sigma`, the estimator
  predicts the day's loss, and the loss is subtracted. The output for day i
  is therefore the capacity at the START of day i, and `Qhat[0] = 1`. The
  docstrings (lines 22-24 and 97-98) say "at the end of each day"; the model
  follows the code. No value is clamped.

The trained model is a parameter: `Bundle(predict, mu, sigma, qtr)`.
`predict` is an arbitrary total function from the normalised 5-vector to a
loss. It stands for the pickled random forest, and the other three fields
stand for the normalisation statistics and the training capacity loaded with
it.

The specification of the output is the predicate `IsTrajectory`. It says
there is one value per day, the first value is 1, and each next value is the
previous one minus the loss predicted from the previous day's normalised
row. The lemmas show that this recurrence has exactly one solution. They
also give its closed form for a constant estimator (`1 - i*c`), its
cumulative-loss form, and its monotonicity when losses are non-negative.
Finally, they show that day i's value depends only on earlier days.

The day value is a true division (line 81), not a floor division. It is a
whole number only when the block's first timestamp is a multiple of 1440.
`DayValueFloor` relates it to the whole-day index.

## Model

| member | source | states |
|---|---|---|
| `Features.SegmentCount` | MLBatLife_Pred.py:70-72 | the number of segments is the largest k with k*1440 <= len(input_prof): the count is truncated, not rounded |
| `Features.Block` | MLBatLife_Pred.py:76-78 | the slice for segment k has exactly 1440 samples |
| `Features.ExtractFeatures` | MLBatLife_Pred.py:57-82 | succeeds exactly when every block's first timestamp indexes `t`. On success: `SegmentCount(len(input_prof))` rows, each row k holding the mean and the mean magnitude of samples [1440k, 1440k+1440) and `t[1440k]/1440`, in freshly allocated arrays. On failure: the index error is at the smallest multiple of 1440 that is >= len(t) |
| `Features.SegmentCountTruncates` | MLBatLife_Pred.py:70-75 | a profile of 1440k + r samples (r < 1440) has exactly k segments; in particular, fewer than 1440 samples give zero segments |
| `Features.BlocksTileProfile` | MLBatLife_Pred.py:72-78 | the blocks are consecutive, disjoint and in input order: concatenated, they are exactly the profile up to the last whole day |
| `Features.SumMagnitudesBound` | MLBatLife_Pred.py:79-80 | the sum of magnitudes is non-negative and at least the magnitude of the sum |
| `Features.MeanMagnitudeBounds` | MLBatLife_Pred.py:79-80 | T4 >= 0 and T4 >= abs(T1) for every block |
| `Features.ConstantBlockFeatures` | MLBatLife_Pred.py:79-80 | a block of constant power x has T1 = x and T4 = abs(x), so an all-zero day gives features (0, 0) |
| `Features.DayValueFloor` | MLBatLife_Pred.py:81 | the day value's floor is `t0 // 1440`, and the day value is whole exactly when t0 is a multiple of 1440 |
| `Features.ContiguousDayValues` | MLBatLife_Pred.py:81 | with a contiguous one-minute time column, the day value of block k is the first block's day value plus k |
| `SohEstimation.DesignMatrix` | MLBatLife_Pred.py:113-117 | the n x 5 matrix has column 0 zero and columns 1-4 equal to T1*Qtr/Qnom, the strategy, T4*Qtr/Qnom and the day value of each row |
| `SohEstimation.EstimateSoh` | MLBatLife_Pred.py:86-130 | returns a freshly allocated vector of `bf.shape[0]` values. With at least one day, the values satisfy `IsTrajectory`: the first is 1, and value i+1 is value i minus the estimator's output on day i's normalised row, with value i written into column 0 of that row. Qnom must be non-zero for every input, and the mu/sigma conditions apply only when there is at least one day |
| `SohEstimation.Trajectory` | MLBatLife_Pred.py:119-128 | the capacity rolled forward from 1, day by day, satisfies the trajectory recurrence |
| `SohEstimation.TrajectoryAt` | MLBatLife_Pred.py:119-128 | every solution of the recurrence takes, on day i, the capacity rolled forward from 1 over days 0..i-1 |
| `SohEstimation.TrajectoryUnique` | MLBatLife_Pred.py:119-128 | the recurrence has exactly one solution for given inputs, so the output is deterministic |
| `SohEstimation.ConstantLossAt` | MLBatLife_Pred.py:119-128 | with an estimator that always returns c, the value for day i is 1 - i*c |
| `SohEstimation.ConstantLossTrajectory` | MLBatLife_Pred.py:119-128 | with a constant estimator c, the whole output is 1 - i*c for every i; it is not clamped to [0, 1] |
| `SohEstimation.CumulativeLoss` | MLBatLife_Pred.py:119-128 | the value for day i is 1 minus the sum of the losses predicted for days 0..i-1 |
| `SohEstimation.NonNegativeLossAt` | MLBatLife_Pred.py:119-128 | if the estimator never predicts a negative loss, a later value is never above an earlier one, and none exceeds 1 |
| `SohEstimation.NonNegativeLossNonIncreasing` | MLBatLife_Pred.py:119-128 | with non-negative losses, the whole output is non-increasing and bounded by 1 |
| `SohEstimation.EarlierDaysOnly` | MLBatLife_Pred.py:119-128 | two runs whose first i days agree also agree on their first i+1 values: day i's value depends only on earlier days |
| `SohEstimation.NormalizeRoundTrip` | MLBatLife_Pred.py:125 | normalisation `(x - mu) / sigma` is undone by `z * sigma + mu`, so it loses no information |
| `SohEstimation.RescaleNominalCapacity` | MLBatLife_Pred.py:114-117 | multiplying Qnom by s divides the T1 and T4 columns by s; column 0, the strategy and the day stay unchanged |
| `SohEstimation.IdleTwoDays` | MLBatLife_Pred.py:119-128 | two idle days, strategy 0, Qnom = Qtr = 5 and an estimator returning 0.01 give the output [1.0, 0.99] |

## Left out

- `read_csv` (MLBatLife_Pred.py:41-52): pandas file input. The time and power columns are parameters. Timestamps are integers of minutes, and power values are reals.
- Loading the model bundle from `MLBatLife_Model.pkl` (MLBatLife_Pred.py:109-111): this is file input. `model`, `mu`, `sigma` and `Qtr` are passed as the `Bundle` parameter.
- The internals of `model.predict` (MLBatLife_Pred.py:127): a trained scikit-learn random forest. The model treats it as an arbitrary total function of the normalised 5-vector.
- Floating-point rounding, including in `int(n/ls)`, and numpy shape details: `reshape((1,-1))`, `Q0` becoming a one-element array after line 128, and broadcasting of a scalar `mu`/`sigma` or a length-1 `day`. The model uses exact reals and scalars, and requires `day` to have one entry per row of `bf`.
- SohEstimation.EstimateSoh: requires Qnom != 0 for every input, because the source divides by Qnom at line 114 even when `bf` has no rows. It requires five-entry mu and sigma with every sigma entry non-zero only when `bf` has at least one row: sigma is used only inside the loop (line 125), so with no rows the source returns an empty vector whatever mu and sigma are, and so does the model. With a zero Qnom, or a zero sigma entry on a run with at least one day, the source divides by zero. That gives IEEE infinities or NaN, or a ZeroDivisionError, none of which exact reals can represent.
- Features.ExtractFeatures and SohEstimation.EstimateSoh: do not model the zeros that `np.zeros` places in `bf`, `day` and `Qhat`, because every entry is written before it is returned. `DesignMatrix` does model the zero column 0 of `X`.
- The strategy label is not validated by the source, and it is not validated here either: any integer is carried into column 2.
- Using_MLBatLife_Pred.py: a driver script that hard-codes inputs and plots the result with matplotlib. It has no logic of its own.

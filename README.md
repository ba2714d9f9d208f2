# imu-allan: Allan variance engines, modelled in Dafny

This project models the numerical core of imu-allan. The core computes the
Allan variance of inertial sensor logs and defines the residual of the
five-term noise-model fit.

Both engines run the same pipeline. `imu::AllanGyr` handles gyroscope rates in degree/hour. `imu::AllanAcc` handles accelerations in m/s^2. They differ in their push methods, and only the gyroscope engine has `getAvgValue`.

- **Sample store.** Samples are appended with a unit scaling. A separate counter `numData` tracks their number.
- **Thetas.** The samples are integrated into "thetas": each theta is the running sum divided by the sampling frequency.
- **Strides.** A set of cluster factors ("strides") is picked:
  - a bit-shift loop finds `max_stride`, the largest power of two not above `numData / 2`;
  - `numCluster` log-spaced points from 1 to (about) `max_stride` are rounded up;
  - consecutive duplicates are dropped into a zero-filled buffer of `numCluster` slots.
- **Variance.** The overlapping Allan variance is computed at each stride: the sum of squared second differences of the thetas, divided by `2 (factor * period)^2 (numData - 2 factor)`.
- **Helpers.** Cluster times, deviations (square roots of a recomputed variance), the mean sample spacing, and (gyroscope only) the mean value.

The noise-model residual `FitAllanGyr::AllanSigmaError` evaluates
`sigma^2(tau) = Q^2/tau^2 + N^2/tau + B^2 + K^2 tau + R^2 tau^2`. It returns the difference between the base-10 logarithm of that value and the logarithm of one observed variance.

Layout:

- `arith.dfy` (`Arith`): squares, products and quotients of reals, with their sign and order facts.
- `strides.dfy` (`Strides`): the power-of-two loop, `ceil`, the de-duplication and their properties.
- `variance.dfy` (`Variance`): thetas, the variance estimator, cluster times, deviations, the mean spacing and the mean value. Each is a loop proved against a specification function, with lemmas about those functions.
- `units.dfy` (`Units`): the unit constants 57.3 and 3600.
- `gyr.dfy` (`GyrLib`): class `AllanGyr`, whose methods update its fields as the C++ members do.
- `acc.dfy` (`AccLib`): class `AllanAcc`, the same for accelerometers.
- `fit.dfy` (`FitAllanGyr`): `CalcSigma2`, `CalcLog10` and `Evaluate` (operator()).

Design choices:

- Doubles are modelled as `real`.
- Apart from the push methods and the gyroscope's `getAvgValue` (`allan_gyr.cpp:251-262`, which `AllanAcc` does not have), the two engines share their code line for line. Both classes delegate their loops to the shared methods in `Strides` and `Variance`.
- `getFreq` is the plain getter `GetFreq` in both classes. It has no contract beyond returning the field `freq`, so it has no row below.
- The `AllanSigmaError` constructor (`fitallan_gyr.h:15-18`) is the datatype constructor. It stores `sigma2` and `tau` unchanged.

The stride bound. `calcVariance` needs `numData - 2 factor > 0` for every factor (`allan_gyr.cpp:124-125`): it is the window count and a factor of the divisor. The code does not guarantee it.

- The shift loop picks the largest power of two "less than or equal to (numdata/2)" (`allan_gyr.cpp:161`). That bound only gives `2 max_stride <= numData`. When `numData` is twice a power of two, `max_stride` is exactly `numData / 2` (lemma `TopStrideCanFillWindow`). A factor equal to `max_stride` then leaves no window, and `calcVariance` computes 0/0.
- The last log-spaced point is meant to be `max_stride` (comment at `allan_gyr.cpp:232`). `getLogSpace` takes its end exponent `log10(max_stride)` as a `float`, so `pow(10, b)` can land just above `max_stride`, and `ceil` then gives `max_stride + 1`. For `numData` equal to `2^(k+1)` or `2^(k+1) + 1` that factor gives a negative window count (lemma `TopPointAboveStride`). The loop then adds nothing, and `calcVariance` divides 0 by a negative number.

The model follows the code: `Calc` takes the needed bound on the rounded points as a precondition (`StridesFit`).

## Model

| member | source | states |
|---|---|---|
| Strides.MaxStride | imu-allan/src/gyr_lib/allan_gyr.cpp:161-170 | The shift loop's `max_stride` is a power of two and equals the largest power of two not above `numData / 2`. It is 1 when `numData / 2 <= 1`; otherwise `max_stride <= numData / 2 < 2 max_stride`. |
| Strides.LargestPow2Bounds | imu-allan/src/gyr_lib/allan_gyr.cpp:161-170 | The chosen stride is a power of two, is 1 when the half count is at most 1, and otherwise lies in `(h/2, h]` for half count `h`. |
| Strides.LargestPow2IsLargest | imu-allan/src/gyr_lib/allan_gyr.cpp:161 | No power of two that is at most the half count exceeds the chosen stride. |
| Strides.LargestPow2ByBitLength | imu-allan/src/gyr_lib/allan_gyr.cpp:165-170 | The loop runs once per binary digit of `numData / 2`. The stride is 2 to the power (digit count - 1). |
| Strides.LargestPow2OfPow2 | imu-allan/src/gyr_lib/allan_gyr.cpp:161-170 | For a half count that is itself a power of two, the stride equals the half count. |
| Strides.TopStrideCanFillWindow | imu-allan/src/gyr_lib/allan_gyr.cpp:162-170 | For `numData = 2^(k+1)`, `2 max_stride == numData`. The bound is not strict. |
| Strides.Ceil | imu-allan/src/gyr_lib/allan_gyr.cpp:192 | `ceil(x)` is the integer `c` with `x <= c < x + 1`. |
| Strides.CeilMonotone | imu-allan/src/gyr_lib/allan_gyr.cpp:192 | Rounding up preserves order. |
| Strides.CeilInPlace | imu-allan/src/gyr_lib/allan_gyr.cpp:189-193 | Every slot of `avgFactors` is replaced by its ceiling. |
| Strides.DedupFactors | imu-allan/src/gyr_lib/allan_gyr.cpp:195-211 | The buffer has `numCluster` slots. Its first `numFactors` entries are the rounded values with consecutive repeats dropped, and the rest stay 0. |
| Strides.SelectFactors | imu-allan/src/gyr_lib/allan_gyr.cpp:189-211 | `1 <= numFactors <= numCluster`. `factors[0]` is the first rounded point. The kept prefix is the de-duplication of the rounded points, and the tail is zero. Every kept value is a rounded point. For non-decreasing points the prefix is strictly increasing. |
| Strides.KeptShape | imu-allan/src/gyr_lib/allan_gyr.cpp:197-209 | At least one and at most all values are kept. The first kept value is the first rounded value, and the last is the last. |
| Strides.KeptValues | imu-allan/src/gyr_lib/allan_gyr.cpp:204-208 | A value is kept if and only if it occurs among the rounded values. |
| Strides.KeptNoAdjacentRepeats | imu-allan/src/gyr_lib/allan_gyr.cpp:204 | No two consecutive kept values are equal. |
| Strides.KeptStrictlyIncreasing | imu-allan/src/gyr_lib/allan_gyr.cpp:200-209 | For sorted rounded values the kept values are strictly increasing. |
| Strides.DedupComparesAgainstKept | imu-allan/src/gyr_lib/allan_gyr.cpp:204 | For every input, comparing with the previous rounded value keeps exactly what comparing with the last kept value keeps. |
| Strides.CeiledSorted | imu-allan/src/gyr_lib/allan_gyr.cpp:189-193 | Rounding up a non-decreasing sequence gives a sorted sequence. |
| Strides.SelectedStridesInRange | imu-allan/src/gyr_lib/allan_gyr.cpp:186-211 | For exact-arithmetic points that start at 1, never decrease and stay at or below `max_stride`: the kept factors start at 1, are strictly increasing and lie in `[1, max_stride]`. |
| Strides.SelectedStridesAtMostHalf | imu-allan/src/gyr_lib/allan_gyr.cpp:159-211 | For such exact-arithmetic points, every kept factor satisfies `2 factor <= numData`. |
| Strides.TopPointAboveStride | imu-allan/src/gyr_lib/allan_gyr.cpp:218-225 | A last point above `max_stride` by less than 1, which the float end exponent allows, rounds to `max_stride + 1`. For `numData` equal to `2^(k+1)` or `2^(k+1) + 1` that factor leaves a negative window count. |
| Variance.CalcThetas | imu-allan/src/gyr_lib/allan_gyr.cpp:145-157 | There is one theta per sample, and `thetas[i] = (w[0] + ... + w[i]) / freq`. |
| Variance.ThetasRecoverSamples | imu-allan/src/gyr_lib/allan_gyr.cpp:150-155 | Consecutive thetas differ by `w[i] / freq`, so the integration loses no sample. |
| Variance.SumSq | imu-allan/src/gyr_lib/allan_gyr.cpp:127-131 | The accumulated sum of squared second differences is non-negative. |
| Variance.DivisorPositive | imu-allan/src/gyr_lib/allan_gyr.cpp:123-124 | `2 (period factor)^2 (numData - 2 factor)` is positive when `period != 0`, `factor >= 1` and `2 factor < numData`. |
| Variance.AllanVar | imu-allan/src/gyr_lib/allan_gyr.cpp:120-136 | The Allan variance at one stride is non-negative. |
| Variance.CalcVariance | imu-allan/src/gyr_lib/allan_gyr.cpp:115-143 | There is one entry per kept factor. Entry `i` is the Allan variance at stride `factors[i]`, and it is non-negative. Every window index `k`, `k + factor`, `k + 2 factor` stays below `numData`. |
| Variance.SumSqIgnoresLinearTrend | imu-allan/src/gyr_lib/allan_gyr.cpp:127-131 | Adding `a + b k` to every theta leaves the sum of squared second differences unchanged. |
| Variance.AllanVarIgnoresBias | imu-allan/src/gyr_lib/allan_gyr.cpp:115-157 | A constant bias added to every sample leaves the Allan variance at every stride unchanged. |
| Variance.LinearThetasHaveZeroSumSq | imu-allan/src/gyr_lib/allan_gyr.cpp:127-131 | Thetas that grow linearly (a constant rate) give a zero sum of squares. |
| Variance.ClusterTimes | imu-allan/src/gyr_lib/allan_gyr.cpp:95-107 | There are `numFactors` times, with `time[i] = period * factors[i]`. They are strictly increasing for a positive period and strictly increasing factors. |
| Variance.Deviations | imu-allan/src/gyr_lib/allan_gyr.cpp:86-92 | There is one square root per variance, in order. For non-negative variances and a true square root, each deviation squares back to its variance. |
| Variance.StepsTelescope | imu-allan/src/gyr_lib/allan_gyr.cpp:241-247 | The sum of consecutive time differences is the last time minus the first. |
| Variance.AvgDt | imu-allan/src/gyr_lib/allan_gyr.cpp:235-249 | The mean spacing is the sum of the differences over `n - 1`, which is `(t[n-1] - t[0]) / (n - 1)`. |
| Variance.UniformSpacingAvgDt | imu-allan/src/gyr_lib/allan_gyr.cpp:235-249 | For evenly spaced timestamps the mean spacing is the spacing. |
| Variance.AvgValue | imu-allan/src/gyr_lib/allan_gyr.cpp:251-262 | The mean is the sum over the count, and equals the common value of a constant series. |
| Variance.SumOfConstant | imu-allan/src/gyr_lib/allan_gyr.cpp:254-261 | The sum of `n` copies of `c` is `n c`. |
| GyrLib.AllanGyr.constructor | imu-allan/src/gyr_lib/allan_gyr.cpp:3-4 | The store starts empty with `numData = 0`, so `numData == |rawData|` holds. `numCluster` is `maxCluster`. |
| GyrLib.AllanGyr.PushRadPerSec | imu-allan/src/gyr_lib/allan_gyr.cpp:17-21 | Exactly one sample `(data * 57.3 * 3600, time)` is appended at the end. `numData` goes up by 1, and the counter invariant is kept. |
| GyrLib.AllanGyr.PushDegreePerSec | imu-allan/src/gyr_lib/allan_gyr.cpp:23-27 | Exactly one sample `(data * 3600, time)` is appended. `numData` goes up by 1, and the invariant is kept. |
| GyrLib.AllanGyr.PushDegreePerHou | imu-allan/src/gyr_lib/allan_gyr.cpp:29-33 | Exactly one sample `(data, time)` is appended. `numData` goes up by 1, and the invariant is kept. |
| GyrLib.AllanGyr.Calc | imu-allan/src/gyr_lib/allan_gyr.cpp:35-72 | The samples and `numData` are unchanged, and `freq` is stored. The thetas are the prefix sums over `freq`. The factors are the de-duplicated rounded points in a zero-padded `numCluster` buffer, each in `[1, numData/2)`. The stored variances are the Allan variances at those factors, and are non-negative. |
| GyrLib.AllanGyr.GetVariance | imu-allan/src/gyr_lib/allan_gyr.cpp:74-78 | After a calc, it returns `numFactors` non-negative variances. |
| GyrLib.AllanGyr.GetDeviation | imu-allan/src/gyr_lib/allan_gyr.cpp:80-93 | It recomputes the variances at the given period and takes one square root each. At the calc's period these are the roots of the stored variances. |
| GyrLib.AllanGyr.GetTimes | imu-allan/src/gyr_lib/allan_gyr.cpp:95-107 | There are `numFactors` entries, with `time[i] = period * mFactors[i]`. |
| GyrLib.AllanGyr.GetFactors | imu-allan/src/gyr_lib/allan_gyr.cpp:109-113 | Every kept factor leaves at least one window. |
| GyrLib.AllanGyr.CalcVariance | imu-allan/src/gyr_lib/allan_gyr.cpp:115-143 | There are `numFactors` entries. Each is the Allan variance of the stored thetas at its factor, and is non-negative. |
| GyrLib.AllanGyr.CalcThetas | imu-allan/src/gyr_lib/allan_gyr.cpp:145-157 | There is one theta per stored sample, each the prefix sum of the rates over `freq`. |
| GyrLib.AllanGyr.InitStrides | imu-allan/src/gyr_lib/allan_gyr.cpp:159-215 | `1 <= numFactors <= numCluster`. `mFactors` holds the de-duplicated rounded points for `max_stride`, zero-padded to `numCluster`. For non-decreasing points the prefix is strictly increasing. |
| GyrLib.AllanGyr.GetAvgDt | imu-allan/src/gyr_lib/allan_gyr.cpp:235-249 | It returns `(t[n-1] - t[0]) / (n - 1)`. |
| GyrLib.AllanGyr.GetAvgValue | imu-allan/src/gyr_lib/allan_gyr.cpp:251-262 | It returns the mean rate, which is the common value for a constant series. |
| GyrLib.CalcTwice | imu-allan/src/gyr_lib/allan_gyr.cpp:35-72 | A second calc with the same inputs stores the same factors and variances. |
| AccLib.AllanAcc.constructor | imu-allan/src/acc_lib/allan_acc.cpp:3-4 | The store starts empty with `numData = 0`, and `numCluster` is `maxCluster`. |
| AccLib.AllanAcc.PushRadPerSec | imu-allan/src/acc_lib/allan_acc.cpp:17-21 | Exactly one sample `(data * 57.3 * 3600, time)` is appended: gyroscope scaling, as written. `numData` goes up by 1. |
| AccLib.AllanAcc.PushDegreePerSec | imu-allan/src/acc_lib/allan_acc.cpp:23-27 | Exactly one sample `(data * 3600, time)` is appended, as written. `numData` goes up by 1. |
| AccLib.AllanAcc.PushMPerSec2 | imu-allan/src/acc_lib/allan_acc.cpp:29-33 | Exactly one sample `(data, time)` is appended. `numData` goes up by 1. |
| AccLib.AllanAcc.Calc | imu-allan/src/acc_lib/allan_acc.cpp:35-72 | The same as the gyroscope calc, over accelerations. |
| AccLib.AllanAcc.GetVariance | imu-allan/src/acc_lib/allan_acc.cpp:74-78 | After a calc, it returns `numFactors` non-negative variances. |
| AccLib.AllanAcc.GetDeviation | imu-allan/src/acc_lib/allan_acc.cpp:80-93 | It recomputes the variances at the given period and takes one square root each. At the calc's period these are the roots of the stored variances. |
| AccLib.AllanAcc.GetTimes | imu-allan/src/acc_lib/allan_acc.cpp:95-107 | There are `numFactors` entries, with `time[i] = period * mFactors[i]`. |
| AccLib.AllanAcc.GetFactors | imu-allan/src/acc_lib/allan_acc.cpp:109-113 | Every kept factor leaves at least one window. |
| AccLib.AllanAcc.CalcVariance | imu-allan/src/acc_lib/allan_acc.cpp:121-148 | There are `numFactors` non-negative entries, each the Allan variance at its factor. |
| AccLib.AllanAcc.CalcThetas | imu-allan/src/acc_lib/allan_acc.cpp:150-162 | There is one theta per sample, each the prefix sum of the accelerations over `freq`. |
| AccLib.AllanAcc.InitStrides | imu-allan/src/acc_lib/allan_acc.cpp:164-217 | `1 <= numFactors <= numCluster`. The de-duplicated rounded points are zero-padded to `numCluster`. For non-decreasing points the prefix is strictly increasing. |
| AccLib.AllanAcc.GetAvgDt | imu-allan/src/acc_lib/allan_acc.cpp:237-251 | It returns `(t[n-1] - t[0]) / (n - 1)`. |
| AccLib.CalcTwice | imu-allan/src/acc_lib/allan_acc.cpp:35-72 | A second calc with the same inputs stores the same factors and variances. |
| FitAllanGyr.Evaluate | imu-allan/src/gyr_lib/fitallan_gyr.h:38-54 | operator() always returns true. |
| FitAllanGyr.Sigma2AtLeastBias | imu-allan/src/gyr_lib/fitallan_gyr.h:26-36 | For `tau > 0` the model variance is at least `B^2`, so it is non-negative. |
| FitAllanGyr.BiasOnlyIsFlat | imu-allan/src/gyr_lib/fitallan_gyr.h:30-34 | With `Q = N = K = R = 0` the model is `B^2` at every period. |
| FitAllanGyr.Sigma2IgnoresSigns | imu-allan/src/gyr_lib/fitallan_gyr.h:30-34 | Negating any of the five parameters leaves the model variance unchanged. |
| FitAllanGyr.Log10Order | imu-allan/src/gyr_lib/fitallan_gyr.h:20-24 | For a logarithm, `log(10) > 0`, and `calcLog10` preserves and reflects order and equality on positive arguments. |
| FitAllanGyr.ResidualZeroAtObservation | imu-allan/src/gyr_lib/fitallan_gyr.h:41-50 | The residual is 0 when the model variance from `_param[0..4]` equals the stored `sigma2`. |
| FitAllanGyr.ResidualSign | imu-allan/src/gyr_lib/fitallan_gyr.h:41-50 | For positive variances, the residual is positive, zero or negative exactly when the model variance exceeds, equals or falls below the observation. |

## Left out

- Logging is not modelled. This includes the "Too few number" and "Too short time" checks in `calc`, which only print (`allan_gyr.cpp:37-57`, `allan_acc.cpp:37-57`).
- `getLogSpace` (`allan_gyr.cpp:217-233`, `allan_acc.cpp:219-235`) is replaced by an input `logSpace` that maps `max_stride` to the points. Its `pow`/`log10` arithmetic, and the division by zero in its exponent when `numCluster == 1`, are floating-point behaviour.
- `getAvgFreq` and `getAvgPeriod` are not part of this model. Their values are the inputs `avgFreq`/`avgPeriod` (and `period` for the getters).
- `sqrt` in `getDeviation` and `log` in `calcLog10` are function parameters. Their properties are assumed only where a lemma names them (`IsSquareRoot`, `IsLogarithm`).
- IEEE double rounding, NaN and infinity are not modelled. Values are reals, so division by a zero frequency or period is excluded by preconditions rather than yielding inf or NaN.
- Strides.SelectedStridesInRange: holds for the exact-arithmetic log space only. The program's float end exponent can push the last point above `max_stride` (`allan_gyr.cpp:218-225`), so this lemma does not bound the program's factors.
- Strides.SelectedStridesAtMostHalf: holds for the exact-arithmetic log space only, for the same reason. A top factor of `max_stride + 1` can exceed `numData / 2` (lemma `TopPointAboveStride`). This is why `Calc` needs `StridesFit`.
- GyrLib.AllanGyr.Calc requires every rounded log-space point to satisfy `1 <= point` and `2 point < numData` (`StridesFit`). The source does not check this: at `2 factor == numData` it computes 0/0, and at `2 factor > numData` it computes 0 over a negative divisor.
- AccLib.AllanAcc.Calc has the same precondition, for the same reason.
- Integer overflow of `numData`, `2 * factor` and the `(int)` casts is not modelled: integers are unbounded.
- Destructors are not modelled; they only clear vectors.
- The Ceres solver, the Jet types that instantiate the functor's template, and the other members of `FitAllanGyr` are not modelled: `initValue`, `findMinNum`, `findMinIndex`, the getters for Q, N, B, K and R, `getBiasInstability`, `getWhiteNoise` and `calcSimDeviation`. Their bodies are not part of this model.

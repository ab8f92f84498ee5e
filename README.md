# Hal(x) calculator

A Dafny model of `HalCalculator`, a streaming estimator of
Hal(x) = (1/N) · Σ (x_i − mean)², the population variance of every value
added so far. The calculator keeps only three numbers: the count `n`, the
running `mean` and `m2`, the running sum of squared deviations from that mean.
On every `add(x)` it updates them with Welford's online recurrence (Knuth,
The Art of Computer Programming, vol. 2, section 4.2.2). `item()` reports
0.0 below two values, and `m2 / n` from two values on.

The project has two modules:

- `Statistics` (statistics.dfy) holds the mathematical meaning over exact reals:
  - `Sum`, `SumSqDev`, `RunningMean` and `PopulationVariance` of a finite
    sequence of observations, all built on one sum `SumOf` that recurses on
    the last element;
  - the lemmas about them:
    - the Welford step;
    - non-negativity;
    - order independence;
    - the constant-stream case;
    - the Σ x² split;
    - a worked batch.
- `Hal` (hal_calculator.dfy) holds the class `HalCalculator`:
  - the mutable fields `n`, `mean` and `m2`;
  - a ghost `history` of every value added;
  - the object invariant `Valid()`: `n` is the length of the history, `mean`
    is its arithmetic mean, and `m2` is its sum of squared deviations from
    `mean`.

  `Add` performs the source's five steps in the source's order. It is proved to
  keep `Valid()` and to return the population variance of the history. `Item`
  is a side-effect-free read of the fields.

## Model

| member | source | states |
|---|---|---|
| Hal.HalCalculator.constructor | Hal_Calculator.py:7-13 | a fresh calculator has n = 0, mean = 0.0, m2 = 0.0, an empty history, and satisfies the invariant |
| Hal.HalCalculator.Add | Hal_Calculator.py:15-27 | n grows by exactly one and x is appended to the history; afterwards mean is the arithmetic mean of the history and m2 its sum of squared deviations from mean; the returned value equals what Item() gives right after the update, which is the population variance of all values added |
| Hal.HalCalculator.Item | Hal_Calculator.py:29-36 | the result is the population variance (1/N) Σ (x_i − mean)² of everything added, 0.0 below two values, and never negative; it only reads the object, so two calls with no Add between them agree |
| Hal.M2NonNegative | Hal_Calculator.py:10 | under the invariant m2 ≥ 0 |
| Hal.ConstantHistoryHasZeroM2 | Hal_Calculator.py:22-25 | if every value added is k, then mean = k (once something was added), m2 = 0 and Item() = 0 |
| Hal.SameValuesSameHal | Hal_Calculator.py:4 | two calculators fed the same multiset of values, in any order, agree on n, on mean and on Hal(x) |
| Hal.FirstTwoReadings | Hal_Calculator.py:31-35 | item() on a fresh calculator and add(x) on it both give 0.0 |
| Hal.FeedConstant | Hal_Calculator.py:15-27 | adding the same constant any number of times, every returned reading is 0.0 |
| Hal.FeedKnownBatch | Hal_Calculator.py:15-36 | adding 2, 4, 4, 4, 5, 5, 7, 9 one at a time returns 4.0 at the end, the population variance of that batch |
| Statistics.PopulationVariance | Hal_Calculator.py:4 | Hal(x) of a sequence, divisor N and 0.0 below two values, is never negative |
| Statistics.WelfordUpdate | Hal_Calculator.py:20-25 | with count = N + 1 and m' = mean + (x − mean) / count, m' is the mean of the extended sequence, and its sum of squared deviations from m' is the old one plus (x − mean)(x − m') |
| Statistics.WelfordMeanUpdate | Hal_Calculator.py:22-23 | the mean half of the Welford step: m' is the new mean and count · m' is the new sum |
| Statistics.WelfordDeviationUpdate | Hal_Calculator.py:24-25 | the m2 half of the Welford step: adding (x − m)(x − m') to the deviations about the old mean gives the deviations of the extended sequence about the new mean |
| Statistics.SumSqDevNonNegative | Hal_Calculator.py:10 | a sum of squared deviations from any centre is ≥ 0 |
| Statistics.SumSqDevShift | Hal_Calculator.py:10 | about a point m with N · m = Σ x_i, moving the centre to c adds exactly N (m − c)² |
| Statistics.SumSqDevRecentre | Hal_Calculator.py:10 | moving the centre from d to c changes Σ (x_i − ·)² by 2 (d − c)(Σ x_i − N d) + N (d − c)² |
| Statistics.SumOfSquaresSplit | Hal_Calculator.py:4 | Σ x_i², taken as squared deviations from 0, equals Σ (x_i − mean)² + N · mean², the two-pass definition the streaming m2 replaces |
| Statistics.SumOfPermutation | Hal_Calculator.py:4 | a sum over the observations is unchanged by reordering them |
| Statistics.VarianceOrderIndependent | Hal_Calculator.py:4 | the mean and Hal(x) depend only on the multiset of values, not on their order |
| Statistics.ConstantStream | Hal_Calculator.py:4 | a stream of one constant k has mean k, zero squared deviations and zero Hal(x) |
| Statistics.KnownBatch | Hal_Calculator.py:4 | the batch 2, 4, 4, 4, 5, 5, 7, 9 has mean 5 and Hal(x) 4 |

## Left out

- Floating point: values are exact reals, so the model has no IEEE rounding, NaN or infinity. The identities proved here hold exactly over the reals; the model gives no bound on rounding error.
- `n` is a Python integer, which is unbounded; the model's `nat` matches it, and there is no wrap-around to model.
- Hal.HalCalculator.Add: its ensures give the meaning of the new `mean` and `m2` (the mean and the squared deviations of the history), not the literal recurrence. The recurrence is in the method body, in the source's order, and `Statistics.WelfordUpdate` proves it agrees with that meaning.
- Hal.HalCalculator.Item: it is a function, not a method, because the source's `item` only reads; "two consecutive calls return the same value" is therefore immediate rather than a separate contract.
- `diffuser_PNDMSchedulerPipeline.py` is not part of this model. It is a fragment patched into a third-party diffusion scheduler; it calls foreign code and works on float tensors.
- An elementwise or tensor variant, or a fixed window-size divisor, is not part of this model: no such code is among the modelled files.

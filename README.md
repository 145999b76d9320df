# rhos: recursive high-order statistics, modelled in Dafny

rhos computes three running statistics of a sampled signal with a decay
constant C in [0, 1]:

- the recursive mean μ[i] = C·signal[i] + (1 - C)·μ[i - 1];
- the recursive variance σ²[i] = C·(signal[i] - μ[j])² + (1 - C)·σ²[i - 1].
  Definition 0 centres on the previous mean (j = i - 1); definition 1
  centres on the mean just updated (j = i);
- the recursive higher-order statistic (HOS). It raises the centred sample
  to the order and divides by the clamped variance raised to half the
  order. It smooths the result with the same recursion, after a burn-in
  over the first int(1/C) samples.

Each statistic exists in two forms:

- a reference form (`rec_*_py`): a Python loop over preallocated arrays,
  where index i - 1 wraps around to the last slot at i = 0. The mean and
  HOS arrays start at zero; the variance array starts at zero in
  rec_variance_py and at one in rec_hos_py;
- a fast form (`rec_*`): calls to a first-order linear filter
  (numerator (C,), denominator (1, -(1 - C)), optional initial state zi).

The model has six modules:

- `Rhos` (common.dfy): the error conditions and argument checks, Python
  negative indexing, integer powers, and the two variance clamps.
- `Lfilter` (filter.dfy): the linear filter as a function `Filter(C, x, zi)`,
  given by its difference equation.
- `Mean`, `Variance` and `Hos` (mean.dfy, variance.dfy, hos.dfy):
  - each fast form is a function, or a method over arrays where the source
    updates arrays in place;
  - each reference form is an imperative method over arrays, with the
    source's loops, proved equal to a specification function.
- `Regression` (regression.dfy): the unit tests' impulse vectors. It
  computes the leading samples exactly.

All exceptions are modelled as values of `Result`. The source raises them
in this order:

- `DecayOutOfRange`: C outside [0, 1];
- `UnknownDefinition`: definition not 0 or 1;
- `ZeroDivision`: int(1./C) with C = 0;
- `IndexOutOfRange`: a burn-in window longer than the signal, which makes
  `signal[i]` fail.

The last two are not listed as errors in the docstrings. Each is modelled
as the error the code would raise, not as a precondition.

## Model

| member | source | states |
|---|---|---|
| Rhos.PyIndex | rhos/__init__.py:56-57 | the slot a Python index reads: k itself for k ≥ 0, n + k for negative k, always in range |
| Rhos.Pow | rhos/__init__.py:334 | x**e is non-zero for non-zero x, positive for positive x, zero for zero x and e > 0, non-negative for even e |
| Rhos.Sq | rhos/__init__.py:162 | a square is non-negative and zero exactly for zero |
| Rhos.WindowLength | rhos/__init__.py:321 | int(1./C) is at least 1 for C in (0, 1], and 1 only when C > 1/2 |
| Rhos.ReferenceClamp | rhos/__init__.py:330-333 | the loop denominator is at least var_min; it is the variance when that is above var_min and non-zero, var_min when not above it, and zero only for a zero variance with var_min = 0 |
| Rhos.FastClamp | rhos/__init__.py:441-442 | the masked denominator is at least var_min; it is the variance when that is non-zero and not below var_min; it is positive for every non-negative variance |
| Rhos.EvenPowOfSquare | rhos/__init__.py:334 | for an even exponent, two values with the same square have the same power |
| Rhos.ClampRulesAgree | rhos/__init__.py:441-442 | for a non-negative variance the two clamps agree if and only if it is not the case that the variance is zero and var_min lies in [0, 1e-9) |
| Rhos.DefaultClampPositive | rhos/__init__.py:330-333 | with the default var_min = -1 the denominator is positive and both clamps agree |
| Lfilter.Filter | rhos/__init__.py:95-97 | output as long as the input, y[0] = C·x[0] + zi, y[k] = C·x[k] + (1 - C)·y[k - 1] |
| Lfilter.FilterCarried | rhos/__init__.py:435 | the state zi = (1 - C)·p makes the filter continue the recursion from a previous output p |
| Lfilter.FilterFromRest | rhos/__init__.py:97 | from zero state each output is one recursion step from the previous, the one before the first counting as zero |
| Lfilter.FilterUnique | rhos/__init__.py:97 | any sequence satisfying the difference equation from the same state equals the filter output |
| Lfilter.StepSign | rhos/__init__.py:325 | a step from non-negative input and previous value is non-negative, positive when the previous is positive and C < 1, and zero with C > 0 only for zero input |
| Lfilter.FilterNonnegative | rhos/__init__.py:233 | non-negative input and state give non-negative output |
| Lfilter.FilterPositive | rhos/__init__.py:438 | with C < 1, non-negative input and a positive state give strictly positive output |
| Lfilter.FilterOfZero | rhos/__init__.py:97 | all-zero input from zero state gives all-zero output |
| Mean.FastMean | rhos/__init__.py:90-98 | an error exactly when C is outside [0, 1]; otherwise a vector as long as the signal |
| Mean.FastMeanRecurrence | rhos/__init__.py:95-97 | the fast mean satisfies the documented recurrence μ[k] = C·signal[k] + (1 - C)·μ[k - 1] with μ[-1] = 0 |
| Mean.ReferenceMean | rhos/__init__.py:50-58 | the loop form returns exactly what the filter form returns, errors included |
| Mean.MeanOfZeroSignal | rhos/__init__.py:55-58 | an all-zero signal has an all-zero mean |
| Variance.Deviations | rhos/__init__.py:228-232 | the squared deviations are non-negative and as long as the signal |
| Variance.FastVariance | rhos/__init__.py:216-234 | DecayOutOfRange for C outside [0, 1], then UnknownDefinition for a definition other than 0 or 1, success exactly otherwise, as long as the signal |
| Variance.FastVarianceRecurrence | rhos/__init__.py:228-233 | the fast variance satisfies the documented recurrence, centred on μ[k - 1] (definition 0) or μ[k] (definition 1), with μ[-1] = σ²[-1] = 0 |
| Variance.DeviationAt | rhos/__init__.py:229-230 | sample 0 of the definition-0 deviations is signal[0] squared, i.e. centred on a zero mean |
| Variance.FastVarianceSteps | rhos/__init__.py:159-166 | the fast mean and variance satisfy, pointwise, the recurrences the reference loops compute |
| Variance.ReferenceVariance | rhos/__init__.py:148-167 | the loop form equals the filter form, errors included, except for definition 0 on a single sample, where it returns C·(x - C·x)² |
| Variance.PriorVarianceLoop | rhos/__init__.py:159-162 | on any sequence satisfying the definition-0 variance recurrences, the loop returns that sequence for a length other than 1, and C·(x - C·x)² on a single sample x |
| Variance.CurrentVarianceLoop | rhos/__init__.py:163-166 | on any sequence satisfying the definition-1 variance recurrences, the loop returns that sequence |
| Variance.VarianceNonnegative | rhos/__init__.py:233 | every sample of the variance is non-negative |
| Variance.VarianceOfZeroSignal | rhos/__init__.py:227-233 | an all-zero signal has an all-zero variance for either definition |
| Variance.PriorSingleSample | rhos/__init__.py:160-162 | on one sample the fast definition-0 variance is C·x², and the loop's C·(x - C·x)² equals it exactly when C = 0 or x = 0 |
| Variance.CentredOnUpdatedMean | rhos/__init__.py:161-162 | C·(x - C·x)² = C·x² if and only if C = 0 or x = 0 |
| Hos.BurnIn | rhos/__init__.py:430-432 | the burn-in variance is non-negative, and positive for C < 1 |
| Hos.BurnInIsFilter | rhos/__init__.py:323-325 | the burn-in state after k samples is sample k - 1 of the definition-1 mean and variance filters, started from mean 0 and variance 1 |
| Hos.Variances | rhos/__init__.py:438 | the seeded variance filter is non-negative, and strictly positive for C < 1 and a positive seed |
| Hos.ClampNonZero | rhos/__init__.py:330-333 | the denominator is never zero on admissible arguments |
| Hos.ReferenceHosFrom | rhos/__init__.py:326-345 | the main loops' HOS from the seed: a vector as long as the signal, hos[0] = C·t[0] + (1 - C)·hos[-1] and hos[k] = C·t[k] + (1 - C)·hos[k - 1], where hos[-1] is the zero-initialised last slot, or on a single sample the C·t[0] just written; t[k] is the term of sample k |
| Hos.ReferenceHosSpec | rhos/__init__.py:307-346 | each error exactly when the source raises it, in the source's order; otherwise a vector as long as the signal |
| Hos.FastHosSpec | rhos/__init__.py:418-445 | DecayOutOfRange, then ZeroDivision, then IndexOutOfRange exactly when the window exceeds the signal; definition never checked |
| Hos.CorrectedFastHosSpec | rhos/__init__.py:418-445 | the fast form with the definition checked as in the reference form and definition 1 centring on μ[i] |
| Hos.CorrectedKeepsPriorMean | rhos/__init__.py:436-440 | the corrected fast form is rec_hos as written for definition 0 |
| Hos.CorrectedHosAgrees | rhos/__init__.py:336-345 | on two samples or more the corrected fast form equals rec_hos_py for definition 1, and for definition 0 whenever sample 0 has the same square centred on the burn-in mean as uncentred, or the order is 0 |
| Hos.HosFormsAgree | rhos/__init__.py:326-335 | for definition 0 and two samples or more, rec_hos and rec_hos_py return the same vector whenever (signal[0] - μ[-1])² = signal[0]², μ[-1] being the burn-in mean, that is when it is 0 or 2·signal[0], and for any burn-in mean when the order is 0 |
| Hos.TermsOfOrderZero | rhos/__init__.py:334 | with order 0 every HOS term is 1, so any two deviation sequences of one length give the same terms |
| Hos.TermsOfSameSquares | rhos/__init__.py:329-334 | for an even order, deviations with the same squares give the same variances and the same HOS terms |
| Hos.VarianceZeroMeansCentred | rhos/__init__.py:329 | with C > 0, a zero filtered variance implies a zero deviation at that sample |
| Hos.TermsClampIrrelevant | rhos/__init__.py:441-442 | the HOS terms are the same under either clamp rule: where the clamps differ the deviation is zero |
| Hos.ZeroDeviationTerm | rhos/__init__.py:334 | a zero deviation gives a zero term for a positive order |
| Hos.ZeroTerm | rhos/__init__.py:334 | a zero deviation gives the same term whatever the (non-zero) denominator |
| Hos.BurnInOfZero | rhos/__init__.py:430-431 | over an all-zero signal the burn-in mean stays zero |
| Hos.ZeroDeviationsSmoothed | rhos/__init__.py:443-444 | all-zero deviations give all-zero terms and an all-zero HOS, for a positive order, under either clamp rule |
| Hos.FastHosOfZeroSignal | rhos/__init__.py:427-445 | whenever rec_hos succeeds on an all-zero signal with a positive order, every sample of its result is zero |
| Hos.ReferenceHosOfZeroSignal | rhos/__init__.py:318-346 | whenever rec_hos_py succeeds on an all-zero signal with a positive order, every sample of its result is zero, one-sample signals included |
| Hos.FastHos | rhos/__init__.py:418-445 | the imperative rec_hos returns FastHosSpec: the burn-in loop keeps the burn-in state as its invariant and fails when the signal runs out |
| Hos.FastTerms | rhos/__init__.py:433-443 | the arrays of rec_hos before the last filter hold the HOS terms under the masked clamp rule |
| Hos.PoweredDeviations | rhos/__init__.py:436-440 | dev = signal**p with dev[1:] overwritten holds the p-th powers of the samples centred on the previous mean, sample 0 as it is |
| Hos.FastDenominators | rhos/__init__.py:441-442 | the two masked assignments give every slot its fast clamp |
| Hos.ReferenceHos | rhos/__init__.py:307-346 | the imperative rec_hos_py returns ReferenceHosSpec, errors included |
| Hos.SeedLastSlots | rhos/__init__.py:321-325 | the burn-in loop succeeds exactly when the window fits the signal, leaves the burn-in state in the last slots and changes no other slot |
| Hos.HosMain | rhos/__init__.py:326-345 | the main loops leave in the mean array the mean filter from state (1 - C)·μ[-1], in the variance array the variance filter of the loop's deviations from state (1 - C)·σ²[-1], and in the HOS array ReferenceHosFrom of the seed |
| Hos.ReferenceRecurrences | rhos/__init__.py:326-345 | the reference sequences satisfy pointwise the recurrences of the main loop |
| Hos.HosLoop | rhos/__init__.py:326-345 | the loop writes the given mean and variance sequences into their arrays and the smoothed HOS into the HOS array; on one sample, the HOS is the step from the value it has just written |
| Hos.HosSample | rhos/__init__.py:327-335 | given the recurrences at sample i, one pass writes sample i of the mean, variance and HOS and no other slot |
| Hos.HosUpdate | rhos/__init__.py:330-335 | the denominator rule, the term and the carried part of hos[i - 1] write the HOS recurrence's value into slot i and change no other slot; on one sample the carried part is the value just written |
| Hos.MomentsSample | rhos/__init__.py:328-329 | the mean and variance updates of one pass write sample i only; they yield the centred sample and the variance just written |
| Regression.ImpulseMean | rhos/test/test_rhos.py:35-41 | the impulse's mean starts 0, 0, 1/2, 1/4 |
| Regression.ImpulseReferenceMean | rhos/test/test_rhos.py:89-91 | the loop form of the mean gives the same leading values |
| Regression.ImpulseVariancePrior | rhos/test/test_rhos.py:42-48 | the definition-0 variance starts 0, 0, 1/2, 3/8 |
| Regression.ImpulseVarianceCurrent | rhos/test/test_rhos.py:49-55 | the definition-1 variance starts 0, 0, 1/8, 3/32 |
| Regression.ImpulseBurnIn | rhos/__init__.py:321-325 | with C = 1/2 the window is 2 samples and the burn-in ends at mean 0 and variance 1/4 |
| Regression.ImpulseCentred | rhos/__init__.py:334 | the loop deviations of the impulse are 0, 0, then 1 (definition 0) or 1/2 (definition 1) |
| Regression.ImpulseReferenceHos | rhos/__init__.py:326-345 | on the impulse rec_hos_py is the smoothing of those deviations from variance 1/4 |
| Regression.ImpulseReferenceHosPrior | rhos/test/test_rhos.py:56-62 | rec_hos_py, definition 0, order 4: sample 2 is 512/289 (1.7716263) |
| Regression.ImpulseReferenceHosCurrent | rhos/test/test_rhos.py:70-76 | rec_hos_py, definition 1, order 4: sample 2 is 32/25 (1.28) |
| Regression.FastHosIgnoresDefinition | rhos/test/test_rhos.py:117-118 | rec_hos asked for definition 1 returns 512/289 at sample 2, not the 32/25 the test expects |
| Regression.MirroredBurnInAgrees | rhos/__init__.py:329 | on the signal 2, 7 with C = 1/2 the burn-in mean is 4 = 2·signal[0], and rec_hos and rec_hos_py still return the same vector |
| Regression.OrderZeroAgrees | rhos/__init__.py:334 | on the signal 1, 0 with C = 1/2 and order 0 the burn-in mean 1/4 gives sample 0 different squares, and the two forms still return the same vector |
| Regression.CorrectedHosImpulse | rhos/test/test_rhos.py:117-118 | the corrected fast form with definition 1 gives 32/25 at sample 2 |

## Left out

- Floating point is modelled as exact reals. Rounding, NaN and infinity are not modelled, and neither is the relative tolerance of the tests' comparisons.
- The coercions `np.asarray(np.atleast_1d(...))`, `float(C)` and `int(order)` are left out. Arguments are already a sequence of reals, a real and integers; a scalar signal counts as a one-sample sequence.
- Orders are even naturals (`requires order % 2 == 0`). In Python `order/2` is a float division, so an odd order raises the variance to a fractional power, and a negative order gives a negative power. The model's powers are natural powers, so it cannot express either.
- Hos.ReferenceHos and Hos.ReferenceHosSpec require that C = 1 and var_min = 0 come only with an unknown definition or an empty signal. Those two inputs still give their ValueError (lines 315-317) and IndexError (line 324). Every other input with C = 1 and var_min = 0 is excluded. There the window is 1 sample, so the burn-in mean is signal[0] and the burn-in variance is 0. The loop's var[0] centres signal[0] on that mean, so it is 0, and the denominator at sample 0 is var_min = 0 (lines 330-333). For a positive order hos[0] is then 0/0, which numpy turns into NaN rather than raising. `hos[i] += (1 - C) * hos[i-1]` (line 335) then carries 0·NaN = NaN into every later sample. For definition 0 the later variances are (signal[i] - signal[i-1])² and need not be zero; for definition 1 every variance is zero. Exact reals cannot represent NaN. The requires also excludes order 0 with those arguments, although there `0.0**0.0` is 1.0 and rec_hos_py returns finite values. The model does not cover that order-0 case.
- The filter is modelled only in the first-order shape the library calls it with. The general `scipy.signal.lfilter`, and its returned final state, are not part of this model.
- The version lookup (`_version`), packaging, documentation and the unittest runner are not part of this model.
- Regression: only the leading samples of the test vectors are proved: four for mean and variance, and sample 2, the first non-zero one, for the order-4 HOS. The remaining samples and the order-8 vectors follow from the same recurrences but are not stated.
- Hos.HosFormsAgree: for a positive order, the equality of rec_hos and rec_hos_py for definition 0 is proved only when (signal[0] - μ[-1])² = signal[0]², that is when the burn-in mean μ[-1] is 0 or 2·signal[0]. rec_hos centres sample 0 on zero: `dev = signal**2` and `dev = signal**order` at lines 436 and 439 leave slot 0 uncentred. rec_hos_py centres it on the burn-in mean. With order 0 every term is 1, so the two forms agree whatever the burn-in mean, and that case is proved too. For a positive order and any other burn-in mean, the two forms have different squared deviations at sample 0, so the variance filter starts from different values, and the HOS terms and the HOS recurrence can differ too. The model states what each form computes, but no lemma relates the two outputs in that case.
- Variance.ReferenceVariance and Hos.ReferenceHosFrom: on a one-sample signal the loops read `mean[-1]` and `hos[-1]` after writing slot 0. The model states that behaviour rather than the documented recurrence.

## Findings

| source | as written | input that shows it | evidently intended | confidence | as-written member | corrected member |
|---|---|---|---|---|---|---|
| rhos/__init__.py:418-445 | rec_hos reads `definition` (line 422) but never branches on it. It always centres on the previous mean (lines 436-440), so definition 1 returns the definition-0 statistic. | the unit test's impulse (twenty zeros, a one at index 2), C = 0.5, order 4, definition 1: sample 2 is 512/289 ≈ 1.7716, while rhos/test/test_rhos.py:117-118 expects 1.28 = 32/25 | honour the definition as rec_hos_py does: reject definitions other than 0 and 1, and for definition 1 centre on the current mean μ[i] | not executed | Regression.FastHosIgnoresDefinition (on Hos.FastHosSpec, which the imperative Hos.FastHos is proved to compute) | Hos.CorrectedFastHosSpec, with Hos.CorrectedHosAgrees and Regression.CorrectedHosImpulse |

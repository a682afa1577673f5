# Log-extreme-value-minimum growth model: kernel, series, MTTF and EM step

This project models the log-extreme-value-minimum (lxvmin) software
reliability growth model of `src/em_lxvmin.c`. Faults follow a
non-homogeneous Poisson process. Its mean value function is
`omega * F(t)`, where F is the log-extreme-value-minimum distribution
function with `y = exp((log t + scale) / shape)` and `F(t) = 1 - exp(-y)`.

The parameter vector is laid out as `para[0] = omega`, `para[1] = scale`,
`para[2] = shape`. The one exception is the distribution function handed to
the root-finder, which reads para[1] as the shape and para[2] as the scale.
The model reproduces that swap as written.

Modules:

- `NumLib` holds the numerical primitives as opaque function values in a
  `Lib` record: `exp`, `log`, `loggamma`, the root-finder `findQuantile`,
  and what a division by zero yields. The few laws a proof needs (exp
  positive and increasing with exp(0) = 1, log increasing, exp undoes log) are predicates
  that appear only in lemma preconditions.
- `Kernel` models the density, the distribution function, the mean value
  function, the parameter-vector distribution function, the inverse of the
  mean value function, and the conditional-reliability integrand.
- `Series` models the two series generators. They are methods over arrays
  and loops, proved against the kernel functions at cumulative times.
- `Mttf` models the MTTF estimator. Its doubling trapezoid refinement is
  proved to return the composite trapezoid rule with 2^k subintervals,
  where k is the round whose relative-change test fires first, or the last
  round.
- `Em` models the EM step. The E-step pass over the records is a method
  proved against recursive specification functions of the data. The tail
  terms and the closed-form M-step are functions. `EmStep` writes the new
  parameters and their changes into the caller's arrays.

Every quantity is an exact real. A floating-point division is `Div`, which
is exact for a non-zero divisor and an opaque value otherwise. The round
limit and the relative tolerance of the MTTF refinement (the build
constants `MTTF_MAXITE` and `INT_EPS`) are the parameters `maxIte` and
`eps`.

## Model

| member | source | states |
|---|---|---|
| NumLib.CumulativePrefix | src/em_lxvmin.c:45-49 | the running time after j records depends only on the first j spans, so results stated on the whole time array hold for its first dsize cells alone |
| Kernel.Pdf | src/em_lxvmin.c:8-11 | the density y*exp(-y)/shape/t with y = exp((log t + scale)/shape), with `Div` for every division |
| Kernel.Cdf | src/em_lxvmin.c:13-16 | the distribution function 1 - exp(-y) with the same y |
| Kernel.Mvf | src/em_lxvmin.c:18-20 | the mean value function omega * cdf(t) |
| Kernel.CdfV | src/em_lxvmin.c:22-24 | the distribution function read from a parameter vector with shape = para[1] and scale = para[2] |
| Kernel.InverseMvf | src/em_lxvmin.c:26-29 | the root-finder's answer for target value/para[0] on CdfV |
| Kernel.Creli | src/em_lxvmin.c:52-59 | (exp(-(mvf(x + s) - sval)) - ffp)/(1 - ffp), with `Div` for the division |
| Kernel.YPositive | src/em_lxvmin.c:8-16 | the substitution y = exp((log t + scale)/shape) is positive when exp is |
| Kernel.YIncreasing | src/em_lxvmin.c:13-16 | y grows strictly with t for shape > 0 |
| Kernel.CdfBounds | src/em_lxvmin.c:13-16 | the distribution function lies strictly between 0 and 1 |
| Kernel.CdfIncreasing | src/em_lxvmin.c:13-16 | the distribution function is strictly increasing in t for shape > 0 |
| Kernel.MvfIncreasing | src/em_lxvmin.c:18-20 | the mean value function omega * cdf is strictly increasing for omega > 0 |
| Kernel.MvfNondecreasing | src/em_lxvmin.c:18-20 | the mean value function is non-decreasing for omega >= 0 |
| Kernel.PdfPositive | src/em_lxvmin.c:8-11 | the density is positive at every positive time for shape > 0 |
| Kernel.InverseMvfRoundTrip | src/em_lxvmin.c:22-29 | the root-finder is queried with value / para[0] on the cdf that reads shape = para[1] and scale = para[2]; when it answers exactly, the mean value function in that layout at the returned time is value |
| Kernel.CreliAtZero | src/em_lxvmin.c:52-59 | the conditional-reliability integrand is 1 at offset 0 when sval is the mean value at s |
| Series.RateSeries | src/em_lxvmin.c:31-50 | with npara != 3 lambda is unchanged; otherwise lambda[i] = omega * pdf at time[0] + ... + time[i] for every i < dsize, and no cell at or past dsize changes |
| Series.MvfSeries | src/em_lxvmin.c:106-127 | with npara != 3 mean is unchanged; otherwise mean[i] = mvf at time[0] + ... + time[i] for every i < dsize, and no cell at or past dsize changes |
| Series.MvfSeriesNondecreasing | src/em_lxvmin.c:122-126 | with non-negative spans and a positive first span, the expected-fault series never decreases |
| Series.RateSeriesPositive | src/em_lxvmin.c:45-49 | with non-negative spans, a positive first span and omega, shape > 0, every intensity written is positive |
| Mttf.StopRound | src/em_lxvmin.c:90-102 | the stopping round is at most maxIte; no earlier round's test fires; below maxIte its own test fires |
| Mttf.StopRoundIs | src/em_lxvmin.c:98-100 | a round with no earlier firing test whose own test fires, or which is the last, is the stopping round |
| Mttf.NodeDouble | src/em_lxvmin.c:95 | grid point i of step 2h is grid point 2i of step h |
| Mttf.InnerSumSplit | src/em_lxvmin.c:91-96 | the inner points of the grid with 2n subintervals are those of the grid with n plus the new odd-indexed points |
| Mttf.RefineStep | src/em_lxvmin.c:91-97 | half the n-interval trapezoid rule plus the new step times the odd-point sum is the 2n-interval trapezoid rule |
| Mttf.RoundEstimate | src/em_lxvmin.c:97 | tn = t/2 + h*s is the estimate of round k when t is that of round k - 1 and h = (b - a)/2^k |
| Mttf.NewPointSum | src/em_lxvmin.c:93-96 | the inner loop sums the integrand over exactly the odd points i = 1, 3, .., n - 1 of the finer grid |
| Mttf.RefineRound | src/em_lxvmin.c:91-97 | one round doubles n to 2^k, sets h = (b - a)/2^k and yields the estimate of round k |
| Mttf.Integrate | src/em_lxvmin.c:85-103 | the refinement returns the trapezoid rule with 2^k subintervals for the stopping round k |
| Mttf.Mttf | src/em_lxvmin.c:61-104 | with npara != 3 the result is 0; otherwise it is the trapezoid rule for the conditional-reliability integrand over [0, b] at the stopping round, with b from the inverted mean value function minus the current time |
| Mttf.StartMean | src/em_lxvmin.c:78 | sval: the mean value function at the current time with omega = para[0], shape = para[2], scale = para[1] |
| Mttf.NoMoreFaults | src/em_lxvmin.c:79 | ffp = exp(-(omega - sval)), the probability that no further fault ever occurs |
| Mttf.Converged | src/em_lxvmin.c:98 | the early-exit test abs(tn - t) < eps*abs(t) |
| Mttf.UpperBound | src/em_lxvmin.c:78-83 | b = inverse mvf at sval - log(r + (1 - r)*ffp), minus the current time |
| Mttf.IntegrandAtUpperBound | src/em_lxvmin.c:78-83 | with an exact root-finder and para[1] == para[2], the integrand at the upper bound b equals the target reliability r |
| Em.TripleAt | src/em_lxvmin.c:190-192 | the triple (exp(-y), exp(-scale/shape)*(1 + y)*exp(-y), exp(-y)*(1 + y*log y)) at substitution value y |
| Em.Start | src/em_lxvmin.c:154-166 | the first record's time point: t = time[0], y at t, previous triple (1, exp(-scale/shape), 1), current triple at y |
| Em.Advance | src/em_lxvmin.c:184-193 | a non-zero span moves t by the span, recomputes y, and shifts the current triple to previous with a new current triple; a zero span keeps the point |
| Em.Complete | src/em_lxvmin.c:210-215 | the tail terms: en1, en2, en3 gain omega*g10, omega*g11, omega*g12, and llf gains log(omega)*en1 (the pass's en1) - omega*(1 - g10) |
| Em.MStep | src/em_lxvmin.c:218-221 | the new parameters (en1, -shape*log(en2/en1), shape*en3/en1) with the old shape, with `Div` for the divisions |
| Em.Accumulate | src/em_lxvmin.c:194-208 | one record's terms at its time point: with x != 0, en1 += x, en2 += x*(g01 - g11)/(g00 - g10), en3 += x*(g02 - g12)/(g00 - g10), llf += x*log(g00 - g10) - loggamma(x + 1); with type 1, en1 += 1, en2 += exp(log t/shape), en3 += -(log t + scale)/shape*(1 - y), llf += log pdf(t) |
| Em.EPass | src/em_lxvmin.c:153-209 | the pass ends at the time point of the last record read (at least one, even for dsize < 1), with the accumulators equal to their specifying functions of the data |
| Em.EmStep | src/em_lxvmin.c:129-232 | with npara != 3: retllf = 0 and neither array changes; otherwise para gets the M-step of the E-step expectations, pdiff[k] = new - old for k < 3, nothing past index 2 changes, retllf is the log-likelihood and total = en1 = the new omega |
| Em.PointAtCumulativeTime | src/em_lxvmin.c:182-193 | after j records the pass stands at the cumulative time T[0] + ... + T[j-1], with y and the current triple of that time |
| Em.LastStep | src/em_lxvmin.c:184-193 | the last earlier record with a non-zero span, with all records between it and j of zero span |
| Em.PointPrevious | src/em_lxvmin.c:184-193 | the previous triple is that of the last distinct time point, or the origin triple when the time never moved after the first record |
| Em.ZeroSpanReusesTriples | src/em_lxvmin.c:184-193 | a zero span keeps the time point and both triples; a non-zero span shifts current to previous and recomputes current at the advanced time |
| Em.En1Counts | src/em_lxvmin.c:167-208 | en1 after j records is the sum of the counts plus the number of type-1 records |
| Em.FinalTriple | src/em_lxvmin.c:211 | after the last record the current triple is the triple at the total time |
| Em.EmTotal | src/em_lxvmin.c:210-212 | total = sum of counts + number of type-1 records + omega * g10 at the total time |
| Em.PassQuiet | src/em_lxvmin.c:194-208 | with no counts and no type-1 records the pass adds nothing to en1, en2, en3 or the log-likelihood |
| Em.NoObservationsTotal | src/em_lxvmin.c:210-212 | with no observed fault the expected total is omega * g10 at the total time |
| Em.QuietLikelihood | src/em_lxvmin.c:210-215 | a pass that adds nothing yields log-likelihood -omega * (1 - g10) |
| Em.NoObservationsLikelihood | src/em_lxvmin.c:210-215 | with no observed fault the log-likelihood is -omega * (1 - g10), the log-probability of no fault by the total time |

## Left out

- Floating-point arithmetic: rounding, overflow, NaN and infinities are not modelled. Values are exact reals, and a division by zero yields the opaque `Lib.divByZero` value.
- `exp`, `log`, `loggamma` and `findQuantile` are opaque. Properties that need their behaviour assume only the laws stated in `NumLib`. The root-finder's accuracy is an assumption (`QuantileExact`), not a result.
- Mttf.Integrate: the accuracy of the trapezoid estimate against the true integral is not stated. The model proves which trapezoid rule is returned, not how close it is.
- Em.EmStep: the statistical correctness of the M-step (that it maximises the expected complete-data likelihood) is not stated. The model proves which closed-form update is written.
- Em.EmStep: the code does not guard against g00 - g10 <= 0 before taking its logarithm or dividing by it, and it does not clamp a non-positive new shape. The model follows the code; such values flow through `Div` and the opaque `log`.
- Em.EmStep: the model requires `para` and `pdiff` to be distinct arrays. When they alias, the code's pdiff writes would be overwritten by its para writes, and that case is not modelled.
- Mttf.Integrate: the subinterval count n = 2^k is a C `int` in the code, doubled each round, so it overflows once the round limit reaches 31. The model's n is an unbounded integer, which describes the code only for a round limit of at most 30.
- Mttf.Mttf: the model requires maxIte >= 1. With a round limit of 0 the code would return an uninitialised tn.
- Mttf.Mttf: a non-positive upper bound b is not clamped to 0. A negative residual time is meaningless, but the code integrates over [0, b] whatever the sign of b, and the model follows the code.
- Mttf.IntegrandAtUpperBound: this property needs para[1] == para[2]. The root-finder reads the distribution function with shape and scale swapped, so in general the integration does not end where the integrand reaches r. The model keeps the swap as the code has it.
- The record buffers are arrays and the scalar out-parameters (`*retllf`, `*total`, `*ss`) are method results. For `*total`, the value on entry is the parameter `total0`, returned unchanged when npara != 3.

# EasyDSP central moment and Perlin-style noise, modelled in Dafny

This project models two independent numeric routines of the EasyDSP C++ library.

- `moment.dfy` (module `Moment`) models `easy::dsp::statistics::moment`. It computes the N-th
  central moment of a range, `(1/count) * sum (x_i - mean)^N`. The model has these parts:
  - the power loop `internal::nthPower` (a method with a loop invariant);
  - the fold step `internal::SumDiffNthPower`;
  - the fold itself, `std::accumulate` from `T()`, divided by the count (`internal::nthMoment`);
  - the two public overloads, one that computes the mean and one that takes it as an argument.

  The element type `T` is modelled by exact `real` arithmetic. The range is a `seq<real>`, which
  the routines only read. An empty range divides by a zero count. The model reports that as
  `Err(EmptyInput)`.
- `perlin_noise_generator.dfy` (module `PerlinNoise`) models
  `easy::dsp::random::perlin_noise_generator`. It covers:
  - the helpers `fade`, `lerp` and `grad`;
  - the 512-slot permutation table;
  - the call operator.

  The seeded engine and its uniform distribution over [0, 511] are modelled as a stream of
  draws given to the generator's constructor. The generator's only state is how many draws it
  has consumed. `Noise(p, r)` is the deterministic rest of the call operator for a draw `r` and a table `p`.
  `Sample(r)` is `Noise` on the library's own table.

The doc comments call the result "the n-th moment" and the generator a Perlin noise generator. Where
the code behaves in ways those words do not suggest, the model follows the code. The one exception is
line 71 of `moment.hpp`, where the model follows the evident intent:

- **Order 0.** `moment<0>` is accepted, and `nthPower<0>(x)` returns `x`, not `1`. Order 0 therefore
  gives the first central moment, which is 0 about the true mean (`ZerothMomentIsZero`). The
  model does not reject order 0.
- **The mean at line 71.** Line 71 of `moment.hpp` initializes `mean` with a call to `mean`.
  The model reads this as the evident intent: the arithmetic mean of the same range (`Mean`).
- **The draw is an integer.** The fractional part `r - floor(r)` of an integer draw is always 0.
  `fade` is applied to the raw draw, and slots 256..511 of the table are 0. So a sample is
  `+-2 * fade(r)` and is not bounded by [-2, 2]: every draw from 2 on has magnitude at least 64
  (`SampleUnbounded`).

The bit masks `r & 0xFF` and `hash & 1` are written as `r % 256` and `hash % 2`. Draws and table
entries are never negative, and `LowBits` proves that, on unsigned 64-bit values, the masks and
the remainders agree.

## Model

| member | source | states |
|---|---|---|
| `Moment.NthPower` | include/easy/dsp/statistics/moment.hpp:34-41 | the loop returns x^N for every N >= 1, and x itself for N <= 1 (so N = 0 gives x, not 1) |
| `Moment.LoopPower` | include/easy/dsp/statistics/moment.hpp:36-40 | starting from x and multiplying by x for i in [1, N) yields the true power x^N for all N >= 1, and leaves x for N <= 1 |
| `Moment.SumDiffNthPower` | include/easy/dsp/statistics/moment.hpp:43-50 | one fold step adds (current - mean)^N to the running sum, and adds current - mean for N = 0 |
| `Moment.Accumulate` | include/easy/dsp/statistics/moment.hpp:55 | folding the step over the range from init adds exactly the sum of (x - mean)^N for N >= 1, and the sum of (x - mean) for N = 0, because nthPower<0> is the identity |
| `Moment.NthMoment` | include/easy/dsp/statistics/moment.hpp:52-56 | fails exactly on an empty range; otherwise it is (sum of (x - mean)^N) / count for N >= 1, and (sum of (x - mean)) / count for N = 0, because nthPower<0> is the identity |
| `Moment.Mean` | include/easy/dsp/statistics/moment.hpp:71 | the mean times the count is the sum of the range |
| `Moment.MomentWithMean` | include/easy/dsp/statistics/moment.hpp:85-89 | fails exactly on an empty range; otherwise the result times the count is the sum of (x - mean)^N about the given mean for N >= 1, and the sum of (x - mean) for N = 0 |
| `Moment.Moment` | include/easy/dsp/statistics/moment.hpp:68-73 | fails exactly on an empty range; otherwise equals the explicit-mean overload given the range's own mean |
| `Moment.NthMomentShiftInvariant` | include/easy/dsp/statistics/moment.hpp:52-56 | adding c to every element and to the supplied mean leaves nthMoment unchanged |
| `Moment.MomentShiftInvariant` | include/easy/dsp/statistics/moment.hpp:68-73 | the central moment of every order is unchanged when c is added to every element |
| `Moment.FirstMomentIsZero` | include/easy/dsp/statistics/moment.hpp:68-73 | moment<1> of a non-empty range is 0 |
| `Moment.ZerothMomentIsZero` | include/easy/dsp/statistics/moment.hpp:34-41 | moment<0> equals moment<1>, which is 0, rather than 1 |
| `Moment.SumPowOrderOne` | include/easy/dsp/statistics/moment.hpp:43-50 | at order 1 the summed deviations are the sum of the range minus count * mean |
| `Moment.SumPowOrderTwo` | include/easy/dsp/statistics/moment.hpp:34-41 | at order 2 the power loop squares each deviation: the sum of powers is the sum of x*x - 2*m*x + m*m |
| `Moment.ExpandSquaredDeviations` | include/easy/dsp/statistics/moment.hpp:43-50 | the summed squared deviations expand to the sum of squares, minus twice the sum of m*x, plus count * m^2 |
| `Moment.MeanShift` | include/easy/dsp/statistics/moment.hpp:71 | adding c to every element adds c to the mean |
| `Moment.SecondMomentAbout` | include/easy/dsp/statistics/moment.hpp:85-89 | moment<2> about any supplied mean is the mean of the squared deviations from it |
| `Moment.MeanSquaredDeviation` | include/easy/dsp/statistics/moment.hpp:85-89 | about an m with m * count equal to the sum, the mean squared deviation is sum(x^2)/count - m^2 |
| `Moment.VarianceAboutMean` | include/easy/dsp/statistics/moment.hpp:85-89 | the explicit-mean overload at order 2, given the true mean, returns sum(x^2)/count - mean^2 |
| `Moment.SecondMomentIsVariance` | include/easy/dsp/statistics/moment.hpp:68-73 | moment<2> equals the population variance sum(x^2)/count - mean^2 |
| `Moment.VarianceExample` | include/easy/dsp/statistics/moment.hpp:68-73 | for {2,4,4,4,5,5,7,9} the mean is 5, moment<2> is 4 and moment<1> is 0 |
| `PerlinNoise.Fade` | include/easy/dsp/random/noise/perlin_noise_generator.hpp:32-35 | fade(0) = 0, fade(1) = 1, and fade(t) has the sign of t |
| `PerlinNoise.FadeSymmetric` | include/easy/dsp/random/noise/perlin_noise_generator.hpp:33-35 | fade(1 - t) = 1 - fade(t) |
| `PerlinNoise.FadeUnitInterval` | include/easy/dsp/random/noise/perlin_noise_generator.hpp:33-35 | fade maps [0, 1] into [0, 1] |
| `PerlinNoise.FadeAtLeast32` | include/easy/dsp/random/noise/perlin_noise_generator.hpp:33-35 | fade(t) >= 32 for t >= 2 |
| `PerlinNoise.Lerp` | include/easy/dsp/random/noise/perlin_noise_generator.hpp:37-40 | lerp(0, a, b) = a and lerp(1, a, b) = b |
| `PerlinNoise.LerpBetween` | include/easy/dsp/random/noise/perlin_noise_generator.hpp:38-40 | for t in [0, 1] the interpolated value lies between a and b, whichever of the two is larger |
| `PerlinNoise.Grad` | include/easy/dsp/random/noise/perlin_noise_generator.hpp:42-45 | grad keeps the magnitude of x, and for x != 0 returns x exactly when the hash's low bit is clear |
| `PerlinNoise.GradOdd` | include/easy/dsp/random/noise/perlin_noise_generator.hpp:43-45 | grad(h, -x) = -grad(h, x) |
| `PerlinNoise.LowBits` | include/easy/dsp/random/noise/perlin_noise_generator.hpp:70 | on 64-bit values, x & 0xFF is x mod 256 and x & 1 is x mod 2 |
| `PerlinNoise.Zeros` | include/easy/dsp/random/noise/perlin_noise_generator.hpp:81 | the value-initialized tail has the requested length and holds only zeros |
| `PerlinNoise.TableLayout` | include/easy/dsp/random/noise/perlin_noise_generator.hpp:81-94 | the table has 512 slots: the 256 listed values, then zeros, every entry in [0, 255] |
| `PerlinNoise.Index` | include/easy/dsp/random/noise/perlin_noise_generator.hpp:70 | the masked index is in [0, 255], so both it and index + 1 are valid table positions |
| `PerlinNoise.NoiseCollapses` | include/easy/dsp/random/noise/perlin_noise_generator.hpp:68-76 | for any 512-slot table, the call operator's value on draw r is 2 * fade(r) * grad(p[index + 1], -1), since the first gradient is taken at 0 |
| `PerlinNoise.Noise` | include/easy/dsp/random/noise/perlin_noise_generator.hpp:69-75 | for any 512-slot table and draw r in [0, 511], the value is -2 * fade(r) when p[index + 1] is even and +2 * fade(r) when it is odd, so its magnitude is 2 * fade(r) |
| `PerlinNoise.FractionalPartIsZero` | include/easy/dsp/random/noise/perlin_noise_generator.hpp:71 | r - floor(r) is 0 for an integer draw |
| `PerlinNoise.Sample` | include/easy/dsp/random/noise/perlin_noise_generator.hpp:68-76 | on the library's table, the sample is -2 * fade(r) when p[index + 1] is even and +2 * fade(r) when it is odd, so its magnitude is 2 * fade(r) |
| `PerlinNoise.SampleAtSlot256` | include/easy/dsp/random/noise/perlin_noise_generator.hpp:73-74 | draws with index 255 read slot 256, which is 0, so the sample is -2 * fade(r) |
| `PerlinNoise.SampleUnbounded` | include/easy/dsp/random/noise/perlin_noise_generator.hpp:72-75 | every draw from 2 to 511 gives a sample of magnitude at least 64 |
| `PerlinNoise.SampleExamples` | include/easy/dsp/random/noise/perlin_noise_generator.hpp:68-76 | the draws 0, 1 and 2 give the samples 0, 2 and 64 |
| `PerlinNoise.PerlinNoiseGenerator.constructor` | include/easy/dsp/random/noise/perlin_noise_generator.hpp:60-62 | a new generator holds the given draw stream and has consumed no draws |
| `PerlinNoise.PerlinNoiseGenerator.Next` | include/easy/dsp/random/noise/perlin_noise_generator.hpp:68-76 | each call consumes exactly one draw and returns Sample of it, whose magnitude is 2 * fade(draw) |

## Left out

- The `std::mt19937` engine, `std::uniform_int_distribution` and the `system_clock` seed are
  foreign library state and wall-clock input. They are replaced by a stream of draws in
  [0, 511] given to the constructor.
- IEEE floating point (`double` rounding, `std::floor`, NaN from dividing by a zero count) is
  not modelled. All arithmetic is exact `real` arithmetic.
- Integral element types in `moment` are not modelled. With them the final division would
  truncate toward zero, and the sums could overflow.
- `Moment.NthPower`: the model does not capture the narrowing of the `std::size_t` order to the
  `int` template parameter. Orders are unbounded naturals.
- `PerlinNoise.Fade`: the model does not capture overflow of `fade` on a narrow integer `T`.
  With a 32-bit `T`, every draw from 52 on overflows: fade(52) = 140608 * 15454 = 2,172,956,032,
  which exceeds 2^31 - 1, while fade(51) = 1,970,000,001 still fits.
- The compile-level type mismatches (`lerp` called with a mix of `T` and `double`, and
  `uniform_int_distribution<T>` needing an integral `T`) are not reproduced.
- `easy/dsp/statistics/mean.hpp` is not part of this model. `Mean` is the arithmetic mean of a
  non-empty range. `Moment` reports an empty range before it computes a mean.
- `meta::value_type_t` and the iterator genericity are not modelled. A range is a `seq<real>`.
- Thread-safety of a shared generator instance is a concurrency concern and is not modelled.

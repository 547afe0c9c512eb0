/**
 * The N-th central moment of a finite range,
 *
 *     moment<N>(range) = (1 / count) * sum over x in range of (x - mean)^N,
 *
 * as computed by easy::dsp::statistics::moment. The element type T of the
 * library is modelled by exact `real` arithmetic, and the range by a `seq<real>`
 * (the routines only read it).
 */
module Moment {

  /** The only failure: an empty range makes the final division a division by zero. */
  datatype Error = EmptyInput

  datatype Result<T> = Ok(value: T) | Err(error: Error)

  /** Mathematical power, x^0 == 1. */
  function Pow(x: real, n: nat): real
  {
    if n == 0 then 1.0 else x * Pow(x, n - 1)
  }

  /**
   * The value left in the accumulator of internal::nthPower<N>: it starts at x
   * and is multiplied by x once for every i in [1, N). For N <= 1 nothing is
   * multiplied and the result is x itself.
   */
  function LoopPower(x: real, n: int): (r: real)
    ensures n >= 1 ==> r == Pow(x, n)
    ensures n <= 1 ==> r == x
    decreases n
  {
    if n <= 1 then x else LoopPower(x, n - 1) * x
  }

  /** internal::nthPower<N>(x): repeated multiplication in a counting loop. */
  method NthPower(x: real, n: int) returns (r: real)
    ensures r == LoopPower(x, n)
    ensures n >= 1 ==> r == Pow(x, n)
    ensures n <= 1 ==> r == x
  {
    r := x;
    var i := 1;
    while i < n
      invariant 1 <= i
      invariant i <= n || i == 1
      invariant r == LoopPower(x, i)
    {
      r := r * x;
      i := i + 1;
    }
  }

  /**
   * internal::SumDiffNthPower<T, N>(mean) applied to (sum, current): one step of
   * the fold, adding the N-th power of the current element's deviation.
   */
  function SumDiffNthPower(mean: real, n: nat, sum: real, current: real): (r: real)
    ensures n >= 1 ==> r == sum + Pow(current - mean, n)
    ensures n == 0 ==> r == sum + (current - mean)
  {
    sum + LoopPower(current - mean, n)
  }

  /** std::accumulate of the fold step over s, left to right, starting from init. */
  function Accumulate(s: seq<real>, mean: real, n: nat, init: real): (r: real)
    ensures n >= 1 ==> r == init + SumPow(s, mean, n)
    ensures n == 0 ==> r == init + SumPow(s, mean, 1)
  {
    if |s| == 0 then init
    else
      assert Pow(s[0] - mean, 1) == s[0] - mean;
      Accumulate(s[1..], mean, n, SumDiffNthPower(mean, n, init, s[0]))
  }

  /** Reference definition: sum over the elements of (x - mean)^n. */
  function SumPow(s: seq<real>, mean: real, n: nat): real
  {
    if |s| == 0 then 0.0 else Pow(s[0] - mean, n) + SumPow(s[1..], mean, n)
  }

  /** Reference definition: sum of the elements. */
  function Sum(s: seq<real>): real
  {
    if |s| == 0 then 0.0 else s[0] + Sum(s[1..])
  }

  /** Reference definition: sum of the squares of the elements. */
  function SumSquares(s: seq<real>): real
  {
    if |s| == 0 then 0.0 else s[0] * s[0] + SumSquares(s[1..])
  }

  /**
   * internal::nthMoment<T, N>(first, last, mean): the fold from T() == 0 divided
   * by the element count, or EmptyInput when that count is 0.
   */
  function NthMoment(s: seq<real>, mean: real, n: nat): (r: Result<real>)
    ensures r.Err? <==> |s| == 0
    ensures r.Err? ==> r.error == EmptyInput
    ensures r.Ok? && n >= 1 ==> r.value == SumPow(s, mean, n) / (|s| as real)
    ensures r.Ok? && n == 0 ==> r.value == SumPow(s, mean, 1) / (|s| as real)
  {
    if |s| == 0 then Err(EmptyInput)
    else
      Ok(Accumulate(s, mean, n, 0.0) / (|s| as real))
  }

  /**
   * The arithmetic mean of a non-empty range, the collaborator moment<N> consults
   * when the caller gives no mean.
   */
  function Mean(s: seq<real>): (m: real)
    requires |s| > 0
    ensures m * (|s| as real) == Sum(s)
  {
    Sum(s) / (|s| as real)
  }

  /** moment<N>(first, last, mean): the N-th moment about a mean the caller supplies. */
  function MomentWithMean(s: seq<real>, n: nat, mean: real): (r: Result<real>)
    ensures r.Err? <==> |s| == 0
    ensures r.Ok? && n >= 1 ==> r.value * (|s| as real) == SumPow(s, mean, n)
    ensures r.Ok? && n == 0 ==> r.value * (|s| as real) == SumPow(s, mean, 1)
  {
    NthMoment(s, mean, n)
  }

  /** moment<N>(first, last): the N-th central moment about the range's own mean. */
  function Moment(s: seq<real>, n: nat): (r: Result<real>)
    ensures r.Err? <==> |s| == 0
    ensures |s| > 0 ==> r == MomentWithMean(s, n, Mean(s))
  {
    if |s| == 0 then Err(EmptyInput) else NthMoment(s, Mean(s), n)
  }

  /** Every element of s moved by c. */
  function Shift(s: seq<real>, c: real): (r: seq<real>)
    ensures |r| == |s|
    ensures forall i :: 0 <= i < |s| ==> r[i] == s[i] + c
  {
    if |s| == 0 then [] else [s[0] + c] + Shift(s[1..], c)
  }

  lemma {:induction false} SumShift(s: seq<real>, c: real)
    ensures Sum(Shift(s, c)) == Sum(s) + (|s| as real) * c
  {
    if |s| > 0 {
      assert Shift(s, c)[1..] == Shift(s[1..], c);
      SumShift(s[1..], c);
    }
  }

  lemma {:induction false} AccumulateShift(s: seq<real>, mean: real, n: nat, c: real, init: real)
    ensures Accumulate(Shift(s, c), mean + c, n, init) == Accumulate(s, mean, n, init)
  {
    if |s| > 0 {
      var t := Shift(s, c);
      assert t[1..] == Shift(s[1..], c);
      assert t[0] - (mean + c) == s[0] - mean;
      AccumulateShift(s[1..], mean, n, c, SumDiffNthPower(mean, n, init, s[0]));
    }
  }

  /** Moving every element and the supplied mean by the same c leaves nthMoment unchanged. */
  lemma NthMomentShiftInvariant(s: seq<real>, mean: real, n: nat, c: real)
    ensures NthMoment(Shift(s, c), mean + c, n) == NthMoment(s, mean, n)
  {
    AccumulateShift(s, mean, n, c, 0.0);
  }

  /** The mean moves with the data. */
  lemma MeanShift(s: seq<real>, c: real)
    requires |s| > 0
    ensures Mean(Shift(s, c)) == Mean(s) + c
  {
    SumShift(s, c);
    DivShift(Sum(s), c, |s| as real);
  }

  /** The central moment of every order is invariant under a shift of the data. */
  lemma MomentShiftInvariant(s: seq<real>, n: nat, c: real)
    ensures Moment(Shift(s, c), n) == Moment(s, n)
  {
    if |s| > 0 {
      MeanShift(s, c);
      NthMomentShiftInvariant(s, Mean(s), n, c);
    }
  }

  /** Order 1: the deviations sum to the total minus count times the mean. */
  lemma {:induction false} SumPowOrderOne(s: seq<real>, mean: real)
    ensures SumPow(s, mean, 1) == Sum(s) - (|s| as real) * mean
  {
    if |s| > 0 {
      var k := |s[1..]| as real;
      assert Pow(s[0] - mean, 1) == s[0] - mean;
      SumPowOrderOne(s[1..], mean);
      assert (|s| as real) * mean == k * mean + mean;
    }
  }

  /** x*x - 2*m*x + m*m: the square of the deviation x - m, multiplied out. */
  function SquaredDeviation(x: real, m: real): real
  {
    x * x - 2.0 * (m * x) + m * m
  }

  /** Reference for order 2: the sum of the multiplied-out squared deviations. */
  function SumSquaredDeviations(s: seq<real>, m: real): real
  {
    if |s| == 0 then 0.0 else SquaredDeviation(s[0], m) + SumSquaredDeviations(s[1..], m)
  }

  /** The sum of c * x over s. */
  function SumScaled(s: seq<real>, c: real): real
  {
    if |s| == 0 then 0.0 else c * s[0] + SumScaled(s[1..], c)
  }

  /** The mean of the squares minus the square of m. */
  function MeanOfSquaresMinus(s: seq<real>, m: real): real
    requires |s| > 0
  {
    SumSquares(s) / (|s| as real) - m * m
  }

  /** Population variance: the mean of the squares minus the square of the mean. */
  function Variance(s: seq<real>): real
    requires |s| > 0
  {
    MeanOfSquaresMinus(s, Mean(s))
  }

  lemma SquareDeviation(x: real, m: real)
    ensures Pow(x - m, 2) == SquaredDeviation(x, m)
  {
    assert Pow(x - m, 1) == x - m;
  }

  /** The power loop at order 2 squares each deviation. */
  lemma {:induction false} SumPowOrderTwo(s: seq<real>, m: real)
    ensures SumPow(s, m, 2) == SumSquaredDeviations(s, m)
  {
    if |s| > 0 {
      SumPowOrderTwo(s[1..], m);
      SquareDeviation(s[0], m);
    }
  }

  lemma {:induction false} SumScaledIsScaledSum(s: seq<real>, c: real)
    ensures SumScaled(s, c) == c * Sum(s)
  {
    if |s| > 0 {
      SumScaledIsScaledSum(s[1..], c);
    }
  }

  /** The squared deviations expand to the sum of squares, the scaled sum and the count. */
  lemma {:induction false} ExpandSquaredDeviations(s: seq<real>, m: real)
    ensures SumSquaredDeviations(s, m) == SumSquares(s) - 2.0 * SumScaled(s, m) + (|s| as real) * (m * m)
  {
    if |s| > 0 {
      ExpandSquaredDeviations(s[1..], m);
      CountStep(|s[1..]| as real, m * m);
    }
  }

  lemma CountStep(k: real, q: real)
    ensures (k + 1.0) * q == k * q + q
  {
  }

  /** About the mean, the scaled sum is count * mean^2. */
  lemma ScaledSumAtMean(s: seq<real>, m: real)
    ensures m * (|s| as real) == Sum(s) ==> SumScaled(s, m) == (|s| as real) * (m * m)
  {
    SumScaledIsScaledSum(s, m);
  }

  lemma DivShift(a: real, c: real, k: real)
    requires k > 0.0
    ensures (a + k * c) / k == a / k + c
  {
  }

  /** deviations == squares - 2 scaled + k m^2 with scaled == k m^2 gives deviations / k == squares / k - m^2. */
  lemma CollapseDeviations(deviations: real, squares: real, scaled: real, m: real, k: real)
    requires k > 0.0
    requires scaled == k * (m * m)
    requires deviations == squares - 2.0 * scaled + k * (m * m)
    ensures deviations / k == squares / k - m * m
  {
  }

  /** The first central moment about the range's own mean is zero. */
  lemma FirstMomentIsZero(s: seq<real>)
    requires |s| > 0
    ensures Moment(s, 1) == Ok(0.0)
  {
    var m, k := Mean(s), |s| as real;
    SumPowOrderOne(s, m);
    assert k * m == Sum(s);
    assert SumPow(s, m, 1) == 0.0;
  }

  /**
   * moment<0> is not the constant 1 one might expect: nthPower<0> returns its
   * argument, so order 0 gives the first central moment, which is zero.
   */
  lemma ZerothMomentIsZero(s: seq<real>)
    requires |s| > 0
    ensures Moment(s, 0) == Moment(s, 1) == Ok(0.0)
  {
    FirstMomentIsZero(s);
  }

  /** moment<2> about any mean is the mean of the squared deviations. */
  lemma SecondMomentAbout(s: seq<real>, m: real)
    requires |s| > 0
    ensures MomentWithMean(s, 2, m) == Ok(SumSquaredDeviations(s, m) / (|s| as real))
  {
    SumPowOrderTwo(s, m);
  }

  /** About a value m with m * count == sum, the mean squared deviation is E[x^2] - m^2. */
  lemma MeanSquaredDeviation(s: seq<real>, m: real)
    requires |s| > 0
    requires m * (|s| as real) == Sum(s)
    ensures SumSquaredDeviations(s, m) / (|s| as real) == SumSquares(s) / (|s| as real) - m * m
  {
    ExpandSquaredDeviations(s, m);
    ScaledSumAtMean(s, m);
    CollapseDeviations(SumSquaredDeviations(s, m), SumSquares(s), SumScaled(s, m), m, |s| as real);
  }

  /** About a value m with m * count == sum, moment<2> is E[x^2] - m^2. */
  lemma VarianceAboutMean(s: seq<real>, m: real)
    requires |s| > 0
    requires m * (|s| as real) == Sum(s)
    ensures MomentWithMean(s, 2, m) == Ok(MeanOfSquaresMinus(s, m))
  {
    SecondMomentAbout(s, m);
    MeanSquaredDeviation(s, m);
  }

  /** The second central moment is the population variance E[x^2] - mean^2. */
  lemma SecondMomentIsVariance(s: seq<real>)
    requires |s| > 0
    ensures Moment(s, 2) == Ok(Variance(s))
  {
    VarianceAboutMean(s, Mean(s));
  }

  /** The textbook sample {2, 4, 4, 4, 5, 5, 7, 9}: mean 5, variance 4, first moment 0. */
  lemma VarianceExample()
    ensures Mean([2.0, 4.0, 4.0, 4.0, 5.0, 5.0, 7.0, 9.0]) == 5.0
    ensures Moment([2.0, 4.0, 4.0, 4.0, 5.0, 5.0, 7.0, 9.0], 2) == Ok(4.0)
    ensures Moment([2.0, 4.0, 4.0, 4.0, 5.0, 5.0, 7.0, 9.0], 1) == Ok(0.0)
  {
    var s := [2.0, 4.0, 4.0, 4.0, 5.0, 5.0, 7.0, 9.0];
    assert Sum(s[7..]) == 9.0;
    assert Sum(s[6..]) == 16.0;
    assert Sum(s[5..]) == 21.0;
    assert Sum(s[4..]) == 26.0;
    assert Sum(s[3..]) == 30.0;
    assert Sum(s[2..]) == 34.0;
    assert Sum(s[1..]) == 38.0;
    assert Sum(s) == 40.0;
    assert SumSquares(s[7..]) == 81.0;
    assert SumSquares(s[6..]) == 130.0;
    assert SumSquares(s[5..]) == 155.0;
    assert SumSquares(s[4..]) == 180.0;
    assert SumSquares(s[3..]) == 196.0;
    assert SumSquares(s[2..]) == 212.0;
    assert SumSquares(s[1..]) == 228.0;
    assert SumSquares(s) == 232.0;
    SecondMomentIsVariance(s);
    FirstMomentIsZero(s);
  }
}

/**
 * One-dimensional gradient noise as produced by
 * easy::dsp::random::perlin_noise_generator, over exact real arithmetic. The
 * seeded random engine and its uniform distribution over [0, 511] are not
 * modelled: their draws are supplied from outside.
 */
module PerlinNoise {

  function Abs(x: real): real
  {
    if x < 0.0 then -x else x
  }

  /** The quadratic factor of the fade polynomial has no real root. */
  lemma FadeFactorPositive(t: real)
    ensures t * (t * 6.0 - 15.0) + 10.0 > 0.0
  {
    var u := t - 1.25;
    assert t * (t * 6.0 - 15.0) + 10.0 == 6.0 * (u * u) + 0.625;
    assert u * u >= 0.0;
  }

  lemma MulSign(a: real, b: real)
    requires b >= 0.0
    ensures a >= 0.0 ==> a * b >= 0.0
    ensures a <= 0.0 ==> a * b <= 0.0
  {
  }

  /** A weight t in [0, 1] scales d towards 0 without passing it. */
  lemma ScaleBetween(t: real, d: real)
    ensures 0.0 <= t <= 1.0 && d >= 0.0 ==> 0.0 <= t * d <= d
    ensures 0.0 <= t <= 1.0 && d <= 0.0 ==> d <= t * d <= 0.0
  {
    if 0.0 <= t <= 1.0 {
      assert d - t * d == (1.0 - t) * d;
      MulSign(d, t);
      MulSign(d, 1.0 - t);
    }
  }

  /**
   * fade(t) = 6t^5 - 15t^4 + 10t^3, the quintic smoothstep, written in the
   * nested form of the source. It fixes 0 and 1 and has the sign of t.
   */
  function Fade(t: real): (r: real)
    ensures t == 0.0 ==> r == 0.0
    ensures t == 1.0 ==> r == 1.0
    ensures t >= 0.0 ==> r >= 0.0
    ensures t <= 0.0 ==> r <= 0.0
  {
    FadeFactorPositive(t);
    MulSign(t, t * t);
    MulSign(t * t * t, t * (t * 6.0 - 15.0) + 10.0);
    t * t * t * (t * (t * 6.0 - 15.0) + 10.0)
  }

  /** The S-curve is point-symmetric about (1/2, 1/2). */
  lemma FadeSymmetric(t: real)
    ensures Fade(1.0 - t) == 1.0 - Fade(t)
  {
    var s := 1.0 - t;
    assert s * s * s == 1.0 - 3.0 * t + 3.0 * t * t - t * t * t;
    assert s * (s * 6.0 - 15.0) + 10.0 == 6.0 * t * t + 3.0 * t + 1.0;
  }

  /** On the unit interval the fade weight stays in the unit interval. */
  lemma FadeUnitInterval(t: real)
    requires 0.0 <= t <= 1.0
    ensures 0.0 <= Fade(t) <= 1.0
  {
    FadeSymmetric(t);
    assert Fade(1.0 - t) >= 0.0;
  }

  /** Beyond the unit interval the fade weight grows without bound: from 2 on it is at least 32. */
  lemma FadeAtLeast32(t: real)
    requires t >= 2.0
    ensures Fade(t) >= 32.0
  {
    var q := t * (t * 6.0 - 15.0) + 10.0;
    assert q - 4.0 == 3.0 * ((2.0 * t - 1.0) * (t - 2.0));
    assert (2.0 * t - 1.0) * (t - 2.0) >= 0.0;
    assert t * t >= 4.0;
    assert t * t * t >= 8.0;
    assert t * t * t * q >= 8.0 * q;
  }

  /** lerp(t, a, b) = a + t (b - a): a at t = 0 and b at t = 1. */
  function Lerp(t: real, a: real, b: real): (r: real)
    ensures t == 0.0 ==> r == a
    ensures t == 1.0 ==> r == b
  {
    a + t * (b - a)
  }

  /** For a weight in [0, 1], lerp stays between its two end points. */
  lemma LerpBetween(t: real, a: real, b: real)
    requires 0.0 <= t <= 1.0
    ensures a <= b ==> a <= Lerp(t, a, b) <= b
    ensures b <= a ==> b <= Lerp(t, a, b) <= a
  {
    var step := t * (b - a);
    ScaleBetween(t, b - a);
    assert Lerp(t, a, b) == a + step;
    if a <= b {
      assert 0.0 <= step <= b - a;
    } else {
      assert b - a <= step <= 0.0;
    }
  }

  /**
   * grad(hash, x): x when the low bit of hash is clear, -x when it is set. The
   * hashes are table entries, all in [0, 255], and for a non-negative hash the
   * low bit hash & 1 is hash % 2.
   */
  function Grad(hash: int, x: real): (r: real)
    ensures Abs(r) == Abs(x)
    ensures x != 0.0 ==> (r == x <==> hash % 2 == 0)
  {
    if hash % 2 == 0 then x else -x
  }

  /** The gradient selector is odd in x. */
  lemma GradOdd(hash: int, x: real)
    ensures Grad(hash, -x) == -Grad(hash, x)
  {
  }

  /** The masks of the generator keep low bits: x & 0xFF is x mod 256 and x & 1 is x mod 2. */
  lemma LowBits(x: bv64)
    ensures x & 0xFF == x % 256
    ensures x & 1 == x % 2
  {
  }

  /** The range of every value the table holds. */
  type Byte = x: int | 0 <= x <= 255

  /**
   * The 256 values listed in the table's initializer (a permutation of 0..255),
   * sixteen to a row.
   */
  const Row0: seq<Byte> := [151, 160, 137, 91, 90, 15, 131, 13, 201, 95, 96, 53, 194, 233, 7, 225]
  const Row1: seq<Byte> := [140, 36, 103, 30, 69, 142, 8, 99, 37, 240, 21, 10, 23, 190, 6, 148]
  const Row2: seq<Byte> := [247, 120, 234, 75, 0, 26, 197, 62, 94, 252, 219, 203, 117, 35, 11, 32]
  const Row3: seq<Byte> := [57, 177, 33, 88, 237, 149, 56, 87, 174, 20, 125, 136, 171, 168, 68, 175]
  const Row4: seq<Byte> := [74, 165, 71, 134, 139, 48, 27, 166, 77, 146, 158, 231, 83, 111, 229, 122]
  const Row5: seq<Byte> := [60, 211, 133, 230, 220, 105, 92, 41, 55, 46, 245, 40, 244, 102, 143, 54]
  const Row6: seq<Byte> := [65, 25, 63, 161, 1, 216, 80, 73, 209, 76, 132, 187, 208, 89, 18, 169]
  const Row7: seq<Byte> := [200, 196, 135, 130, 116, 188, 159, 86, 164, 100, 109, 198, 173, 186, 3, 64]
  const Row8: seq<Byte> := [52, 217, 226, 250, 124, 123, 5, 202, 38, 147, 118, 126, 255, 82, 85, 212]
  const Row9: seq<Byte> := [207, 206, 59, 227, 47, 16, 58, 17, 182, 189, 28, 42, 223, 183, 170, 213]
  const Row10: seq<Byte> := [119, 248, 152, 2, 44, 154, 163, 70, 221, 153, 101, 155, 167, 43, 172, 9]
  const Row11: seq<Byte> := [129, 22, 39, 253, 19, 98, 108, 110, 79, 113, 224, 232, 178, 185, 112, 104]
  const Row12: seq<Byte> := [218, 246, 97, 228, 251, 34, 242, 193, 238, 210, 144, 12, 191, 179, 162, 241]
  const Row13: seq<Byte> := [81, 51, 145, 235, 249, 14, 239, 107, 49, 192, 214, 31, 181, 199, 106, 157]
  const Row14: seq<Byte> := [184, 84, 204, 176, 115, 121, 50, 45, 127, 4, 150, 254, 138, 236, 205, 93]
  const Row15: seq<Byte> := [222, 114, 67, 29, 24, 72, 243, 141, 128, 195, 78, 66, 215, 61, 156, 180]

  const Initializers: seq<Byte> :=
    Row0 + Row1 + Row2 + Row3 + Row4 + Row5 + Row6 + Row7 +
    Row8 + Row9 + Row10 + Row11 + Row12 + Row13 + Row14 + Row15

  /**
   * The static std::array<T, 512> permutation: only its first 256 slots are
   * listed, so aggregate initialization sets the remaining 256 to zero.
   */
  const Permutation: seq<Byte> := Initializers + Zeros(256)

  /** n value-initialized slots. */
  function Zeros(n: nat): (z: seq<Byte>)
    ensures |z| == n
    ensures forall i :: 0 <= i < n ==> z[i] == 0
  {
    if n == 0 then [] else [0] + Zeros(n - 1)
  }

  lemma TableLayout()
    ensures |Permutation| == 512
    ensures forall i :: 0 <= i < 256 ==> Permutation[i] == Initializers[i]
    ensures forall i :: 256 <= i < 512 ==> Permutation[i] == 0
    ensures forall i :: 0 <= i < 512 ==> 0 <= Permutation[i] <= 255
  {
  }

  /** index = r & 0xFF for a non-negative draw: a slot such that it and the next are in the table. */
  function Index(r: int): (i: int)
    requires 0 <= r
    ensures 0 <= i <= 255
  {
    r % 256
  }

  /**
   * The arithmetic of perlin_noise_generator::operator() after the draw r in
   * [0, 511], over a 512-slot table p: both reads, p[index] and p[index + 1],
   * are in bounds for every draw. The value is plus or minus twice the fade of
   * the raw draw, the sign set by the low bit of p[index + 1].
   */
  function Noise(p: seq<Byte>, r: int): (v: real)
    requires |p| == 512 && 0 <= r <= 511
    ensures v == (if p[Index(r) + 1] % 2 == 0 then -2.0 else 2.0) * Fade(r as real)
    ensures Abs(v) == 2.0 * Fade(r as real)
  {
    var randomValue := r as real;
    var index := Index(r);
    var floorValue := randomValue - (randomValue.Floor as real);
    var fadeValue := Fade(randomValue);
    Lerp(fadeValue, Grad(p[index], floorValue), Grad(p[index + 1], floorValue - 1.0)) * 2.0
  }

  /** perlin_noise_generator::operator() with its own static table, once the draw r is known. */
  function Sample(r: int): (v: real)
    requires 0 <= r <= 511
    ensures v == (if Permutation[Index(r) + 1] % 2 == 0 then -2.0 else 2.0) * Fade(r as real)
    ensures Abs(v) == 2.0 * Fade(r as real)
  {
    TableLayout();
    Noise(Permutation, r)
  }

  /**
   * Because r is an integer its fractional part is 0, so the first gradient
   * term vanishes and the interpolation leaves 2 * fade(r) * grad(p[index + 1], -1).
   */
  lemma NoiseCollapses(p: seq<Byte>, r: int)
    requires |p| == 512 && 0 <= r <= 511
    ensures Noise(p, r) == 2.0 * Fade(r as real) * Grad(p[Index(r) + 1], -1.0)
  {
  }

  /** An integer draw has no fractional part. */
  lemma FractionalPartIsZero(r: int)
    ensures (r as real) - ((r as real).Floor as real) == 0.0
  {
  }

  /** Draws 255 and 511 read slot 256, which holds 0, so their sample is negative. */
  lemma SampleAtSlot256(r: int)
    requires 0 <= r <= 511 && Index(r) == 255
    ensures Permutation[Index(r) + 1] == 0
    ensures Sample(r) == -2.0 * Fade(r as real)
  {
    TableLayout();
  }

  /** No bound of the form [-2, 2] holds: every draw from 2 on gives a sample of magnitude at least 64. */
  lemma SampleUnbounded(r: int)
    requires 2 <= r <= 511
    ensures Abs(Sample(r)) >= 64.0
  {
    FadeAtLeast32(r as real);
  }

  /** The first three draws, worked out: p[2] = 137 and p[3] = 91 are odd. */
  lemma SampleExamples()
    ensures Sample(0) == 0.0
    ensures Sample(1) == 2.0
    ensures Sample(2) == 64.0
  {
    assert Row0[2] == 137 && Row0[3] == 91;
    assert Permutation[Index(1) + 1] == 137 && Permutation[Index(2) + 1] == 91;
    assert Fade(2.0) == 32.0;
  }

  /** The engine with its distribution, as the stream of draws it will produce. */
  ghost predicate DrawsInRange(draws: nat -> int)
  {
    forall k: nat :: 0 <= draws(k) <= 511
  }

  /**
   * perlin_noise_generator: the engine's state is how many of its draws have
   * been consumed; the table is shared, constant data.
   */
  class PerlinNoiseGenerator {
    const draws: nat -> int
    var drawn: nat

    ghost predicate Valid()
      reads this
    {
      DrawsInRange(draws)
    }

    constructor (draws: nat -> int)
      requires DrawsInRange(draws)
      ensures Valid()
      ensures this.draws == draws && drawn == 0
    {
      this.draws := draws;
      drawn := 0;
    }

    /** operator(): consume the next draw and turn it into a sample. */
    method Next() returns (v: real)
      requires Valid()
      modifies this
      ensures Valid()
      ensures drawn == old(drawn) + 1
      ensures v == Sample(draws(old(drawn)))
      ensures Abs(v) == 2.0 * Fade(draws(old(drawn)) as real)
    {
      var randomValue := draws(drawn);
      drawn := drawn + 1;
      v := Sample(randomValue);
    }
  }
}

/**
 One-dimensional value noise, as computed by `PerlinNoise` in the fog demo.

 The integer lattice point `n` gets a pseudo-random value `Hash(n)` from a
 32-bit bit-mixing step; between two lattice points the values are blended
 with the smoothstep fade curve. C++ `int` arithmetic is modelled on the
 unsigned 32-bit pattern of the value, as an integer in [0, 2^32): every
 shift, product and sum is reduced modulo 2^32, which is two's-complement
 wrap-around. Everything that is `float`/`double` in the source is `real`
 here, so rounding is not modelled.
 */
module Noise {
  import opened Reals

  /** 2^32: the number of 32-bit patterns. */
  const Modulus: int := 0x1_0000_0000

  /** 2^31: keeping the value modulo this clears the sign bit (`& 0x7fffffff`). */
  const SignBit: int := 0x8000_0000

  /** The divisor 1073741824.0 = 2^30 that normalises the masked hash. */
  const HashScale: real := 1073741824.0

  /** The 32-bit pattern of a mathematical integer, read as unsigned. */
  function Word(n: int): (w: int)
    ensures 0 <= w < Modulus
  {
    n % Modulus
  }

  /** Bitwise exclusive or of two non-negative integers. */
  function Xor(a: nat, b: nat): nat
    decreases a + b
  {
    if a == 0 then b
    else if b == 0 then a
    else 2 * Xor(a / 2, b / 2) + (if a % 2 == b % 2 then 0 else 1)
  }

  /** The shift-xor-multiply mixing of `hash` on a 32-bit pattern `u`: `x << 13`
      keeps the low 32 bits of `u * 2^13`, and the products and sums wrap. */
  function Mix(u: int): (m: int)
    requires 0 <= u < Modulus
    ensures 0 <= m < Modulus
  {
    var y := Xor(Word(u * 8192), u);
    Word(y * (y * y * 15731 + 789221) + 1376312589)
  }

  /** The mixed pattern with its sign bit cleared, as a non-negative integer. */
  function Masked(n: int): (m: int)
    ensures 0 <= m < SignBit
  {
    Mix(Word(n)) % SignBit
  }

  /** `hash`: the lattice value of `n`, `1 - masked / 2^30`. */
  function Hash(n: int): (h: real)
    ensures -1.0 < h <= 1.0
  {
    1.0 - Masked(n) as real / HashScale
  }

  /** `smoothstep`: the fade curve `t^2 (3 - 2t)`. */
  function Smoothstep(t: real): real
  {
    t * t * (3.0 - 2.0 * t)
  }

  /** The fractional part `x - floor(x)` used as the blend parameter. */
  function Fraction(x: real): (t: real)
    ensures 0.0 <= t < 1.0
    ensures x == x.Floor as real + t
  {
    x - x.Floor as real
  }

  /** The blend of `noise`: weights `w0 = 1 - smoothstep(t)` on `h0` and
      `w1 = smoothstep(t)` on `h1`. */
  function Blend(h0: real, h1: real, t: real): real
  {
    var w1 := Smoothstep(t);
    var w0 := 1.0 - w1;
    w0 * h0 + w1 * h1
  }

  /** `noise(x)`: blend the lattice values of `x0 = floor(x)` and `x1 = x0 + 1`. */
  function Sample(x: real): (r: real)
    ensures -1.0 < r <= 1.0
  {
    var x0 := x.Floor;
    var x1 := x0 + 1;
    var h0, h1 := Hash(x0), Hash(x1);
    BlendBetween(h0, h1, Fraction(x));
    Blend(h0, h1, Fraction(x))
  }

  // ---------------------------------------------------------------------
  // The fade curve
  // ---------------------------------------------------------------------

  /** The fade curve fixes both ends of the unit interval and its midpoint. */
  lemma SmoothstepEnds()
    ensures Smoothstep(0.0) == 0.0
    ensures Smoothstep(1.0) == 1.0
    ensures Smoothstep(0.5) == 0.5
  {
  }

  /** The fade curve maps the unit interval into itself. */
  lemma SmoothstepInUnit(t: real)
    requires 0.0 <= t <= 1.0
    ensures 0.0 <= Smoothstep(t) <= 1.0
  {
    MulNonneg(t, t);
    MulNonneg(t * t, 3.0 - 2.0 * t);
    SmoothstepComplement(t);
    MulNonneg(1.0 - t, 1.0 - t);
    MulNonneg((1.0 - t) * (1.0 - t), 1.0 + 2.0 * t);
  }

  /** The fade curve is non-decreasing on the unit interval. */
  lemma SmoothstepMonotone(a: real, b: real)
    requires 0.0 <= a <= b <= 1.0
    ensures Smoothstep(a) <= Smoothstep(b)
  {
    MulUnitBelow(a, a);
    MulUnitBelow(b, b);
    UnitProductBelow(a, b);
    SlopeFactorNonneg(a, b, a * a, a * b, b * b);
    MulNonneg(b - a, 3.0 * (a + b) - 2.0 * (a * a + a * b + b * b));
    SmoothstepDifference(a, b);
    NonnegDifference(Smoothstep(a), Smoothstep(b), (b - a) * (3.0 * (a + b) - 2.0 * (a * a + a * b + b * b)));
  }

  /** The second factor of `SmoothstepDifference` is not negative once each product
      is bounded by its factors. */
  lemma SlopeFactorNonneg(a: real, b: real, aa: real, ab: real, bb: real)
    requires aa <= a && ab <= a && ab <= b && bb <= b
    ensures 0.0 <= 3.0 * (a + b) - 2.0 * (aa + ab + bb)
  {
  }

  /** The fade curve is point-symmetric about (1/2, 1/2). */
  lemma SmoothstepSymmetric(t: real)
    ensures Smoothstep(1.0 - t) == 1.0 - Smoothstep(t)
  {
    SmoothstepComplement(t);
    SmoothstepOfComplement(t);
  }

  lemma SmoothstepComplement(t: real)
    ensures 1.0 - Smoothstep(t) == (1.0 - t) * (1.0 - t) * (1.0 + 2.0 * t)
  {
  }

  lemma SmoothstepOfComplement(t: real)
    ensures Smoothstep(1.0 - t) == (1.0 - t) * (1.0 - t) * (1.0 + 2.0 * t)
  {
  }

  lemma SmoothstepDifference(a: real, b: real)
    ensures Smoothstep(b) - Smoothstep(a) == (b - a) * (3.0 * (a + b) - 2.0 * (a * a + a * b + b * b))
  {
  }

  // ---------------------------------------------------------------------
  // The blend
  // ---------------------------------------------------------------------

  /** `r` is the combination `(1 - w) a + w b` with `w` in the unit interval. */
  ghost predicate ConvexCombination(r: real, a: real, b: real, w: real)
  {
    0.0 <= w <= 1.0 && r == (1.0 - w) * a + w * b
  }

  /** A convex combination lies between its two end points. */
  lemma ConvexCombinationBetween(r: real, a: real, b: real, w: real)
    requires ConvexCombination(r, a, b, w)
    ensures Min(a, b) <= r <= Max(a, b)
  {
    if a <= b {
      PartialStep(r, a, b - a, w);
    } else {
      PartialStep(r, b, a - b, 1.0 - w);
    }
  }

  /** For `t` in the unit interval, the two weights are in the unit interval, sum to
      one, and the blend is their convex combination of `h0` and `h1`. */
  lemma BlendIsConvex(h0: real, h1: real, t: real)
    requires 0.0 <= t <= 1.0
    ensures 0.0 <= 1.0 - Smoothstep(t) <= 1.0
    ensures (1.0 - Smoothstep(t)) + Smoothstep(t) == 1.0
    ensures ConvexCombination(Blend(h0, h1, t), h0, h1, Smoothstep(t))
  {
    SmoothstepInUnit(t);
  }

  /** A blend lies between the two values it blends. */
  lemma BlendBetween(h0: real, h1: real, t: real)
    requires 0.0 <= t <= 1.0
    ensures Min(h0, h1) <= Blend(h0, h1, t) <= Max(h0, h1)
  {
    BlendIsConvex(h0, h1, t);
    ConvexCombinationBetween(Blend(h0, h1, t), h0, h1, Smoothstep(t));
  }

  /** At the two ends of a cell the blend gives exactly the end values. */
  lemma BlendEnds(h0: real, h1: real)
    ensures Blend(h0, h1, 0.0) == h0
    ensures Blend(h0, h1, 1.0) == h1
  {
    SmoothstepEnds();
  }

  // ---------------------------------------------------------------------
  // The noise function
  // ---------------------------------------------------------------------

  /** At an integer the noise is exactly the lattice value there. */
  lemma SampleAtInteger(n: int)
    ensures Sample(n as real) == Hash(n)
  {
    assert (n as real).Floor == n;
    assert Fraction(n as real) == 0.0;
    BlendEnds(Hash(n), Hash(n + 1));
  }

  /** The noise lies between the lattice values of its two neighbours. */
  lemma SampleBetweenNeighbours(x: real)
    ensures var x0 := x.Floor;
            Min(Hash(x0), Hash(x0 + 1)) <= Sample(x) <= Max(Hash(x0), Hash(x0 + 1))
  {
    BlendBetween(Hash(x.Floor), Hash(x.Floor + 1), Fraction(x));
  }

  /** The noise is the convex combination of its neighbours' lattice values with
      weight `smoothstep(x - floor(x))` on the right neighbour. */
  lemma SampleIsConvexCombination(x: real)
    ensures ConvexCombination(Sample(x), Hash(x.Floor), Hash(x.Floor + 1), Smoothstep(x - x.Floor as real))
  {
    BlendIsConvex(Hash(x.Floor), Hash(x.Floor + 1), Fraction(x));
  }

  /** Continuity across lattice points: the cell that ends at `n + 1`, run to its
      right end, meets the noise value at `n + 1`; run to its left end it meets the
      value at `n`. */
  lemma SampleContinuousAtLattice(n: int)
    ensures Blend(Hash(n), Hash(n + 1), 1.0) == Sample((n + 1) as real)
    ensures Blend(Hash(n), Hash(n + 1), 0.0) == Sample(n as real)
  {
    BlendEnds(Hash(n), Hash(n + 1));
    SampleAtInteger(n);
    SampleAtInteger(n + 1);
  }

  /** The hash sees its argument only modulo 2^32, as a C++ `int` would. */
  lemma HashWraps(n: int)
    ensures Hash(n + Modulus) == Hash(n)
    ensures Hash(n - Modulus) == Hash(n)
  {
    WordWraps(n);
    WordWraps(n - Modulus);
  }

  lemma WordWraps(n: int)
    ensures Word(n + Modulus) == Word(n)
  {
    ModulusShift(n);
  }

  lemma ModulusShift(n: int)
    ensures (n + Modulus) % Modulus == n % Modulus
  {
    var q, r := n / Modulus, n % Modulus;
    assert n == q * Modulus + r && 0 <= r < Modulus;
    assert n + Modulus == (q + 1) * Modulus + r;
  }

  /** The lattice value at 0 is negative: the mixed word is 1376312589. */
  lemma HashAtZero()
    ensures Masked(0) == 1376312589
    ensures Hash(0) < 0.0
    ensures Sample(0.0) < 0.0
  {
    assert Word(0) == 0;
    assert Mix(0) == 1376312589;
    SampleAtInteger(0);
  }

  /** At 1 the shift and the exclusive or both act: `(1 << 13) ^ 1` is 8193, and the
      polynomial wraps to the masked word 1316808037, so the lattice value is negative. */
  lemma HashAtOne()
    ensures Masked(1) == 1316808037
    ensures Hash(1) < 0.0
  {
    assert Word(1) == 1 && Word(8192) == 8192;
    assert Xor(8192, 1) == 8193;
    assert Mix(1) == 1316808037;
  }

  /** At -1 (the pattern 0xffffffff) the shift drops the high bits: `(-1 << 13) ^ -1` is
      8191, and the masked word is 107238581, so the lattice value is positive. */
  lemma HashAtMinusOne()
    ensures Masked(-1) == 107238581
    ensures Hash(-1) > 0.0
  {
    WordOf(-1, -1, 0xffff_ffff);
    MixOfAllOnes();
    assert 2254722229 % SignBit == 107238581;
  }

  /** The mixing of the all-ones pattern: `y` is 8191 and the polynomial wraps to 2254722229. */
  lemma MixOfAllOnes()
    ensures Mix(0xffff_ffff) == 2254722229
  {
    var u := 0xffff_ffff;
    WordOf(u * 8192, 8191, 0xffff_e000);
    ShiftedOnes();
    XorSharedHighBits(0xffff_e000, 13, 8191);
    assert Xor(Word(u * 8192), u) == 8191;
    WordOf(8191 * (8191 * 8191 * 15731 + 789221) + 1376312589, 2012832, 2254722229);
  }

  /** The word of `n` is the `r` of any decomposition `n = q 2^32 + r` with `0 <= r < 2^32`. */
  lemma WordOf(n: int, q: int, r: int)
    requires 0 <= r < Modulus && n == q * Modulus + r
    ensures Word(n) == r
  {
  }

  function Pow2(k: nat): (p: nat)
    ensures p >= 1
  {
    if k == 0 then 1 else 2 * Pow2(k - 1)
  }

  lemma Pow2At13()
    ensures Pow2(13) == 8192
  {
    assert Pow2(4) == 16;
    assert Pow2(8) == 256;
  }

  /** `0xffffe000`, the pattern of `-1 << 13`, has its low 13 bits clear. */
  lemma ShiftedOnes()
    ensures LowBitsClear(0xffff_e000, 13) && Pow2(13) == 8192
  {
    Pow2At13();
    assert LowBitsClear(0x7_ffff, 0);
    assert LowBitsClear(0xff_ffe0, 5);
    assert LowBitsClear(0x1fff_fc00, 10);
  }

  lemma XorSelf(a: nat)
    ensures Xor(a, a) == 0
    decreases a
  {
    if a != 0 {
      XorSelf(a / 2);
    }
  }

  /** The low `k` bits of `a` are zero: `a` is a multiple of `2^k`. */
  predicate LowBitsClear(a: nat, k: nat)
  {
    k == 0 || (a % 2 == 0 && LowBitsClear(a / 2, k - 1))
  }

  /** Adding fewer than `2^k` to a number whose low `k` bits are clear only fills
      those bits, so the two xor to the amount added. */
  lemma XorSharedHighBits(a: nat, k: nat, m: nat)
    requires LowBitsClear(a, k) && m < Pow2(k)
    ensures Xor(a, a + m) == m
    decreases k
  {
    if k == 0 || m == 0 {
      XorSelf(a);
    } else if a != 0 {
      XorSharedHighBits(a / 2, k - 1, m / 2);
      assert (a + m) / 2 == a / 2 + m / 2 && (a + m) % 2 == m % 2;
      assert Xor(a, a + m) == 2 * Xor(a / 2, a / 2 + m / 2) + m % 2;
    }
  }
}

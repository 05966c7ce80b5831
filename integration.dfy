/** Hemispherical-directional reflectance integration: the table builder
    (texel enumeration and the texel-to-(roughness, view angle) mapping) and
    the sample evaluator (per-sample clamps, the Schlick split of the Fresnel
    weight and the chunked reduction of the two moments).

    Scalars are `real`: single- and double-precision rounding and the casts
    between them are not modelled. Every call into code that is not part of
    this model (low-discrepancy points, half-vector sampling, the throughput,
    vector normalisation, the square root, the floors of the BRDF library) is
    a field of `Externals`. */
module Integration {

  /** Number of Monte Carlo samples per texel. */
  const SAMPLE_COUNT: nat := 16384
  /** Grain size of the parallel reduction over samples. */
  const GRAIN_SIZE: nat := 64
  /** Floor of the radicand in the half-vector-free VdotH identity. */
  const LENGTH_MINIMUM: real := 0.00001
  /** Texel indices and counts are 32-bit unsigned integers. */
  const U32_LIMIT: nat := 0x1_0000_0000

  datatype Vec2 = Vec2(x: real, y: real)
  datatype Vec3 = Vec3(x: real, y: real, z: real)

  /** The pair of double-precision running sums (f0 and f90 factor moments). */
  datatype Moments = Moments(f0: real, f90: real)

  /** What one reduction task captures: the clamped view direction and roughness. */
  datatype ReduceUserData = ReduceUserData(omegaO: Vec3, alpha: real)

  /** A floor constant of the BRDF library: strictly positive, at most one. */
  type Floor = r: real | 0.0 < r <= 1.0 witness 1.0

  /** The library square root: non-negative on non-negative input, positive on positive input. */
  type SquareRoot = f: real -> real | forall r :: 0.0 <= r ==> 0.0 <= f(r) && (0.0 < r ==> 0.0 < f(r))
    witness (r: real) => 1.0

  /** The microfacet throughput without Fresnel, non-negative for every input. */
  type Throughput = f: (real, real) -> real | forall alpha, nDotL :: 0.0 <= f(alpha, nDotL)
    witness (alpha: real, nDotL: real) => 0.0

  /** The collaborators the integration calls but that are not part of this model. */
  datatype Externals = Externals(
    alphaMin: Floor,                          // roughness floor of the BRDF library
    ndotvMin: Floor,                          // cosine floor of the BRDF library
    hammersley: (nat, nat) -> Vec2,           // 2-D low-discrepancy point (index, count)
    sampleOmegaH: (Vec2, real, Vec3) -> Vec3, // half-vector sample (xi, alpha, omega_o)
    normalize: Vec3 -> Vec3,                  // vector normalisation
    sqrt: SquareRoot,
    throughput: Throughput)                   // (alpha, NdotL) -> throughput

  // ---------------------------------------------------------------------------
  // Scalar helpers with the semantics of std::max and std::min

  function Max(a: real, b: real): (r: real)
    ensures a <= r && b <= r && (r == a || r == b)
  {
    if a < b then b else a
  }

  function Min(a: real, b: real): (r: real)
    ensures r <= a && r <= b && (r == a || r == b)
  {
    if b < a then b else a
  }

  function Dot(a: Vec3, b: Vec3): real {
    a.x * b.x + a.y * b.y + a.z * b.z
  }

  function Negate(v: Vec3): Vec3 {
    Vec3(-v.x, -v.y, -v.z)
  }

  /** Reflection of `i` about the normal `n`: i - 2 dot(i, n) n. */
  function Reflect(i: Vec3, n: Vec3): Vec3 {
    var d := 2.0 * Dot(i, n);
    Vec3(i.x - d * n.x, i.y - d * n.y, i.z - d * n.z)
  }

  lemma ProductNonNegative(a: real, b: real)
    requires 0.0 <= a && 0.0 <= b
    ensures 0.0 <= a * b
  {
  }

  lemma ProductInUnit(a: real, b: real)
    requires 0.0 <= a <= 1.0 && 0.0 <= b <= 1.0
    ensures 0.0 <= a * b <= a
  {
    ProductNonNegative(a, 1.0 - b);
    assert a * (1.0 - b) == a - a * b;
  }

  lemma ProductMonotone(a: real, b: real, c: real, d: real)
    requires 0.0 <= a <= b && 0.0 <= c <= d
    ensures a * c <= b * d
  {
    assert a * c <= a * d;
    assert a * d <= b * d;
  }

  lemma MulMonotone(a: nat, b: nat, c: nat)
    requires b <= c
    ensures a * b <= a * c
  {
  }

  // ---------------------------------------------------------------------------
  // Table builder: work index to texel, texel to integration parameters

  /** Number of texels the parallel map runs over: lut_height * lut_width in uint32. */
  function TexelCount(width: nat, height: nat): (n: nat)
    ensures n < U32_LIMIT && n <= width * height
    ensures width * height < U32_LIMIT ==> n == width * height
  {
    (height * width) % U32_LIMIT
  }

  /** A work index splits into (index % width, index / width), which lies inside
      the grid and whose row-major slot is the work index itself. */
  lemma SlotOfIndex(index: nat, width: nat, height: nat)
    requires 1 <= width && index < width * height
    ensures index % width < width && index / width < height
    ensures width * (index / width) + index % width == index
  {
    if height <= index / width {
      MulMonotone(width, height, index / width);
    }
  }

  /** Conversely, every texel (x, y) is the split of exactly the work index width * y + x. */
  lemma IndexOfTexel(x: nat, y: nat, width: nat, height: nat)
    requires x < width && y < height
    ensures width * y + x < width * height
    ensures (width * y + x) % width == x && (width * y + x) / width == y
  {
    MulMonotone(width, y + 1, height);
    var q := (width * y + x) / width;
    if q > y {
      MulMonotone(width, y + 1, q);
    } else if q < y {
      MulMonotone(width, q + 1, y);
    }
  }

  /** Normalised texture coordinate of texel `index` along an axis of `size` texels:
      the full [0, 1] span, first texel at 0 and last texel at 1. */
  function Texcoord(index: nat, size: nat): (t: real)
    requires 2 <= size && index < size
    ensures 0.0 <= t <= 1.0
    ensures t == 0.0 <==> index == 0
    ensures t == 1.0 <==> index == size - 1
  {
    (index as real) / ((size - 1) as real)
  }

  /** Distinct texels along an axis get strictly increasing coordinates. */
  lemma TexcoordIncreasing(i: nat, j: nat, size: nat)
    requires 2 <= size && i < j < size
    ensures Texcoord(i, size) < Texcoord(j, size)
  {
    var d := (size - 1) as real;
    var a, b := Texcoord(i, size), Texcoord(j, size);
    assert a * d == i as real && b * d == j as real;
    assert (a - b) * d == (i - j) as real;
    if b <= a {
      ProductNonNegative(a - b, d);
    }
  }

  /** sin^2 from cos: 1 - c^2, within [0, 1] for a cosine in [0, 1]. */
  function SineSquared(c: real): (s: real)
    ensures 0.0 <= c <= 1.0 ==> 0.0 <= s <= 1.0
  {
    SquareInUnit(c);
    1.0 - c * c
  }

  lemma SquareInUnit(c: real)
    ensures 0.0 <= c <= 1.0 ==> 0.0 <= c * c <= 1.0
  {
    if 0.0 <= c <= 1.0 {
      ProductInUnit(c, c);
    }
  }

  /** View direction for texture coordinate u (u = 1 - cos theta): in the plane
      y = 0, cosine floored at the BRDF library minimum, sine non-negative; the
      max(0, 1 - cos^2) around the radicand never clamps because the cosine is
      at most one. */
  function ViewDirection(u: real, ext: Externals): (omegaO: Vec3)
    requires 0.0 <= u <= 1.0
    ensures omegaO.y == 0.0
    ensures ext.ndotvMin <= omegaO.z <= 1.0
    ensures 1.0 - u <= omegaO.z && (ext.ndotvMin <= 1.0 - u ==> omegaO.z == 1.0 - u)
    ensures 1.0 - u < ext.ndotvMin ==> omegaO.z == ext.ndotvMin
    ensures omegaO.x == ext.sqrt(SineSquared(omegaO.z)) && 0.0 <= omegaO.x
  {
    var cosThetaO := Max(ext.ndotvMin, 1.0 - u);
    Vec3(ext.sqrt(Max(0.0, SineSquared(cosThetaO))), 0.0, cosThetaO)
  }

  /** With an exact square root the view direction is a unit vector. */
  lemma ViewDirectionIsUnit(u: real, ext: Externals)
    requires 0.0 <= u <= 1.0
    requires var s := SineSquared(Max(ext.ndotvMin, 1.0 - u)); ext.sqrt(s) * ext.sqrt(s) == s
    ensures var omegaO := ViewDirection(u, ext); Dot(omegaO, omegaO) == 1.0
  {
  }

  /** Roughness for texture coordinate v (v = 1 - alpha), floored at the library minimum. */
  function Roughness(v: real, ext: Externals): (alpha: real)
    requires 0.0 <= v <= 1.0
    ensures ext.alphaMin <= alpha <= 1.0
    ensures 1.0 - v <= alpha && (ext.alphaMin <= 1.0 - v ==> alpha == 1.0 - v)
    ensures 1.0 - v < ext.alphaMin ==> alpha == ext.alphaMin
  {
    Max(ext.alphaMin, 1.0 - v)
  }

  /** The integration parameters of texel (x, y). */
  function TexelUserData(x: nat, y: nat, width: nat, height: nat, ext: Externals): (ud: ReduceUserData)
    requires 2 <= width && 2 <= height && x < width && y < height
    ensures ud.alpha >= ext.alphaMin && ud.omegaO.z >= ext.ndotvMin && ud.omegaO.y == 0.0
    ensures x == 0 ==> ud.omegaO.z == 1.0
    ensures y == 0 ==> ud.alpha == 1.0
  {
    ReduceUserData(ViewDirection(Texcoord(x, width), ext), Roughness(Texcoord(y, height), ext))
  }

  // ---------------------------------------------------------------------------
  // Sample evaluator

  /** The evaluator's own clamps of its raw inputs (roughness and omega_o.z). */
  function EvaluatorUserData(rawAlpha: real, rawOmegaO: Vec3, ext: Externals): (ud: ReduceUserData)
    ensures ud.alpha >= ext.alphaMin && ud.omegaO.z >= ext.ndotvMin
    ensures ud.omegaO.x == rawOmegaO.x && ud.omegaO.y == rawOmegaO.y
    ensures rawAlpha >= ext.alphaMin ==> ud.alpha == rawAlpha
    ensures rawOmegaO.z >= ext.ndotvMin ==> ud.omegaO.z == rawOmegaO.z
  {
    ReduceUserData(Vec3(rawOmegaO.x, rawOmegaO.y, Max(ext.ndotvMin, rawOmegaO.z)), Max(ext.alphaMin, rawAlpha))
  }

  /** The re-clamp is idempotent: clamping clamped parameters changes nothing. */
  lemma EvaluatorClampIdempotent(rawAlpha: real, rawOmegaO: Vec3, ext: Externals)
    ensures var ud := EvaluatorUserData(rawAlpha, rawOmegaO, ext);
            EvaluatorUserData(ud.alpha, ud.omegaO, ext) == ud
  {
  }

  /** Parameters built for a texel pass the evaluator's re-clamp unchanged. */
  lemma TexelUserDataIsClamped(x: nat, y: nat, width: nat, height: nat, ext: Externals)
    requires 2 <= width && 2 <= height && x < width && y < height
    ensures var ud := TexelUserData(x, y, width, height, ext);
            EvaluatorUserData(ud.alpha, ud.omegaO, ext) == ud
  {
  }

  /** Sampled light direction: the negated view direction reflected about the
      sampled half vector, normalised. */
  function LightDirection(i: nat, ud: ReduceUserData, ext: Externals): Vec3 {
    var xi := ext.hammersley(i, SAMPLE_COUNT);
    var omegaH := ext.sampleOmegaH(xi, ud.alpha, ud.omegaO);
    ext.normalize(Reflect(Negate(ud.omegaO), omegaH))
  }

  /** Radicand of the half-vector length, max(LENGTH_MINIMUM, 2 + 2 VdotL). */
  function HalfVectorRadicand(vDotL: real): (r: real)
    ensures 0.0 < LENGTH_MINIMUM <= r
    ensures 2.0 + 2.0 * vDotL <= r
    ensures LENGTH_MINIMUM <= 2.0 + 2.0 * vDotL ==> r == 2.0 + 2.0 * vDotL
  {
    Max(LENGTH_MINIMUM, 2.0 + 2.0 * vDotL)
  }

  /** VdotH from VdotL without forming the half vector, clamped to [0, 1]. */
  function VdotH(vDotL: real, ext: Externals): (r: real)
    ensures 0.0 <= r <= 1.0
  {
    var invLenH := 1.0 / ext.sqrt(HalfVectorRadicand(vDotL));
    Min(Max(0.0, invLenH * vDotL + invLenH), 1.0)
  }

  /** With an exact square root and an unclamped radicand, VdotH is the cosine
      of the half angle: VdotH^2 == (1 + VdotL) / 2, for unit vectors' VdotL <= 1. */
  lemma VdotHIsHalfAngleCosine(vDotL: real, ext: Externals)
    requires LENGTH_MINIMUM <= 2.0 + 2.0 * vDotL && vDotL <= 1.0
    requires var s := ext.sqrt(2.0 + 2.0 * vDotL); s * s == 2.0 + 2.0 * vDotL
    ensures VdotH(vDotL, ext) * VdotH(vDotL, ext) == (1.0 + vDotL) / 2.0
  {
    var s := ext.sqrt(2.0 + 2.0 * vDotL);
    assert HalfVectorRadicand(vDotL) == 2.0 + 2.0 * vDotL;
    assert 0.0 < s;
    var invLenH := 1.0 / s;
    var raw := invLenH * vDotL + invLenH;
    assert raw == (1.0 + vDotL) / s;
    assert raw * raw == (1.0 + vDotL) / 2.0 by {
      assert raw * raw == ((1.0 + vDotL) * (1.0 + vDotL)) / (s * s);
    }
    assert 0.0 <= raw;
    if 1.0 < raw {
      ProductMonotone(1.0, raw, 1.0, raw);
      assert false;
    }
    assert VdotH(vDotL, ext) == raw;
  }

  /** The Schlick variable x = clamp(1 - VdotH, 0, 1). */
  function SchlickX(vDotH: real): (x: real)
    ensures 0.0 <= x <= 1.0
    ensures 0.0 <= vDotH <= 1.0 ==> x == 1.0 - vDotH
  {
    Min(Max(0.0, 1.0 - vDotH), 1.0)
  }

  /** x^5, computed as x * x2 * x2. */
  function Pow5(x: real): real {
    var x2 := x * x;
    x * x2 * x2
  }

  lemma Pow5InUnit(x: real)
    requires 0.0 <= x <= 1.0
    ensures 0.0 <= Pow5(x) <= 1.0
  {
    ProductInUnit(x, x);
    ProductInUnit(x * x, x * x);
    ProductInUnit(x, x * x);
    ProductInUnit(x * (x * x), x * x);
  }

  lemma Pow5Monotone(a: real, b: real)
    requires 0.0 <= a <= b
    ensures Pow5(a) <= Pow5(b)
  {
    ProductMonotone(a, b, a, b);
    ProductMonotone(a, b, a * a, b * b);
    ProductMonotone(a * (a * a), b * (b * b), a * a, b * b);
  }

  /** Schlick weights of F0 and F90: they partition unity and each lies in [0, 1]. */
  function FresnelFactors(vDotH: real): (f: Moments)
    ensures f.f0 + f.f90 == 1.0
    ensures 0.0 <= f.f0 <= 1.0 && 0.0 <= f.f90 <= 1.0
  {
    var x := SchlickX(vDotH);
    Pow5InUnit(x);
    Moments(1.0 - Pow5(x), Pow5(x))
  }

  /** The weight of F0 never decreases as VdotH grows. */
  lemma FresnelF0FactorMonotone(a: real, b: real)
    requires a <= b
    ensures FresnelFactors(a).f0 <= FresnelFactors(b).f0
  {
    Pow5Monotone(SchlickX(b), SchlickX(a));
  }

  /** NdotL of sample i, clamped to the upper hemisphere. */
  function NdotL(i: nat, ud: ReduceUserData, ext: Externals): (r: real)
    ensures 0.0 <= r
    ensures LightDirection(i, ud, ext).z >= 0.0 ==> r == LightDirection(i, ud, ext).z
    ensures LightDirection(i, ud, ext).z < 0.0 ==> r == 0.0
  {
    Max(0.0, LightDirection(i, ud, ext).z)
  }

  /** Microfacet throughput (Fresnel excluded) of sample i. */
  function SampleThroughput(i: nat, ud: ReduceUserData, ext: Externals): (t: real)
    ensures 0.0 <= t
  {
    ext.throughput(ud.alpha, NdotL(i, ud, ext))
  }

  /** The parts of c are the share scaled by the matching weight of f:
      the f0 weight for the f0 part and the f90 weight for the f90 part. */
  predicate WeighedBy(c: Moments, f: Moments, share: real) {
    c.f0 == f.f0 * share && c.f90 == f.f90 * share
  }

  /** A throughput t split by Fresnel weights f that partition unity, and divided by
      SAMPLE_COUNT: the f0 weight scales the f0 part and the f90 weight the f90
      part; the parts are non-negative and add up to t / SAMPLE_COUNT. */
  function Weigh(t: real, f: Moments): (c: Moments)
    requires 0.0 <= t && 0.0 <= f.f0 && 0.0 <= f.f90 && f.f0 + f.f90 == 1.0
    ensures WeighedBy(c, f, t / (SAMPLE_COUNT as real))
    ensures 0.0 <= c.f0 && 0.0 <= c.f90
    ensures c.f0 + c.f90 == t / (SAMPLE_COUNT as real)
  {
    var w := 1.0 / (SAMPLE_COUNT as real);
    var share := w * t;
    ProductNonNegative(w, t);
    ProductNonNegative(share, f.f0);
    ProductNonNegative(share, f.f90);
    assert share * f.f0 + share * f.f90 == share * (f.f0 + f.f90);
    Moments(share * f.f0, share * f.f90)
  }

  /** What sample i adds to the two accumulators: its share of the throughput
      (throughput / SAMPLE_COUNT) scaled by the Schlick weight of F0 for the f0
      moment and by that of F90 for the f90 moment. Both parts are non-negative
      and they add up to the share. */
  function Contribution(i: nat, ud: ReduceUserData, ext: Externals): (c: Moments)
    ensures WeighedBy(c, FresnelFactors(VdotH(Dot(ud.omegaO, LightDirection(i, ud, ext)), ext)),
                      SampleThroughput(i, ud, ext) / (SAMPLE_COUNT as real))
    ensures 0.0 <= c.f0 && 0.0 <= c.f90
    ensures c.f0 + c.f90 == SampleThroughput(i, ud, ext) / (SAMPLE_COUNT as real)
  {
    var omegaI := LightDirection(i, ud, ext);
    var f := FresnelFactors(VdotH(Dot(ud.omegaO, omegaI), ext));
    Weigh(SampleThroughput(i, ud, ext), f)
  }

  /** Pairwise combination of partial results. */
  function Add(a: Moments, b: Moments): Moments {
    Moments(a.f0 + b.f0, a.f90 + b.f90)
  }

  predicate NonNegative(m: Moments) {
    0.0 <= m.f0 && 0.0 <= m.f90
  }

  /** Sequential sum of term(i) over [lo, hi), adding one index at a time. */
  function Sum(lo: nat, hi: nat, term: nat -> Moments): Moments
    requires lo <= hi
    decreases hi - lo, 1
  {
    if lo == hi then Moments(0.0, 0.0) else SumNonEmpty(lo, hi, term)
  }

  /** The sum over a non-empty range: the sum of all but the last index, plus the last. */
  function SumNonEmpty(lo: nat, hi: nat, term: nat -> Moments): Moments
    requires lo < hi
    decreases hi - lo, 0
  {
    Add(Sum(lo, hi - 1, term), term(hi - 1))
  }

  /** Sequential sum of a scalar term over [lo, hi): the f0 part of `Sum` over
      the term placed in that part. */
  function ScalarSum(lo: nat, hi: nat, term: nat -> real): real
    requires lo <= hi
  {
    Sum(lo, hi, (i: nat) => Moments(term(i), 0.0)).f0
  }

  lemma ScalarSumStep(lo: nat, hi: nat, term: nat -> real)
    requires lo < hi
    ensures ScalarSum(lo, hi, term) == ScalarSum(lo, hi - 1, term) + term(hi - 1)
  {
    var placed := (i: nat) => Moments(term(i), 0.0);
    assert Sum(lo, hi, placed) == Add(Sum(lo, hi - 1, placed), placed(hi - 1));
  }

  /** Extending a range by one index adds that index's term. */
  lemma SumStep(lo: nat, hi: nat, term: nat -> Moments)
    requires lo < hi
    ensures Sum(lo, hi, term) == Add(Sum(lo, hi - 1, term), term(hi - 1))
  {
  }

  /** A sum of non-negative terms is non-negative. */
  lemma {:induction false} SumNonNegative(lo: nat, hi: nat, term: nat -> Moments)
    requires lo <= hi
    requires forall i :: lo <= i < hi ==> NonNegative(term(i))
    ensures NonNegative(Sum(lo, hi, term))
    decreases hi - lo
  {
    if lo < hi {
      SumNonNegative(lo, hi - 1, term);
    }
  }

  /** Summing [lo, mid) and [mid, hi) separately and combining is the sum over [lo, hi). */
  lemma {:induction false} SumSplit(lo: nat, mid: nat, hi: nat, term: nat -> Moments)
    requires lo <= mid <= hi
    ensures Sum(lo, hi, term) == Add(Sum(lo, mid, term), Sum(mid, hi, term))
    decreases hi - mid
  {
    if mid < hi {
      SumSplit(lo, mid, hi - 1, term);
    }
  }

  /** When every term's two parts add up to share(i), the two sums add up to the sum of the shares. */
  lemma {:induction false} SumOfParts(lo: nat, hi: nat, term: nat -> Moments, share: nat -> real)
    requires lo <= hi
    requires forall i :: lo <= i < hi ==> term(i).f0 + term(i).f90 == share(i)
    ensures Sum(lo, hi, term).f0 + Sum(lo, hi, term).f90 == ScalarSum(lo, hi, share)
    decreases hi - lo
  {
    if lo < hi {
      SumOfParts(lo, hi - 1, term, share);
      ScalarSumStep(lo, hi, share);
    }
  }

  /** Chunk boundaries in non-decreasing order, checked from the last pair backwards. */
  predicate Ascending(cuts: seq<nat>) {
    |cuts| <= 1 || (cuts[|cuts| - 2] <= cuts[|cuts| - 1] && Ascending(cuts[..|cuts| - 1]))
  }

  /** Combined partial sums over the contiguous ranges [cuts[k], cuts[k+1]). */
  function PartsSum(cuts: seq<nat>, term: nat -> Moments): Moments
    requires 1 <= |cuts| && Ascending(cuts)
  {
    if |cuts| == 1 then Moments(0.0, 0.0)
    else Add(PartsSum(cuts[..|cuts| - 1], term), Sum(cuts[|cuts| - 2], cuts[|cuts| - 1], term))
  }

  /** Any partition of a range into contiguous chunks, summed per chunk and combined,
      gives the sequential sum: the result does not depend on the chunking. */
  lemma {:induction false} PartitionSum(cuts: seq<nat>, term: nat -> Moments)
    requires 1 <= |cuts| && Ascending(cuts)
    ensures cuts[0] <= cuts[|cuts| - 1]
    ensures PartsSum(cuts, term) == Sum(cuts[0], cuts[|cuts| - 1], term)
  {
    if 1 < |cuts| {
      var n := |cuts|;
      var prefix := cuts[..n - 1];
      assert prefix[0] == cuts[0] && prefix[|prefix| - 1] == cuts[n - 2];
      PartitionSum(prefix, term);
      SumSplit(cuts[0], cuts[n - 2], cuts[n - 1], term);
    }
  }

  /** The per-sample contributions for one set of parameters. */
  function Samples(ud: ReduceUserData, ext: Externals): nat -> Moments {
    (i: nat) => Contribution(i, ud, ext)
  }

  /** The moments accumulated over samples [lo, hi). */
  function Accumulate(lo: nat, hi: nat, ud: ReduceUserData, ext: Externals): Moments
    requires lo <= hi
  {
    Sum(lo, hi, Samples(ud, ext))
  }

  /** Accumulating one more sample adds its contribution. */
  lemma AccumulateStep(lo: nat, hi: nat, ud: ReduceUserData, ext: Externals)
    requires lo < hi
    ensures Accumulate(lo, hi, ud, ext) == Add(Accumulate(lo, hi - 1, ud, ext), Contribution(hi - 1, ud, ext))
  {
    SumStep(lo, hi, Samples(ud, ext));
  }

  /** Each sample's share of the mean throughput. */
  function Shares(ud: ReduceUserData, ext: Externals): nat -> real {
    (i: nat) => SampleThroughput(i, ud, ext) / (SAMPLE_COUNT as real)
  }

  /** The mean throughput over all samples for one set of parameters. */
  function MeanThroughput(ud: ReduceUserData, ext: Externals): real {
    ScalarSum(0, SAMPLE_COUNT, Shares(ud, ext))
  }

  /** The reduction body: one for loop over [begin, end) updating both accumulators. */
  method ReduceRange(begin: nat, end: nat, ud: ReduceUserData, ext: Externals) returns (m: Moments)
    requires begin <= end
    ensures m == Accumulate(begin, end, ud, ext)
  {
    var f0, f90 := 0.0, 0.0;
    var sampleIndex := begin;
    while sampleIndex < end
      invariant begin <= sampleIndex <= end
      invariant Moments(f0, f90) == Accumulate(begin, sampleIndex, ud, ext)
    {
      var c := Contribution(sampleIndex, ud, ext);
      AccumulateStep(begin, sampleIndex + 1, ud, ext);
      f0 := f0 + c.f0;
      f90 := f90 + c.f90;
      sampleIndex := sampleIndex + 1;
    }
    m := Moments(f0, f90);
  }

  /** The reduction engine run sequentially: contiguous chunks of `grain` indices,
      each reduced by the body, partial results combined by addition. */
  method ParallelReduce(begin: nat, end: nat, grain: nat, ud: ReduceUserData, ext: Externals) returns (total: Moments)
    requires begin <= end && 1 <= grain
    ensures total == Accumulate(begin, end, ud, ext)
  {
    total := Moments(0.0, 0.0);
    var chunkBegin := begin;
    while chunkBegin < end
      invariant begin <= chunkBegin <= end
      invariant total == Sum(begin, chunkBegin, Samples(ud, ext))
      decreases end - chunkBegin
    {
      var chunkEnd := if end - chunkBegin < grain then end else chunkBegin + grain;
      var partial := ReduceRange(chunkBegin, chunkEnd, ud, ext);
      SumSplit(begin, chunkBegin, chunkEnd, Samples(ud, ext));
      total := Add(total, partial);
      chunkBegin := chunkEnd;
    }
  }

  /** The two Fresnel factor moments for raw (alpha, omega_o): all samples
      accumulated for the re-clamped parameters. */
  function FresnelMoments(rawAlpha: real, rawOmegaO: Vec3, ext: Externals): Moments {
    Accumulate(0, SAMPLE_COUNT, EvaluatorUserData(rawAlpha, rawOmegaO, ext), ext)
  }

  /** Both moments are non-negative, and together they are the mean throughput of
      the clamped parameters: the Schlick split loses nothing and adds nothing. */
  lemma FresnelMomentsSplitMeanThroughput(rawAlpha: real, rawOmegaO: Vec3, ext: Externals)
    ensures NonNegative(FresnelMoments(rawAlpha, rawOmegaO, ext))
    ensures var m := FresnelMoments(rawAlpha, rawOmegaO, ext);
            m.f0 + m.f90 == MeanThroughput(EvaluatorUserData(rawAlpha, rawOmegaO, ext), ext)
  {
    var ud := EvaluatorUserData(rawAlpha, rawOmegaO, ext);
    SumNonNegative(0, SAMPLE_COUNT, Samples(ud, ext));
    SumOfParts(0, SAMPLE_COUNT, Samples(ud, ext), Shares(ud, ext));
  }

  /** The sample evaluator: re-clamp, then reduce all samples in grain-sized chunks. */
  method ComputeFresnelMoments(rawAlpha: real, rawOmegaO: Vec3, ext: Externals) returns (f0: real, f90: real)
    ensures Moments(f0, f90) == FresnelMoments(rawAlpha, rawOmegaO, ext)
  {
    var alpha := Max(ext.alphaMin, rawAlpha);
    var omegaO := Vec3(rawOmegaO.x, rawOmegaO.y, Max(ext.ndotvMin, rawOmegaO.z));
    var m := ParallelReduce(0, SAMPLE_COUNT, GRAIN_SIZE, ReduceUserData(omegaO, alpha), ext);
    f0, f90 := m.f0, m.f90;
  }

  /** The LUT entry of texel (x, y): the Fresnel moments of the texel's parameters. */
  function Norm(x: nat, y: nat, width: nat, height: nat, ext: Externals): Vec2
    requires 2 <= width && 2 <= height && x < width && y < height
  {
    var ud := TexelUserData(x, y, width, height, ext);
    var m := FresnelMoments(ud.alpha, ud.omegaO, ext);
    Vec2(m.f0, m.f90)
  }

  /** The evaluator's re-clamp leaves a texel's parameters unchanged, so its entry is
      the accumulation over all samples of exactly those parameters; both parts are
      non-negative and add up to the texel's mean throughput. */
  lemma NormIsTexelMoments(x: nat, y: nat, width: nat, height: nat, ext: Externals)
    requires 2 <= width && 2 <= height && x < width && y < height
    ensures var m := Accumulate(0, SAMPLE_COUNT, TexelUserData(x, y, width, height, ext), ext);
            Norm(x, y, width, height, ext) == Vec2(m.f0, m.f90)
    ensures var norm := Norm(x, y, width, height, ext);
            0.0 <= norm.x && 0.0 <= norm.y
    ensures var norm := Norm(x, y, width, height, ext);
            norm.x + norm.y == MeanThroughput(TexelUserData(x, y, width, height, ext), ext)
  {
    var ud := TexelUserData(x, y, width, height, ext);
    TexelUserDataIsClamped(x, y, width, height, ext);
    FresnelMomentsSplitMeanThroughput(ud.alpha, ud.omegaO, ext);
  }

  /** Per-texel body: map the texel to its parameters and evaluate them. */
  method ComputeNorm(x: nat, y: nat, width: nat, height: nat, ext: Externals) returns (norm: Vec2)
    requires 2 <= width && 2 <= height && x < width && y < height
    ensures norm == Norm(x, y, width, height, ext)
  {
    var u := Texcoord(x, width);
    var v := Texcoord(y, height);
    var omegaO := ViewDirection(u, ext);
    var alpha := Roughness(v, ext);
    var f0, f90 := ComputeFresnelMoments(alpha, omegaO, ext);
    norm := Vec2(f0, f90);
  }

  /** The whole table as a row-major sequence over the work indices. */
  function Table(width: nat, height: nat, ext: Externals): (t: seq<Vec2>)
    requires 2 <= width && 2 <= height
    ensures |t| == TexelCount(width, height)
  {
    seq(TexelCount(width, height), (i: nat) requires i < TexelCount(width, height) => Entry(i, width, height, ext))
  }

  /** The norm computed for work index i. */
  function Entry(i: nat, width: nat, height: nat, ext: Externals): Vec2
    requires 2 <= width && 2 <= height && i < TexelCount(width, height)
  {
    SlotOfIndex(i, width, height);
    Norm(i % width, i / width, width, height, ext)
  }

  /** Texel (x, y) of the table sits at slot width * y + x when the count does not wrap. */
  lemma TableAt(x: nat, y: nat, width: nat, height: nat, ext: Externals)
    requires 2 <= width && 2 <= height && x < width && y < height
    requires width * height < U32_LIMIT
    ensures width * y + x < |Table(width, height, ext)|
    ensures Table(width, height, ext)[width * y + x] == Norm(x, y, width, height, ext)
  {
    IndexOfTexel(x, y, width, height);
    var k := width * y + x;
    assert k < TexelCount(width, height);
    assert Table(width, height, ext)[k] == Entry(k, width, height, ext);
  }

  /** The parallel-map body for the one-index range [begin, end): writes the texel
      of work index `begin` to slot `begin` and nothing else. */
  method ComputeNormsBody(begin: nat, end: nat, lut: array<Vec2>, width: nat, height: nat, ext: Externals)
    returns (ghost slot: nat)
    requires begin + 1 == end
    requires 2 <= width && 2 <= height && begin < TexelCount(width, height) <= lut.Length
    modifies lut
    ensures slot == begin
    ensures lut[slot] == Table(width, height, ext)[begin]
    ensures forall j :: 0 <= j < lut.Length && j != slot ==> lut[j] == old(lut[j])
  {
    var x := begin % width;
    var y := begin / width;
    SlotOfIndex(begin, width, height);
    var norm := ComputeNorm(x, y, width, height, ext);
    assert norm == Table(width, height, ext)[begin];
    var index := width * y + x;
    lut[index] := norm;
    slot := index;
  }

  /** One write extends a matching prefix: if `before` agrees with `table` below `begin`,
      and `after` differs from `before` at most in slot `begin`, which now holds
      table[begin], then `after` agrees with `table` below begin + 1. */
  lemma {:induction false} PrefixStep(before: seq<Vec2>, after: seq<Vec2>, table: seq<Vec2>, begin: nat)
    requires begin < |table| <= |before| == |after|
    requires before[..begin] == table[..begin]
    requires after[begin] == table[begin]
    requires forall j :: 0 <= j < |after| && j != begin ==> after[j] == before[j]
    ensures after[..begin + 1] == table[..begin + 1]
  {
    forall k | 0 <= k < begin + 1
      ensures after[k] == table[k]
    {
      if k < begin {
        assert before[k] == before[..begin][k];
      }
    }
  }

  /** The table builder: runs the body over every work index of [0, count).
      `slots` logs the written slots: each slot of [0, count) exactly once. */
  method ComputeNorms(lut: array<Vec2>, width: nat, height: nat, ext: Externals) returns (ghost slots: seq<nat>)
    requires 2 <= width && 2 <= height && TexelCount(width, height) <= lut.Length
    modifies lut
    ensures |slots| == TexelCount(width, height) && forall k :: 0 <= k < |slots| ==> slots[k] == k
    ensures lut[..TexelCount(width, height)] == Table(width, height, ext)
    ensures lut[TexelCount(width, height)..] == old(lut[TexelCount(width, height)..])
  {
    var count := TexelCount(width, height);
    ghost var table := Table(width, height, ext);
    ghost var initial := lut[..];
    slots := [];
    var begin := 0;
    while begin < count
      invariant 0 <= begin <= count
      invariant |slots| == begin && forall k :: 0 <= k < begin ==> slots[k] == k
      invariant lut[..begin] == table[..begin]
      invariant forall k :: count <= k < lut.Length ==> lut[k] == initial[k]
    {
      ghost var before := lut[..];
      var slot := ComputeNormsBody(begin, begin + 1, lut, width, height, ext);
      PrefixStep(before, lut[..], table, begin);
      slots := slots + [slot];
      begin := begin + 1;
    }
    assert lut[count..] == initial[count..];
  }
}

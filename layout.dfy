/**
 * The pure helpers of the particle store: the index of a (dimension,
 * particle) pair in a dimension-major array, the larger of two values,
 * the radius sampler and the radius bounds.
 */
module Layout {

  /**
   * Offset of coordinate `dim` of `particle` when `count` particles are laid
   * out: all x-coordinates first, then all y-coordinates. The product of the
   * source is computed by cases over the two dimensions.
   */
  function PIndex(count: int, dim: int, particle: int): (r: int)
    requires dim == 0 || dim == 1
    ensures r == dim * count + particle
    ensures dim == 0 ==> r == particle
    ensures dim == 1 ==> r == count + particle
    ensures 0 <= dim <= 1 && 0 <= particle < count ==> 0 <= r < 2 * count
  {
    if dim == 0 then particle else count + particle
  }

  /** Two different (dimension, particle) pairs never share an offset. */
  lemma PIndexInjective(count: int, d1: int, p1: int, d2: int, p2: int)
    requires 0 <= d1 <= 1 && 0 <= d2 <= 1
    requires 0 <= p1 < count && 0 <= p2 < count
    requires PIndex(count, d1, p1) == PIndex(count, d2, p2)
    ensures d1 == d2 && p1 == p2
  {
  }

  /** The larger of `u` and `v`. */
  function Max(u: real, v: real): (r: real)
    ensures r >= u && r >= v
    ensures r == u || r == v
  {
    if u > v then u else v
  }

  /** The radius sampler: not implemented, it always draws zero. */
  function NormalDistribution(): (r: real)
    ensures r == 0.0
  {
    0.0
  }

  /** The radius every particle gets from the radius loop. */
  function SampledRadius(stdDevFac: real, particleRad: real): (r: real)
    ensures stdDevFac > 0.0 ==> r == 0.0
    ensures stdDevFac <= 0.0 ==> r == particleRad
  {
    if stdDevFac > 0.0 then NormalDistribution() else particleRad
  }

  /**
   * Lower and upper radius bounds: the mean widened by two spread factors
   * on each side, the lower one clipped at zero.
   */
  function RadiusBounds(particleRad: real, stdDevFac: real): (b: (real, real))
    ensures b.0 >= 0.0
    ensures stdDevFac >= 0.0 && particleRad >= 0.0 ==> b.0 <= particleRad <= b.1
    ensures b.0 > 0.0 ==> b.1 - particleRad == particleRad - b.0
    ensures b.0 == 0.0 || b.0 == particleRad - 2.0 * stdDevFac * particleRad
  {
    (Max(0.0, particleRad - 2.0 * stdDevFac * particleRad),
     particleRad + 2.0 * stdDevFac * particleRad)
  }

  /**
   * With the integer parameters the program accepts, a non-negative spread
   * factor and mean keep every sampled radius inside the radius bounds:
   * a zero spread gives the mean, which is both bounds, and a spread of one
   * or more clips the lower bound to zero, which is what the sampler draws.
   */
  lemma SampledRadiusWithinBounds(stdDevFac: int, particleRad: int)
    requires stdDevFac >= 0 && particleRad >= 0
    ensures var b := RadiusBounds(particleRad as real, stdDevFac as real);
            b.0 <= SampledRadius(stdDevFac as real, particleRad as real) <= b.1
  {
  }
}

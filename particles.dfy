/**
 * The particle store and its set-up sequence. The store keeps the state
 * of the simulation as six arrays allocated once (coordinates, updated
 * coordinates, forces and velocities of 2N entries each, laid out with
 * all x-coordinates before all y-coordinates; current and initial radii
 * of N entries each) and the active particle count, which every index
 * computation reads.
 */
module Particles {
  import opened Layout
  import opened Insertion

  class Simulation {
    /** Particle coordinates. */
    const positions: array<real>
    /** Updated particle coordinates. */
    const newPositions: array<real>
    /** Interparticle forces. */
    const forces: array<real>
    /** Particle velocities. */
    const velocities: array<real>
    /** Particle radii. */
    const radii: array<real>
    /** Initial particle radii. */
    const startRadii: array<real>

    /** The active particle count: N after construction, changed by the set-up sequence. */
    var numParticles: int
    const seed: int
    /** Global repulsive force constant. */
    const springKRepel: real
    /** Spread of the radius distribution, in units of the mean radius. */
    const stdDevFac: real
    /** Mean particle radius. */
    const particleRad: real
    var lowerRad: real
    var upperRad: real

    /** The number of particles the arrays were allocated for. */
    function Capacity(): nat
    {
      radii.Length
    }

    /** Array sizes fixed at allocation, six distinct arrays, and an active count within the allocation. */
    ghost predicate Valid()
      reads this
    {
      && positions.Length == 2 * Capacity()
      && newPositions.Length == 2 * Capacity()
      && forces.Length == 2 * Capacity()
      && velocities.Length == 2 * Capacity()
      && startRadii.Length == Capacity()
      && positions != newPositions && positions != forces && positions != velocities
      && positions != radii && positions != startRadii
      && newPositions != forces && newPositions != velocities
      && newPositions != radii && newPositions != startRadii
      && forces != velocities && forces != radii && forces != startRadii
      && velocities != radii && velocities != startRadii
      && radii != startRadii
      && 0 <= numParticles <= Capacity()
    }

    /**
     * Records the parameters, converting the integer ones to reals, and
     * allocates the arrays. Their contents are left unspecified, as after
     * an allocation; the radius bounds keep their initial zero.
     */
    constructor (count: int, randomSeed: int, springKrepel: int, stdDev: int, radius: int)
      requires count >= 0
      ensures Valid()
      ensures Capacity() == count && numParticles == count
      ensures seed == randomSeed && springKRepel == springKrepel as real
      ensures stdDevFac == stdDev as real && particleRad == radius as real
      ensures lowerRad == 0.0 && upperRad == 0.0
      ensures fresh(positions) && fresh(newPositions) && fresh(forces)
      ensures fresh(velocities) && fresh(radii) && fresh(startRadii)
    {
      numParticles := count;
      seed := randomSeed;
      springKRepel := springKrepel as real;
      stdDevFac := stdDev as real;
      particleRad := radius as real;
      positions := new real[2 * count];
      newPositions := new real[2 * count];
      forces := new real[2 * count];
      velocities := new real[2 * count];
      radii := new real[count];
      startRadii := new real[count];
      lowerRad, upperRad := 0.0, 0.0;
    }

    /** The relaxation routine: not implemented, it reports zero iterations and changes nothing. */
    method ParticlePos(gravFac: int, dtFac: int, minThreshold: int) returns (iterations: int)
      ensures iterations == 0
    {
      iterations := 0;
    }

    /**
     * The set-up sequence over the `m = numParticles` active particles:
     * radius bounds, radii, zeroed coordinates with particle 0 centred,
     * then the insertion steps. The count ends at m - 1 (at 1 when m < 2);
     * it is never set back to m.
     */
    method DistributeParticlesRandomly(place: seq<Point>)
      requires Valid() && Capacity() >= 1
      requires numParticles - 1 <= |place|
      modifies this, positions, radii, startRadii
      ensures Valid()
      ensures (lowerRad, upperRad) == RadiusBounds(particleRad, stdDevFac)
      ensures forall p :: 0 <= p < old(numParticles) ==>
                radii[p] == startRadii[p] == SampledRadius(stdDevFac, particleRad)
      ensures forall p :: old(numParticles) <= p < Capacity() ==>
                radii[p] == old(radii[p]) && startRadii[p] == old(startRadii[p])
      ensures positions[..] == Run(old(positions[..]), old(numParticles), place)
      ensures forall i :: 0 <= i < positions.Length ==>
                positions[i] == Settled(Prepared(old(positions[..]), old(numParticles)),
                                        place, LastStep(old(numParticles)), i)
      ensures positions[0] == 0.0
      ensures numParticles == if old(numParticles) >= 2 then old(numParticles) - 1 else 1
      ensures unchanged(newPositions) && unchanged(forces) && unchanged(velocities)
    {
      ghost var m, s0 := numParticles, positions[..];
      SetRadiusBounds();
      FillRadii();
      ZeroPositions();
      InsertParticles(place);
      forall i | 0 <= i < positions.Length
        ensures positions[i] == Settled(Prepared(s0, m), place, LastStep(m), i)
      {
        StepsAt(Prepared(s0, m), place, LastStep(m), i);
      }
      OriginKept(s0, m, place);
    }

    /** The radius bounds around the mean radius. */
    method SetRadiusBounds()
      modifies this`lowerRad, this`upperRad
      ensures (lowerRad, upperRad) == RadiusBounds(particleRad, stdDevFac)
    {
      lowerRad := Max(0.0, particleRad - 2.0 * stdDevFac * particleRad);
      upperRad := particleRad + 2.0 * stdDevFac * particleRad;
    }

    /** Both radius arrays of the active particles get the sampled radius. */
    method FillRadii()
      requires Valid()
      modifies radii, startRadii
      ensures forall p :: 0 <= p < numParticles ==>
                radii[p] == startRadii[p] == SampledRadius(stdDevFac, particleRad)
      ensures forall p :: numParticles <= p < Capacity() ==>
                radii[p] == old(radii[p]) && startRadii[p] == old(startRadii[p])
    {
      var p := 0;
      while p < numParticles
        invariant 0 <= p <= numParticles
        invariant forall j :: 0 <= j < p ==>
                    radii[j] == startRadii[j] == SampledRadius(stdDevFac, particleRad)
        invariant forall j :: p <= j < Capacity() ==>
                    radii[j] == old(radii[j]) && startRadii[j] == old(startRadii[j])
      {
        if stdDevFac > 0.0 {
          var outputRad := NormalDistribution();
          radii[p] := outputRad;
          startRadii[p] := outputRad;
        } else {
          radii[p] := particleRad;
          startRadii[p] := particleRad;
        }
        p := p + 1;
      }
    }

    /** Both coordinates of every active particle set to zero, then particle 0 centred. */
    method ZeroPositions()
      requires Valid() && Capacity() >= 1
      modifies positions
      ensures positions[..] == Prepared(old(positions[..]), numParticles)
    {
      ghost var s0 := positions[..];
      var p := 0;
      while p < numParticles
        invariant 0 <= p <= numParticles
        invariant forall i :: 0 <= i < positions.Length ==>
                    positions[i] == if i < p || numParticles <= i < numParticles + p then 0.0 else s0[i]
      {
        positions[PIndex(numParticles, 0, p)] := 0.0;
        positions[PIndex(numParticles, 1, p)] := 0.0;
        p := p + 1;
      }
      assert positions[..] == Zeroed(s0, numParticles);
      positions[PIndex(numParticles, 0, 0)] := 0.0;
      positions[PIndex(numParticles, 0, 1)] := 0.0;
    }

    /**
     * The insertion loop: step p (1 <= p < m) writes `place[p - 1]` at the
     * offsets `PIndex` gives under the count left by the previous step,
     * sets the count to p and runs the relaxation routine.
     */
    method InsertParticles(place: seq<Point>)
      requires Valid() && Capacity() >= 1
      requires numParticles - 1 <= |place|
      modifies this`numParticles, positions
      ensures Valid()
      ensures positions[..] == Steps(old(positions[..]), place, LastStep(old(numParticles)))
      ensures numParticles == CountBefore(LastStep(old(numParticles)))
      ensures unchanged(radii) && unchanged(startRadii)
    {
      ghost var z := positions[..];
      var numParticlesOld := numParticles;
      numParticles := 1;
      var p := 1;
      while p < numParticlesOld
        invariant 1 <= p <= LastStep(numParticlesOld)
        invariant numParticles == CountBefore(p)
        invariant positions[..] == Steps(z, place, p)
        invariant Valid()
      {
        var pt := place[p - 1];
        positions[PIndex(numParticles, 0, p)] := pt.x;
        positions[PIndex(numParticles, 1, p)] := pt.y;
        numParticles := p;
        var iter := ParticlePos(0, 0, 1);
        p := p + 1;
      }
    }
  }

  /**
   * A whole run of three particles with mean radius 1 and no spread:
   * allocation, then the set-up sequence. Every radius is the mean, the
   * coordinates are those of `Insertion.ThreeParticles`, the count is left
   * at 2.
   */
  method ThreeParticleRun(seed: int, a: Point, b: Point) returns (sim: Simulation)
    ensures sim.radii[..] == [1.0, 1.0, 1.0] && sim.startRadii[..] == [1.0, 1.0, 1.0]
    ensures sim.positions[..] == [0.0, a.x, b.x, b.y, 0.0, 0.0]
    ensures sim.numParticles == 2
  {
    sim := new Simulation(3, seed, 1, 0, 1);
    ghost var initial := sim.positions[..];
    sim.DistributeParticlesRandomly([a, b]);
    ThreeParticles(initial, a, b);
  }
}

# Particle store and set-up sequence of a circle-packing generator

The generator builds a packing of circular particles in a 2D domain by
inserting particles one at a time and letting a relaxation routine settle
them after each insertion. This project models the bookkeeping part of
`subs.c`: the particle store (six arrays allocated once, laid out with all
x-coordinates before all y-coordinates, and an active particle count that
the code changes as it goes), the offset computation `p_index`, the helper
`max`, the radius sampler, the relaxation stub, and the set-up sequence
`distribute_particles_randomly`.

Three modules:

- `Layout` (`layout.dfy`): the pure helpers — `PIndex`, `Max`,
  `NormalDistribution`, `RadiusBounds` — and the bound the sampled radius
  keeps.
- `Insertion` (`insertion.dfy`): what the set-up sequence does to the
  coordinate array, as functions on sequences (`Zeroed`, `Prepared`, `Step`,
  `Steps`, `Run`), a closed form `Settled` of every offset after any number
  of insertion steps, and the lemmas tying them together.
- `Particles` (`particles.dfy`): the class `Simulation`, whose constructor
  plays `initialise` and whose methods run the set-up sequence on the arrays
  in place, each proved against the functions of `Insertion`. The body of
  `distribute_particles_randomly` is split into `SetRadiusBounds`,
  `FillRadii`, `ZeroPositions` and `InsertParticles`, which
  `DistributeParticlesRandomly` calls in the code's order.

The model follows the code's arithmetic literally. `p_index` reads the
active count at the moment of the call, and the insertion loop changes that
count as it goes: step `p` writes its x at offset `p` but its y at offset
`count + p`, where the count is 1 for the first step and `p - 1` after that.
The y-values therefore land at offset 2 and then at the odd offsets
`2p - 1`, and the x-write of a later step can overwrite them
(`Insertion.ThreeParticles` shows a three-particle run ending as
`[0, x1, x2, y2, 0, 0]`). This is not the intended layout (all N
x-coordinates followed by all N y-coordinates); the model keeps what the
code does. Line 132 zeroes the x of particle 1, not the y of particle 0;
both are zero already. The active count ends at `m - 1` (1 when `m < 2`)
and is never set back to `m`. The relaxation routine takes `int`
parameters, so the call with `0.0, 0.01, 1.0` passes `0, 0, 1`; the model
calls it with those values. With the spread factor above zero every radius
is the sampler's 0.0, not a draw around the mean.

The cosine and sine of the random angle, scaled by the mean radius, are a
parameter: `place[p - 1]` is the point step `p` writes. The loops run over
the active count `m` held when the sequence starts (N right after
construction), as the code's loops do.

## Model

| member | source | states |
|---|---|---|
| `Layout.PIndex` | subs.c:26-30 | the offset is `dim * count + particle`; x of particle p is p, y is count + p; for dim 0 or 1 and 0 <= particle < count it lies in [0, 2·count) |
| `Layout.PIndexInjective` | subs.c:26-30 | two (dimension, particle) pairs inside the layout that give the same offset are the same pair |
| `Layout.Max` | subs.c:33-43 | the result is at least both arguments and is one of them |
| `Layout.NormalDistribution` | subs.c:91-94 | the sampler always draws 0.0 |
| `Layout.RadiusBounds` | subs.c:104-106 | the lower bound is never negative and is either 0 or mean − 2·spread·mean; with spread and mean non-negative the mean lies between the bounds; when the lower bound is not clipped the interval is symmetric about the mean |
| `Layout.SampledRadius` | subs.c:110-120 | a spread factor above zero gives the sampler's value 0.0; otherwise the radius is the mean |
| `Layout.SampledRadiusWithinBounds` | subs.c:104-121 | for integer spread factor and mean that are non-negative, the radius the radius loop assigns lies within [lower, upper] |
| `Particles.Simulation.constructor` | subs.c:46-78 | records the parameters (integers converted to reals), sets the active count to N, allocates four fresh arrays of 2N entries and two of N entries, all distinct; radius bounds start at zero |
| `Particles.Simulation.ParticlePos` | subs.c:166-171 | reports zero iterations; it has no modifies clause, so it changes no state |
| `Particles.Simulation.DistributeParticlesRandomly` | subs.c:96-159 | bounds equal `RadiusBounds`; radii and initial radii of the m active particles equal the sampled radius, the rest unchanged; the coordinate array equals `Run` of the old array, offset by offset the closed form `Settled`; offset 0 ends at 0.0; the count ends at m − 1 when m >= 2 and 1 otherwise; the other three arrays are unchanged |
| `Particles.Simulation.SetRadiusBounds` | subs.c:104-106 | the two bounds become `RadiusBounds` of the mean and spread |
| `Particles.Simulation.FillRadii` | subs.c:108-121 | for every active particle the radius and the initial radius are equal and are the sampler's value when the spread is positive, the mean otherwise; entries past the active count are unchanged |
| `Particles.Simulation.ZeroPositions` | subs.c:123-132 | the coordinate array becomes `Prepared` of the old one: offsets below 2m and offsets 0 and 1 are 0.0, the rest unchanged |
| `Particles.Simulation.InsertParticles` | subs.c:134-156 | every write stays in the array; the coordinate array becomes `Steps` of the old one over steps 1 .. m − 1; the count ends at `CountBefore(LastStep(m))`; the radius arrays are unchanged |
| `Insertion.CountBefore` | subs.c:136-153 | the count step p writes under is between 1 and p, and equals p only for the first step |
| `Insertion.XTarget` | subs.c:148 | step p writes its x at offset p |
| `Insertion.YTarget` | subs.c:149 | step p writes its y at offset 2 when p = 1 and 2p − 1 otherwise, strictly after its x-offset and below 2(p + 1) |
| `Insertion.Zeroed` | subs.c:124-128 | zeroing keeps the array length |
| `Insertion.Prepared` | subs.c:124-132 | after zeroing and centring, offsets below 2m and offsets 0 and 1 hold 0.0 and every other offset its old value |
| `Insertion.Step` | subs.c:144-149 | one insertion step writes the new x at offset p and the new y at `YTarget(p)`; every other offset keeps its value; the length is kept |
| `Insertion.Steps` | subs.c:142-156 | the insertion steps keep the array length |
| `Insertion.LastStep` | subs.c:142 | the insertion loop exits with p = m when m >= 1, else at its start value 1 |
| `Insertion.Run` | subs.c:124-156 | the whole sequence keeps the array length |
| `Insertion.StepsAt` | subs.c:142-156 | after steps 1 .. k − 1, offset i holds the x of particle i if inserted, else the y some step aimed at i (the last such), else its value before the loop |
| `Insertion.UnwrittenKept` | subs.c:142-156 | an offset that no step aims its x or y at keeps its value |
| `Insertion.OriginKept` | subs.c:124-156 | offset 0, the x of particle 0, is 0.0 at the end of the sequence |
| `Insertion.BeyondActiveKept` | subs.c:124-156 | offsets at or past 2m (and past 1) are never written by the sequence |
| `Insertion.ThreeParticles` | subs.c:124-156 | a three-particle run ends as `[0, x1, x2, y2, 0, 0]`: the first y is overwritten by the second x |
| `Particles.ThreeParticleRun` | subs.c:46-159 | allocating three particles with mean radius 1 and no spread, then running the set-up sequence, leaves every radius and initial radius at 1.0, the coordinates `[0, x1, x2, y2, 0, 0]` whatever the allocation held, and the count at 2 |

## Left out

- Allocation failure and process exit in `initialise`: heap exhaustion is not modelled; the constructor always succeeds.
- `finalise`: releasing the arrays has no counterpart in a garbage-collected model.
- `printf`/`fprintf` output (progress and error lines): I/O.
- `srand48`, `drand48`, `cos`, `sin`: a foreign random source and trigonometry; replaced by the caller-supplied `place` points. The seed is stored but not used.
- `output_positions`: an empty output hook.
- Floating-point rounding: coordinates, radii and bounds are exact reals.
- Initial array contents after allocation: unspecified in the program, so the constructor promises nothing about them.
- Layout.PIndex: defined only for dimensions 0 and 1, the only ones the program passes; `int` overflow of the product is not modelled.
- Particles.Simulation.DistributeParticlesRandomly: requires at least m − 1 placement points, because the random stream it stands for is unbounded.
- Particles.Simulation.constructor: requires a non-negative count; a negative one makes the allocation size wrap and fail, which is the left-out failure path.
- Particles.Simulation.DistributeParticlesRandomly: requires at least one allocated particle; with N = 0 the program allocates zero bytes and lines 131-132 then write offsets 0 and 1 outside the allocation, which has no defined behaviour to model.
- Particles.Simulation.ZeroPositions: requires at least one allocated particle, for the same out-of-allocation writes of lines 131-132 when N = 0.
- Particles.Simulation.InsertParticles: requires at least one allocated particle; with N = 0 the count it sets to 1 would exceed the allocation, a state only reachable after the undefined writes of lines 131-132.

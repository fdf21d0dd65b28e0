# Particle eye animations

Two badge animations draw an eye out of small particles. Each particle has a
position, a speed, an entropy and a force rule.
- The pupil rule pulls a particle into a filled disc of radius 25 around the screen centre.
- The outline rule pulls it into a ring of radius 90 and half-width 6.

Every frame, each particle's speed relaxes toward the force plus an
entropy-scaled random wiggle, and its position advances by the new speed.

- `particles_eye.py` has 50 pupil and 150 ring particles and a damping of 0.8.
  While a captouch petal is pressed or repeated, every particle is also drawn
  toward an attractor on the screen rim at that petal's angle. The entropy then
  rises from 5 to 10.
- `particle_eye.py` is the earlier version. It has 100 pupil and 150 ring
  particles, a damping of 0.9, a fixed entropy of 5 and no attractors.

The project has five modules:
- `Vectors` models the `Vector` value class. The two files declare it
  identically; only the square root is spelled differently.
- `Forces` models the pupil, ring and attractor rules.
- `Motion` models the motion law of `Particle.move`, which both files share.
- `ParticlesEyeApp` and `ParticleEyeApp` hold each animation's constants and
  its `Particle` and eye classes. The methods update fields in place and are
  proved against the pure frame functions.

Floats are exact reals. The host supplies the square root, cosine, sine, pi
and the random draws, so these are parameters. A square root is only assumed
to be exact and non-negative (`Vectors.IsSqrt`).

The rows for `Vectors` and `Forces` cite `particles_eye.py`. The same code is
in `particle_eye.py`:
- the `Vector` class at lines 21-51;
- `force_to_pupil` at 58-66;
- `force_to_outline` at 69-79.

## Model

| member | source | states |
|---|---|---|
| Vectors.Add | particles_eye.py:30-31 | defined by its body (component-wise sum); inverse stated in `Vectors.AddSubInverse` |
| Vectors.Scale | particles_eye.py:36-43 | defined by its body (`k * v` and `v * k` for a number); composition in `Vectors.ScaleScale`, length in `Vectors.ScaledNorm` |
| Vectors.Mul | particles_eye.py:36-40 | defined by its body (component-wise product); undoes `Div` by `Vectors.DivInverse` |
| Vectors.DivBy | particles_eye.py:45-47 | defined by its body (division by a non-zero number); undone by `Scale`, `Vectors.DivInverse` |
| Vectors.Div | particles_eye.py:45-49 | defined by its body (component-wise quotient by a vector with non-zero components); undone by `Mul`, `Vectors.DivInverse` |
| Vectors.Sub | particles_eye.py:33-34 | `a + (b * -1)` is the component-wise difference |
| Vectors.AddSubInverse | particles_eye.py:30-34 | subtracting undoes adding and adding undoes subtracting |
| Vectors.DivInverse | particles_eye.py:36-49 | vector and scalar division are undone by the matching multiplication |
| Vectors.ScaleScale | particles_eye.py:36-43 | scaling twice scales by the product of the factors |
| Vectors.DistanceSq | particles_eye.py:51-52 | the radicand is the sum of squared differences, non-negative, and zero exactly when the points coincide |
| Vectors.Distance | particles_eye.py:51-52 | `distance_to` is non-negative and zero exactly when the points coincide |
| Vectors.DistanceSquared | particles_eye.py:51-52 | the distance squared is the radicand |
| Vectors.DistanceSymmetric | particles_eye.py:51-52 | `a.distance_to(b) == b.distance_to(a)` |
| Vectors.ScaledNorm | particles_eye.py:36-40 | scaling by c multiplies the squared length by c² and the projection on the original by c |
| Forces.Radius | particles_eye.py:65 | the distance from the centre is non-negative and zero only at the centre |
| Forces.PupilForce | particles_eye.py:62-70 | defined by its body, branch for branch; closed form in `Forces.PupilForceValue`, zero set in `Forces.PupilForceZeroIff` |
| Forces.OutlineForce | particles_eye.py:73-83 | defined by its body, branch for branch; closed form in `Forces.OutlineForceValue`, direction in `Forces.OutlineForcePullsInward` and `Forces.OutlineForcePushesOutward` |
| Forces.MassForce | particles_eye.py:86-94 | defined by its body; closed form in `Forces.MassForceValue`, constant length in `Forces.MassForceMagnitude` |
| Forces.Evaluate | particles_eye.py:118-121 | calling a particle's `force_fn`: dispatches to the three rules above; summed by `Forces.TotalForceIsSum` |
| Forces.PupilForceValue | particles_eye.py:62-70 | closed form: zero in the closed disc of radius 25, else `(center - p) * (d - 25) / 240` |
| Forces.PupilForceZeroIff | particles_eye.py:62-70 | the pupil force is zero if and only if the particle is within distance 25 of the centre |
| Forces.PupilForcePointsToCenter | particles_eye.py:62-68 | outside the disc the force has a positive component toward the centre |
| Forces.PupilForceMagnitude | particles_eye.py:62-68 | outside the disc the force has length `d * (d - 25) / 240` |
| Forces.PupilForceMonotone | particles_eye.py:62-68 | outside the disc a farther particle is pulled at least as hard |
| Forces.PupilForceOnAxis | particles_eye.py:62-68 | at `(a, 0)` with `a > 25` the force is `(-a * (a - 25) / 240, 0)` |
| Forces.OutlineForceValue | particles_eye.py:73-83 | closed form in the three branches: scale `(d - 96) / 240` beyond the band, `(d - 84) / 240` inside it, zero within 84..96 |
| Forces.OutlineForceZeroIff | particles_eye.py:73-83 | zero within the band; a zero force means within the band or at the centre |
| Forces.OutlineForceOffBand | particles_eye.py:78-81 | away from the centre and off the band the ring force is never zero |
| Forces.OutlineForceBeyondBand | particles_eye.py:78-79 | beyond distance 96 the ring force is not zero |
| Forces.OutlineForceInsideBand | particles_eye.py:80-81 | inside distance 84, away from the centre, the ring force is not zero |
| Forces.OutlineForcePullsInward | particles_eye.py:78-79 | beyond the band the force points toward the centre |
| Forces.OutlineForcePushesOutward | particles_eye.py:80-81 | inside the band the force points away from the centre |
| Forces.PulledAlong | particles_eye.py:64-68 | `(center - p) * c` projects on `center - p` with the sign of c |
| Forces.MassForceValue | particles_eye.py:86-94 | the attractor force is `(mass - p)` scaled by `24 / distance` |
| Forces.MassForceSigns | particles_eye.py:86-94 | each component of the attractor force has the sign of the same component of `mass - p` |
| Forces.MassForceMagnitude | particles_eye.py:86-94 | the attractor force has length 24 at every position |
| Forces.TotalForce | particles_eye.py:118-121 | with no additional forces the total is the particle's own rule |
| Forces.TotalForceIsSum | particles_eye.py:118-121 | the accumulated force is the own rule plus the head-first sum of the additional rules |
| Forces.SumForcesSnoc | particles_eye.py:119-121 | appending a rule adds its force at the end of the sum |
| Motion.Drive | particles_eye.py:122-123 | defined by its body (`force + entropy * wiggle`); its spread bounded in `Motion.DampedDriveBound` |
| Motion.NextSpeed | particles_eye.py:123 | defined by its body; relaxation toward the drive in `Motion.NextSpeedRelaxes`, decay in `Motion.SpeedDecays` |
| Motion.Moved | particles_eye.py:117-125 | a move keeps the rule and the entropy |
| Motion.NextSpeedRelaxes | particles_eye.py:123 | the gap between the new speed and the drive is the old gap times DAMPING |
| Motion.MovedRelaxes | particles_eye.py:117-125 | the position advances by exactly the new speed, which relaxes toward the drive |
| Motion.MovedUsesSum | particles_eye.py:118-123 | the new speed depends on the additional rules only through their sum |
| Motion.SpeedDecays | particles_eye.py:123 | with no drive the squared speed is multiplied by DAMPING² |
| Motion.RestIsFixedPoint | particles_eye.py:117-125 | a particle at rest with zero drive does not move |
| Motion.MovedFromRest | particles_eye.py:117-125 | from rest the new speed is the drive times `1 - DAMPING` |
| Motion.PupilStepFromRest | particles_eye.py:117-125 | a pupil particle at rest, without wiggle, moves by its pupil force times `1 - DAMPING` |
| Motion.PupilStepOnAxis | particles_eye.py:117-125 | at rest on `(a, 0)` beyond the disc, without wiggle, it moves to `a - (1 - DAMPING) * a * (a - 25) / 240` |
| Motion.DampedDriveBound | particles_eye.py:122-123 | with the wiggle in the unit square, the damped drive stays within `(1 - DAMPING) * entropy` of the damped force on each axis |
| Motion.JitterBound | particles_eye.py:117-125 | from rest the wiggle moves a particle at most `(1 - DAMPING) * entropy` per axis away from where the force alone takes it |
| ParticlesEyeApp.Angle | particles_eye.py:153 | defined by its body (`2 * pi * index / 10 - pi / 2`) |
| ParticlesEyeApp.Anchor | particles_eye.py:154-157 | defined by its body; lies at distance 120 from the centre by `ParticlesEyeApp.AnchorOnRim` |
| ParticlesEyeApp.EntropyFor | particles_eye.py:160 | defined by its body; ENTROPY_TOUCH exactly when a petal is active by `ParticlesEyeApp.TouchRaisesEntropy` |
| ParticlesEyeApp.Attractors | particles_eye.py:150-157 | there are at most as many attractors as petals, and all are attractor rules |
| ParticlesEyeApp.TouchAttractors | particles_eye.py:150-157 | the appending loop builds exactly the attractors of the active petals, in petal order |
| ParticlesEyeApp.AttractorsEmptyIff | particles_eye.py:150-152 | no attractor exists if and only if no petal is pressed or repeated |
| ParticlesEyeApp.AttractorsMembers | particles_eye.py:150-157 | a rule is an attractor if and only if it is the anchor of some active petal |
| ParticlesEyeApp.AttractorsCount | particles_eye.py:150-157 | there are exactly as many attractors as pressed or repeated petals |
| ParticlesEyeApp.TouchRaisesEntropy | particles_eye.py:160 | the frame entropy is ENTROPY_TOUCH if and only if some petal is active |
| ParticlesEyeApp.AnchorOnRim | particles_eye.py:153-157 | with `cos² + sin² = 1`, a petal's attractor lies at distance 120 from the centre |
| ParticlesEyeApp.FrameStep | particles_eye.py:159-161 | a particle keeps its rule and takes the frame's entropy |
| ParticlesEyeApp.Frame | particles_eye.py:159-161 | a frame keeps the particle count and every rule, and sets every entropy to the frame's |
| ParticlesEyeApp.Particle.constructor | particles_eye.py:97-106 | a new particle is at its spawn point, at rest, with entropy 5 |
| ParticlesEyeApp.Particle.Move | particles_eye.py:117-125 | the new state is one step of the motion law; the loop adds the additional forces in list order |
| ParticlesEyeApp.ParticlesEye.constructor | particles_eye.py:129-137 | 50 pupil particles then 150 ring particles, distinct, each at its spawn point |
| ParticlesEyeApp.ParticlesEye.Think | particles_eye.py:147-161 | after the loop every particle holds its frame state, and the eye stays well formed |
| ParticleEyeApp.Frame | particle_eye.py:127-129 | a frame keeps the particle count, every rule and every entropy |
| ParticleEyeApp.FrameRelaxes | particle_eye.py:102-107 | in a frame each particle advances by its new speed, which closes the gap to its drive by `1 - 0.9` |
| ParticleEyeApp.Particle.constructor | particle_eye.py:83-91 | a new particle is at its spawn point, at rest, with entropy 5 |
| ParticleEyeApp.Particle.Move | particle_eye.py:102-107 | the new state is one step of the motion law with DAMPING 0.9 and the particle's own rule only |
| ParticleEyeApp.ParticleEye.constructor | particle_eye.py:112-117 | 100 pupil particles then 150 ring particles, distinct, each at its spawn point with entropy 5 |
| ParticleEyeApp.ParticleEye.Think | particle_eye.py:127-129 | every particle is moved once; the counts, rules and entropy 5 are kept |

The touch force's docstring calls it "stronger if closer". The code divides
the difference by the distance, so the force always has length
`240 * 0.1 = 24`. The model follows the code; see `Forces.MassForceMagnitude`.

## Left out

- Drawing is not modelled: `draw`, the colours, PARTICLE_SIZE and the background fill.
- The host framework is not modelled: `Application`/`Responder`, `super().think`, `run_view`/`run_responder` and the `__main__` blocks.
- Of the input state, only the whole-petal `pressed` and `repeated` flags are modelled.
- `delta_ms` is not modelled. Both `think` methods pass it on, but `move` never reads it.
- `Vector.__str__` is not modelled.
- Random draws are parameters, not modelled distributions. These are the spawn `randint` values and the wiggle `uniform` values. `Motion.InUnitSquare` states the wiggle's range where a lemma needs it.
- `math.cos`, `math.sin` and `math.pi` are parameters. `ParticlesEyeApp.AnchorOnRim` assumes only `cos² + sin² = 1`.
- Float rounding is not modelled. Numbers are exact reals and the square root is exact.
- The spawn y range uses `TOPLEFT[0] + SCREEN_SIZE[1]` as its upper bound. This equals `TOPLEFT[1] + SCREEN_SIZE[1]`, so one range is modelled.
- Forces.MassForce: requires the particle to differ from the attractor. At that point the source divides by zero and raises `ZeroDivisionError`.
- ParticlesEyeApp.ParticlesEye.Think: requires that no attractor sits exactly on a particle, for the same reason.
- `move`'s `if additional_forces` test is modelled on a list, so `None` is not modelled. The empty list takes the same path.
- Forces.OutlineForceZeroIff: does not state the force's value at the exact centre. There the source takes the inner branch with a zero difference, so the force is zero. The converse direction is stated and proved only away from the centre.
- Concrete numeric first-frame values are given only in symbolic form. See `Motion.PupilStepOnAxis`: a particle at rest at `(a, 0)` with `a > 25`.
- ParticleEyeApp.Particle.constructor: requires a pupil or ring rule. The earlier animation has no other force function.
- The `Particle` class is declared in each animation's module. The two classes differ in `move`'s parameters and in the constants, so neither is shared.

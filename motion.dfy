/** The particle both eye animations share: how `Particle.__init__` spawns
    it, and the motion law of `Particle.move`. The new speed is the old speed
    damped, plus the driving force (the rule forces and the entropy-scaled
    random wiggle) weighted by `1 - damping`; the position then advances by
    the new speed. The damping factor and the starting entropy are each
    animation's constants, so they are parameters here. */
module Motion {
  import opened Vectors
  import opened Forces

  /** A particle's state: everything `Particle.move` reads or writes apart
      from the colour, which it never touches. */
  datatype ParticleState = ParticleState(position: Vector, speed: Vector, entropy: real, rule: ForceRule)

  /** TOPLEFT and SCREEN_SIZE: the spawn square is `[-120, 120]` on both axes. */
  const TopLeft: int := -120
  const ScreenSide: int := 240

  /** `random.randint(TOPLEFT[i], TOPLEFT[i] + SCREEN_SIZE[i])` draws from the
      closed range. */
  predicate InSpawnRange(x: int)
  {
    TopLeft <= x <= TopLeft + ScreenSide
  }

  /** A freshly created particle: at a spawn point, at rest, with the
      animation's starting entropy. */
  function Spawned(rule: ForceRule, x: int, y: int, entropy: real): ParticleState
  {
    ParticleState(Vector(x as real, y as real), Zero, entropy, rule)
  }

  /** `force + entropy * wiggle`. */
  function Drive(force: Vector, entropy: real, wiggle: Vector): Vector
  {
    Add(force, Scale(wiggle, entropy))
  }

  /** `speed * damping + drive * (1 - damping)`. */
  function NextSpeed(damping: real, speed: Vector, drive: Vector): Vector
  {
    Add(Scale(speed, damping), Scale(drive, 1.0 - damping))
  }

  /** The wiggle `random.uniform(-1, 1)` draws lies in the closed unit square. */
  predicate InUnitSquare(w: Vector)
  {
    -1.0 <= w.x <= 1.0 && -1.0 <= w.y <= 1.0
  }

  /** The rules `move` evaluates are all defined at the particle's position. */
  predicate CanMove(s: ParticleState, extra: seq<ForceRule>)
  {
    Defined(s.rule, s.position) && forall f <- extra :: Defined(f, s.position)
  }

  /** One call of `move`: the force is the particle's own rule plus the
      additional rules at the current position; the speed relaxes toward the
      drive; the position advances by the new speed; the entropy and the
      rule are left as they are. */
  function Moved(damping: real, s: ParticleState, extra: seq<ForceRule>, wiggle: Vector, sqrt: real -> real): (r: ParticleState)
    requires IsSqrt(sqrt) && CanMove(s, extra)
    ensures r.rule == s.rule && r.entropy == s.entropy
  {
    var force := TotalForce(s.rule, extra, s.position, sqrt);
    var speed := NextSpeed(damping, s.speed, Drive(force, s.entropy, wiggle));
    ParticleState(Add(s.position, speed), speed, s.entropy, s.rule)
  }

  // ---------------------------------------------------------------------
  // Properties of the motion law.

  /** The new speed closes the gap to the drive by the fraction
      `1 - damping`: the gap shrinks by the factor `damping`. */
  lemma NextSpeedRelaxes(damping: real, speed: Vector, drive: Vector)
    ensures Sub(NextSpeed(damping, speed, drive), drive) == Scale(Sub(speed, drive), damping)
  {
  }

  /** One step advances the position by exactly the new speed, and the new
      speed relaxes toward the drive of the step. */
  lemma MovedRelaxes(damping: real, s: ParticleState, extra: seq<ForceRule>, wiggle: Vector, sqrt: real -> real)
    requires IsSqrt(sqrt) && CanMove(s, extra)
    ensures var r := Moved(damping, s, extra, wiggle, sqrt);
      var drive := Drive(TotalForce(s.rule, extra, s.position, sqrt), s.entropy, wiggle);
      Sub(r.position, s.position) == r.speed &&
      Sub(r.speed, drive) == Scale(Sub(s.speed, drive), damping)
  {
    var r := Moved(damping, s, extra, wiggle, sqrt);
    var drive := Drive(TotalForce(s.rule, extra, s.position, sqrt), s.entropy, wiggle);
    AddSubInverse(r.speed, s.position);
    NextSpeedRelaxes(damping, s.speed, drive);
  }

  /** The order of the additional rules does not change the force: the
      accumulated force is the own rule plus the reference sum. */
  lemma MovedUsesSum(damping: real, s: ParticleState, extra: seq<ForceRule>, wiggle: Vector, sqrt: real -> real)
    requires IsSqrt(sqrt) && CanMove(s, extra)
    ensures Moved(damping, s, extra, wiggle, sqrt).speed ==
      NextSpeed(damping, s.speed, Drive(Add(Evaluate(s.rule, s.position, sqrt), SumForces(extra, s.position, sqrt)), s.entropy, wiggle))
  {
    TotalForceIsSum(s.rule, extra, s.position, sqrt);
  }

  /** Without a drive the speed only decays: its squared length is scaled by
      the square of the damping factor. */
  lemma SpeedDecays(damping: real, speed: Vector)
    ensures NormSq(NextSpeed(damping, speed, Zero)) == Times(Square(damping), NormSq(speed))
  {
    ScaleZero(1.0 - damping);
    assert NextSpeed(damping, speed, Zero) == Scale(speed, damping);
    ScaledNorm(speed, damping);
  }

  /** With no speed and no drive the next speed is zero. */
  lemma NextSpeedAtRest(damping: real)
    ensures NextSpeed(damping, Zero, Zero) == Zero
  {
    ScaleZero(damping);
    ScaleZero(1.0 - damping);
    AddZero(Zero);
  }

  /** A particle at rest whose drive vanishes (no net force, or a force the
      wiggle cancels) stays where it is, at rest. */
  lemma RestIsFixedPoint(damping: real, s: ParticleState, extra: seq<ForceRule>, wiggle: Vector, sqrt: real -> real)
    requires IsSqrt(sqrt) && CanMove(s, extra)
    requires s.speed == Zero && Drive(TotalForce(s.rule, extra, s.position, sqrt), s.entropy, wiggle) == Zero
    ensures Moved(damping, s, extra, wiggle, sqrt) == s
  {
    NextSpeedAtRest(damping);
    AddZero(s.position);
  }

  /** From rest the next speed is the drive scaled by `1 - damping`. */
  lemma NextSpeedFromRest(damping: real, drive: Vector)
    ensures NextSpeed(damping, Zero, drive) == Scale(drive, 1.0 - damping)
  {
    ScaleZero(damping);
    AddZero(Scale(drive, 1.0 - damping));
  }

  /** From rest, with no additional rule and no wiggle, a pupil particle
      moves by its pupil force scaled by `1 - damping`. */
  lemma PupilStepFromRest(damping: real, p: Vector, entropy: real, sqrt: real -> real)
    requires IsSqrt(sqrt)
    ensures var speed := Scale(PupilForce(p, sqrt), 1.0 - damping);
      Moved(damping, ParticleState(p, Zero, entropy, Pupil), [], Zero, sqrt) ==
      ParticleState(Add(p, speed), speed, entropy, Pupil)
  {
    DriveWithoutWiggle(PupilForce(p, sqrt), entropy);
    NextSpeedFromRest(damping, PupilForce(p, sqrt));
  }

  /** So a pupil particle at rest on the positive x axis beyond the disc
      moves toward the centre by `(1 - damping) * a * (a - 25) / 240`. */
  lemma PupilStepOnAxis(damping: real, a: real, entropy: real, sqrt: real -> real)
    requires IsSqrt(sqrt) && a > PupilRadius
    ensures var s := ParticleState(Vector(a, 0.0), Zero, entropy, Pupil);
      var v := -Times(1.0 - damping, Times(a, a - PupilRadius) / ScreenSize.x);
      Moved(damping, s, [], Zero, sqrt) == ParticleState(Vector(a + v, 0.0), Vector(v, 0.0), entropy, Pupil)
  {
    PupilStepFromRest(damping, Vector(a, 0.0), entropy, sqrt);
    PupilForceOnAxis(a, sqrt);
    ScaleOnAxis(Times(a, a - PupilRadius) / ScreenSize.x, 1.0 - damping);
  }

  /** Without a wiggle the drive is the force alone. */
  lemma DriveWithoutWiggle(force: Vector, entropy: real)
    ensures Drive(force, entropy, Zero) == force
  {
    ScaleZero(entropy);
    AddZero(force);
  }

  lemma ScaleOnAxis(c: real, k: real)
    ensures Scale(Vector(-c, 0.0), k) == Vector(-Times(k, c), 0.0)
  {
  }

  /** `k * w` stays within `[-k, k]` when k is non-negative and w in [-1, 1]. */
  lemma TimesBound(k: real, w: real)
    requires k >= 0.0 && -1.0 <= w <= 1.0
    ensures -k <= Times(k, w) <= k
  {
    TimesSign(k, 1.0 - w);
    TimesSign(k, 1.0 + w);
    assert Times(k, 1.0 - w) == k - Times(k, w);
    assert Times(k, 1.0 + w) == k + Times(k, w);
  }

  /** From rest, one step moves a particle by the drive scaled by
      `1 - damping`. */
  lemma MovedFromRest(damping: real, s: ParticleState, extra: seq<ForceRule>, wiggle: Vector, sqrt: real -> real)
    requires IsSqrt(sqrt) && CanMove(s, extra) && s.speed == Zero
    ensures Moved(damping, s, extra, wiggle, sqrt).speed ==
      Scale(Drive(TotalForce(s.rule, extra, s.position, sqrt), s.entropy, wiggle), 1.0 - damping)
  {
    NextSpeedFromRest(damping, Drive(TotalForce(s.rule, extra, s.position, sqrt), s.entropy, wiggle));
  }

  /** The damped drive differs from the damped force by at most
      `(1 - damping) * entropy` along each axis when the wiggle lies in the
      unit square. */
  lemma DampedDriveBound(damping: real, force: Vector, entropy: real, wiggle: Vector)
    requires 0.0 <= damping <= 1.0 && entropy >= 0.0 && InUnitSquare(wiggle)
    ensures var v := Scale(Drive(force, entropy, wiggle), 1.0 - damping);
      var pushed := Scale(force, 1.0 - damping);
      var bound := Times(1.0 - damping, entropy);
      -bound <= v.x - pushed.x <= bound && -bound <= v.y - pushed.y <= bound
  {
    var k := 1.0 - damping;
    var bound := Times(k, entropy);
    TimesDistributes(k, force.x, Times(entropy, wiggle.x));
    TimesDistributes(k, force.y, Times(entropy, wiggle.y));
    TimesAssociates(k, entropy, wiggle.x);
    TimesAssociates(k, entropy, wiggle.y);
    TimesSign(k, entropy);
    TimesBound(bound, wiggle.x);
    TimesBound(bound, wiggle.y);
  }

  /** From rest, the wiggle moves a particle at most `(1 - damping) * entropy`
      away, along each axis, from where the force alone would take it: the
      jitter the entropy allows. */
  lemma JitterBound(damping: real, s: ParticleState, extra: seq<ForceRule>, wiggle: Vector, sqrt: real -> real)
    requires IsSqrt(sqrt) && CanMove(s, extra) && s.speed == Zero
    requires 0.0 <= damping <= 1.0 && s.entropy >= 0.0 && InUnitSquare(wiggle)
    ensures var r := Moved(damping, s, extra, wiggle, sqrt);
      var pushed := Scale(TotalForce(s.rule, extra, s.position, sqrt), 1.0 - damping);
      var bound := Times(1.0 - damping, s.entropy);
      -bound <= r.position.x - s.position.x - pushed.x <= bound &&
      -bound <= r.position.y - s.position.y - pushed.y <= bound
  {
    MovedFromRest(damping, s, extra, wiggle, sqrt);
    DampedDriveBound(damping, TotalForce(s.rule, extra, s.position, sqrt), s.entropy, wiggle);
  }
}

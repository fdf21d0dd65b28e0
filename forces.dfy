/** The force rules of the eye animations: a pull toward the filled pupil
    disc, a pull toward the iris ring, and the touch attractor. Each rule is
    a pure function of the particle's position; the square root the distance
    needs is the host's, passed as `sqrt`. */
module Forces {
  import opened Vectors

  /** SCREEN_SIZE and CENTER. */
  const ScreenSize := Vector(240.0, 240.0)
  const Center := Vector(0.0, 0.0)
  /** CIRCLE_CENTER_R, CIRCLE_RING_R and CIRCLE_RING_WIDTH. */
  const PupilRadius: real := 25.0
  const RingRadius: real := 90.0
  const RingWidth: real := 6.0
  /** The factor `0.1` of the touch attractor. */
  const MassScale: real := 0.1

  /** The `force_fn` a particle carries: `force_to_pupil`, `force_to_outline`,
      or the closure `force_to_mass(target)` builds. */
  datatype ForceRule = Pupil | Outline | Mass(target: Vector)

  /** `center.distance_to(position)`. */
  function Radius(p: Vector, sqrt: real -> real): (d: real)
    requires IsSqrt(sqrt)
    ensures d >= 0.0
    ensures d == 0.0 <==> p == Center
  {
    Distance(Center, p, sqrt)
  }

  /** `force_to_pupil`: nothing inside the disc of radius 25, otherwise a pull
      toward the centre that grows with the distance beyond the rim. The
      inside branch returns `center`, which is the zero vector. */
  function PupilForce(p: Vector, sqrt: real -> real): Vector
    requires IsSqrt(sqrt)
  {
    var difference := Sub(Center, p);
    var distance := Distance(Center, p, sqrt);
    if distance > PupilRadius then
      Div(Scale(difference, distance - PupilRadius), ScreenSize)
    else
      Center
  }

  /** `force_to_outline`: nothing within the band 84..96, a pull inward beyond
      it and a push outward inside it; the inside factor `distance - 90 + 6`
      is negative. */
  function OutlineForce(p: Vector, sqrt: real -> real): Vector
    requires IsSqrt(sqrt)
  {
    var difference := Sub(Center, p);
    var distance := Distance(Center, p, sqrt);
    if distance > RingRadius + RingWidth then
      Div(Scale(difference, distance - RingRadius - RingWidth), ScreenSize)
    else if distance < RingRadius - RingWidth then
      Div(Scale(difference, distance - RingRadius + RingWidth), ScreenSize)
    else
      Center
  }

  /** The closure `force_to_mass(mass)` applied to a position: the direction
      to the mass scaled to length 24 (`difference / distance` has length 1).
      The source divides by the distance without a guard, so the position
      must differ from the mass. */
  function MassForce(mass: Vector, p: Vector, sqrt: real -> real): Vector
    requires IsSqrt(sqrt) && p != mass
  {
    var difference := Sub(mass, p);
    var distance := Distance(mass, p, sqrt);
    Scale(Mul(DivBy(difference, distance), ScreenSize), MassScale)
  }

  /** A rule can be evaluated at p unless it is an attractor sitting on p. */
  predicate Defined(rule: ForceRule, p: Vector)
  {
    !(rule.Mass? && rule.target == p)
  }

  /** Calling a particle's `force_fn` on a position. */
  function Evaluate(rule: ForceRule, p: Vector, sqrt: real -> real): Vector
    requires IsSqrt(sqrt) && Defined(rule, p)
  {
    match rule
    case Pupil => PupilForce(p, sqrt)
    case Outline => OutlineForce(p, sqrt)
    case Mass(target) => MassForce(target, p, sqrt)
  }

  /** The force `Particle.move` accumulates: the particle's own rule, then
      `force += add_force_fn(position)` for each additional rule in list order. */
  function TotalForce(own: ForceRule, extra: seq<ForceRule>, p: Vector, sqrt: real -> real): (r: Vector)
    requires IsSqrt(sqrt) && Defined(own, p) && forall f <- extra :: Defined(f, p)
    ensures extra == [] ==> r == Evaluate(own, p, sqrt)
    decreases |extra|
  {
    if extra == [] then
      Evaluate(own, p, sqrt)
    else
      var n := |extra| - 1;
      assert forall f <- extra[..n] :: f in extra;
      Add(TotalForce(own, extra[..n], p, sqrt), Evaluate(extra[n], p, sqrt))
  }

  /** Reference definition of the sum of the additional forces, head first. */
  function SumForces(extra: seq<ForceRule>, p: Vector, sqrt: real -> real): Vector
    requires IsSqrt(sqrt) && forall f <- extra :: Defined(f, p)
  {
    if extra == [] then Zero
    else
      assert forall f <- extra[1..] :: f in extra;
      Add(Evaluate(extra[0], p, sqrt), SumForces(extra[1..], p, sqrt))
  }

  // ---------------------------------------------------------------------
  // Properties of the rules.

  /** The pupil force in closed form: zero in the disc, beyond it the
      difference to the centre scaled by `(distance - 25) / 240`. */
  lemma PupilForceValue(p: Vector, sqrt: real -> real)
    requires IsSqrt(sqrt)
    ensures Radius(p, sqrt) <= PupilRadius ==> PupilForce(p, sqrt) == Zero
    ensures Radius(p, sqrt) > PupilRadius ==>
      PupilForce(p, sqrt) == Scale(Sub(Center, p), (Radius(p, sqrt) - PupilRadius) / ScreenSize.x)
  {
  }

  /** The ring force in closed form: the difference to the centre scaled by
      `(distance - 96) / 240` beyond the band, by `(distance - 84) / 240`
      inside it, and zero within it. */
  lemma OutlineForceValue(p: Vector, sqrt: real -> real)
    requires IsSqrt(sqrt)
    ensures Radius(p, sqrt) > RingRadius + RingWidth ==>
      OutlineForce(p, sqrt) == Scale(Sub(Center, p), (Radius(p, sqrt) - RingRadius - RingWidth) / ScreenSize.x)
    ensures Radius(p, sqrt) < RingRadius - RingWidth ==>
      OutlineForce(p, sqrt) == Scale(Sub(Center, p), (Radius(p, sqrt) - RingRadius + RingWidth) / ScreenSize.x)
    ensures RingRadius - RingWidth <= Radius(p, sqrt) <= RingRadius + RingWidth ==> OutlineForce(p, sqrt) == Zero
  {
  }

  /** The touch force in closed form: the difference to the mass scaled by
      `24 / distance`. */
  lemma MassForceValue(mass: Vector, p: Vector, sqrt: real -> real)
    requires IsSqrt(sqrt) && p != mass
    ensures MassForce(mass, p, sqrt) == Scale(Sub(mass, p), ScreenSize.x * MassScale / Distance(mass, p, sqrt))
  {
  }

  /** The pupil rule exerts no force exactly inside the closed disc. */
  lemma PupilForceZeroIff(p: Vector, sqrt: real -> real)
    requires IsSqrt(sqrt)
    ensures PupilForce(p, sqrt) == Zero <==> Radius(p, sqrt) <= PupilRadius
  {
    PupilForceValue(p, sqrt);
    if Radius(p, sqrt) > PupilRadius {
      PupilForcePointsToCenter(p, sqrt);
    }
  }

  /** Outside the disc the pupil force has a positive component along the
      direction to the centre. */
  lemma PupilForcePointsToCenter(p: Vector, sqrt: real -> real)
    requires IsSqrt(sqrt) && Radius(p, sqrt) > PupilRadius
    ensures Dot(PupilForce(p, sqrt), Sub(Center, p)) > 0.0
  {
    var c := (Radius(p, sqrt) - PupilRadius) / ScreenSize.x;
    PupilForceValue(p, sqrt);
    PulledAlong(p, c, sqrt);
  }

  /** Outside the disc the pupil force has length d*(d-25)/240 at distance d. */
  lemma PupilForceMagnitude(p: Vector, sqrt: real -> real)
    requires IsSqrt(sqrt) && Radius(p, sqrt) > PupilRadius
    ensures NormSq(PupilForce(p, sqrt)) ==
      Square(Times(Radius(p, sqrt), Radius(p, sqrt) - PupilRadius) / ScreenSize.x)
  {
    var d := Radius(p, sqrt);
    var c := (d - PupilRadius) / ScreenSize.x;
    PupilForceValue(p, sqrt);
    ScaledNorm(Sub(Center, p), c);
    DistanceSquared(Center, p, sqrt);
    assert NormSq(Sub(Center, p)) == Square(d);
    assert Times(Square(c), Square(d)) == Square(Times(d, d - PupilRadius) / ScreenSize.x);
  }

  /** On the positive x axis beyond the disc the pupil force is
      `(-a*(a-25)/240, 0)` at distance a. */
  lemma PupilForceOnAxis(a: real, sqrt: real -> real)
    requires IsSqrt(sqrt) && a > PupilRadius
    ensures PupilForce(Vector(a, 0.0), sqrt) == Vector(-Times(a, a - PupilRadius) / ScreenSize.x, 0.0)
  {
    var p := Vector(a, 0.0);
    PupilForceValue(p, sqrt);
    DistanceSquared(Center, p, sqrt);
    TimesNegated(a, a);
    assert DistanceSq(Center, p) == Square(a);
    RootUnique(Radius(p, sqrt), a);
  }

  /** Outside the disc the pull grows with the distance. */
  lemma PupilForceMonotone(p: Vector, q: Vector, sqrt: real -> real)
    requires IsSqrt(sqrt) && PupilRadius < Radius(p, sqrt) <= Radius(q, sqrt)
    ensures NormSq(PupilForce(p, sqrt)) <= NormSq(PupilForce(q, sqrt))
  {
    var d, e := Radius(p, sqrt), Radius(q, sqrt);
    PupilForceMagnitude(p, sqrt);
    PupilForceMagnitude(q, sqrt);
    TimesSign(d, d - PupilRadius);
    assert Times(e, e - PupilRadius) - Times(d, d - PupilRadius) == Times(e - d, e + d - PupilRadius);
    TimesSign(e - d, e + d - PupilRadius);
    SquareMonotone(Times(d, d - PupilRadius) / ScreenSize.x, Times(e, e - PupilRadius) / ScreenSize.x);
  }

  /** The ring rule exerts no force within the band 84..96, and off the band
      it exerts one everywhere except possibly at the centre itself. */
  lemma OutlineForceZeroIff(p: Vector, sqrt: real -> real)
    requires IsSqrt(sqrt)
    ensures RingRadius - RingWidth <= Radius(p, sqrt) <= RingRadius + RingWidth ==>
      OutlineForce(p, sqrt) == Zero
    ensures OutlineForce(p, sqrt) == Zero ==>
      RingRadius - RingWidth <= Radius(p, sqrt) <= RingRadius + RingWidth || p == Center
  {
    OutlineForceValue(p, sqrt);
    if p != Center {
      OutlineForceOffBand(p, sqrt);
    }
  }

  /** Off the band and away from the centre the ring force never vanishes. */
  lemma OutlineForceOffBand(p: Vector, sqrt: real -> real)
    requires IsSqrt(sqrt) && p != Center
    ensures OutlineForce(p, sqrt) == Zero ==>
      RingRadius - RingWidth <= Radius(p, sqrt) <= RingRadius + RingWidth
  {
    var d := Radius(p, sqrt);
    if d > RingRadius + RingWidth {
      OutlineForceBeyondBand(p, sqrt);
    } else if d < RingRadius - RingWidth {
      OutlineForceInsideBand(p, sqrt);
    }
  }

  /** Beyond the outer edge the ring force never vanishes. */
  lemma OutlineForceBeyondBand(p: Vector, sqrt: real -> real)
    requires IsSqrt(sqrt) && Radius(p, sqrt) > RingRadius + RingWidth
    ensures OutlineForce(p, sqrt) != Zero
  {
    OutlineForcePullsInward(p, sqrt);
  }

  /** Inside the inner edge and away from the centre the ring force never
      vanishes. */
  lemma OutlineForceInsideBand(p: Vector, sqrt: real -> real)
    requires IsSqrt(sqrt) && Radius(p, sqrt) < RingRadius - RingWidth && p != Center
    ensures OutlineForce(p, sqrt) != Zero
  {
    OutlineForcePushesOutward(p, sqrt);
  }

  /** Beyond the band the ring force points toward the centre. */
  lemma OutlineForcePullsInward(p: Vector, sqrt: real -> real)
    requires IsSqrt(sqrt) && Radius(p, sqrt) > RingRadius + RingWidth
    ensures Dot(OutlineForce(p, sqrt), Sub(Center, p)) > 0.0
  {
    var c := (Radius(p, sqrt) - RingRadius - RingWidth) / ScreenSize.x;
    OutlineForceValue(p, sqrt);
    PulledAlong(p, c, sqrt);
  }

  /** Inside the band, away from the centre, the ring force points away
      from the centre. */
  lemma OutlineForcePushesOutward(p: Vector, sqrt: real -> real)
    requires IsSqrt(sqrt) && Radius(p, sqrt) < RingRadius - RingWidth && p != Center
    ensures Dot(OutlineForce(p, sqrt), Sub(Center, p)) < 0.0
  {
    var c := (Radius(p, sqrt) - RingRadius + RingWidth) / ScreenSize.x;
    OutlineForceValue(p, sqrt);
    PulledAlong(p, c, sqrt);
  }

  /** The projection of `(center - p) * c` on `center - p` has the sign of c. */
  lemma PulledAlong(p: Vector, c: real, sqrt: real -> real)
    requires IsSqrt(sqrt) && p != Center
    ensures c > 0.0 ==> Dot(Scale(Sub(Center, p), c), Sub(Center, p)) > 0.0
    ensures c < 0.0 ==> Dot(Scale(Sub(Center, p), c), Sub(Center, p)) < 0.0
  {
    var v := Sub(Center, p);
    assert v != Zero;
    ScaledNorm(v, c);
    TimesSign(c, NormSq(v));
  }

  /** Each component of the touch force has the sign of the same component
      of `mass - position`. */
  lemma MassForceSigns(mass: Vector, p: Vector, sqrt: real -> real)
    requires IsSqrt(sqrt) && p != mass
    ensures MassForce(mass, p, sqrt).x > 0.0 <==> mass.x > p.x
    ensures MassForce(mass, p, sqrt).x < 0.0 <==> mass.x < p.x
    ensures MassForce(mass, p, sqrt).y > 0.0 <==> mass.y > p.y
    ensures MassForce(mass, p, sqrt).y < 0.0 <==> mass.y < p.y
  {
    var c := ScreenSize.x * MassScale / Distance(mass, p, sqrt);
    MassForceValue(mass, p, sqrt);
    assert c > 0.0;
    TimesSign(c, mass.x - p.x);
    TimesSign(c, p.x - mass.x);
    TimesSign(c, mass.y - p.y);
    TimesSign(c, p.y - mass.y);
  }

  /** The touch force has length 24 wherever the particle is: it is not
      stronger when closer. */
  lemma MassForceMagnitude(mass: Vector, p: Vector, sqrt: real -> real)
    requires IsSqrt(sqrt) && p != mass
    ensures NormSq(MassForce(mass, p, sqrt)) == Square(ScreenSize.x * MassScale)
  {
    var d := Distance(mass, p, sqrt);
    var c := ScreenSize.x * MassScale / d;
    MassForceValue(mass, p, sqrt);
    ScaledNorm(Sub(mass, p), c);
    DistanceSquared(mass, p, sqrt);
    assert NormSq(Sub(mass, p)) == Square(d);
    assert Times(c, d) == ScreenSize.x * MassScale;
    assert Times(Square(c), Square(d)) == Square(Times(c, d));
  }

  /** The accumulated force is the own rule plus the sum of the additional
      rules, whatever the grouping of the additions. */
  lemma {:induction false} TotalForceIsSum(own: ForceRule, extra: seq<ForceRule>, p: Vector, sqrt: real -> real)
    requires IsSqrt(sqrt) && Defined(own, p) && forall f <- extra :: Defined(f, p)
    ensures TotalForce(own, extra, p, sqrt) == Add(Evaluate(own, p, sqrt), SumForces(extra, p, sqrt))
    decreases |extra|
  {
    if extra != [] {
      var n := |extra| - 1;
      assert forall f <- extra[..n] :: f in extra;
      TotalForceIsSum(own, extra[..n], p, sqrt);
      SumForcesSnoc(extra[..n], extra[n], p, sqrt);
      assert extra[..n] + [extra[n]] == extra;
    }
  }

  /** Appending one rule adds its force at the end of the sum. */
  lemma {:induction false} SumForcesSnoc(fs: seq<ForceRule>, f: ForceRule, p: Vector, sqrt: real -> real)
    requires IsSqrt(sqrt) && Defined(f, p) && forall g <- fs :: Defined(g, p)
    ensures SumForces(fs + [f], p, sqrt) == Add(SumForces(fs, p, sqrt), Evaluate(f, p, sqrt))
    decreases |fs|
  {
    if fs != [] {
      assert (fs + [f])[1..] == fs[1..] + [f];
      SumForcesSnoc(fs[1..], f, p, sqrt);
    }
  }
}

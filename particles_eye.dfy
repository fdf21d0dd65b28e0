/** particles_eye.py: the eye whose 50 pupil and 150 ring particles are also
    drawn toward the rim when a petal is touched. */
module ParticlesEyeApp {
  import opened Vectors
  import opened Forces
  import opened Motion

  /** DAMPING, ENTROPY_BASE and ENTROPY_TOUCH. */
  const Damping: real := 0.8
  const EntropyBase: real := 5.0
  const EntropyTouch: real := 10.0
  /** NUM_PARTICLES_INNER and NUM_PARTICLES_OUTER. */
  const PupilCount: nat := 50
  const OutlineCount: nat := 150
  /** TOUCH_DISTANCE, half the screen width. */
  const TouchDistance: real := 120.0

  /** The part of a captouch petal the eye reads: `petal.whole.pressed` and
      `petal.whole.repeated`. */
  datatype Petal = Petal(pressed: bool, repeated: bool)

  predicate Active(petal: Petal)
  {
    petal.pressed || petal.repeated
  }

  /** The host's `math.pi`, `math.cos` and `math.sin`. */
  datatype Trig = Trig(pi: real, cos: real -> real, sin: real -> real)

  /** `2 * math.pi * index / 10 - math.pi / 2`: petal 0 points straight up
      the screen's y axis, the petals go round in tenths of a turn. */
  function Angle(index: nat, trig: Trig): real
  {
    2.0 * trig.pi * (index as real) / 10.0 - trig.pi / 2.0
  }

  /** The attractor of petal `index`, TOUCH_DISTANCE from the centre along
      its angle. */
  function Anchor(index: nat, trig: Trig): Vector
  {
    var angle := Angle(index, trig);
    Vector(TouchDistance * trig.cos(angle), TouchDistance * trig.sin(angle))
  }

  /** The `additional_forces` list `think` builds: one attractor per active
      petal, in petal order. */
  function Attractors(petals: seq<Petal>, trig: Trig): (r: seq<ForceRule>)
    ensures |r| <= |petals|
    ensures forall f <- r :: f.Mass?
    decreases |petals|
  {
    if petals == [] then []
    else
      var n := |petals| - 1;
      Attractors(petals[..n], trig) + (if Active(petals[n]) then [Mass(Anchor(n, trig))] else [])
  }

  /** The loop of `think` that builds `additional_forces` by appending. */
  method TouchAttractors(petals: seq<Petal>, trig: Trig) returns (forces: seq<ForceRule>)
    ensures forces == Attractors(petals, trig)
  {
    forces := [];
    for index := 0 to |petals|
      invariant forces == Attractors(petals[..index], trig)
    {
      assert petals[..index + 1][..index] == petals[..index];
      if Active(petals[index]) {
        var angle := Angle(index, trig);
        forces := forces + [Mass(Vector(TouchDistance * trig.cos(angle), TouchDistance * trig.sin(angle)))];
      }
    }
    assert petals[..|petals|] == petals;
  }

  /** `ENTROPY_TOUCH if additional_forces else ENTROPY_BASE`. */
  function EntropyFor(additional: seq<ForceRule>): real
  {
    if additional != [] then EntropyTouch else EntropyBase
  }

  /** What `think` does to one particle: set its entropy, then move it. */
  function FrameStep(s: ParticleState, additional: seq<ForceRule>, wiggle: Vector, sqrt: real -> real): (r: ParticleState)
    requires IsSqrt(sqrt) && CanMove(s, additional)
    ensures r.rule == s.rule && r.entropy == EntropyFor(additional)
  {
    Moved(Damping, s.(entropy := EntropyFor(additional)), additional, wiggle, sqrt)
  }

  /** One frame for all particles, each with its own wiggle. */
  function Frame(states: seq<ParticleState>, additional: seq<ForceRule>, wiggles: seq<Vector>, sqrt: real -> real): (r: seq<ParticleState>)
    requires IsSqrt(sqrt) && |wiggles| == |states|
    requires forall i :: 0 <= i < |states| ==> CanMove(states[i], additional)
    ensures |r| == |states|
    ensures forall i :: 0 <= i < |r| ==> r[i].rule == states[i].rule && r[i].entropy == EntropyFor(additional)
  {
    seq(|states|, i requires 0 <= i < |states| => FrameStep(states[i], additional, wiggles[i], sqrt))
  }

  class Particle {
    var position: Vector
    var speed: Vector
    var entropy: real
    /** `force_fn`, which no method reassigns. */
    const rule: ForceRule

    function State(): ParticleState
      reads this
    {
      ParticleState(position, speed, entropy, rule)
    }

    /** `Particle(force_fn)`, with the two `randint` draws as `x` and `y`. */
    constructor (rule: ForceRule, x: int, y: int)
      requires InSpawnRange(x) && InSpawnRange(y)
      ensures State() == Spawned(rule, x, y, EntropyBase)
    {
      position := Vector(x as real, y as real);
      speed := Zero;
      entropy := EntropyBase;
      this.rule := rule;
    }

    /** `move(delta_ms, additional_forces)`, with the `random.uniform` draws
        as `wiggle`. */
    method Move(additional: seq<ForceRule>, wiggle: Vector, sqrt: real -> real)
      requires IsSqrt(sqrt) && CanMove(State(), additional)
      modifies this
      ensures State() == Moved(Damping, old(State()), additional, wiggle, sqrt)
    {
      var force := Evaluate(rule, position, sqrt);
      if additional != [] {
        for i := 0 to |additional|
          invariant force == TotalForce(rule, additional[..i], position, sqrt)
        {
          assert additional[..i + 1][..i] == additional[..i];
          force := Add(force, Evaluate(additional[i], position, sqrt));
        }
        assert additional[..|additional|] == additional;
      }
      speed := NextSpeed(Damping, speed, Drive(force, entropy, wiggle));
      position := Add(position, speed);
    }
  }

  class ParticlesEye {
    var particles: seq<Particle>

    /** 50 pupil particles followed by 150 ring particles, all distinct. */
    ghost predicate Valid()
      reads this
    {
      && |particles| == PupilCount + OutlineCount
      && (forall i, j :: 0 <= i < j < |particles| ==> particles[i] != particles[j])
      && (forall i :: 0 <= i < |particles| ==> particles[i].rule == if i < PupilCount then Pupil else Outline)
    }

    function States(): seq<ParticleState>
      reads this, particles
    {
      seq(|particles|, i reads this, particles requires 0 <= i < |particles| => particles[i].State())
    }

    /** `ParticlesEye.__init__`, with the spawn draws of the particles, pupil
        particles first, as `starts`. */
    constructor (starts: seq<(int, int)>)
      requires |starts| == PupilCount + OutlineCount
      requires forall i :: 0 <= i < |starts| ==> InSpawnRange(starts[i].0) && InSpawnRange(starts[i].1)
      ensures Valid()
      ensures forall i :: 0 <= i < |particles| ==>
        particles[i].State() == Spawned(particles[i].rule, starts[i].0, starts[i].1, EntropyBase)
    {
      var made: seq<Particle> := [];
      for i := 0 to PupilCount
        invariant |made| == i
        invariant forall k, l :: 0 <= k < l < i ==> made[k] != made[l]
        invariant forall k :: 0 <= k < i ==> made[k].rule == Pupil
        invariant forall k :: 0 <= k < i ==> made[k].State() == Spawned(Pupil, starts[k].0, starts[k].1, EntropyBase)
        invariant forall k :: 0 <= k < i ==> fresh(made[k])
      {
        var p := new Particle(Pupil, starts[i].0, starts[i].1);
        made := made + [p];
      }
      for i := PupilCount to PupilCount + OutlineCount
        invariant |made| == i
        invariant forall k, l :: 0 <= k < l < i ==> made[k] != made[l]
        invariant forall k :: 0 <= k < i ==> made[k].rule == if k < PupilCount then Pupil else Outline
        invariant forall k :: 0 <= k < i ==> made[k].State() == Spawned(made[k].rule, starts[k].0, starts[k].1, EntropyBase)
        invariant forall k :: 0 <= k < i ==> fresh(made[k])
      {
        var p := new Particle(Outline, starts[i].0, starts[i].1);
        made := made + [p];
      }
      particles := made;
    }

    /** `think(ins, delta_ms)`: build the attractors of the touched petals,
        then give every particle the entropy for this frame and move it. The
        attractors must not sit exactly on a particle, where the source
        divides by a zero distance. */
    method Think(petals: seq<Petal>, trig: Trig, wiggles: seq<Vector>, sqrt: real -> real)
      requires Valid() && IsSqrt(sqrt) && |wiggles| == |particles|
      requires forall i :: 0 <= i < |particles| ==>
        forall f <- Attractors(petals, trig) :: Defined(f, particles[i].position)
      modifies particles
      ensures Valid()
      ensures States() == Frame(old(States()), Attractors(petals, trig), wiggles, sqrt)
    {
      var additional := TouchAttractors(petals, trig);
      ghost var before := States();
      for i := 0 to |particles|
        invariant forall k :: 0 <= k < i ==>
          particles[k].State() == FrameStep(before[k], additional, wiggles[k], sqrt)
        invariant forall k :: i <= k < |particles| ==> particles[k].State() == before[k]
      {
        particles[i].entropy := EntropyFor(additional);
        particles[i].Move(additional, wiggles[i], sqrt);
      }
    }
  }

  // ---------------------------------------------------------------------
  // Properties of the touch attractors and of a frame.

  /** No attractor is built exactly when no petal is pressed or repeated. */
  lemma {:induction false} AttractorsEmptyIff(petals: seq<Petal>, trig: Trig)
    ensures Attractors(petals, trig) == [] <==> forall i :: 0 <= i < |petals| ==> !Active(petals[i])
    decreases |petals|
  {
    if petals != [] {
      var n := |petals| - 1;
      AttractorsEmptyIff(petals[..n], trig);
      assert forall i :: 0 <= i < n ==> petals[..n][i] == petals[i];
    }
  }

  /** The attractors are exactly the anchors of the active petals. */
  lemma {:induction false} AttractorsMembers(petals: seq<Petal>, trig: Trig, f: ForceRule)
    ensures f in Attractors(petals, trig) <==>
      exists i :: 0 <= i < |petals| && Active(petals[i]) && f == Mass(Anchor(i, trig))
    decreases |petals|
  {
    if petals != [] {
      var n := |petals| - 1;
      AttractorsMembers(petals[..n], trig, f);
      assert forall i :: 0 <= i < n ==> petals[..n][i] == petals[i];
    }
  }

  /** The number of petals pressed or repeated. */
  function CountActive(petals: seq<Petal>): nat
  {
    if petals == [] then 0
    else CountActive(petals[..|petals| - 1]) + (if Active(petals[|petals| - 1]) then 1 else 0)
  }

  /** There is exactly one attractor per active petal, even when two petals
      share an anchor. */
  lemma {:induction false} AttractorsCount(petals: seq<Petal>, trig: Trig)
    ensures |Attractors(petals, trig)| == CountActive(petals)
    decreases |petals|
  {
    if petals != [] {
      AttractorsCount(petals[..|petals| - 1], trig);
    }
  }

  /** The entropy of a frame is ENTROPY_TOUCH exactly when some petal is
      pressed or repeated. */
  lemma TouchRaisesEntropy(petals: seq<Petal>, trig: Trig)
    ensures EntropyFor(Attractors(petals, trig)) == EntropyTouch <==>
      exists i :: 0 <= i < |petals| && Active(petals[i])
  {
    AttractorsEmptyIff(petals, trig);
  }

  /** When the host's cosine and sine satisfy `cos^2 + sin^2 = 1`, a petal's
      attractor lies on the rim of the screen, TOUCH_DISTANCE from the
      centre. */
  lemma AnchorOnRim(index: nat, trig: Trig, sqrt: real -> real)
    requires IsSqrt(sqrt)
    requires var angle := Angle(index, trig);
      Square(trig.cos(angle)) + Square(trig.sin(angle)) == 1.0
    ensures Radius(Anchor(index, trig), sqrt) == TouchDistance
  {
    var angle := Angle(index, trig);
    var c, s := trig.cos(angle), trig.sin(angle);
    var a := Anchor(index, trig);
    DistanceSquared(Center, a, sqrt);
    assert Square(0.0 - TouchDistance * c) == Times(TouchDistance * TouchDistance, Square(c));
    assert Square(0.0 - TouchDistance * s) == Times(TouchDistance * TouchDistance, Square(s));
    assert DistanceSq(Center, a) == Square(TouchDistance);
    RootUnique(Radius(a, sqrt), TouchDistance);
  }
}

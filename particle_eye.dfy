/** particle_eye.py: the earlier eye, 100 pupil and 150 ring particles that
    only follow their own rule, with a heavier damping and a fixed entropy. */
module ParticleEyeApp {
  import opened Vectors
  import opened Forces
  import opened Motion

  /** DAMPING, and the entropy every particle is created with. */
  const Damping: real := 0.9
  const EntropyBase: real := 5.0
  /** NUM_PARTICLES_INNER and NUM_PARTICLES_OUTER. */
  const PupilCount: nat := 100
  const OutlineCount: nat := 150

  /** The rules this animation knows: it has no attractor. */
  predicate OwnRule(rule: ForceRule)
  {
    rule.Pupil? || rule.Outline?
  }

  /** One frame for all particles: each moves under its own rule alone, with
      its own wiggle. */
  function Frame(states: seq<ParticleState>, wiggles: seq<Vector>, sqrt: real -> real): (r: seq<ParticleState>)
    requires IsSqrt(sqrt) && |wiggles| == |states|
    requires forall i :: 0 <= i < |states| ==> OwnRule(states[i].rule)
    ensures |r| == |states|
    ensures forall i :: 0 <= i < |r| ==> r[i].rule == states[i].rule && r[i].entropy == states[i].entropy
  {
    seq(|states|, i requires 0 <= i < |states| =>
      assert OwnRule(states[i].rule);
      Moved(Damping, states[i], [], wiggles[i], sqrt))
  }

  class Particle {
    var position: Vector
    var speed: Vector
    var entropy: real
    /** `force_fn`, which no method reassigns. */
    const rule: ForceRule

    function State(): ParticleState
      reads this
    {
      ParticleState(position, speed, entropy, rule)
    }

    /** `Particle(force_fn)`, with the two `randint` draws as `x` and `y`. */
    constructor (rule: ForceRule, x: int, y: int)
      requires OwnRule(rule) && InSpawnRange(x) && InSpawnRange(y)
      ensures State() == Spawned(rule, x, y, EntropyBase)
    {
      position := Vector(x as real, y as real);
      speed := Zero;
      entropy := EntropyBase;
      this.rule := rule;
    }

    /** `move(delta_ms)`, with the `random.uniform` draws as `wiggle`. */
    method Move(wiggle: Vector, sqrt: real -> real)
      requires IsSqrt(sqrt) && OwnRule(rule)
      modifies this
      ensures State() == Moved(Damping, old(State()), [], wiggle, sqrt)
    {
      var force := Evaluate(rule, position, sqrt);
      speed := NextSpeed(Damping, speed, Drive(force, entropy, wiggle));
      position := Add(position, speed);
    }
  }

  class ParticleEye {
    var particles: seq<Particle>

    /** 100 pupil particles followed by 150 ring particles, all distinct, all
        with entropy 5. */
    ghost predicate Valid()
      reads this, particles
    {
      && |particles| == PupilCount + OutlineCount
      && (forall i, j :: 0 <= i < j < |particles| ==> particles[i] != particles[j])
      && (forall i :: 0 <= i < |particles| ==> particles[i].rule == if i < PupilCount then Pupil else Outline)
      && (forall i :: 0 <= i < |particles| ==> particles[i].entropy == EntropyBase)
    }

    function States(): seq<ParticleState>
      reads this, particles
    {
      seq(|particles|, i reads this, particles requires 0 <= i < |particles| => particles[i].State())
    }

    /** `ParticleEye.__init__`, with the spawn draws of the particles, pupil
        particles first, as `starts`. */
    constructor (starts: seq<(int, int)>)
      requires |starts| == PupilCount + OutlineCount
      requires forall i :: 0 <= i < |starts| ==> InSpawnRange(starts[i].0) && InSpawnRange(starts[i].1)
      ensures Valid()
      ensures forall i :: 0 <= i < |particles| ==>
        particles[i].State() == Spawned(particles[i].rule, starts[i].0, starts[i].1, EntropyBase)
    {
      var made: seq<Particle> := [];
      for i := 0 to PupilCount
        invariant |made| == i
        invariant forall k, l :: 0 <= k < l < i ==> made[k] != made[l]
        invariant forall k :: 0 <= k < i ==> made[k].rule == Pupil
        invariant forall k :: 0 <= k < i ==> made[k].State() == Spawned(Pupil, starts[k].0, starts[k].1, EntropyBase)
        invariant forall k :: 0 <= k < i ==> fresh(made[k])
      {
        var p := new Particle(Pupil, starts[i].0, starts[i].1);
        made := made + [p];
      }
      for i := PupilCount to PupilCount + OutlineCount
        invariant |made| == i
        invariant forall k, l :: 0 <= k < l < i ==> made[k] != made[l]
        invariant forall k :: 0 <= k < i ==> made[k].rule == if k < PupilCount then Pupil else Outline
        invariant forall k :: 0 <= k < i ==> made[k].State() == Spawned(made[k].rule, starts[k].0, starts[k].1, EntropyBase)
        invariant forall k :: 0 <= k < i ==> fresh(made[k])
      {
        var p := new Particle(Outline, starts[i].0, starts[i].1);
        made := made + [p];
      }
      particles := made;
    }

    /** `think(ins, delta_ms)`: move every particle once, in order. */
    method Think(wiggles: seq<Vector>, sqrt: real -> real)
      requires Valid() && IsSqrt(sqrt) && |wiggles| == |particles|
      modifies particles
      ensures Valid()
      ensures States() == Frame(old(States()), wiggles, sqrt)
    {
      ghost var before := States();
      for i := 0 to |particles|
        invariant forall k :: 0 <= k < i ==>
          particles[k].State() == Moved(Damping, before[k], [], wiggles[k], sqrt)
        invariant forall k :: i <= k < |particles| ==> particles[k].State() == before[k]
      {
        particles[i].Move(wiggles[i], sqrt);
      }
    }
  }

  // ---------------------------------------------------------------------
  // Properties of a frame.

  /** In a frame every particle advances by its new speed, and that speed
      closes the gap to the particle's drive by the fraction `1 - DAMPING`. */
  lemma FrameRelaxes(states: seq<ParticleState>, wiggles: seq<Vector>, sqrt: real -> real, i: nat)
    requires IsSqrt(sqrt) && |wiggles| == |states|
    requires forall k :: 0 <= k < |states| ==> OwnRule(states[k].rule)
    requires i < |states|
    ensures var s, r := states[i], Frame(states, wiggles, sqrt)[i];
      var drive := Drive(Evaluate(s.rule, s.position, sqrt), s.entropy, wiggles[i]);
      Sub(r.position, s.position) == r.speed &&
      Sub(r.speed, drive) == Scale(Sub(s.speed, drive), Damping)
  {
    MovedRelaxes(Damping, states[i], [], wiggles[i], sqrt);
  }
}

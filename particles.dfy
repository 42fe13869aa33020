/** The particle lifecycle engine of src/lib/particle-base.js and the six
    effect presets built on it (src/vfx/explosion.js, fountain.js, smoke.js,
    firework.js, starburst.js, trail.js). A subclass differs from the base only
    in its `spawnParticlePosition`, which `kind` selects. */
module Particles {
  import opened Vectors
  import opened Wrappers
  import opened Spawns
  import opened SceneGraph
  import opened RealArith

  /** One entry of `this.particles`. */
  datatype Particle = Particle(position: Vec3, velocity: Vec3, lifetime: real, age: real, alpha: Option<real>)

  /** `1 - age / lifetime`. A zero lifetime makes that quotient NaN or an
      infinity rather than a number; None stands for that value. */
  function Fade(age: real, lifetime: real): Option<real> {
    if lifetime != 0.0 then Some(1.0 - age / lifetime) else None
  }

  /** The keys the ParticleSystem constructor destructures; None is a key the
      caller left undefined. Any other key (`radius`, say) is dropped. */
  datatype Options = Options(
    position: Option<Vec3>,
    velocity: Option<Vec3>,
    lifetime: Option<real>,
    color: Option<int>,
    size: Option<real>,
    particleCount: Option<nat>)

  /** One particle through one pass of `update(dt)`: it ages by dt; if that
      takes it past its lifetime it is respawned (age 0, the system velocity,
      a fresh spawn point); either way it then drifts by velocity·dt and its
      alpha is recomputed from its age. */
  function Step(p: Particle, dt: real, systemVelocity: Vec3, spawn: Vec3): (q: Particle)
    ensures q.lifetime == p.lifetime
    ensures q.lifetime != 0.0 ==> q.alpha == Some(1.0 - q.age / q.lifetime)
    ensures q.lifetime == 0.0 ==> q.alpha == None
    ensures dt >= 0.0 && 0.0 <= p.age <= p.lifetime ==> 0.0 <= q.age <= q.lifetime
    ensures dt >= 0.0 && 0.0 <= p.age <= p.lifetime && p.lifetime != 0.0 ==>
      q.alpha.Some? && 0.0 <= q.alpha.value <= 1.0
    ensures p.velocity == systemVelocity ==> q.velocity == systemVelocity
    ensures p.age + dt <= p.lifetime ==>
      q.age == p.age + dt && q.velocity == p.velocity && q.position == Add(p.position, Scale(p.velocity, dt))
    ensures p.age + dt > p.lifetime ==>
      q.age == 0.0 && q.velocity == systemVelocity && q.position == Add(spawn, Scale(systemVelocity, dt))
  {
    var aged := p.age + dt;
    if aged > p.lifetime then
      Particle(Add(spawn, Scale(systemVelocity, dt)), systemVelocity, p.lifetime, 0.0, Fade(0.0, p.lifetime))
    else
      FractionInUnit(aged, p.lifetime);
      Particle(Add(p.position, Scale(p.velocity, dt)), p.velocity, p.lifetime, aged, Fade(aged, p.lifetime))
  }

  /** A particle through a run of frames with the given time steps and, for
      each frame, the point a respawn in that frame would use. */
  function Run(p: Particle, dts: seq<real>, systemVelocity: Vec3, spawns: seq<Vec3>): (q: Particle)
    requires |spawns| == |dts|
    ensures q.lifetime == p.lifetime
    decreases |dts|
  {
    if dts == [] then p
    else Run(Step(p, dts[0], systemVelocity, spawns[0]), dts[1..], systemVelocity, spawns[1..])
  }

  /** However many frames pass, with non-negative time steps a particle's age
      stays within [0, lifetime] and, unless the lifetime is zero, its alpha
      within [0, 1]: particles never persist past expiry. */
  lemma {:induction false} RunKeepsAgeInRange(p: Particle, dts: seq<real>, systemVelocity: Vec3, spawns: seq<Vec3>)
    requires 0.0 <= p.age <= p.lifetime
    requires |spawns| == |dts|
    requires forall k :: 0 <= k < |dts| ==> dts[k] >= 0.0
    ensures var q := Run(p, dts, systemVelocity, spawns);
      && 0.0 <= q.age <= q.lifetime
      && (dts != [] && p.lifetime != 0.0 ==> q.alpha.Some? && 0.0 <= q.alpha.value <= 1.0)
    decreases |dts|
  {
    if dts != [] {
      var p' := Step(p, dts[0], systemVelocity, spawns[0]);
      RunKeepsAgeInRange(p', dts[1..], systemVelocity, spawns[1..]);
    }
  }

  /** A particle that moves with the system velocity keeps it forever: no
      per-particle velocity is ever assigned. */
  lemma {:induction false} RunKeepsSharedVelocity(p: Particle, dts: seq<real>, systemVelocity: Vec3, spawns: seq<Vec3>)
    requires p.velocity == systemVelocity
    requires |spawns| == |dts|
    ensures Run(p, dts, systemVelocity, spawns).velocity == systemVelocity
    decreases |dts|
  {
    if dts != [] {
      RunKeepsSharedVelocity(Step(p, dts[0], systemVelocity, spawns[0]), dts[1..], systemVelocity, spawns[1..]);
    }
  }

  /** With a vertical system velocity (the firework, fountain, smoke,
      explosion, starburst and trail presets all use (0, v, 0)) and every
      spawn on the vertical line x = cx, z = cz, a particle on that line stays
      on it. */
  lemma {:induction false} RunStaysOnVerticalLine(p: Particle, dts: seq<real>, systemVelocity: Vec3, spawns: seq<Vec3>, cx: real, cz: real)
    requires p.velocity == systemVelocity
    requires systemVelocity.x == 0.0 && systemVelocity.z == 0.0
    requires p.position.x == cx && p.position.z == cz
    requires |spawns| == |dts|
    requires forall k :: 0 <= k < |spawns| ==> spawns[k].x == cx && spawns[k].z == cz
    ensures var q := Run(p, dts, systemVelocity, spawns);
      q.position.x == cx && q.position.z == cz
    decreases |dts|
  {
    if dts != [] {
      var p' := Step(p, dts[0], systemVelocity, spawns[0]);
      assert p'.position.x == cx && p'.position.z == cz;
      RunStaysOnVerticalLine(p', dts[1..], systemVelocity, spawns[1..], cx, cz);
    }
  }

  /** `ParticleSystem` (src/lib/particle-base.js) and, through `kind`, its
      six subclasses. */
  class ParticleSystem {
    const kind: Kind
    /** The origin; re-assigned from outside to move the effect. */
    var position: Vec3
    const velocity: Vec3
    const lifetime: real
    const age: real
    const color: int
    const size: real
    const alpha: real
    const particleCount: nat
    var particles: seq<Particle>
    /** The geometry's position attribute: 3 floats per particle. */
    var positions: array<real>
    /** `this.points`, the object added to a scene. */
    const points: Object3D

    /** Every particle carries the system's lifetime and the system's
        velocity. */
    ghost predicate Valid()
      reads this
    {
      forall i :: 0 <= i < |particles| ==> particles[i].lifetime == lifetime && particles[i].velocity == velocity
    }

    /** `initParticles` has run: one particle and one buffer slot each. */
    predicate Ready()
      reads this
    {
      |particles| == particleCount && positions.Length == 3 * particleCount
    }

    /** Every particle's age lies in [0, lifetime]. */
    ghost predicate AgesInRange()
      reads this
    {
      forall i :: 0 <= i < |particles| ==> 0.0 <= particles[i].age <= particles[i].lifetime
    }

    /** The state `initParticles` leaves: particle i is freshly spawned from
        draw i at the current origin, at rest age 0 and fully opaque, and the
        buffer holds every particle's position. */
    ghost predicate Initialised(draws: seq<Draw>, m: MathLib)
      reads this, positions
    {
      && |particles| == |draws|
      && (forall i :: 0 <= i < |particles| ==>
            particles[i] == Particle(SpawnPosition(kind, position, draws[i], m), velocity, lifetime, 0.0, Some(1.0)))
      && (forall i :: 0 <= i < |particles| ==> SlotIs(positions, i, particles[i].position))
    }

    /** The base constructor fills in the defaults of every omitted option;
        the subclasses then call `initParticles` (the base class does not). */
    constructor (kind: Kind, opts: Options, draws: seq<Draw>, m: MathLib)
      requires kind != Base ==> |draws| == opts.particleCount.GetOr(100)
      ensures this.kind == kind && position == opts.position.GetOr(Zero)
      ensures velocity == opts.velocity.GetOr(Zero) && lifetime == opts.lifetime.GetOr(1.0)
      ensures color == opts.color.GetOr(0xffffff) && size == opts.size.GetOr(0.05)
      ensures particleCount == opts.particleCount.GetOr(100)
      ensures age == 0.0 && alpha == 1.0
      ensures Valid() && fresh(points)
      ensures kind == Base ==> particles == []
      ensures kind != Base ==> Ready() && Initialised(draws, m) && fresh(positions)
      ensures kind != Base && lifetime >= 0.0 ==> AgesInRange()
    {
      this.kind := kind;
      position := opts.position.GetOr(Zero);
      velocity := opts.velocity.GetOr(Zero);
      lifetime := opts.lifetime.GetOr(1.0);
      age := 0.0;
      color := opts.color.GetOr(0xffffff);
      size := opts.size.GetOr(0.05);
      alpha := 1.0;
      particleCount := opts.particleCount.GetOr(100);
      particles := [];
      positions := new real[0];
      points := new Object3D();
      new;
      if kind != Base {
        InitParticles(draws, m);
      }
    }

    /** `initParticles()`: allocates the buffer and spawns every particle. */
    method InitParticles(draws: seq<Draw>, m: MathLib)
      requires Valid()
      requires |draws| == particleCount
      modifies this`particles, this`positions
      ensures Valid() && Ready() && fresh(positions)
      ensures lifetime >= 0.0 ==> AgesInRange()
      ensures Initialised(draws, m)
    {
      particles := [];
      var buf := new real[3 * particleCount];
      var i := 0;
      while i < particleCount
        invariant 0 <= i <= particleCount
        invariant |particles| == i
        invariant forall k :: 0 <= k < i ==>
          particles[k] == Particle(SpawnPosition(kind, position, draws[k], m), velocity, lifetime, 0.0, Some(1.0))
        invariant forall k :: 0 <= k < i ==> SlotIs(buf, k, particles[k].position)
      {
        var pos := SpawnPosition(kind, position, draws[i], m);
        WriteSlot(buf, i, pos);
        particles := particles + [Particle(pos, velocity, lifetime, 0.0, Some(1.0))];
        i := i + 1;
      }
      positions := buf;
    }

    /** Assigning `position` (main.js re-centres `position.x` in place). Only
        later spawns see the new origin. */
    method MoveTo(p: Vec3)
      modifies this`position
      ensures position == p
    {
      position := p;
    }

    /** `update(dt)`: every particle takes one `Step`, respawning (at the
        current origin, from its draw) if it expires, and its buffer slot is
        rewritten. Nothing else changes. */
    method Update(dt: real, draws: seq<Draw>, m: MathLib)
      requires Valid() && Ready()
      requires |draws| == particleCount
      modifies this`particles, positions
      ensures Valid() && Ready()
      ensures forall i :: 0 <= i < particleCount ==>
        particles[i] == Step(old(particles[i]), dt, velocity, SpawnPosition(kind, position, draws[i], m))
      ensures forall i :: 0 <= i < particleCount ==> SlotIs(positions, i, particles[i].position)
      ensures dt >= 0.0 && old(AgesInRange()) ==> AgesInRange()
    {
      var i := 0;
      while i < particleCount
        invariant 0 <= i <= particleCount
        invariant Valid() && Ready()
        invariant forall k :: 0 <= k < i ==>
          particles[k] == Step(old(particles[k]), dt, velocity, SpawnPosition(kind, position, draws[k], m))
        invariant forall k :: i <= k < particleCount ==> particles[k] == old(particles[k])
        invariant forall k :: 0 <= k < i ==> SlotIs(positions, k, particles[k].position)
      {
        StepParticle(i, dt, draws[i], m);
        i := i + 1;
      }
    }

    /** One iteration of the loop in `update(dt)`, for particle i, which
        respawns from `draw` if it expires. */
    method StepParticle(i: nat, dt: real, draw: Draw, m: MathLib)
      requires Valid() && Ready() && i < particleCount
      modifies this`particles, positions
      ensures Valid() && Ready()
      ensures particles == old(particles)[i := Step(old(particles[i]), dt, velocity, SpawnPosition(kind, position, draw, m))]
      ensures SlotIs(positions, i, particles[i].position)
      ensures forall j :: 0 <= j < positions.Length && (j < 3 * i || 3 * i + 2 < j) ==> positions[j] == old(positions[j])
    {
      var p := particles[i];
      p := p.(age := p.age + dt);
      if p.age > p.lifetime {
        var pos := SpawnPosition(kind, position, draw, m);
        p := p.(position := pos, velocity := velocity, age := 0.0, alpha := Some(1.0));
      }
      p := p.(position := Add(p.position, Scale(p.velocity, dt)));
      p := p.(alpha := Fade(p.age, p.lifetime));
      assert p == Step(particles[i], dt, velocity, SpawnPosition(kind, position, draw, m));
      particles := particles[i := p];
      WriteSlot(positions, i, p.position);
    }
  }

  /** The six preset factories: each builds its system with fixed colour,
      size, lifetime, upward velocity and count, centred on the given origin
      (a fresh zero vector when omitted), and spawns every particle. */

  method CreateExplosionVFX(position: Option<Vec3>, draws: seq<Draw>, m: MathLib) returns (s: ParticleSystem)
    requires |draws| == 80
    ensures fresh(s) && s.kind == Explosion && s.position == position.GetOr(Zero)
    ensures s.color == 0xff6600 && s.size == 0.15 && s.lifetime == 1.0
    ensures s.velocity == Vec3(0.0, 0.5, 0.0) && s.particleCount == 80
    ensures s.Valid() && s.Ready() && s.AgesInRange() && s.Initialised(draws, m)
  {
    var opts := Options(Some(position.GetOr(Zero)), Some(Vec3(0.0, 0.5, 0.0)), Some(1.0), Some(0xff6600), Some(0.15), Some(80));
    s := new ParticleSystem(Explosion, opts, draws, m);
  }

  method CreateFountainVFX(position: Option<Vec3>, draws: seq<Draw>, m: MathLib) returns (s: ParticleSystem)
    requires |draws| == 100
    ensures fresh(s) && s.kind == Fountain && s.position == position.GetOr(Zero)
    ensures s.color == 0x66ccff && s.size == 0.09 && s.lifetime == 1.5
    ensures s.velocity == Vec3(0.0, 2.5, 0.0) && s.particleCount == 100
    ensures s.Valid() && s.Ready() && s.AgesInRange() && s.Initialised(draws, m)
    ensures forall i :: 0 <= i < |s.particles| ==> s.particles[i].position.y == s.position.y
  {
    var opts := Options(Some(position.GetOr(Zero)), Some(Vec3(0.0, 2.5, 0.0)), Some(1.5), Some(0x66ccff), Some(0.09), Some(100));
    s := new ParticleSystem(Fountain, opts, draws, m);
  }

  method CreateSmokeVFX(position: Option<Vec3>, draws: seq<Draw>, m: MathLib) returns (s: ParticleSystem)
    requires |draws| == 60
    ensures fresh(s) && s.kind == Smoke && s.position == position.GetOr(Zero)
    ensures s.color == 0x888888 && s.size == 0.18 && s.lifetime == 2.0
    ensures s.velocity == Vec3(0.0, 0.5, 0.0) && s.particleCount == 60
    ensures s.Valid() && s.Ready() && s.AgesInRange() && s.Initialised(draws, m)
    ensures forall i :: 0 <= i < |s.particles| ==> s.particles[i].position.y == s.position.y
  {
    var opts := Options(Some(position.GetOr(Zero)), Some(Vec3(0.0, 0.5, 0.0)), Some(2.0), Some(0x888888), Some(0.18), Some(60));
    s := new ParticleSystem(Smoke, opts, draws, m);
  }

  method CreateFireworkVFX(position: Option<Vec3>, draws: seq<Draw>, m: MathLib) returns (s: ParticleSystem)
    requires |draws| == 120
    ensures fresh(s) && s.kind == Firework && s.position == position.GetOr(Zero)
    ensures s.color == 0xffffff && s.size == 0.12 && s.lifetime == 1.2
    ensures s.velocity == Vec3(0.0, 2.5, 0.0) && s.particleCount == 120
    ensures s.Valid() && s.Ready() && s.AgesInRange() && s.Initialised(draws, m)
    ensures forall i :: 0 <= i < |s.particles| ==> s.particles[i].position == s.position
  {
    var opts := Options(Some(position.GetOr(Zero)), Some(Vec3(0.0, 2.5, 0.0)), Some(1.2), Some(0xffffff), Some(0.12), Some(120));
    s := new ParticleSystem(Firework, opts, draws, m);
  }

  method CreateStarburstVFX(position: Option<Vec3>, draws: seq<Draw>, m: MathLib) returns (s: ParticleSystem)
    requires |draws| == 40
    ensures fresh(s) && s.kind == Starburst && s.position == position.GetOr(Zero)
    ensures s.color == 0xffff66 && s.size == 0.13 && s.lifetime == 1.0
    ensures s.velocity == Vec3(0.0, 0.5, 0.0) && s.particleCount == 40
    ensures s.Valid() && s.Ready() && s.AgesInRange() && s.Initialised(draws, m)
    ensures forall i :: 0 <= i < |s.particles| ==> s.particles[i].position == s.position
  {
    var opts := Options(Some(position.GetOr(Zero)), Some(Vec3(0.0, 0.5, 0.0)), Some(1.0), Some(0xffff66), Some(0.13), Some(40));
    s := new ParticleSystem(Starburst, opts, draws, m);
  }

  method CreateTrailVFX(position: Option<Vec3>, draws: seq<Draw>, m: MathLib) returns (s: ParticleSystem)
    requires |draws| == 80
    ensures fresh(s) && s.kind == Trail && s.position == position.GetOr(Zero)
    ensures s.color == 0x00ccff && s.size == 0.09 && s.lifetime == 1.2
    ensures s.velocity == Vec3(0.0, 1.5, 0.0) && s.particleCount == 80
    ensures s.Valid() && s.Ready() && s.AgesInRange() && s.Initialised(draws, m)
    ensures forall i :: 0 <= i < |s.particles| ==> s.particles[i].position == s.position
  {
    var opts := Options(Some(position.GetOr(Zero)), Some(Vec3(0.0, 1.5, 0.0)), Some(1.2), Some(0x00ccff), Some(0.09), Some(80));
    s := new ParticleSystem(Trail, opts, draws, m);
  }
}

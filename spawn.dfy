/** The spawn strategies of the particle effects: `spawnParticlePosition` of
    the base ParticleSystem and of its six subclasses, as one function over a
    closed set of variants. Math.random draws are inputs. */
module Spawns {
  import opened Vectors
  import opened RealArith

  /** Which `spawnParticlePosition` a system uses. `Base` is the one defined
      in src/lib/particle-base.js; the others are the overrides of
      ExplosionSystem, FountainSystem, SmokeSystem, FireworkSystem,
      StarburstSystem and TrailSystem. */
  datatype Kind = Base | Explosion | Fountain | Smoke | Firework | Starburst | Trail

  /** Up to three consecutive Math.random results, in call order. */
  datatype Draw = Draw(u: real, v: real, w: real)

  predicate ValidDraw(d: Draw) {
    0.0 <= d.u < 1.0 && 0.0 <= d.v < 1.0 && 0.0 <= d.w < 1.0
  }

  /** The point at `angle` on the horizontal circle of the given radius about
      `o` (x gets the cosine, z the sine, y is kept). */
  function CirclePoint(o: Vec3, angle: real, radius: real, m: MathLib): (p: Vec3)
    ensures p.y == o.y
  {
    Vec3(o.x + m.cos(angle) * radius, o.y, o.z + m.sin(angle) * radius)
  }

  lemma CirclePointDistance(o: Vec3, angle: real, radius: real, m: MathLib)
    requires Sound(m)
    ensures Dist2(CirclePoint(o, angle, radius, m), o) == radius * radius
  {
    var c, s := m.cos(angle), m.sin(angle);
    var p := CirclePoint(o, angle, radius, m);
    assert Sub(p, o) == Vec3(c * radius, 0.0, s * radius);
    assert s * s + c * c == 1.0;
    calc {
      Norm2(Vec3(c * radius, 0.0, s * radius));
      (c * radius) * (c * radius) + 0.0 * 0.0 + (s * radius) * (s * radius);
      (c * c + s * s) * (radius * radius);
    }
  }

  /** The radial distance of a volumetric spawn: scale · cbrt(draw). */
  function BallRadius(scale: real, d: Draw, m: MathLib): (r: real)
    ensures Sound(m) && ValidDraw(d) && scale > 0.0 ==> 0.0 <= r < scale
  {
    var c := m.cbrt(d.w);
    assert Sound(m) && ValidDraw(d) && scale > 0.0 ==> scale * c < scale * 1.0;
    scale * c
  }

  /** The offset of a volumetric spawn, by spherical coordinates
      theta = 2·pi·u, phi = acos(2v - 1), r = scale·cbrt(w). */
  function BallOffset(scale: real, d: Draw, m: MathLib): Vec3 {
    var theta := 2.0 * m.pi * d.u;
    var phi := m.acos(2.0 * d.v - 1.0);
    var r := BallRadius(scale, d, m);
    Vec3(r * m.sin(phi) * m.cos(theta), r * m.sin(phi) * m.sin(theta), r * m.cos(phi))
  }

  /** A point in the ball of radius `scale` about `o`. */
  function BallPoint(o: Vec3, scale: real, d: Draw, m: MathLib): Vec3 {
    Add(o, BallOffset(scale, d, m))
  }

  lemma BallOffsetLength(scale: real, d: Draw, m: MathLib)
    requires Sound(m)
    ensures Norm2(BallOffset(scale, d, m)) == BallRadius(scale, d, m) * BallRadius(scale, d, m)
  {
    var theta := 2.0 * m.pi * d.u;
    var phi := m.acos(2.0 * d.v - 1.0);
    var sp, cp, ct, st := m.sin(phi), m.cos(phi), m.cos(theta), m.sin(theta);
    assert sp * sp + cp * cp == 1.0;
    assert st * st + ct * ct == 1.0;
    SphereAlgebra(BallRadius(scale, d, m), sp, cp, ct, st);
  }

  lemma BallPointDistance(o: Vec3, scale: real, d: Draw, m: MathLib)
    requires Sound(m)
    ensures Dist2(BallPoint(o, scale, d, m), o) == BallRadius(scale, d, m) * BallRadius(scale, d, m)
  {
    OffsetDistance(o, BallOffset(scale, d, m));
    BallOffsetLength(scale, d, m);
  }

  lemma OffsetDistance(o: Vec3, off: Vec3)
    ensures Dist2(Add(o, off), o) == Norm2(off)
  {
    assert Sub(Add(o, off), o) == off;
  }

  lemma SphereAlgebra(r: real, sp: real, cp: real, ct: real, st: real)
    requires sp * sp + cp * cp == 1.0 && st * st + ct * ct == 1.0
    ensures (r * sp * ct) * (r * sp * ct) + (r * sp * st) * (r * sp * st) + (r * cp) * (r * cp) == r * r
  {
    calc {
      (r * sp * ct) * (r * sp * ct) + (r * sp * st) * (r * sp * st) + (r * cp) * (r * cp);
      (r * r) * (sp * sp) * (ct * ct + st * st) + (r * r) * (cp * cp);
      (r * r) * (sp * sp) + (r * r) * (cp * cp);
      (r * r) * (sp * sp + cp * cp);
    }
  }

  /** A point in the horizontal disk of radius `scale` about `o`:
      angle = u·pi·2, radius = v·scale. */
  function DiskPoint(o: Vec3, scale: real, d: Draw, m: MathLib): Vec3 {
    CirclePoint(o, d.u * m.pi * 2.0, d.v * scale, m)
  }

  /** The largest spawn distance from the origin a variant allows. */
  function SpawnScale(kind: Kind): real {
    match kind
    case Base => 0.5
    case Explosion => 0.3
    case Fountain => 0.2
    case Smoke => 0.25
    case _ => 0.0
  }

  /** `spawnParticlePosition()` for each variant, at the system's current origin. */
  function SpawnPosition(kind: Kind, origin: Vec3, d: Draw, m: MathLib): (p: Vec3)
    ensures kind == Firework || kind == Starburst || kind == Trail ==> p == origin
    ensures kind == Fountain || kind == Smoke ==> p.y == origin.y
  {
    match kind
    case Base => BallPoint(origin, 0.5, d, m)
    case Explosion => BallPoint(origin, 0.3, d, m)
    case Fountain => DiskPoint(origin, 0.2, d, m)
    case Smoke => DiskPoint(origin, 0.25, d, m)
    case Firework => origin
    case Starburst => origin
    case Trail => origin
  }

  /** The distance of a spawn from the origin. */
  function SpawnDistance(kind: Kind, d: Draw, m: MathLib): real {
    match kind
    case Base => BallRadius(0.5, d, m)
    case Explosion => BallRadius(0.3, d, m)
    case Fountain => d.v * 0.2
    case Smoke => d.v * 0.25
    case _ => 0.0
  }

  /** p lies at distance rho from o, with 0 <= rho < scale, or exactly on o
      when the scale is 0. */
  predicate Within(p: Vec3, o: Vec3, rho: real, scale: real) {
    && Dist2(p, o) == rho * rho
    && 0.0 <= rho
    && (rho < scale || (scale == 0.0 && rho == 0.0))
  }

  /** Every random variant spawns at distance rho from the current origin with
      0 <= rho < SpawnScale(kind): within 0.5 (base), 0.3 (explosion), 0.2
      (fountain) or 0.25 (smoke); the fixed variants spawn at the origin. */
  lemma SpawnWithinScale(kind: Kind, origin: Vec3, d: Draw, m: MathLib)
    requires Sound(m) && ValidDraw(d)
    ensures Within(SpawnPosition(kind, origin, d, m), origin, SpawnDistance(kind, d, m), SpawnScale(kind))
  {
    match kind {
      case Base => BallSpawnWithin(origin, 0.5, d, m);
      case Explosion => BallSpawnWithin(origin, 0.3, d, m);
      case Fountain => DiskSpawnWithin(origin, 0.2, d, m);
      case Smoke => DiskSpawnWithin(origin, 0.25, d, m);
      case _ => OriginSpawn(origin);
    }
  }

  lemma BallSpawnWithin(o: Vec3, scale: real, d: Draw, m: MathLib)
    requires Sound(m) && ValidDraw(d) && scale > 0.0
    ensures Within(BallPoint(o, scale, d, m), o, BallRadius(scale, d, m), scale)
  {
    BallPointDistance(o, scale, d, m);
  }

  lemma DiskSpawnWithin(o: Vec3, scale: real, d: Draw, m: MathLib)
    requires Sound(m) && ValidDraw(d) && scale > 0.0
    ensures Within(DiskPoint(o, scale, d, m), o, d.v * scale, scale)
  {
    CirclePointDistance(o, d.u * m.pi * 2.0, d.v * scale, m);
    MulNonNeg(d.v, scale);
    MulMonoStrict(d.v, 1.0, scale);
  }

  lemma OriginSpawn(o: Vec3)
    ensures Within(o, o, 0.0, 0.0)
  {
    assert Sub(o, o) == Zero;
  }
}

/** The slideshow in src/main.js: the registry that turns JSON entries into
    particle systems, the navigation over them, the one-visible-system rule,
    and the animation frame with its x re-centring. */
module Slideshow {
  import opened Vectors
  import opened Wrappers
  import opened Spawns
  import opened Particles
  import opened RingTrails
  import opened SceneGraph
  import opened Orbit
  import opened Cameras
  import opened MeshParticles

  // ---------------------------------------------------------------------
  // The registry and instantiation
  // ---------------------------------------------------------------------

  /** The classes `VFX_REGISTRY` maps type strings to. TrailSystem is not
      among them. */
  datatype VfxType = ExplosionVfx | FountainVfx | FireworkVfx | SmokeVfx | StarburstVfx | RingTrailVfx

  /** The key each class is registered under. */
  function TypeName(t: VfxType): string {
    match t
    case ExplosionVfx => "explosion"
    case FountainVfx => "fountain"
    case FireworkVfx => "firework"
    case SmokeVfx => "smoke"
    case StarburstVfx => "starburst"
    case RingTrailVfx => "ringtrail"
  }

  /** `VFX_REGISTRY[name]`; None is the `undefined` on which main throws. */
  function LookupVfx(name: string): (r: Option<VfxType>)
    ensures r.Some? ==> TypeName(r.value) == name
  {
    if name == "explosion" then Some(ExplosionVfx)
    else if name == "fountain" then Some(FountainVfx)
    else if name == "firework" then Some(FireworkVfx)
    else if name == "smoke" then Some(SmokeVfx)
    else if name == "starburst" then Some(StarburstVfx)
    else if name == "ringtrail" then Some(RingTrailVfx)
    else None
  }

  /** Every registered class is found under its own key, so a lookup
      succeeds exactly for the six keys. */
  lemma RegistryFindsEveryType(t: VfxType)
    ensures LookupVfx(TypeName(t)) == Some(t)
  {
  }

  /** The spawn variant of each `ParticleSystem` subclass in the registry. */
  function KindOf(t: VfxType): (k: Kind)
    requires t != RingTrailVfx
    ensures k != Base && k != Trail
  {
    match t
    case ExplosionVfx => Explosion
    case FountainVfx => Fountain
    case FireworkVfx => Firework
    case SmokeVfx => Smoke
    case StarburstVfx => Starburst
  }

  /** A JSON value under a vector-valued key: an array of numbers, or any
      other JSON value (none of which has a `clone` method). */
  datatype JsonVector = JsonArray(items: seq<real>) | JsonOther

  /** One entry of `sceneConfig.vfx.systems`: its type and the keys of its
      `properties` that the constructors read. */
  datatype Entry = Entry(
    vfxType: string,
    position: Option<JsonVector>,
    velocity: Option<JsonVector>,
    lifetime: Option<real>,
    color: Option<int>,
    size: Option<real>,
    particleCount: Option<nat>,
    trailLength: Option<int>)

  /** Why instantiating an entry throws: an unregistered type, or a vector
      option that is not a THREE.Vector3 and so has no `clone`. */
  datatype VfxError = UnknownType(name: string) | NotAVector

  /** `new THREE.Vector3(...items)`: missing components default to 0, extra
      ones are ignored. */
  function ToVector(items: seq<real>): (v: Vec3)
    ensures |items| >= 3 ==> v == Vec3(items[0], items[1], items[2])
    ensures items == [] ==> v == Zero
  {
    Vec3(if |items| > 0 then items[0] else 0.0,
         if |items| > 1 then items[1] else 0.0,
         if |items| > 2 then items[2] else 0.0)
  }

  /** An entry whose type is a registered `ParticleSystem` subclass. */
  predicate ParticleEntry(e: Entry) {
    LookupVfx(e.vfxType).Some? && LookupVfx(e.vfxType).value != RingTrailVfx
  }

  /** An entry the constructor accepts: main converts only an array
      `position`, so any other given vector value throws at `clone`. The base
      constructor defaults an absent position to a Vector3 but the ring's
      default is an array, and only the base constructor receives `velocity`. */
  predicate Constructible(e: Entry) {
    && (e.position.None? || e.position.value.JsonArray?)
    && (LookupVfx(e.vfxType) == Some(RingTrailVfx) ==> e.position.Some?)
    && (LookupVfx(e.vfxType) != Some(RingTrailVfx) ==> e.velocity.None?)
  }

  /** The origin the entry's system gets. */
  function EntryOrigin(e: Entry): Vec3 {
    if e.position.Some? && e.position.value.JsonArray? then ToVector(e.position.value.items) else Zero
  }

  /** A live system: a `ParticleSystem` subclass or a `RingTrailSystem`. */
  datatype Vfx = Basic(ps: ParticleSystem) | Ring(rt: RingTrailSystem)

  function ObjOf(v: Vfx): object {
    match v
    case Basic(ps) => ps
    case Ring(rt) => rt
  }

  /** The renderables main adds and removes: the points and, for a ring, its
      trail lines. */
  function Renderables(v: Vfx): set<object> {
    match v
    case Basic(ps) => {ps.points}
    case Ring(rt) => {rt.points} + (set k | 0 <= k < |rt.trailLines| :: rt.trailLines[k])
  }

  /** v carries entry e's settings: it sits at the entry's origin; it is a
      `ParticleSystem` subclass of the entry's variant exactly when the entry
      names one, with the entry's options over the base defaults (no
      velocity can be given); otherwise it is the ring, with the ring's own
      defaults. */
  ghost predicate Configured(e: Entry, v: Vfx)
    reads ObjOf(v)
  {
    && PositionOf(v) == EntryOrigin(e)
    && match v
       case Basic(ps) =>
         && ParticleEntry(e) && ps.kind == KindOf(LookupVfx(e.vfxType).value)
         && ps.velocity == Zero && ps.lifetime == e.lifetime.GetOr(1.0)
         && ps.color == e.color.GetOr(0xffffff) && ps.size == e.size.GetOr(0.05)
         && ps.particleCount == e.particleCount.GetOr(100)
       case Ring(rt) =>
         && LookupVfx(e.vfxType) == Some(RingTrailVfx)
         && rt.color == e.color.GetOr(0xffffff) && rt.size == e.size.GetOr(0.15)
         && rt.trailLength == e.trailLength.GetOr(30) && rt.particleCount == e.particleCount.GetOr(10)
  }

  /** A `ParticleSystem` subclass built from entry e, with every particle
      spawned by `initParticles`. */
  ghost predicate BuiltBasic(e: Entry, ps: ParticleSystem, draws: seq<Draw>, m: MathLib)
    reads ps, ps.positions
  {
    Configured(e, Basic(ps)) && ps.Valid() && ps.Ready() && ps.Initialised(draws, m)
  }

  /** A `RingTrailSystem` built from entry e. */
  ghost predicate BuiltRing(e: Entry, rt: RingTrailSystem, m: MathLib)
    reads rt
  {
    Configured(e, Ring(rt)) && rt.Valid(m)
  }

  /** One entry through the map at main.js lines 324-338, with draws for the
      spawns of a `ParticleSystem` subclass. */
  method Instantiate(e: Entry, draws: seq<Draw>, m: MathLib) returns (r: Result<Vfx, VfxError>)
    requires ParticleEntry(e) ==> |draws| == e.particleCount.GetOr(100)
    ensures LookupVfx(e.vfxType).None? ==> r == Failure(UnknownType(e.vfxType))
    ensures LookupVfx(e.vfxType).Some? && !Constructible(e) ==> r == Failure(NotAVector)
    ensures r.Success? <==> LookupVfx(e.vfxType).Some? && Constructible(e)
    ensures r.Success? ==> fresh(ObjOf(r.value)) && fresh(Renderables(r.value))
    ensures r.Success? ==> (r.value.Basic? <==> ParticleEntry(e))
    ensures r.Success? ==> Healthy(r.value) && PositionOf(r.value) == EntryOrigin(e)
    ensures r.Success? && r.value.Basic? ==> BuiltBasic(e, r.value.ps, draws, m)
    ensures r.Success? && r.value.Ring? ==> BuiltRing(e, r.value.rt, m)
  {
    var t := LookupVfx(e.vfxType);
    if t.None? {
      return Failure(UnknownType(e.vfxType));
    }
    if !Constructible(e) {
      return Failure(NotAVector);
    }
    var origin := if e.position.Some? then Some(ToVector(e.position.value.items)) else None;
    if t.value == RingTrailVfx {
      var rt := new RingTrailSystem(RingOptions(origin.value, e.color, e.size, e.trailLength, e.particleCount), m);
      r := Success(Ring(rt));
    } else {
      var ps := new ParticleSystem(KindOf(t.value), Options(origin, None, e.lifetime, e.color, e.size, e.particleCount), draws, m);
      r := Success(Basic(ps));
    }
  }

  /** An entry that instantiates without throwing. */
  predicate Accepted(e: Entry) {
    LookupVfx(e.vfxType).Some? && Constructible(e)
  }

  /** Entry k is the first that throws. */
  predicate FirstRejected(entries: seq<Entry>, k: int) {
    0 <= k < |entries| && !Accepted(entries[k]) && forall j :: 0 <= j < k ==> Accepted(entries[j])
  }

  /** What a rejected entry throws. */
  function Rejection(e: Entry): VfxError {
    if LookupVfx(e.vfxType).None? then UnknownType(e.vfxType) else NotAVector
  }

  /** v is what the map builds from entry e: the entry is accepted and v is
      a healthy system carrying the entry's settings. */
  ghost predicate BuiltFrom(e: Entry, v: Vfx)
    reads ObjOf(v)
  {
    Accepted(e) && Healthy(v) && Configured(e, v)
  }

  /** `out` is what the map has built from the first |out| entries: each
      system is built from its entry, and no two share an object or a
      renderable. */
  ghost predicate BuiltPrefix(entries: seq<Entry>, out: seq<Vfx>)
    reads Objects(out)
  {
    && |out| <= |entries|
    && DistinctSystems(out) && DisjointRenderables(out)
    && forall k :: 0 <= k < |out| ==> BuiltFrom(entries[k], out[k])
  }

  /** Every `ParticleSystem` subclass in vs holds the particles
      `initParticles` spawned from its own draws. */
  ghost predicate Spawned(vs: seq<Vfx>, draws: seq<seq<Draw>>, m: MathLib)
    reads Objects(vs), Buffers(vs)
  {
    forall k :: 0 <= k < |vs| && k < |draws| && vs[k].Basic? ==> vs[k].ps.Initialised(draws[k], m)
  }

  /** Every system of vs, and every renderable of each, is newer than the
      earlier state. */
  twostate predicate AllFresh(new vs: seq<Vfx>) {
    forall k :: 0 <= k < |vs| ==> fresh(ObjOf(vs[k])) && fresh(Renderables(vs[k]))
  }

  lemma ExtendSpawned(vs: seq<Vfx>, v: Vfx, draws: seq<seq<Draw>>, m: MathLib)
    requires Spawned(vs, draws, m) && |vs| < |draws|
    requires v.Basic? ==> v.ps.Initialised(draws[|vs|], m)
    ensures Spawned(vs + [v], draws, m)
  {
    var ws := vs + [v];
    forall k | 0 <= k < |ws| && k < |draws| && ws[k].Basic?
      ensures ws[k].ps.Initialised(draws[k], m)
    {
      if k < |vs| {
        assert ws[k] == vs[k];
        assert ObjOf(vs[k]) in Objects(vs) && BufferOf(vs[k]) in Buffers(vs);
      }
    }
  }

  /** The whole `vfxSystemsConfig.map(...)`: the first entry that throws
      aborts start-up; otherwise one fresh system per entry, in order. */
  method InstantiateAll(entries: seq<Entry>, draws: seq<seq<Draw>>, m: MathLib) returns (r: Result<seq<Vfx>, VfxError>)
    requires |draws| == |entries|
    requires forall k :: 0 <= k < |entries| && ParticleEntry(entries[k]) ==>
      |draws[k]| == entries[k].particleCount.GetOr(100)
    ensures r.Success? <==> forall k :: 0 <= k < |entries| ==> Accepted(entries[k])
    ensures r.Failure? ==> exists k :: FirstRejected(entries, k) && r.error == Rejection(entries[k])
    ensures r.Success? ==> |r.value| == |entries| && BuiltPrefix(entries, r.value)
    ensures r.Success? ==> AllFresh(r.value)
    ensures r.Success? ==> Spawned(r.value, draws, m)
  {
    var out: seq<Vfx> := [];
    var i := 0;
    while i < |entries|
      invariant 0 <= i <= |entries| && |out| == i
      invariant BuiltPrefix(entries, out)
      invariant forall k :: 0 <= k < i ==> Accepted(entries[k])
      invariant AllFresh(out)
      invariant Spawned(out, draws, m)
    {
      var next := BuildNext(entries, out, draws[i], m);
      if next.Failure? {
        assert FirstRejected(entries, i);
        return Failure(next.error);
      }
      ExtendSpawned(out, next.value, draws, m);
      out := out + [next.value];
      i := i + 1;
    }
    return Success(out);
  }

  /** One step of the map: instantiate entry |out| and append the system
      to `out`. */
  method BuildNext(entries: seq<Entry>, out: seq<Vfx>, draws: seq<Draw>, m: MathLib) returns (r: Result<Vfx, VfxError>)
    requires BuiltPrefix(entries, out) && |out| < |entries|
    requires ParticleEntry(entries[|out|]) ==>
      |draws| == entries[|out|].particleCount.GetOr(100)
    ensures r.Success? <==> Accepted(entries[|out|])
    ensures r.Failure? ==> r.error == Rejection(entries[|out|])
    ensures r.Success? ==> fresh(ObjOf(r.value)) && fresh(Renderables(r.value))
    ensures r.Success? && r.value.Basic? ==> r.value.ps.Initialised(draws, m)
    ensures r.Success? ==> BuiltPrefix(entries, out + [r.value])
  {
    AllRenderablesAllocated(out, |out|);
    var one := Instantiate(entries[|out|], draws, m);
    if one.Failure? {
      return Failure(one.error);
    }
    var v := one.value;
    assert unchanged(Objects(out));
    assert BuiltPrefix(entries, out);
    assert ObjOf(v) !in Objects(out);
    assert Renderables(v) !! AllRenderables(out, |out|);
    ExtendBuilt(entries, out, v);
    return Success(v);
  }

  /** Appending a system built from the next entry that shares nothing
      with those before it extends the prefix. */
  lemma ExtendBuilt(entries: seq<Entry>, out: seq<Vfx>, v: Vfx)
    requires BuiltPrefix(entries, out) && |out| < |entries| && BuiltFrom(entries[|out|], v)
    requires ObjOf(v) !in Objects(out) && Renderables(v) !! AllRenderables(out, |out|)
    ensures BuiltPrefix(entries, out + [v])
  {
    var ws, n := out + [v], |out|;
    forall i, j | 0 <= i < j < |ws|
      ensures ObjOf(ws[i]) != ObjOf(ws[j]) && Renderables(ws[i]) !! Renderables(ws[j])
    {
      assert ws[i] == out[i];
      if j == n {
        assert ObjOf(out[i]) in Objects(out);
        AllRenderablesCovers(out, n, i);
      } else {
        assert ws[j] == out[j];
      }
    }
    forall k | 0 <= k < |ws| ensures BuiltFrom(entries[k], ws[k]) {
      if k < n {
        assert ws[k] == out[k];
      }
    }
  }

  // ---------------------------------------------------------------------
  // Navigation
  // ---------------------------------------------------------------------

  /** `Math.floor(n / 2)`, the index shown first. */
  function InitialIndex(n: nat): (i: nat)
    ensures 2 * i <= n < 2 * i + 2
    ensures n > 0 ==> i < n
  {
    n / 2
  }

  /** The left button and ArrowLeft: `(i - 1 + n) % n`. */
  function StepLeft(i: nat, n: nat): (r: nat)
    requires i < n
    ensures r < n
    ensures i > 0 ==> r == i - 1
    ensures i == 0 ==> r == n - 1
  {
    (i - 1 + n) % n
  }

  /** The right button and ArrowRight: `(i + 1) % n`. */
  function StepRight(i: nat, n: nat): (r: nat)
    requires i < n
    ensures r < n
    ensures i + 1 < n ==> r == i + 1
    ensures i + 1 == n ==> r == 0
  {
    (i + 1) % n
  }

  /** Left and right undo each other. */
  lemma LeftRightInverse(i: nat, n: nat)
    requires i < n
    ensures StepRight(StepLeft(i, n), n) == i
    ensures StepLeft(StepRight(i, n), n) == i
  {
  }

  /** k presses of the right button. */
  function RightN(i: nat, n: nat, k: nat): (r: nat)
    requires i < n
    ensures r < n
  {
    if k == 0 then i else StepRight(RightN(i, n, k - 1), n)
  }

  /** k right presses advance the index by k, modulo n. */
  lemma {:induction false} RightNAdvances(i: nat, n: nat, k: nat)
    requires i < n
    ensures RightN(i, n, k) == (i + k) % n
  {
    if k > 0 {
      RightNAdvances(i, n, k - 1);
      ModSucc(i + k - 1, n);
    }
  }

  lemma ModSucc(a: nat, n: nat)
    requires n > 0
    ensures (a % n + 1) % n == (a + 1) % n
  {
    var q, r := a / n, a % n;
    assert a == q * n + r;
    if r + 1 < n {
      ModUnique(a + 1, n, q, r + 1);
      ModUnique(r + 1, n, 0, r + 1);
    } else {
      assert a + 1 == (q + 1) * n;
      ModUnique(a + 1, n, q + 1, 0);
      ModUnique(r + 1, n, 1, 0);
    }
  }

  /** Quotient and remainder are unique: a = q·n + r with 0 <= r < n fixes
      a % n as r. */
  lemma ModUnique(a: nat, n: nat, q: nat, r: nat)
    requires 0 <= r < n && a == q * n + r
    ensures a % n == r
  {
    var q', r' := a / n, a % n;
    var d := q' - q;
    assert d * n == r - r';
    if d >= 1 {
      MulAtLeast(d, n);
      assert false;
    } else if d <= -1 {
      MulAtLeast(-d, n);
      assert false;
    }
  }

  lemma MulAtLeast(d: int, n: int)
    requires d >= 1 && n >= 0
    ensures d * n >= n
  {
    var e := d - 1;
    assert d * n == n + e * n;
  }

  /** n right presses come back to the start, and every system is reached
      from any start within n - 1 presses. */
  lemma RightCycles(i: nat, j: nat, n: nat)
    requires i < n && j < n
    ensures RightN(i, n, n) == i
    ensures RightN(i, n, (j + n - i) % n) == j
  {
    RightNAdvances(i, n, n);
    ModUnique(i + n, n, 1, i);
    var k := (j + n - i) % n;
    RightNAdvances(i, n, k);
    if j >= i {
      ModUnique(j + n - i, n, 1, j - i);
      ModUnique(i + k, n, 0, j);
    } else {
      ModUnique(j + n - i, n, 0, j + n - i);
      ModUnique(i + k, n, 1, j);
    }
  }

  // ---------------------------------------------------------------------
  // Re-centring
  // ---------------------------------------------------------------------

  /** One frame of `pos.x += (0 - pos.x) * 0.15`. */
  function Recentered(p: Vec3): (q: Vec3)
    ensures q.x == 0.85 * p.x && q.y == p.y && q.z == p.z
  {
    p.(x := p.x + (0.0 - p.x) * 0.15)
  }

  function RecenteredN(p: Vec3, k: nat): Vec3 {
    if k == 0 then p else Recentered(RecenteredN(p, k - 1))
  }

  /** After k frames the origin's x is 0.85^k of what it was, never larger in
      magnitude, with y and z untouched. */
  lemma {:induction false} RecenterContracts(p: Vec3, k: nat)
    ensures var q := RecenteredN(p, k);
      && q.x == Pow(0.85, k) * p.x && q.y == p.y && q.z == p.z
      && Abs(q.x) <= Abs(p.x)
  {
    if k > 0 {
      RecenterContracts(p, k - 1);
      var prev := RecenteredN(p, k - 1);
      assert Pow(0.85, k) * p.x == 0.85 * (Pow(0.85, k - 1) * p.x);
      assert Abs(0.85 * prev.x) == 0.85 * Abs(prev.x);
    }
  }

  // ---------------------------------------------------------------------
  // The slideshow state
  // ---------------------------------------------------------------------

  /** The state a system must be in for its `update`: a `ParticleSystem`
      with its particles in place, a ring with its trails bounded. */
  ghost predicate Healthy(v: Vfx)
    reads ObjOf(v)
  {
    match v
    case Basic(ps) => ps.Valid() && ps.Ready()
    case Ring(rt) => rt.Steady()
  }

  function PositionOf(v: Vfx): Vec3
    reads ObjOf(v)
  {
    match v
    case Basic(ps) => ps.position
    case Ring(rt) => rt.position
  }

  /** The particles of a system, as values. */
  datatype Swarm = Points(ps: seq<Particle>) | Rings(rs: seq<RingParticle>)

  function SwarmOf(v: Vfx): Swarm
    reads ObjOf(v)
  {
    match v
    case Basic(ps) => Points(ps.particles)
    case Ring(rt) => Rings(rt.particles)
  }

  /** Every system's particles, in registry order. */
  function Swarms(vs: seq<Vfx>): (r: seq<Swarm>)
    reads Objects(vs)
    ensures |r| == |vs| && forall k :: 0 <= k < |vs| ==> r[k] == SwarmOf(vs[k])
  {
    seq(|vs|, k requires 0 <= k < |vs| reads Objects(vs) => SwarmOf(vs[k]))
  }

  /** Every system's origin, in registry order. */
  function Origins(vs: seq<Vfx>): (r: seq<Vec3>)
    reads Objects(vs)
    ensures |r| == |vs| && forall k :: 0 <= k < |vs| ==> r[k] == PositionOf(vs[k])
  {
    seq(|vs|, k requires 0 <= k < |vs| reads Objects(vs) => PositionOf(vs[k]))
  }

  /** Every particle of a basic system through one `update`, particle i
      respawning from draw i. */
  function StepSwarm(ps: seq<Particle>, dt: real, velocity: Vec3, kind: Kind, origin: Vec3,
                     draws: seq<Draw>, m: MathLib): (r: seq<Particle>)
    requires |draws| == |ps|
    ensures |r| == |ps|
    ensures forall i :: 0 <= i < |ps| ==> r[i] == Step(ps[i], dt, velocity, SpawnPosition(kind, origin, draws[i], m))
  {
    seq(|ps|, i requires 0 <= i < |ps| => Step(ps[i], dt, velocity, SpawnPosition(kind, origin, draws[i], m)))
  }

  /** Every particle of a ring system through one `update`. */
  function AdvanceRing(rs: seq<RingParticle>, dt: real, origin: Vec3, m: MathLib): (r: seq<RingParticle>)
    ensures |r| == |rs| && forall i :: 0 <= i < |rs| ==> r[i] == AdvanceParticle(rs[i], dt, origin, m)
  {
    seq(|rs|, i requires 0 <= i < |rs| => AdvanceParticle(rs[i], dt, origin, m))
  }

  /** What one `update(deltaTime)` makes of the particles `before` of v
      about `origin`: a `ParticleSystem` moves every particle one Step,
      respawning particle i from draw i when it expires; a ring advances every
      particle along the ring. Particles of the other kind's shape are left
      as they are. */
  function Advance(v: Vfx, before: Swarm, origin: Vec3, dt: real, draws: seq<Draw>, m: MathLib): Swarm {
    match v
    case Basic(ps) =>
      if before.Points? && |draws| == |before.ps|
      then Points(StepSwarm(before.ps, dt, ps.velocity, ps.kind, origin, draws, m))
      else before
    case Ring(_) =>
      if before.Rings? then Rings(AdvanceRing(before.rs, dt, origin, m)) else before
  }

  /** Advance applied to every system, each about its own origin. */
  function AdvanceEach(vs: seq<Vfx>, before: seq<Swarm>, origins: seq<Vec3>, dt: real,
                       draws: seq<seq<Draw>>, m: MathLib): (r: seq<Swarm>)
    requires |before| == |origins| == |draws| == |vs|
    ensures |r| == |vs|
    ensures forall k :: 0 <= k < |vs| ==> r[k] == Advance(vs[k], before[k], origins[k], dt, draws[k], m)
  {
    seq(|vs|, k requires 0 <= k < |vs| => Advance(vs[k], before[k], origins[k], dt, draws[k], m))
  }

  /** The particle positions a dust system's buffer holds. */
  ghost function DustSlots(d: DustParticleSystem): (s: seq<Vec3>)
    requires d.positions.Length == 3 * d.count
    reads d.positions
    ensures |s| == d.count && forall i :: 0 <= i < d.count ==> SlotIs(d.positions, i, s[i])
  {
    seq(d.count, i requires 0 <= i < d.count reads d.positions => SlotAt(d.positions, i))
  }

  /** One dust `update()`, from positions `before` to `after`: every particle
      moved by its velocity and wrapped back into the volume. */
  ghost predicate Drifted(d: DustParticleSystem, before: seq<Vec3>, after: seq<Vec3>)
    reads d
  {
    && |before| == |after| == |d.velocities| == d.count
    && forall i :: 0 <= i < d.count ==> after[i] == WrapIntoBox(d.volume, Add(before[i], d.velocities[i]))
  }

  /** Drifting keeps a dust cloud inside an ordered volume, wherever it
      started. */
  lemma DriftStaysInside(d: DustParticleSystem, before: seq<Vec3>)
    requires d.positions.Length == 3 * d.count && Ordered(d.volume)
    requires Drifted(d, before, DustSlots(d))
    ensures d.Contained()
  {
    var after := DustSlots(d);
    forall i | 0 <= i < d.count
      ensures InBox(d.volume, SlotAt(d.positions, i))
    {
      assert SlotAt(d.positions, i) == after[i];
    }
  }

  /** The points' position buffer, which `update` rewrites in place. */
  function BufferOf(v: Vfx): array<real>
    reads ObjOf(v)
  {
    match v
    case Basic(ps) => ps.positions
    case Ring(rt) => rt.positions
  }

  function Objects(vs: seq<Vfx>): set<object> {
    set k | 0 <= k < |vs| :: ObjOf(vs[k])
  }

  function Buffers(vs: seq<Vfx>): set<array<real>>
    reads Objects(vs)
  {
    set k | 0 <= k < |vs| :: BufferOf(vs[k])
  }

  /** The renderables of the first i systems. */
  function AllRenderables(vs: seq<Vfx>, i: nat): set<object>
    requires i <= |vs|
  {
    if i == 0 then {} else AllRenderables(vs, i - 1) + Renderables(vs[i - 1])
  }

  lemma {:induction false} AllRenderablesAllocated(vs: seq<Vfx>, i: nat)
    requires i <= |vs|
    ensures forall o | o in AllRenderables(vs, i) :: allocated(o)
  {
    if i > 0 {
      AllRenderablesAllocated(vs, i - 1);
    }
  }

  lemma {:induction false} AllRenderablesCovers(vs: seq<Vfx>, i: nat, k: nat)
    requires k < i <= |vs|
    ensures Renderables(vs[k]) <= AllRenderables(vs, i)
  {
    if k < i - 1 {
      AllRenderablesCovers(vs, i - 1, k);
    }
  }

  /** The camera is none of the systems. */
  lemma CameraApart(vs: seq<Vfx>, c: CameraManager)
    ensures c !in Objects(vs) && forall k :: 0 <= k < |vs| ==> ObjOf(vs[k]) != c
  {
  }

  /** Nor is the camera's collider list. */
  lemma CollidersApart(vs: seq<Vfx>, l: MeshList)
    ensures l !in Objects(vs)
  {
  }

  /** Nor is the scene. */
  lemma SceneApart(vs: seq<Vfx>, s: Scene)
    ensures s !in Objects(vs) && forall k :: 0 <= k < |vs| ==> ObjOf(vs[k]) != s
  {
  }

  /** Nor is the show itself, which holds no buffer either. */
  lemma ShowApart(vs: seq<Vfx>, s: Show)
    ensures s !in Objects(vs) && forall b :: b in Buffers(vs) ==> b as object != s
  {
  }

  predicate DistinctSystems(vs: seq<Vfx>) {
    forall i, j :: 0 <= i < j < |vs| ==> ObjOf(vs[i]) != ObjOf(vs[j])
  }

  predicate DisjointRenderables(vs: seq<Vfx>) {
    forall i, j :: 0 <= i < j < |vs| ==> Renderables(vs[i]) !! Renderables(vs[j])
  }

  /** What `showOnlySelectedSystem` leaves in a scene that held `before`:
      the chosen system's renderables are all in it, and no renderable of
      any other system. */
  lemma {:induction false} ShowsOnlySelected(before: set<object>, vs: seq<Vfx>, sel: nat)
    requires sel < |vs| && DisjointRenderables(vs)
    ensures var after := before - AllRenderables(vs, |vs|) + Renderables(vs[sel]);
      && Renderables(vs[sel]) <= after
      && forall k :: 0 <= k < |vs| && k != sel ==> Renderables(vs[k]) !! after
  {
    var after := before - AllRenderables(vs, |vs|) + Renderables(vs[sel]);
    forall k | 0 <= k < |vs| && k != sel
      ensures Renderables(vs[k]) !! after
    {
      AllRenderablesCovers(vs, |vs|, k);
      if k < sel {
        assert Renderables(vs[k]) !! Renderables(vs[sel]);
      } else {
        assert Renderables(vs[sel]) !! Renderables(vs[k]);
      }
    }
  }

  /** The state of main.js after start-up: the systems built from the
      config, one caption per system, `selectedIndex`, the scene, the camera
      and the dust systems. */
  class Show {
    const systems: seq<Vfx>
    const dusts: seq<DustParticleSystem>
    const scene: Scene
    const camera: CameraManager
    var captionsVisible: seq<bool>
    var selectedIndex: nat

    ghost predicate Valid()
      reads this, Objects(systems)
    {
      && Built() && selectedIndex < |systems| && |captionsVisible| == |systems|
      && (forall k :: 0 <= k < |systems| ==> Healthy(systems[k]))
    }

    /** What start-up fixed for good: at least one system, no system twice,
        no renderable shared. */
    ghost predicate Built() {
      |systems| > 0 && DistinctSystems(systems) && DisjointRenderables(systems)
    }

    /** Every dust system is in the shape its `update` needs, each with a
        buffer of its own. */
    ghost predicate DustReady()
      reads set k | 0 <= k < |dusts| :: dusts[k]
    {
      && (forall k :: 0 <= k < |dusts| ==>
            dusts[k].positions.Length == 3 * dusts[k].count && |dusts[k].velocities| == dusts[k].count)
      && (forall j, k :: 0 <= j < k < |dusts| ==> dusts[j].positions != dusts[k].positions)
    }

    /** Start-up: the middle system is selected and shown, its caption alone
        displayed. */
    constructor (systems: seq<Vfx>, dusts: seq<DustParticleSystem>, scene: Scene, camera: CameraManager)
      requires |systems| > 0 && DistinctSystems(systems) && DisjointRenderables(systems)
      requires forall k :: 0 <= k < |systems| ==> Healthy(systems[k])
      modifies scene
      ensures this.systems == systems && this.dusts == dusts && this.scene == scene && this.camera == camera
      ensures Valid() && selectedIndex == InitialIndex(|systems|)
      ensures scene.children == old(scene.children) - AllRenderables(systems, |systems|) + Renderables(systems[selectedIndex])
      ensures forall k :: 0 <= k < |systems| ==> captionsVisible[k] == (k == selectedIndex)
    {
      this.systems := systems;
      this.dusts := dusts;
      this.scene := scene;
      this.camera := camera;
      captionsVisible := seq(|systems|, _ => false);
      selectedIndex := InitialIndex(|systems|);
      new;
      ShowOnlySelected();
    }

    /** `showOnlySelectedSystem()`. */
    method ShowOnlySelected()
      requires Valid()
      modifies scene, this`captionsVisible
      ensures Valid()
      ensures scene.children == old(scene.children) - AllRenderables(systems, |systems|) + Renderables(systems[selectedIndex])
      ensures Renderables(systems[selectedIndex]) <= scene.children
      ensures forall k :: 0 <= k < |systems| && k != selectedIndex ==> Renderables(systems[k]) !! scene.children
      ensures forall k :: 0 <= k < |systems| ==> captionsVisible[k] == (k == selectedIndex)
    {
      SceneApart(systems, scene);
      ShowSelectedSystem();
      ShowSelectedCaption();
    }

    /** The scene half of `showOnlySelectedSystem`: every system's
        renderables leave the scene, then the chosen one's join it.
        `removeFromScene?.(scene)` yields undefined, so the `??` fallback also
        runs for a ring: its points are removed (and added) a second time,
        which changes nothing. */
    method ShowSelectedSystem()
      requires Valid()
      modifies scene
      ensures scene.children == old(scene.children) - AllRenderables(systems, |systems|) + Renderables(systems[selectedIndex])
      ensures Renderables(systems[selectedIndex]) <= scene.children
      ensures forall k :: 0 <= k < |systems| && k != selectedIndex ==> Renderables(systems[k]) !! scene.children
    {
      var i := 0;
      while i < |systems|
        invariant 0 <= i <= |systems|
        invariant scene.children == old(scene.children) - AllRenderables(systems, i)
      {
        match systems[i] {
          case Basic(ps) =>
            scene.Remove(ps.points);
          case Ring(rt) =>
            rt.RemoveFromScene(scene);
            scene.Remove(rt.points);
        }
        i := i + 1;
      }
      match systems[selectedIndex] {
        case Basic(ps) =>
          scene.Add(ps.points);
        case Ring(rt) =>
          rt.AddToScene(scene);
          scene.Add(rt.points);
      }
      ShowsOnlySelected(old(scene.children), systems, selectedIndex);
    }

    /** The caption half: the caption at `selectedIndex` is displayed and
        every other one hidden. */
    method ShowSelectedCaption()
      requires |captionsVisible| == |systems|
      modifies this`captionsVisible
      ensures |captionsVisible| == |systems|
      ensures forall k :: 0 <= k < |systems| ==> captionsVisible[k] == (k == selectedIndex)
    {
      var j := 0;
      while j < |captionsVisible|
        invariant 0 <= j <= |captionsVisible| && |captionsVisible| == |systems|
        invariant forall k :: 0 <= k < j ==> captionsVisible[k] == (k == selectedIndex)
      {
        captionsVisible := captionsVisible[j := j == selectedIndex];
        j := j + 1;
      }
    }

    /** The loop over `particleSystems` in `animate()`: every system is
        updated, not only the selected one; no origin moves. */
    method UpdateAll(dt: real, draws: seq<seq<Draw>>, m: MathLib)
      requires Valid() && |draws| == |systems|
      requires forall k :: 0 <= k < |systems| && systems[k].Basic? ==> |draws[k]| == systems[k].ps.particleCount
      modifies Objects(systems), Buffers(systems)
      ensures Valid()
      ensures Swarms(systems) == AdvanceEach(systems, old(Swarms(systems)), Origins(systems), dt, draws, m)
      ensures Origins(systems) == old(Origins(systems))
    {
      ghost var before := Swarms(systems);
      var i := 0;
      while i < |systems|
        invariant 0 <= i <= |systems|
        invariant Valid()
        invariant forall k :: 0 <= k < i ==>
          SwarmOf(systems[k]) == Advance(systems[k], before[k], PositionOf(systems[k]), dt, draws[k], m)
        invariant forall k :: i <= k < |systems| ==> SwarmOf(systems[k]) == before[k]
        invariant forall k :: 0 <= k < |systems| ==> PositionOf(systems[k]) == old(PositionOf(systems[k]))
        invariant forall k :: 0 <= k < |systems| ==> BufferOf(systems[k]) == old(BufferOf(systems[k]))
      {
        UpdateOne(i, dt, draws[i], m);
        i := i + 1;
      }
      assert Swarms(systems) == AdvanceEach(systems, before, Origins(systems), dt, draws, m);
    }

    /** `sys.update?.(deltaTime)` for system i; no other system changes. */
    method UpdateOne(i: nat, dt: real, draws: seq<Draw>, m: MathLib)
      requires Valid() && i < |systems|
      requires systems[i].Basic? ==> |draws| == systems[i].ps.particleCount
      modifies ObjOf(systems[i]), BufferOf(systems[i])
      ensures Valid()
      ensures SwarmOf(systems[i]) == Advance(systems[i], old(SwarmOf(systems[i])), PositionOf(systems[i]), dt, draws, m)
      ensures forall k :: 0 <= k < |systems| ==>
        PositionOf(systems[k]) == old(PositionOf(systems[k])) && BufferOf(systems[k]) == old(BufferOf(systems[k]))
      ensures forall k :: 0 <= k < |systems| && k != i ==> SwarmOf(systems[k]) == old(SwarmOf(systems[k]))
    {
      match systems[i] {
        case Basic(ps) =>
          ps.Update(dt, draws, m);
        case Ring(rt) =>
          rt.Update(dt, m);
      }
    }

    /** The loop over `window._dustSystems` in `animate()`: every dust
        cloud drifts one step. */
    method UpdateDust()
      requires DustReady()
      modifies set k | 0 <= k < |dusts| :: dusts[k].positions
      ensures DustReady()
      ensures forall k :: 0 <= k < |dusts| ==> Drifted(dusts[k], old(DustSlots(dusts[k])), DustSlots(dusts[k]))
      ensures forall k :: 0 <= k < |dusts| && Ordered(dusts[k].volume) ==> dusts[k].Contained()
    {
      var j := 0;
      while j < |dusts|
        invariant 0 <= j <= |dusts|
        invariant DustReady()
        invariant forall k :: 0 <= k < j ==> Drifted(dusts[k], old(DustSlots(dusts[k])), DustSlots(dusts[k]))
        invariant forall k :: j <= k < |dusts| ==> DustSlots(dusts[k]) == old(DustSlots(dusts[k]))
      {
        UpdateDustOne(j);
        j := j + 1;
      }
      forall k | 0 <= k < |dusts| && Ordered(dusts[k].volume)
        ensures dusts[k].Contained()
      {
        DriftStaysInside(dusts[k], old(DustSlots(dusts[k])));
      }
    }

    /** `d.update?.()` for dust cloud j; no other cloud moves. */
    method UpdateDustOne(j: nat)
      requires DustReady() && j < |dusts|
      modifies dusts[j].positions
      ensures Drifted(dusts[j], old(DustSlots(dusts[j])), DustSlots(dusts[j]))
      ensures forall k :: 0 <= k < |dusts| && k != j ==> DustSlots(dusts[k]) == old(DustSlots(dusts[k]))
    {
      dusts[j].Update();
    }

    /** The per-frame re-centring, `pos.x += (0 - pos.x) * 0.15`, on the
        selected system's origin; its particles stay where they are. */
    method RecenterSelected()
      requires Valid()
      modifies ObjOf(systems[selectedIndex])
      ensures Valid()
      ensures Origins(systems) == old(Origins(systems))[selectedIndex := Recentered(old(PositionOf(systems[selectedIndex])))]
      ensures Swarms(systems) == old(Swarms(systems))
    {
      ghost var sw, os := Swarms(systems), Origins(systems);
      match systems[selectedIndex] {
        case Basic(ps) =>
          ps.MoveTo(Recentered(ps.position));
        case Ring(rt) =>
          rt.MoveTo(Recentered(rt.position));
      }
      assert Swarms(systems) == sw;
      assert Origins(systems) == os[selectedIndex := Recentered(os[selectedIndex])];
    }

    /** One `animate()` frame of the systems and the camera: every system
        updates about its current origin, the selected origin then moves 15%
        of the way to x = 0, and the camera eases toward the moved origin,
        which is what its focus accessor returns. The dust loop that runs
        between the two touches only the dust buffers and is `UpdateDust`.
        Rendering is not modelled. */
    method Frame(dt: real, draws: seq<seq<Draw>>, hits: seq<real>, m: MathLib)
      requires Valid() && |draws| == |systems|
      requires forall k :: 0 <= k < |systems| && systems[k].Basic? ==> |draws[k]| == systems[k].ps.particleCount
      modifies Objects(systems), Buffers(systems), camera`yaw, camera`pitch, camera`lerpTarget, camera`cameraPosition, camera`lookTarget
      ensures Valid()
      ensures Swarms(systems) == AdvanceEach(systems, old(Swarms(systems)), old(Origins(systems)), dt, draws, m)
      ensures Origins(systems) == old(Origins(systems))[selectedIndex := Recentered(old(PositionOf(systems[selectedIndex])))]
      ensures camera.Updated(PositionOf(systems[selectedIndex]), hits, m)
    {
      ghost var sw0, os0 := Swarms(systems), Origins(systems);
      ShowApart(systems, this);
      UpdateAll(dt, draws, m);
      ghost var sw1 := Swarms(systems);
      assert sw1 == AdvanceEach(systems, sw0, os0, dt, draws, m);
      assert Origins(systems) == os0;
      CameraApart(systems, camera);
      CollidersApart(systems, camera.collisionObjects);
      assert unchanged(camera, camera.collisionObjects);
      Follow(hits, m);
      assert Swarms(systems) == sw1;
    }

    /** The end of the frame: re-centring, then the camera. */
    method Follow(hits: seq<real>, m: MathLib)
      requires Valid()
      modifies ObjOf(systems[selectedIndex]), camera`yaw, camera`pitch, camera`lerpTarget, camera`cameraPosition, camera`lookTarget
      ensures Valid()
      ensures Swarms(systems) == old(Swarms(systems))
      ensures Origins(systems) == old(Origins(systems))[selectedIndex := Recentered(old(PositionOf(systems[selectedIndex])))]
      ensures camera.Updated(PositionOf(systems[selectedIndex]), hits, m)
    {
      RecenterSelected();
      Look(hits, m);
    }

    /** `cameraManager.update()`: the focus accessor yields the selected
        system's origin. */
    method Look(hits: seq<real>, m: MathLib)
      requires Valid()
      modifies camera`yaw, camera`pitch, camera`lerpTarget, camera`cameraPosition, camera`lookTarget
      ensures Valid()
      ensures Swarms(systems) == old(Swarms(systems)) && Origins(systems) == old(Origins(systems))
      ensures camera.Updated(PositionOf(systems[selectedIndex]), hits, m)
    {
      var live := PositionOf(systems[selectedIndex]);
      ghost var sw, os := Swarms(systems), Origins(systems);
      CameraApart(systems, camera);
      camera.Update(live, hits, m);
      assert PositionOf(systems[selectedIndex]) == live;
      assert Swarms(systems) == sw && Origins(systems) == os;
    }

    /** The left button, or ArrowLeft. */
    method Left()
      requires Valid()
      modifies this`selectedIndex, this`captionsVisible, scene
      ensures Valid() && selectedIndex == StepLeft(old(selectedIndex), |systems|)
      ensures scene.children == old(scene.children) - AllRenderables(systems, |systems|) + Renderables(systems[selectedIndex])
      ensures forall k :: 0 <= k < |systems| ==> captionsVisible[k] == (k == selectedIndex)
    {
      selectedIndex := StepLeft(selectedIndex, |systems|);
      ShowOnlySelected();
    }

    /** The right button, or ArrowRight. */
    method Right()
      requires Valid()
      modifies this`selectedIndex, this`captionsVisible, scene
      ensures Valid() && selectedIndex == StepRight(old(selectedIndex), |systems|)
      ensures scene.children == old(scene.children) - AllRenderables(systems, |systems|) + Renderables(systems[selectedIndex])
      ensures forall k :: 0 <= k < |systems| ==> captionsVisible[k] == (k == selectedIndex)
    {
      selectedIndex := StepRight(selectedIndex, |systems|);
      ShowOnlySelected();
    }
  }
}

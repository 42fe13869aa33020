/** RingTrailSystem (src/vfx/ringtrail.js): particles orbiting a horizontal
    ring of radius 1.2 about the origin, each dragging a line through its
    most recent positions. */
module RingTrails {
  import opened Vectors
  import opened Wrappers
  import opened Spawns
  import opened SceneGraph
  import opened RealArith

  const RingRadius: real := 1.2
  const RingSpeed: real := 1.2

  /** One entry of `this.particles`; `age` is set and never read. */
  datatype RingParticle = RingParticle(position: Vec3, angle: real, speed: real, age: real)

  /** The keys the constructor destructures. `position` has to be given: its
      default, the array [0, 0, 0], has no `clone` and the base constructor
      throws on it. */
  datatype RingOptions = RingOptions(
    position: Vec3,
    color: Option<int>,
    size: Option<real>,
    trailLength: Option<int>,
    particleCount: Option<nat>)

  /** The point at `angle` on the ring about `o`. */
  function RingPoint(o: Vec3, angle: real, m: MathLib): (p: Vec3)
    ensures p.y == o.y
  {
    CirclePoint(o, angle, RingRadius, m)
  }

  /** Every ring point lies at distance 1.2 from the centre. */
  lemma RingPointOnRing(o: Vec3, angle: real, m: MathLib)
    requires Sound(m)
    ensures Dist2(RingPoint(o, angle, m), o) == 1.44
  {
    CirclePointDistance(o, angle, RingRadius, m);
  }

  /** Particle i of n starts at the fraction i/n of a full turn. */
  function SpawnAngle(i: nat, n: nat, m: MathLib): (a: real)
    requires i < n
    ensures i == 0 ==> a == 0.0
  {
    (i as real / n as real) * m.pi * 2.0
  }

  /** Spawn angles increase strictly with the particle index and all lie in
      [0, 2·pi): the particles start spread over one turn, no two together. */
  lemma SpawnAnglesSpread(i: nat, j: nat, n: nat, m: MathLib)
    requires m.pi > 0.0
    requires i < j < n
    ensures 0.0 <= SpawnAngle(i, n, m) < SpawnAngle(j, n, m) < 2.0 * m.pi
  {
    var fi, fj := i as real / n as real, j as real / n as real;
    FractionsOrdered(i, j, n);
    FractionsOrdered(j, j + 1, n);
    MulMonoStrict(fi, fj, m.pi);
    MulMonoStrict(fj, 1.0, m.pi);
    MulNonNeg(fi, m.pi);
  }

  lemma FractionsOrdered(a: nat, b: nat, n: nat)
    requires a < b <= n
    ensures 0.0 <= a as real / n as real < b as real / n as real <= 1.0
  {
    var N := n as real;
    var fa, fb := a as real / N, b as real / N;
    assert fa * N == a as real;
    assert fb * N == b as real;
    if fa < 0.0 { MulNegPos(fa, N); }
    var d := fb - fa;
    assert d * N == b as real - a as real;
    if d <= 0.0 { MulMono(d, 0.0, N); }
    var e := fb - 1.0;
    assert e * N == b as real - N;
    if e > 0.0 { MulMonoStrict(0.0, e, N); }
  }

  /** The loop body of `update(dt)` for one particle: the angle advances by
      speed·dt/2 and the position is put back on the ring about `o`. */
  function AdvanceParticle(p: RingParticle, dt: real, o: Vec3, m: MathLib): RingParticle {
    var angle := p.angle + p.speed * dt * 0.5;
    p.(angle := angle, position := RingPoint(o, angle, m))
  }

  /** After a run of frames with time steps dts (origin held at o), as the
      loop of `update` is called once per frame. */
  function AdvanceAll(p: RingParticle, dts: seq<real>, o: Vec3, m: MathLib): RingParticle
    decreases |dts|
  {
    if dts == [] then p else AdvanceAll(AdvanceParticle(p, dts[0], o, m), dts[1..], o, m)
  }

  function Sum(dts: seq<real>): real
    decreases |dts|
  {
    if dts == [] then 0.0 else dts[0] + Sum(dts[1..])
  }

  /** At the ring speed a particle turns at a constant 0.6 radians per unit
      of time, keeps its speed, and stays on the ring at radius 1.2. */
  lemma {:induction false} AdvanceAllTurnsSteadily(p: RingParticle, dts: seq<real>, o: Vec3, m: MathLib)
    requires Sound(m)
    requires p.speed == RingSpeed
    requires p.position == RingPoint(o, p.angle, m)
    ensures var q := AdvanceAll(p, dts, o, m);
      && q.speed == RingSpeed
      && q.angle == p.angle + 0.6 * Sum(dts)
      && q.position == RingPoint(o, q.angle, m)
      && Dist2(q.position, o) == 1.44
    decreases |dts|
  {
    if dts == [] {
      RingPointOnRing(o, p.angle, m);
    } else {
      var p' := AdvanceParticle(p, dts[0], o, m);
      AdvanceAllTurnsSteadily(p', dts[1..], o, m);
    }
  }

  /** The largest length a trail reaches: trailLength, but at least the one
      point every trail starts with. */
  function TrailCap(trailLength: int): (c: nat)
    ensures c >= 1 && c >= trailLength
  {
    if trailLength < 1 then 1 else trailLength
  }

  /** Records one position: push it, then drop the oldest point once if the
      trail has grown past trailLength. */
  function PushTrail(t: seq<Vec3>, p: Vec3, trailLength: int): (r: seq<Vec3>)
    ensures |t| + 1 <= trailLength ==> |r| == |t| + 1
    ensures |t| + 1 > trailLength ==> |r| == |t|
  {
    var grown := t + [p];
    if |grown| > trailLength then grown[1..] else grown
  }

  /** A push keeps the newest points: the result is a suffix of t + [p]
      ending in p (unless it empties a trail that was already empty). */
  lemma PushTrailKeepsNewest(t: seq<Vec3>, p: Vec3, trailLength: int)
    ensures var r := PushTrail(t, p, trailLength);
      && |r| <= |t| + 1 && r == (t + [p])[|t| + 1 - |r|..]
      && (|t| >= 1 || trailLength >= 1 ==> |r| >= 1 && r[|r| - 1] == p)
  {
  }

  /** One push keeps a trail of between 1 and TrailCap points in that range. */
  lemma PushTrailBounded(t: seq<Vec3>, p: Vec3, trailLength: int)
    requires 1 <= |t| <= TrailCap(trailLength)
    ensures 1 <= |PushTrail(t, p, trailLength)| <= TrailCap(trailLength)
  {
  }

  /** The trail after recording each of `ps` in turn. */
  function PushAll(t: seq<Vec3>, ps: seq<Vec3>, trailLength: int): seq<Vec3>
    decreases |ps|
  {
    if ps == [] then t else PushAll(PushTrail(t, ps[0], trailLength), ps[1..], trailLength)
  }

  /** The last n elements of s, or all of s when it is shorter. */
  function Window(s: seq<Vec3>, n: nat): (w: seq<Vec3>)
    ensures |w| == if |s| < n then |s| else n
  {
    if |s| <= n then s else s[|s| - n..]
  }

  /** A trail is always the window of the most recent positions: starting
      from any admissible trail, after recording `ps` it holds exactly the
      last TrailCap points of t followed by ps (all of them while fewer). */
  lemma {:induction false} PushAllIsRecentWindow(t: seq<Vec3>, ps: seq<Vec3>, trailLength: int)
    requires 1 <= |t| <= TrailCap(trailLength)
    ensures PushAll(t, ps, trailLength) == Window(t + ps, TrailCap(trailLength))
    decreases |ps|
  {
    if ps == [] {
      assert t + ps == t;
    } else {
      var t' := PushTrail(t, ps[0], trailLength);
      PushTrailBounded(t, ps[0], trailLength);
      PushAllIsRecentWindow(t', ps[1..], trailLength);
      WindowStep(t, ps[0], ps[1..], trailLength);
      assert t + ps == t + [ps[0]] + ps[1..];
    }
  }

  lemma WindowStep(t: seq<Vec3>, p: Vec3, rest: seq<Vec3>, trailLength: int)
    requires 1 <= |t| <= TrailCap(trailLength)
    ensures Window(PushTrail(t, p, trailLength) + rest, TrailCap(trailLength))
         == Window(t + [p] + rest, TrailCap(trailLength))
  {
    var cap := TrailCap(trailLength);
    var grown := t + [p];
    if |grown| > trailLength {
      var all := grown + rest;
      assert grown[1..] + rest == all[1..];
      assert |t| == cap;
      assert all[1..][|all| - 1 - cap..] == all[|all| - cap..];
    }
  }

  /** A trail geometry shows trail t: its buffer holds the trail's points
      and its draw range covers them. */
  ghost predicate TrailShown(buf: array<real>, range: Option<nat>, t: seq<Vec3>)
    reads buf
  {
    && buf.Length == 3 * |t|
    && range == Some(|t|)
    && (forall j :: 0 <= j < |t| ==> SlotIs(buf, j, t[j]))
  }

  /** Every particle sits on the ring about o at its own angle. */
  ghost predicate OnRing(ps: seq<RingParticle>, o: Vec3, m: MathLib) {
    forall k :: 0 <= k < |ps| ==> ps[k].position == RingPoint(o, ps[k].angle, m)
  }

  /** Every particle moves at the ring speed. */
  predicate AtRingSpeed(ps: seq<RingParticle>) {
    forall k :: 0 <= k < |ps| ==> ps[k].speed == RingSpeed
  }

  /** Every trail holds between 1 and TrailCap points. */
  ghost predicate TrailsBounded(ts: seq<seq<Vec3>>, trailLength: int) {
    forall k :: 0 <= k < |ts| ==> 1 <= |ts[k]| <= TrailCap(trailLength)
  }

  /** `RingTrailSystem`. The base-class fields it never reads (velocity,
      lifetime, age, alpha, subEmitter) are left out. */
  class RingTrailSystem {
    var position: Vec3
    const color: int
    const size: real
    const trailLength: int
    const particleCount: nat
    var particles: seq<RingParticle>
    var trails: seq<seq<Vec3>>
    /** The points' position attribute. */
    var positions: array<real>
    /** Each trail geometry's position attribute; empty before the first
        update, which is when the source first sets one. */
    var trailBuffers: seq<array<real>>
    /** Each trail geometry's draw range count; None is three.js's default
        of drawing everything. */
    var drawRanges: seq<Option<nat>>
    const points: Object3D
    const trailLines: seq<Object3D>

    /** Shape: one particle, trail, trail buffer, draw range and line per
        particle, and a position slot each. */
    predicate Ready()
      reads this
    {
      && |particles| == particleCount && |trails| == particleCount
      && |trailBuffers| == particleCount && |drawRanges| == particleCount
      && |trailLines| == particleCount && positions.Length == 3 * particleCount
    }

    /** What holds between frames, also after the origin has been moved. */
    ghost predicate Steady()
      reads this
    {
      Ready() && AtRingSpeed(particles) && TrailsBounded(trails, trailLength)
    }

    /** Steady, and every particle on the ring about the current origin. */
    ghost predicate Valid(m: MathLib)
      reads this
    {
      Steady() && OnRing(particles, position, m)
    }

    /** The points' buffer shows every particle. */
    ghost predicate Drawn()
      reads this, positions
    {
      forall i :: 0 <= i < |particles| ==> SlotIs(positions, i, particles[i].position)
    }

    /** The constructor: defaults, the trail lines, then `initParticles`,
        which puts particle i at SpawnAngle(i) and seeds its trail with that
        one point. */
    constructor (opts: RingOptions, m: MathLib)
      ensures position == opts.position && color == opts.color.GetOr(0xffffff)
      ensures size == opts.size.GetOr(0.15) && trailLength == opts.trailLength.GetOr(30)
      ensures particleCount == opts.particleCount.GetOr(10)
      ensures Valid(m) && Drawn() && fresh(positions) && fresh(points)
      ensures forall i :: 0 <= i < particleCount ==>
        particles[i] == RingParticle(RingPoint(position, SpawnAngle(i, particleCount, m), m), SpawnAngle(i, particleCount, m), RingSpeed, 0.0)
      ensures forall i :: 0 <= i < particleCount ==> trails[i] == [particles[i].position]
      ensures forall i :: 0 <= i < particleCount ==> drawRanges[i] == None && trailBuffers[i].Length == 0
      ensures forall i, j :: 0 <= i < j < particleCount ==> trailLines[i] != trailLines[j]
      ensures forall i :: 0 <= i < particleCount ==> fresh(trailLines[i]) && trailLines[i] != points
    {
      position := opts.position;
      color := opts.color.GetOr(0xffffff);
      size := opts.size.GetOr(0.15);
      var n := opts.particleCount.GetOr(10);
      particleCount := n;
      trailLength := opts.trailLength.GetOr(30);
      var pts := new Object3D();
      points := pts;
      var empty := new real[0];
      var lines: seq<Object3D> := [];
      var k := 0;
      while k < n
        invariant 0 <= k <= n && |lines| == k
        invariant forall i, j :: 0 <= i < j < k ==> lines[i] != lines[j]
        invariant forall i :: 0 <= i < k ==> fresh(lines[i]) && lines[i] != pts
      {
        var line := new Object3D();
        lines := lines + [line];
        k := k + 1;
      }
      trailLines := lines;
      trailBuffers := seq(n, _ => empty);
      drawRanges := seq(n, _ => None);
      trails := seq(n, _ => []);
      particles := [];
      positions := empty;
      new;
      InitParticles(m);
    }

    /** `initParticles()`. */
    method InitParticles(m: MathLib)
      requires |trails| == particleCount
      modifies this`particles, this`trails, this`positions
      ensures |particles| == particleCount && |trails| == particleCount
      ensures OnRing(particles, position, m) && AtRingSpeed(particles) && TrailsBounded(trails, trailLength)
      ensures Drawn() && fresh(positions) && positions.Length == 3 * particleCount
      ensures forall i :: 0 <= i < particleCount ==>
        particles[i] == RingParticle(RingPoint(position, SpawnAngle(i, particleCount, m), m), SpawnAngle(i, particleCount, m), RingSpeed, 0.0)
      ensures forall i :: 0 <= i < particleCount ==> trails[i] == [particles[i].position]
    {
      particles := [];
      var buf := new real[3 * particleCount];
      var i := 0;
      while i < particleCount
        invariant 0 <= i <= particleCount
        invariant |particles| == i && |trails| == particleCount
        invariant forall k :: 0 <= k < i ==>
          particles[k] == RingParticle(RingPoint(position, SpawnAngle(k, particleCount, m), m), SpawnAngle(k, particleCount, m), RingSpeed, 0.0)
        invariant forall k :: 0 <= k < i ==> trails[k] == [particles[k].position]
        invariant forall k :: 0 <= k < i ==> SlotIs(buf, k, particles[k].position)
      {
        var angle := SpawnAngle(i, particleCount, m);
        var pos := RingPoint(position, angle, m);
        WriteSlot(buf, i, pos);
        particles := particles + [RingParticle(pos, angle, RingSpeed, 0.0)];
        trails := trails[i := [pos]];
        i := i + 1;
      }
      positions := buf;
    }

    /** `update(dt)`: each particle takes one `AdvanceParticle` about the
        current origin; its slot is rewritten, its position recorded on its
        trail, and the trail geometry given a new buffer holding the trail
        and a draw range of its length. */
    method Update(dt: real, m: MathLib)
      requires Steady()
      modifies this`particles, this`trails, this`trailBuffers, this`drawRanges, positions
      ensures Valid(m) && Drawn()
      ensures forall i :: 0 <= i < particleCount ==>
        particles[i] == AdvanceParticle(old(particles[i]), dt, position, m)
        && trails[i] == PushTrail(old(trails[i]), particles[i].position, trailLength)
      ensures forall i :: 0 <= i < particleCount ==>
        fresh(trailBuffers[i]) && TrailShown(trailBuffers[i], drawRanges[i], trails[i])
    {
      ghost var before := particles;
      ghost var beforeTrails := trails;
      var i := 0;
      while i < particleCount
        invariant 0 <= i <= particleCount
        invariant Steady()
        invariant forall k :: 0 <= k < i ==> particles[k].position == RingPoint(position, particles[k].angle, m)
        invariant forall k :: 0 <= k < i ==>
          particles[k] == AdvanceParticle(before[k], dt, position, m)
          && trails[k] == PushTrail(beforeTrails[k], particles[k].position, trailLength)
        invariant forall k :: i <= k < particleCount ==> particles[k] == before[k] && trails[k] == beforeTrails[k]
        invariant forall k :: 0 <= k < i ==> SlotIs(positions, k, particles[k].position)
        invariant forall k :: 0 <= k < i ==>
          fresh(trailBuffers[k]) && TrailShown(trailBuffers[k], drawRanges[k], trails[k])
      {
        Advance(i, dt, m);
        i := i + 1;
      }
    }

    /** One iteration of the loop in `update(dt)`, for particle i. */
    method Advance(i: nat, dt: real, m: MathLib)
      requires Steady() && i < particleCount
      modifies this`particles, this`trails, this`trailBuffers, this`drawRanges, positions
      ensures Steady()
      ensures particles == old(particles)[i := AdvanceParticle(old(particles[i]), dt, position, m)]
      ensures trails == old(trails)[i := PushTrail(old(trails[i]), particles[i].position, trailLength)]
      ensures fresh(trailBuffers[i]) && TrailShown(trailBuffers[i], drawRanges[i], trails[i])
      ensures forall k :: 0 <= k < particleCount && k != i ==>
        trailBuffers[k] == old(trailBuffers[k]) && drawRanges[k] == old(drawRanges[k])
      ensures SlotIs(positions, i, particles[i].position)
      ensures forall j :: 0 <= j < positions.Length && (j < 3 * i || 3 * i + 2 < j) ==> positions[j] == old(positions[j])
    {
      var p := AdvanceParticle(particles[i], dt, position, m);
      particles := particles[i := p];
      WriteSlot(positions, i, p.position);
      PushTrailBounded(trails[i], p.position, trailLength);
      var trail := PushTrail(trails[i], p.position, trailLength);
      trails := trails[i := trail];
      var trailPos := PackPositions(trail);
      trailBuffers := trailBuffers[i := trailPos];
      drawRanges := drawRanges[i := Some(|trail|)];
    }

    /** Assigning `position` (main.js re-centres `position.x` in place). The
        particles stay where they are until the next `update`. */
    method MoveTo(p: Vec3)
      modifies this`position
      ensures position == p
    {
      position := p;
    }

    /** `addToScene(scene)`: the points and every trail line join the scene. */
    method AddToScene(scene: Scene)
      modifies scene
      ensures scene.children == old(scene.children) + {points} + (set k | 0 <= k < |trailLines| :: trailLines[k])
    {
      scene.Add(points);
      var i := 0;
      while i < |trailLines|
        invariant 0 <= i <= |trailLines|
        invariant scene.children == old(scene.children) + {points} + (set k | 0 <= k < i :: trailLines[k])
      {
        scene.Add(trailLines[i]);
        i := i + 1;
      }
    }

    /** `removeFromScene(scene)`: the points and every trail line leave it. */
    method RemoveFromScene(scene: Scene)
      modifies scene
      ensures scene.children == old(scene.children) - {points} - (set k | 0 <= k < |trailLines| :: trailLines[k])
    {
      scene.Remove(points);
      var i := 0;
      while i < |trailLines|
        invariant 0 <= i <= |trailLines|
        invariant scene.children == old(scene.children) - {points} - (set k | 0 <= k < i :: trailLines[k])
      {
        scene.Remove(trailLines[i]);
        i := i + 1;
      }
    }
  }

  /** The fresh Float32Array a trail is copied into, 3 floats per point. */
  method PackPositions(t: seq<Vec3>) returns (buf: array<real>)
    ensures fresh(buf) && buf.Length == 3 * |t|
    ensures forall j :: 0 <= j < |t| ==> SlotIs(buf, j, t[j])
  {
    buf := new real[3 * |t|];
    var j := 0;
    while j < |t|
      invariant 0 <= j <= |t|
      invariant forall k :: 0 <= k < j ==> SlotIs(buf, k, t[k])
    {
      WriteSlot(buf, j, t[j]);
      j := j + 1;
    }
  }
}

/** MeshParticleSystem and DustParticleSystem
    (src/vfx/meshParticleSystem.js): a static point cloud scattered over the
    triangles of a mesh, and drifting dust confined to a box. */
module MeshParticles {
  import opened Vectors
  import opened Wrappers
  import opened Spawns
  import opened Geometry
  import opened SceneGraph
  import opened RealArith

  /** The parts of a BufferGeometry the sampler reads: the position attribute
      and, for an indexed geometry, the index attribute. */
  datatype MeshGeometry = MeshGeometry(vertices: seq<Vec3>, index: Option<seq<int>>)

  /** Number of entries that describe faces: the index's length for an
      indexed geometry, the vertex count otherwise. */
  function FaceEntries(g: MeshGeometry): nat {
    match g.index
    case Some(ix) => |ix|
    case None => |g.vertices|
  }

  /** Every three entries make a face, there is at least one, and every index
      names a vertex. The sampler does not check this; on any other geometry
      it reads past an attribute's end. */
  predicate WellFormed(g: MeshGeometry) {
    && FaceEntries(g) > 0 && FaceEntries(g) % 3 == 0
    && (g.index.Some? ==> forall k :: 0 <= k < |g.index.value| ==> 0 <= g.index.value[k] < |g.vertices|)
  }

  /** `Math.floor(r * (count / 3))`. */
  function FaceIndex(r: real, entries: nat): int {
    (r * (entries as real / 3.0)).Floor
  }

  /** With a draw in [0, 1) and a whole number of faces, the chosen face is
      one of them: entries 3f, 3f+1, 3f+2 all exist. */
  lemma FaceIndexInRange(r: real, entries: nat)
    requires 0.0 <= r < 1.0
    requires entries > 0 && entries % 3 == 0
    ensures 0 <= FaceIndex(r, entries) && 3 * FaceIndex(r, entries) + 2 < entries
  {
    var faces := entries / 3;
    ThirdOfMultiple(entries);
    var x := r * faces as real;
    assert FaceIndex(r, entries) == x.Floor;
    assert 0.0 <= x < faces as real by {
      MulNonNeg(r, faces as real);
      MulMonoStrict(r, 1.0, faces as real);
    }
    FloorBelow(x, faces);
    assert 3 * faces == entries;
  }

  lemma ThirdOfMultiple(entries: nat)
    requires entries % 3 == 0
    ensures entries as real / 3.0 == (entries / 3) as real
  {
    var k := entries / 3;
    assert entries == 3 * k;
    assert entries as real == 3.0 * k as real;
  }

  lemma FloorBelow(x: real, n: int)
    requires 0.0 <= x < n as real
    ensures 0 <= x.Floor < n
  {
  }

  /** The vertex at position `k` of face entry list: through the index for
      an indexed geometry, direct otherwise; None where the source would read
      past the end of an attribute. */
  function Corner(g: MeshGeometry, k: int): Option<Vec3> {
    var vi :=
      match g.index
      case Some(ix) => if 0 <= k < |ix| then ix[k] else -1
      case None => k;
    if 0 <= vi < |g.vertices| then Some(g.vertices[vi]) else None
  }

  /** One sample: draw d.u picks the face, d.v and d.w are the two
      barycentric draws of the fold. */
  function SampleOnMesh(g: MeshGeometry, d: Draw): Option<Vec3> {
    var f := FaceIndex(d.u, FaceEntries(g));
    var a, b, c := Corner(g, 3 * f), Corner(g, 3 * f + 1), Corner(g, 3 * f + 2);
    if a.Some? && b.Some? && c.Some? then
      Some(RandomPointOnFace(a.value, b.value, c.value, d.v, d.w))
    else None
  }

  /** On a well-formed geometry every sample exists and lies on one of its
      faces, between that face's corners on every axis. */
  lemma SampleLiesOnAFace(g: MeshGeometry, d: Draw)
    requires WellFormed(g) && ValidDraw(d)
    ensures SampleOnMesh(g, d).Some?
    ensures var f := FaceIndex(d.u, FaceEntries(g));
      && 0 <= f && 3 * f + 2 < FaceEntries(g)
      && SampleOnMesh(g, d).value == RandomPointOnFace(Corner(g, 3 * f).value, Corner(g, 3 * f + 1).value, Corner(g, 3 * f + 2).value, d.v, d.w)
  {
    FaceIndexInRange(d.u, FaceEntries(g));
  }

  /** An axis-aligned box, as `{min, max}`. */
  datatype Box = Box(min: Vec3, max: Vec3)

  predicate InBox(b: Box, p: Vec3) {
    && b.min.x <= p.x <= b.max.x
    && b.min.y <= p.y <= b.max.y
    && b.min.z <= p.z <= b.max.z
  }

  /** If every vertex of a well-formed geometry lies in a box, so does every
      sampled point: the cloud stays within the mesh's bounding box. */
  lemma SampleInsideBox(g: MeshGeometry, d: Draw, b: Box)
    requires WellFormed(g) && ValidDraw(d)
    requires forall k :: 0 <= k < |g.vertices| ==> InBox(b, g.vertices[k])
    ensures SampleOnMesh(g, d).Some? && InBox(b, SampleOnMesh(g, d).value)
  {
    SampleLiesOnAFace(g, d);
    var f := FaceIndex(d.u, FaceEntries(g));
    var pa, pb, pc := Corner(g, 3 * f).value, Corner(g, 3 * f + 1).value, Corner(g, 3 * f + 2).value;
    assert InBox(b, pa) && InBox(b, pb) && InBox(b, pc);
    RandomPointInBounds(pa, pb, pc, d.v, d.w);
  }

  /** The keys the MeshParticleSystem constructor destructures. */
  datatype MeshOptions = MeshOptions(color: Option<int>, size: Option<real>, count: Option<nat>)

  /** `MeshParticleSystem`: `count` points sampled once, at construction. */
  class MeshParticleSystem {
    const mesh: MeshGeometry
    const color: int
    const size: real
    const count: nat
    /** The point cloud's position attribute. */
    const positions: array<real>
    const points: Object3D

    /** The constructor and `_createPoints()`: slot i holds the sample drawn
        with draws[i]. */
    constructor (mesh: MeshGeometry, opts: MeshOptions, draws: seq<Draw>)
      requires WellFormed(mesh)
      requires forall i :: 0 <= i < |draws| ==> ValidDraw(draws[i])
      requires |draws| == opts.count.GetOr(1)
      ensures this.mesh == mesh && color == opts.color.GetOr(0xffcc00) && size == opts.size.GetOr(0.12)
      ensures count == opts.count.GetOr(1) && positions.Length == 3 * count
      ensures forall i :: 0 <= i < count ==>
        SampleOnMesh(mesh, draws[i]).Some? && SlotIs(positions, i, SampleOnMesh(mesh, draws[i]).value)
      ensures fresh(positions) && fresh(points)
    {
      this.mesh := mesh;
      color := opts.color.GetOr(0xffcc00);
      size := opts.size.GetOr(0.12);
      count := opts.count.GetOr(1);
      var buf := CreatePoints(mesh, draws);
      positions := buf;
      points := new Object3D();
    }
  }

  /** The sampling loop of `_createPoints()`. */
  method CreatePoints(g: MeshGeometry, draws: seq<Draw>) returns (buf: array<real>)
    requires WellFormed(g)
    requires forall i :: 0 <= i < |draws| ==> ValidDraw(draws[i])
    ensures fresh(buf) && buf.Length == 3 * |draws|
    ensures forall i :: 0 <= i < |draws| ==>
      SampleOnMesh(g, draws[i]).Some? && SlotIs(buf, i, SampleOnMesh(g, draws[i]).value)
  {
    buf := new real[3 * |draws|];
    var i := 0;
    while i < |draws|
      invariant 0 <= i <= |draws|
      invariant forall k :: 0 <= k < i ==>
        SampleOnMesh(g, draws[k]).Some? && SlotIs(buf, k, SampleOnMesh(g, draws[k]).value)
    {
      SampleLiesOnAFace(g, draws[i]);
      WriteSlot(buf, i, SampleOnMesh(g, draws[i]).value);
      i := i + 1;
    }
  }

  /** `THREE.MathUtils.lerp(x, y, t)`: (1 - t)·x + t·y. */
  function ScalarLerp(x: real, y: real, t: real): (r: real)
    ensures t == 0.0 ==> r == x
    ensures t == 1.0 ==> r == y
  {
    (1.0 - t) * x + t * y
  }

  /** For t in [0, 1] the lerp stays between its ends. */
  lemma ScalarLerpBetween(x: real, y: real, t: real)
    requires x <= y && 0.0 <= t <= 1.0
    ensures x <= ScalarLerp(x, y, t) <= y
  {
    MulMono(x, y, t);
    assert ScalarLerp(x, y, t) == x + t * y - t * x;
    assert ScalarLerp(x, y, t) == y - (1.0 - t) * (y - x);
    MulNonNeg(1.0 - t, y - x);
  }

  /** A uniformly placed dust particle: one lerp per axis. */
  function DustPoint(b: Box, d: Draw): Vec3 {
    Vec3(ScalarLerp(b.min.x, b.max.x, d.u), ScalarLerp(b.min.y, b.max.y, d.v), ScalarLerp(b.min.z, b.max.z, d.w))
  }

  predicate Ordered(b: Box) {
    b.min.x <= b.max.x && b.min.y <= b.max.y && b.min.z <= b.max.z
  }

  /** A dust particle starts inside its (ordered) box. */
  lemma DustPointInBox(b: Box, d: Draw)
    requires Ordered(b) && ValidDraw(d)
    ensures InBox(b, DustPoint(b, d))
  {
    ScalarLerpBetween(b.min.x, b.max.x, d.u);
    ScalarLerpBetween(b.min.y, b.max.y, d.v);
    ScalarLerpBetween(b.min.z, b.max.z, d.w);
  }

  /** One velocity component, (r - 0.5)·speed: less than half the speed in
      either direction. */
  function Jitter(r: real, speed: real): (v: real)
    ensures speed == 0.0 ==> v == 0.0
    ensures r == 0.5 ==> v == 0.0
  {
    (r - 0.5) * speed
  }

  /** A velocity component lies in [-speed/2, speed/2): it reaches half the
      speed downwards at a draw of 0, and never upwards. */
  lemma JitterBounded(r: real, speed: real)
    requires 0.0 <= r < 1.0 && speed >= 0.0
    ensures -0.5 * speed <= Jitter(r, speed) <= 0.5 * speed
    ensures speed > 0.0 ==> Jitter(r, speed) < 0.5 * speed
  {
    MulMono(r - 0.5, 0.5, speed);
    MulMono(-0.5, r - 0.5, speed);
    if speed > 0.0 {
      MulMonoStrict(r - 0.5, 0.5, speed);
    }
  }

  function DustVelocity(d: Draw, speed: real): Vec3 {
    Vec3(Jitter(d.u, speed), Jitter(d.v, speed), Jitter(d.w, speed))
  }

  /** The per-axis wrap of `update()`: below the range jumps to its top,
      above it jumps to its bottom, inside it stays. */
  function Wrap(c: real, lo: real, hi: real): (r: real)
    ensures lo <= hi ==> lo <= r <= hi
    ensures lo <= c <= hi ==> r == c
    ensures c < lo ==> r == hi
    ensures c > hi && lo <= hi ==> r == lo
  {
    if c < lo then hi else if c > hi then lo else c
  }

  function WrapIntoBox(b: Box, p: Vec3): (q: Vec3)
    ensures Ordered(b) ==> InBox(b, q)
    ensures InBox(b, p) ==> q == p
  {
    Vec3(Wrap(p.x, b.min.x, b.max.x), Wrap(p.y, b.min.y, b.max.y), Wrap(p.z, b.min.z, b.max.z))
  }

  /** The keys the DustParticleSystem constructor destructures. */
  datatype DustOptions = DustOptions(count: Option<nat>, color: Option<int>, size: Option<real>, speed: Option<real>)

  /** `DustParticleSystem`. */
  class DustParticleSystem {
    const volume: Box
    const count: nat
    const color: int
    const size: real
    const speed: real
    /** The points' position attribute, updated in place every frame. */
    const positions: array<real>
    var velocities: seq<Vec3>
    const points: Object3D

    /** Every particle lies inside the volume. */
    ghost predicate Contained()
      reads this, positions
    {
      positions.Length == 3 * count && forall i :: 0 <= i < count ==> InBox(volume, SlotAt(positions, i))
    }

    /** The constructor, `_createPoints()` (three draws per particle, one per
        axis) and `_initVelocities()` (three more). */
    constructor (volume: Box, opts: DustOptions, placeDraws: seq<Draw>, velocityDraws: seq<Draw>)
      requires |placeDraws| == opts.count.GetOr(1000) && |velocityDraws| == opts.count.GetOr(1000)
      ensures this.volume == volume && count == opts.count.GetOr(1000)
      ensures color == opts.color.GetOr(0xffffff) && size == opts.size.GetOr(0.04) && speed == opts.speed.GetOr(0.02)
      ensures positions.Length == 3 * count
      ensures forall i :: 0 <= i < count ==> SlotIs(positions, i, DustPoint(volume, placeDraws[i]))
      ensures velocities == seq(count, i requires 0 <= i < count => DustVelocity(velocityDraws[i], speed))
      ensures Ordered(volume) && (forall i :: 0 <= i < count ==> ValidDraw(placeDraws[i])) ==> Contained()
      ensures fresh(positions) && fresh(points)
    {
      this.volume := volume;
      var n := opts.count.GetOr(1000);
      count := n;
      color := opts.color.GetOr(0xffffff);
      size := opts.size.GetOr(0.04);
      var s := opts.speed.GetOr(0.02);
      speed := s;
      var buf := new real[3 * n];
      var i := 0;
      while i < n
        invariant 0 <= i <= n
        invariant forall k :: 0 <= k < i ==> SlotIs(buf, k, DustPoint(volume, placeDraws[k]))
      {
        WriteSlot(buf, i, DustPoint(volume, placeDraws[i]));
        i := i + 1;
      }
      positions := buf;
      points := new Object3D();
      var vs: seq<Vec3> := [];
      var j := 0;
      while j < n
        invariant 0 <= j <= n && |vs| == j
        invariant forall k :: 0 <= k < j ==> vs[k] == DustVelocity(velocityDraws[k], s)
      {
        vs := vs + [DustVelocity(velocityDraws[j], s)];
        j := j + 1;
      }
      velocities := vs;
      new;
      if Ordered(volume) && (forall k :: 0 <= k < count ==> ValidDraw(placeDraws[k])) {
        forall k | 0 <= k < count
          ensures InBox(volume, SlotAt(positions, k))
        {
          DustPointInBox(volume, placeDraws[k]);
        }
      }
    }

    /** `update()`: each particle moves by its velocity and is wrapped back
        into the volume axis by axis. */
    method Update()
      requires positions.Length == 3 * count && |velocities| == count
      modifies positions
      ensures forall i :: 0 <= i < count ==>
        SlotIs(positions, i, WrapIntoBox(volume, Add(old(SlotAt(positions, i)), velocities[i])))
      ensures Ordered(volume) ==> Contained()
    {
      var i := 0;
      while i < count
        invariant 0 <= i <= count
        invariant forall k :: 0 <= k < i ==>
          SlotIs(positions, k, WrapIntoBox(volume, Add(old(SlotAt(positions, k)), velocities[k])))
        invariant forall k :: i <= k < count ==> SlotAt(positions, k) == old(SlotAt(positions, k))
      {
        var p := Add(SlotAt(positions, i), velocities[i]);
        WriteSlot(positions, i, WrapIntoBox(volume, p));
        i := i + 1;
      }
      if Ordered(volume) {
        forall k | 0 <= k < count
          ensures InBox(volume, SlotAt(positions, k))
        {
          assert SlotAt(positions, k) == WrapIntoBox(volume, Add(old(SlotAt(positions, k)), velocities[k]));
        }
      }
    }
  }
}

/** Three-component vectors over the reals (the subset of THREE.Vector3 the
    core uses) and the transcendental functions the core calls, passed in as a
    record of functions with the axioms the proofs rely on. */
module Vectors {

  datatype Vec3 = Vec3(x: real, y: real, z: real)

  const Zero: Vec3 := Vec3(0.0, 0.0, 0.0)

  function Add(a: Vec3, b: Vec3): Vec3 {
    Vec3(a.x + b.x, a.y + b.y, a.z + b.z)
  }

  function Sub(a: Vec3, b: Vec3): Vec3 {
    Vec3(a.x - b.x, a.y - b.y, a.z - b.z)
  }

  function Scale(a: Vec3, s: real): Vec3 {
    Vec3(a.x * s, a.y * s, a.z * s)
  }

  /** Squared Euclidean length. */
  function Norm2(a: Vec3): (r: real)
    ensures r >= 0.0
  {
    SquareNonNegative(a.x); SquareNonNegative(a.y); SquareNonNegative(a.z);
    a.x * a.x + a.y * a.y + a.z * a.z
  }

  lemma SquareNonNegative(v: real)
    ensures v * v >= 0.0
  {
    if v < 0.0 {
      var w := -v;
      assert v * v == w * w;
    }
  }

  /** Squared distance between two points. */
  function Dist2(a: Vec3, b: Vec3): real {
    Norm2(Sub(a, b))
  }

  /** `Vector3.lerp`: every component moves the fraction `t` of the way to `b`;
      the remaining gap to `b` is the old gap scaled by 1 - t. */
  function Lerp(a: Vec3, b: Vec3, t: real): (r: Vec3)
    ensures Sub(r, b) == Scale(Sub(a, b), 1.0 - t)
    ensures t == 0.0 ==> r == a
    ensures t == 1.0 ==> r == b
  {
    Vec3(a.x + (b.x - a.x) * t, a.y + (b.y - a.y) * t, a.z + (b.z - a.z) * t)
  }

  lemma Norm2Scale(a: Vec3, s: real)
    ensures Norm2(Scale(a, s)) == s * s * Norm2(a)
  {
    assert (a.x * s) * (a.x * s) == s * s * (a.x * a.x);
    assert (a.y * s) * (a.y * s) == s * s * (a.y * a.y);
    assert (a.z * s) * (a.z * s) == s * s * (a.z * a.z);
  }

  /** The library functions the core calls on numbers: Math.sin, Math.cos,
      Math.cbrt, Math.acos, Math.sqrt (inside Vector3.length) and Math.PI. */
  datatype MathLib = MathLib(
    sin: real -> real,
    cos: real -> real,
    cbrt: real -> real,
    acos: real -> real,
    sqrt: real -> real,
    pi: real)

  /** The facts about those functions that the proofs use, and no others. */
  ghost predicate Sound(m: MathLib) {
    && (forall t :: m.sin(t) * m.sin(t) + m.cos(t) * m.cos(t) == 1.0)
    && (forall u :: 0.0 <= u < 1.0 ==> 0.0 <= m.cbrt(u) < 1.0)
    && (forall q :: 0.0 <= q ==> 0.0 <= m.sqrt(q) && m.sqrt(q) * m.sqrt(q) == q)
    && m.pi > 0.0
  }

  /** `Vector3.normalize`: divides by the length, or by 1 when the length is 0. */
  function Normalize(a: Vec3, m: MathLib): Vec3 {
    var len := m.sqrt(Norm2(a));
    if len == 0.0 then a else Scale(a, 1.0 / len)
  }

  lemma NormalizeIsUnit(a: Vec3, m: MathLib)
    requires Sound(m)
    requires Norm2(a) > 0.0
    ensures Norm2(Normalize(a, m)) == 1.0
  {
    var n := Norm2(a);
    var len := m.sqrt(n);
    assert len * len == n;
    assert len != 0.0;
    Norm2Scale(a, 1.0 / len);
    assert (1.0 / len) * (1.0 / len) * n == (n / len) / len;
  }

  /** Slots 3i, 3i+1, 3i+2 of a flat position buffer (a Float32Array with
      item size 3) hold the point p. */
  ghost predicate SlotIs(buf: array<real>, i: int, p: Vec3)
    reads buf
  {
    0 <= i && 3 * i + 2 < buf.Length
    && buf[3 * i] == p.x && buf[3 * i + 1] == p.y && buf[3 * i + 2] == p.z
  }

  /** Writes p into slot i (the three `setXYZ` components) and nothing else. */
  method WriteSlot(buf: array<real>, i: nat, p: Vec3)
    requires 3 * i + 2 < buf.Length
    modifies buf
    ensures SlotIs(buf, i, p)
    ensures forall j :: 0 <= j < buf.Length && (j < 3 * i || 3 * i + 2 < j) ==> buf[j] == old(buf[j])
  {
    buf[3 * i] := p.x;
    buf[3 * i + 1] := p.y;
    buf[3 * i + 2] := p.z;
  }

  /** The point held in slot i (`getX`, `getY`, `getZ`). */
  function SlotAt(buf: array<real>, i: nat): (p: Vec3)
    requires 3 * i + 2 < buf.Length
    reads buf
    ensures SlotIs(buf, i, p)
  {
    Vec3(buf[3 * i], buf[3 * i + 1], buf[3 * i + 2])
  }
}

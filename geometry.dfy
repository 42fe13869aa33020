/** `randomPointOnFace` (src/lib/geometry.js): a point on triangle (a, b, c)
    from two uniform draws, folding the unit square onto the triangle. */
module Geometry {
  import opened Vectors
  import opened RealArith

  /** Barycentric weights of a point with respect to (a, b, c). */
  datatype Weights = Weights(u: real, v: real, w: real)

  /** The fold: a pair of draws above the diagonal u + v = 1 is reflected
      through the centre of the square; w takes the remainder. */
  function FoldWeights(u0: real, v0: real): (r: Weights)
    ensures r.u + r.v + r.w == 1.0
    ensures 0.0 <= u0 <= 1.0 && 0.0 <= v0 <= 1.0 ==> r.u >= 0.0 && r.v >= 0.0 && r.w >= 0.0
    ensures u0 + v0 <= 1.0 ==> r.u == u0 && r.v == v0
    ensures u0 + v0 > 1.0 ==> r.u == 1.0 - u0 && r.v == 1.0 - v0
  {
    var u := if u0 + v0 > 1.0 then 1.0 - u0 else u0;
    var v := if u0 + v0 > 1.0 then 1.0 - v0 else v0;
    Weights(u, v, 1.0 - u - v)
  }

  /** Weights that are a convex combination: non-negative, summing to one. */
  predicate Convex(k: Weights) {
    k.u >= 0.0 && k.v >= 0.0 && k.w >= 0.0 && k.u + k.v + k.w == 1.0
  }

  /** One coordinate of the combination: p·u + q·v + r·w. */
  function Mix(p: real, q: real, r: real, k: Weights): real {
    p * k.u + q * k.v + r * k.w
  }

  function Combine(a: Vec3, b: Vec3, c: Vec3, k: Weights): Vec3 {
    Vec3(Mix(a.x, b.x, c.x, k), Mix(a.y, b.y, c.y, k), Mix(a.z, b.z, c.z, k))
  }

  function RandomPointOnFace(a: Vec3, b: Vec3, c: Vec3, u0: real, v0: real): Vec3 {
    Combine(a, b, c, FoldWeights(u0, v0))
  }

  function Min3(p: real, q: real, r: real): real {
    if p <= q && p <= r then p else if q <= r then q else r
  }

  function Max3(p: real, q: real, r: real): real {
    if p >= q && p >= r then p else if q >= r then q else r
  }

  /** Every coordinate of the sampled point lies between the smallest and the
      largest of the three vertices' coordinates on that axis. */
  lemma RandomPointInBounds(a: Vec3, b: Vec3, c: Vec3, u0: real, v0: real)
    requires 0.0 <= u0 <= 1.0 && 0.0 <= v0 <= 1.0
    ensures var p := RandomPointOnFace(a, b, c, u0, v0);
      && Min3(a.x, b.x, c.x) <= p.x <= Max3(a.x, b.x, c.x)
      && Min3(a.y, b.y, c.y) <= p.y <= Max3(a.y, b.y, c.y)
      && Min3(a.z, b.z, c.z) <= p.z <= Max3(a.z, b.z, c.z)
  {
    var k := FoldWeights(u0, v0);
    assert Convex(k);
    assert RandomPointOnFace(a, b, c, u0, v0) == Combine(a, b, c, k);
    CombinationBetween(a.x, b.x, c.x, k);
    CombinationBetween(a.y, b.y, c.y, k);
    CombinationBetween(a.z, b.z, c.z, k);
  }

  /** A degenerate triangle whose three corners coincide yields that corner. */
  lemma RandomPointOnPointFace(a: Vec3, u0: real, v0: real)
    ensures RandomPointOnFace(a, a, a, u0, v0) == a
  {
    var k := FoldWeights(u0, v0);
    MixOfEqual(a.x, k);
    MixOfEqual(a.y, k);
    MixOfEqual(a.z, k);
  }

  lemma CombinationBetween(p: real, q: real, r: real, k: Weights)
    requires Convex(k)
    ensures Min3(p, q, r) <= Mix(p, q, r, k) <= Max3(p, q, r)
  {
    var lo, hi := Min3(p, q, r), Max3(p, q, r);
    MulNonNeg(p - lo, k.u); MulNonNeg(q - lo, k.v); MulNonNeg(r - lo, k.w);
    MulNonNeg(hi - p, k.u); MulNonNeg(hi - q, k.v); MulNonNeg(hi - r, k.w);
    assert p * k.u + q * k.v + r * k.w - lo
        == (p - lo) * k.u + (q - lo) * k.v + (r - lo) * k.w;
    assert hi - (p * k.u + q * k.v + r * k.w)
        == (hi - p) * k.u + (hi - q) * k.v + (hi - r) * k.w;
  }

  lemma MixOfEqual(p: real, k: Weights)
    requires k.u + k.v + k.w == 1.0
    ensures Mix(p, p, p, k) == p
  {
    assert p * k.u + p * k.v + p * k.w == p * (k.u + k.v + k.w);
  }
}

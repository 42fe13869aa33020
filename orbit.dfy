/** The arithmetic of the orbit camera (src/cameraManager.js): clamping,
    the overshoot deviation, the per-frame ease back into bounds, the
    spherical orbit point and the collision pull-in. */
module Orbit {
  import opened Vectors
  import opened RealArith

  /** `Math.max(lo, Math.min(hi, x))`. */
  function Clamp(x: real, lo: real, hi: real): (r: real)
    ensures lo <= hi ==> lo <= r <= hi
    ensures lo <= x <= hi ==> r == x
    ensures x < lo ==> r == lo
    ensures lo <= hi && hi < x ==> r == hi
  {
    var below := if hi < x then hi else x;
    if lo > below then lo else below
  }

  /** The overshoot deviation of an unclamped angle: how far past the hard
      bound it lies, signed; 0 exactly when it lies within the bounds. */
  function Deviation(a: real, lo: real, hi: real): (r: real)
    ensures r == 0.0 <==> lo <= a <= hi
    ensures r < 0.0 <==> a < lo
    ensures lo <= hi ==> (r > 0.0 <==> hi < a)
  {
    if a < lo then a - lo else if a > hi then a - hi else 0.0
  }

  /** A dragged angle clamped into the band [lo - margin, hi + margin] stays
      in that band, and lands outside the hard bounds only when its deviation
      is non-zero. */
  lemma ClampIntoBand(raw: real, lo: real, hi: real, margin: real)
    requires lo <= hi && margin >= 0.0
    ensures var c := Clamp(raw, lo - margin, hi + margin);
      && lo - margin <= c <= hi + margin
      && (c < lo || hi < c ==> Deviation(raw, lo, hi) != 0.0)
  {
  }

  function Abs(x: real): real {
    if x < 0.0 then -x else x
  }

  const Decay: real := 0.15
  const SnapTolerance: real := 0.001

  /** One axis of the overshoot correction at the start of `update()`. While
      the axis's deviation is non-zero (`active`) and the angle lies outside
      its hard bounds, the angle moves the fraction 0.15 of the way to the
      nearer bound and snaps onto it once within 0.001. */
  function Ease(a: real, lo: real, hi: real, active: bool): (r: real)
    ensures !active || lo <= a <= hi ==> r == a
    ensures active && a < lo ==> a < r <= lo
    ensures active && lo <= hi && hi < a ==> hi <= r < a
    ensures active && a < lo ==> r == lo || lo - r == 0.85 * (lo - a)
    ensures active && lo <= hi && hi < a ==> r == hi || r - hi == 0.85 * (a - hi)
  {
    if !active then a
    else if a < lo then
      var next := a + (lo - a) * Decay;
      if Abs(next - lo) < SnapTolerance then lo else next
    else if a > hi then
      var next := a + (hi - a) * Decay;
      if Abs(next - hi) < SnapTolerance then hi else next
    else a
  }

  /** k frames without input: the deviation is never cleared by `update()`,
      so the correction stays active. */
  function EaseN(a: real, lo: real, hi: real, k: nat): real {
    if k == 0 then a else Ease(EaseN(a, lo, hi, k - 1), lo, hi, true)
  }

  function Pow(x: real, k: nat): real {
    if k == 0 then 1.0 else x * Pow(x, k - 1)
  }

  /** A Bernoulli-style bound on the decay: 0.85^k · (1 + 0.15·k) <= 1. */
  lemma {:induction false} DecayBound(k: nat)
    ensures 0.0 < Pow(0.85, k) <= 1.0
    ensures Pow(0.85, k) * (1.0 + 0.15 * k as real) <= 1.0
  {
    if k > 0 {
      DecayBound(k - 1);
      var p := Pow(0.85, k - 1);
      var q := 1.0 + 0.15 * (k - 1) as real;
      assert Pow(0.85, k) == 0.85 * p;
      assert Pow(0.85, k) * (1.0 + 0.15 * k as real) == 0.85 * (p * q) + 0.1275 * p;
    }
  }

  /** After k frames below the lower bound, either snapped onto it, or
      still below it by exactly 0.85^k of the initial gap, and (after at least
      one frame) by no less than the snap tolerance. */
  predicate BelowProgress(e: real, a: real, lo: real, k: nat) {
    e == lo || (e < lo && lo - e == Pow(0.85, k) * (lo - a) && (k == 0 || lo - e >= SnapTolerance))
  }

  /** Below the lower bound, with the correction active, every frame either
      snaps onto the bound or shrinks the gap by the factor 0.85. */
  lemma {:induction false} EaseBelowProgress(a: real, lo: real, hi: real, k: nat)
    requires lo <= hi && a < lo
    ensures BelowProgress(EaseN(a, lo, hi, k), a, lo, k)
  {
    if k == 0 {
      assert EaseN(a, lo, hi, k) == a && Pow(0.85, k) == 1.0;
    } else {
      EaseBelowProgress(a, lo, hi, k - 1);
      var prev := EaseN(a, lo, hi, k - 1);
      assert EaseN(a, lo, hi, k) == Ease(prev, lo, hi, true);
      EaseBelowStep(prev, a, lo, hi, k);
    }
  }

  /** One frame of `EaseBelowProgress`. */
  lemma EaseBelowStep(prev: real, a: real, lo: real, hi: real, k: nat)
    requires lo <= hi && k >= 1 && BelowProgress(prev, a, lo, k - 1)
    ensures BelowProgress(Ease(prev, lo, hi, true), a, lo, k)
  {
    var e := Ease(prev, lo, hi, true);
    if prev != lo && e != lo {
      var p, g := Pow(0.85, k - 1), lo - a;
      assert lo - e == 0.85 * (lo - prev);
      assert 0.85 * (p * g) == (0.85 * p) * g;
      assert Abs(e - lo) >= SnapTolerance;
    }
  }

  /** Convergence from below: once 0.15·k >= 1000·gap, k idle frames bring
      the angle exactly onto the lower bound. */
  lemma EaseBelowConverges(a: real, lo: real, hi: real, k: nat)
    requires lo <= hi && a < lo
    requires k >= 1 && 0.15 * k as real >= 1000.0 * (lo - a)
    ensures EaseN(a, lo, hi, k) == lo
  {
    EaseBelowProgress(a, lo, hi, k);
    var e := EaseN(a, lo, hi, k);
    if e != lo {
      DecayBound(k);
      ResidualBelowTolerance(Pow(0.85, k), lo - a, 0.15 * k as real);
      assert false;
    }
  }

  lemma ResidualBelowTolerance(p: real, g: real, K: real)
    requires p > 0.0 && p * (1.0 + K) <= 1.0 && 1000.0 * g <= K
    ensures p * g < SnapTolerance
  {
    MulMono(1000.0 * g, K, p);
    assert (1000.0 * g) * p == 1000.0 * (p * g);
    assert K * p == p * K;
    assert p * (1.0 + K) == p + p * K;
  }

  /** Easing commutes with mirroring the axis. */
  lemma EaseMirror(a: real, lo: real, hi: real, active: bool)
    requires lo <= hi
    ensures Ease(-a, -hi, -lo, active) == -Ease(a, lo, hi, active)
  {
  }

  lemma {:induction false} EaseNMirror(a: real, lo: real, hi: real, k: nat)
    requires lo <= hi
    ensures EaseN(-a, -hi, -lo, k) == -EaseN(a, lo, hi, k)
  {
    if k > 0 {
      var prev := EaseN(a, lo, hi, k - 1);
      EaseNMirror(a, lo, hi, k - 1);
      EaseMirror(prev, lo, hi, true);
    }
  }

  /** Convergence from either side: an angle left outside its hard bounds by
      a drag is back exactly on the nearer bound after any k idle frames with
      0.15·k >= 1000·gap. */
  lemma EaseConverges(a: real, lo: real, hi: real, k: nat)
    requires lo <= hi && (a < lo || hi < a)
    requires k >= 1 && 0.15 * k as real >= 1000.0 * (if a < lo then lo - a else a - hi)
    ensures EaseN(a, lo, hi, k) == if a < lo then lo else hi
  {
    if a < lo {
      EaseBelowConverges(a, lo, hi, k);
    } else {
      EaseBelowConverges(-a, -hi, -lo, k);
      EaseNMirror(a, lo, hi, k);
    }
  }

  /** The candidate camera position `lerpTarget`: spherical coordinates
      about the focus. */
  function OrbitPoint(focus: Vec3, yaw: real, pitch: real, distance: real, m: MathLib): Vec3 {
    Add(focus, OrbitOffset(yaw, pitch, distance, m))
  }

  function OrbitOffset(yaw: real, pitch: real, distance: real, m: MathLib): Vec3 {
    var cp, sp, cy, sy := m.cos(pitch), m.sin(pitch), m.cos(yaw), m.sin(yaw);
    Vec3(distance * cp * sy, distance * sp, distance * cp * cy)
  }

  /** The candidate lies at exactly `distance` from the focus. */
  lemma OrbitPointDistance(focus: Vec3, yaw: real, pitch: real, distance: real, m: MathLib)
    requires Sound(m)
    ensures Dist2(OrbitPoint(focus, yaw, pitch, distance, m), focus) == distance * distance
  {
    var off := OrbitOffset(yaw, pitch, distance, m);
    assert Sub(Add(focus, off), focus) == off;
    var cp, sp, cy, sy := m.cos(pitch), m.sin(pitch), m.cos(yaw), m.sin(yaw);
    assert sp * sp + cp * cp == 1.0;
    assert sy * sy + cy * cy == 1.0;
    OrbitAlgebra(distance, cp, sp, cy, sy);
  }

  lemma OrbitAlgebra(d: real, cp: real, sp: real, cy: real, sy: real)
    requires sp * sp + cp * cp == 1.0 && sy * sy + cy * cy == 1.0
    ensures (d * cp * sy) * (d * cp * sy) + (d * sp) * (d * sp) + (d * cp * cy) * (d * cp * cy) == d * d
  {
    calc {
      (d * cp * sy) * (d * cp * sy) + (d * sp) * (d * sp) + (d * cp * cy) * (d * cp * cy);
      (d * d) * (cp * cp) * (sy * sy + cy * cy) + (d * d) * (sp * sp);
      (d * d) * (cp * cp + sp * sp);
    }
  }

  /** Whether the nearest ray hit obstructs the view: there are collidable
      objects, at least one hit, and the nearest lies closer than
      distance - collisionRadius. */
  predicate Obstructed(hasColliders: bool, hits: seq<real>, distance: real, radius: real) {
    hasColliders && |hits| > 0 && hits[0] < distance - radius
  }

  /** `finalTarget`: the candidate, or, when obstructed, the point
      hit - radius along the unit ray from the focus towards the candidate. */
  function FinalTarget(focus: Vec3, target: Vec3, distance: real, radius: real,
                       hasColliders: bool, hits: seq<real>, m: MathLib): (r: Vec3)
    ensures !Obstructed(hasColliders, hits, distance, radius) ==> r == target
  {
    if Obstructed(hasColliders, hits, distance, radius) then
      Add(focus, Scale(Normalize(Sub(target, focus), m), hits[0] - radius))
    else target
  }

  /** Collision never clips: when obstructed, the final target lies exactly
      |hit - radius| from the focus, so with a non-negative radius and a hit
      at least that far out it is strictly nearer than `distance`. */
  lemma CollisionNeverClips(focus: Vec3, target: Vec3, distance: real, radius: real,
                            hasColliders: bool, hits: seq<real>, m: MathLib)
    requires Sound(m)
    requires Norm2(Sub(target, focus)) > 0.0
    requires Obstructed(hasColliders, hits, distance, radius)
    ensures var s := hits[0] - radius;
      Dist2(FinalTarget(focus, target, distance, radius, hasColliders, hits, m), focus) == s * s
    ensures 0.0 <= radius <= hits[0] ==>
      Dist2(FinalTarget(focus, target, distance, radius, hasColliders, hits, m), focus) < distance * distance
  {
    var s := hits[0] - radius;
    var n := Normalize(Sub(target, focus), m);
    NormalizeIsUnit(Sub(target, focus), m);
    assert Sub(Add(focus, Scale(n, s)), focus) == Scale(n, s);
    Norm2Scale(n, s);
    if 0.0 <= radius <= hits[0] {
      SquareBelow(s, distance);
    }
  }

  lemma SquareBelow(s: real, d: real)
    requires 0.0 <= s < d
    ensures s * s < d * d
  {
    assert d * d - s * s == (d - s) * (d + s);
    MulMonoStrict(0.0, d - s, d + s);
  }

  /** The per-frame smoothing `camera.position.lerp(finalTarget, 0.12)`
      leaves 0.88 of the gap: the squared distance shrinks by 0.7744. */
  lemma SmoothingShrinksGap(position: Vec3, target: Vec3)
    ensures Dist2(Lerp(position, target, 0.12), target) == 0.7744 * Dist2(position, target)
  {
    Norm2Scale(Sub(position, target), 0.88);
  }
}

/** Sign and monotonicity facts about real multiplication that the
    nonlinear steps of the proofs are reduced to. */
module RealArith {

  lemma MulNonNeg(a: real, b: real)
    requires a >= 0.0 && b >= 0.0
    ensures a * b >= 0.0
  {
  }

  lemma MulNegPos(a: real, b: real)
    requires a < 0.0 && b > 0.0
    ensures a * b < 0.0
  {
  }

  /** A share a / l of a positive whole l, with 0 <= a <= l, is a fraction
      in [0, 1]. */
  lemma FractionInUnit(a: real, l: real)
    ensures 0.0 <= a <= l && l > 0.0 ==> 0.0 <= a / l <= 1.0
  {
    if 0.0 <= a <= l && l > 0.0 {
      var f := a / l;
      assert f * l == a;
      if f < 0.0 {
        MulNegPos(f, l);
      }
      if f > 1.0 {
        MulMonoStrict(1.0, f, l);
      }
    }
  }

  lemma MulMono(a: real, b: real, c: real)
    requires a <= b && c >= 0.0
    ensures a * c <= b * c
  {
    assert b * c - a * c == (b - a) * c;
    MulNonNeg(b - a, c);
  }

  lemma MulMonoStrict(a: real, b: real, c: real)
    requires a < b && c > 0.0
    ensures a * c < b * c
  {
    assert b * c - a * c == (b - a) * c;
  }
}

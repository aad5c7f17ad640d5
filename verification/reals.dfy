/** Small facts about real arithmetic that the solver does not find on its own. */
module Reals {

  function Abs(a: real): real { if a < 0.0 then -a else a }

  function Min(a: real, b: real): real { if a <= b then a else b }

  function Max(a: real, b: real): real { if a <= b then b else a }

  lemma MulNonneg(a: real, b: real)
    requires 0.0 <= a && 0.0 <= b
    ensures 0.0 <= a * b
  {
  }

  lemma MulMonotone(a: real, b: real, c: real)
    requires 0.0 <= a && b <= c
    ensures a * b <= a * c
  {
    MulNonneg(a, c - b);
    assert a * c - a * b == a * (c - b);
  }

  /** A factor in the unit interval does not enlarge a non-negative value. */
  lemma MulUnitBelow(a: real, w: real)
    requires 0.0 <= a && 0.0 <= w <= 1.0
    ensures 0.0 <= a * w <= a
  {
    MulNonneg(a, w);
    MulMonotone(a, w, 1.0);
  }

  /** A non-negative difference `y - x` puts `x` below `y`. */
  lemma NonnegDifference(x: real, y: real, d: real)
    requires y - x == d && 0.0 <= d
    ensures x <= y
  {
  }

  /** The product of two values in the unit interval is at most either of them. */
  lemma UnitProductBelow(a: real, b: real)
    requires 0.0 <= a <= 1.0 && 0.0 <= b <= 1.0
    ensures a * b <= a && a * b <= b
  {
    assert a - a * b == a * (1.0 - b);
    assert b - a * b == b * (1.0 - a);
  }

  /** Going a fraction `w` of a non-negative `span` from `a` stays within `[a, a + span]`. */
  lemma PartialStep(r: real, a: real, span: real, w: real)
    requires 0.0 <= span && 0.0 <= w <= 1.0
    requires r == a + span * w
    ensures a <= r <= a + span
  {
    MulUnitBelow(span, w);
  }

  /** A factor in [-1, 1] does not enlarge the magnitude of any value. */
  lemma MulUnitAbs(m: real, n: real)
    requires -1.0 <= n <= 1.0
    ensures Abs(m * n) <= Abs(m)
  {
    var am, an := Abs(m), Abs(n);
    assert Abs(m * n) == am * an by {
      if m < 0.0 && n < 0.0 { assert m * n == (-m) * (-n); }
      else if m < 0.0 { assert m * n == -((-m) * n); }
      else if n < 0.0 { assert m * n == -(m * (-n)); }
      MulNonneg(am, an);
    }
    MulUnitBelow(am, an);
  }

  /** Going a fraction `w` in [-1, 1] of a non-negative `span` from `a` stays within
      `[a - span, a + span]`. */
  lemma SignedStep(r: real, a: real, span: real, w: real)
    requires 0.0 <= span && -1.0 <= w <= 1.0
    requires r == a + span * w
    ensures a - span <= r <= a + span
  {
    MulUnitAbs(span, w);
  }

  lemma MulNonposNonneg(a: real, b: real)
    requires a <= 0.0 <= b
    ensures a * b <= 0.0
  {
  }

  /** Scaling by a factor in the unit interval keeps the sign and does not enlarge the magnitude. */
  lemma MulUnitKeepsSign(l: real, c: real)
    requires 0.0 <= c <= 1.0
    ensures 0.0 <= l ==> 0.0 <= l * c <= l
    ensures l <= 0.0 ==> l <= l * c <= 0.0
  {
    MulUnitAbs(l, c);
    if 0.0 <= l {
      MulNonneg(l, c);
    } else {
      MulNonposNonneg(l, c);
    }
  }

  /** Taking reciprocals reverses the order of positive values. */
  lemma ReciprocalAntitone(a: real, b: real)
    requires 0.0 < a <= b
    ensures 0.0 < 1.0 / b <= 1.0 / a
  {
    var ia, ib := 1.0 / a, 1.0 / b;
    assert ia * a == 1.0 && ib * b == 1.0;
    if ib <= 0.0 {
      MulNonposNonneg(ib, b);
      assert false;
    }
    if ia <= 0.0 {
      MulNonposNonneg(ia, a);
      assert false;
    }
    MulMonotone(ib, a, b);
    MulMonotone(ia, ib * a, 1.0);
    assert ia * (ib * a) == ib;
  }
}

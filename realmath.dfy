/** Real-number stand-ins for the platform math the ring-pose pipeline calls.
    The pipeline uses kotlin.math.sqrt, cos and sin; here they are values of an
    arrow type, and `Valid` states the only facts about them the proofs rely on. */
module RealMath {

  /** The square root, and the cosine and sine of an angle given in degrees. */
  datatype Math = Math(sqrt: real -> real, cosDeg: real -> real, sinDeg: real -> real)
  {
    /** sqrt of zero is zero, and sqrt of a positive number is the positive
        number whose square it is */
    ghost predicate SqrtSound() {
      sqrt(0.0) == 0.0 &&
      forall t :: 0.0 < t ==> 0.0 < sqrt(t) && sqrt(t) * sqrt(t) == t
    }

    /** cosine and sine of one angle lie on the unit circle */
    ghost predicate TrigSound() {
      forall d :: cosDeg(d) * cosDeg(d) + sinDeg(d) * sinDeg(d) == 1.0
    }

    ghost predicate Valid() {
      SqrtSound() && TrigSound()
    }
  }

  lemma PositiveSquare(r: real)
    requires r != 0.0
    ensures r * r > 0.0
  {
    if r > 0.0 {
      assert r * r > r * 0.0;
    } else {
      assert r * r > r * 0.0;
    }
  }

  lemma SquareNonnegative(r: real)
    ensures r * r >= 0.0
  {
  }

  lemma PositiveProduct(k: real, j: real)
    requires k > 0.0 && j > 0.0
    ensures k * j > 0.0
  {
  }

  lemma NonnegativeProduct(j: real, k: real)
    requires j >= 0.0 && k >= 0.0
    ensures j * k >= 0.0
  {
  }

  lemma SqrtOfOne(m: Math)
    requires m.SqrtSound()
    ensures m.sqrt(1.0) == 1.0
  {
    var r := m.sqrt(1.0);
    assert 0.0 < r && r * r == 1.0;
    if r > 1.0 {
      SquareAboveOne(r);
      assert false;
    } else if r < 1.0 {
      SquareBelowOne(r);
      assert false;
    }
  }

  lemma SquareBelowOne(r: real)
    requires 0.0 <= r < 1.0
    ensures r * r < 1.0
  {
    assert r * r <= r * 1.0;
  }

  lemma SquareAboveOne(r: real)
    requires r > 1.0
    ensures r * r > 1.0
  {
    assert r * r > r * 1.0;
  }
}

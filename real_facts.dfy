/** Order facts about multiplication and division of reals that the solver does not find unaided. */
module RealFacts {

  /** Multiplying by a positive factor keeps a strict order. */
  lemma MulStrict(a: real, b: real, c: real)
    requires c > 0.0 && a < b
    ensures a * c < b * c && c * a < c * b
  {
    assert b * c - a * c == (b - a) * c;
  }

  /** Multiplying by a non-negative factor keeps a weak order. */
  lemma MulWeak(a: real, b: real, c: real)
    requires c >= 0.0 && a <= b
    ensures a * c <= b * c
  {
  }

  /** Dividing by a positive divisor keeps a weak order. */
  lemma DivWeak(a: real, b: real, d: real)
    requires d > 0.0 && a <= b
    ensures a / d <= b / d
  {
  }
}

/** The easing curve both assembly hooks use for their fill ramps. */
module Easing {
  import opened Numbers

  /** easeOutQuad */
  function EaseOutQuad(t: real): real
  {
    t * (2.0 - t)
  }

  /** The curve fixes both ends of [0, 1]. */
  lemma EaseOutQuadEnds()
    ensures EaseOutQuad(0.0) == 0.0 && EaseOutQuad(1.0) == 1.0
  {
  }

  /** On [0, 1] the curve stays in [0, 1] and never falls below the identity. */
  lemma EaseOutQuadInUnit(t: real)
    requires 0.0 <= t <= 1.0
    ensures 0.0 <= EaseOutQuad(t)
    ensures EaseOutQuad(t) <= 1.0
    ensures t <= EaseOutQuad(t)
  {
    ProductNonNegative(t, 2.0 - t);
    ProductNonNegative(1.0 - t, 1.0 - t);
    ProductNonNegative(t, 1.0 - t);
    assert 1.0 - EaseOutQuad(t) == (1.0 - t) * (1.0 - t);
    assert EaseOutQuad(t) - t == t * (1.0 - t);
  }

  /** On [0, 1] the curve is monotone: a later frame never shows less progress. */
  lemma EaseOutQuadMonotone(s: real, t: real)
    requires 0.0 <= s <= t <= 1.0
    ensures EaseOutQuad(s) <= EaseOutQuad(t)
  {
    ProductNonNegative(t - s, 2.0 - s - t);
    assert EaseOutQuad(t) - EaseOutQuad(s) == (t - s) * (2.0 - s - t);
  }
}

/** easeInOutQuad (script.js:521-523); the controller never calls it. */
module Easing {
  import opened RealArith

  /** Quadratic ease-in up to t = 0.5, quadratic ease-out after. */
  function EaseInOutQuad(t: real): (e: real)
    ensures t == 0.0 ==> e == 0.0
    ensures t == 0.5 ==> e == 0.5
    ensures t == 1.0 ==> e == 1.0
  {
    if t < 0.5 then 2.0 * t * t else -1.0 + (4.0 - 2.0 * t) * t
  }

  /** The curve is point-symmetric about (0.5, 0.5). */
  lemma EaseSymmetric(t: real)
    ensures EaseInOutQuad(1.0 - t) == 1.0 - EaseInOutQuad(t)
  {
    if t < 0.5 {
      assert 1.0 - t > 0.5;
      calc {
        EaseInOutQuad(1.0 - t);
        -1.0 + (4.0 - 2.0 * (1.0 - t)) * (1.0 - t);
        -1.0 + (2.0 + 2.0 * t) * (1.0 - t);
        1.0 - 2.0 * t * t;
      }
    } else if t > 0.5 {
      calc {
        EaseInOutQuad(1.0 - t);
        2.0 * (1.0 - t) * (1.0 - t);
        1.0 - (-1.0 + (4.0 - 2.0 * t) * t);
      }
    }
  }

  /** On [0, 1] the curve rises monotonically and stays in [0, 1]. */
  lemma EaseMonotone(s: real, t: real)
    requires 0.0 <= s <= t <= 1.0
    ensures 0.0 <= EaseInOutQuad(s) <= EaseInOutQuad(t) <= 1.0
  {
    ProductNonneg(s, s);
    ProductNonneg(1.0 - t, 1.0 - t);
    assert 1.0 - (-1.0 + (4.0 - 2.0 * t) * t) == 2.0 * ((1.0 - t) * (1.0 - t));
    if t < 0.5 {
      ProductNonneg(t - s, t + s);
      assert t * t - s * s == (t - s) * (t + s);
      ProductNonneg(0.5 - t, 0.5 + t);
      assert 0.25 - t * t == (0.5 - t) * (0.5 + t);
    } else if s >= 0.5 {
      ProductNonneg(t - s, 4.0 - 2.0 * (s + t));
      ProductNonneg(s - 0.5, 1.5 - s);
      assert (-1.0 + (4.0 - 2.0 * s) * s) - 0.5 == 2.0 * ((s - 0.5) * (1.5 - s));
      assert (-1.0 + (4.0 - 2.0 * t) * t) - (-1.0 + (4.0 - 2.0 * s) * s) == (t - s) * (4.0 - 2.0 * (s + t));
    } else {
      ProductNonneg(0.5 - s, 0.5 + s);
      assert 0.25 - s * s == (0.5 - s) * (0.5 + s);
      ProductNonneg(t - 0.5, 1.5 - t);
      assert (-1.0 + (4.0 - 2.0 * t) * t) - 0.5 == 2.0 * ((t - 0.5) * (1.5 - t));
    }
  }
}

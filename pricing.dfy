/** Prices in currency units, rounded to whole cents. */
module Pricing {

  /** True when `x` is a whole number of cents. */
  predicate IsCents(x: real)
  {
    (x * 100.0).Floor as real == x * 100.0
  }

  /** `round(x, 2)`: the nearest whole number of cents, halves rounded up. */
  function RoundCents(x: real): (r: real)
    ensures IsCents(r)
    ensures r - 0.005 <= x < r + 0.005
  {
    var k := (x * 100.0 + 0.5).Floor;
    assert (k as real / 100.0) * 100.0 == k as real;
    k as real / 100.0
  }

  /** Rounding leaves a value that is already in whole cents unchanged. */
  lemma RoundCentsOfCents(x: real)
    requires IsCents(x)
    ensures RoundCents(x) == x
  {
    var k := (x * 100.0).Floor;
    assert x * 100.0 + 0.5 == k as real + 0.5;
    assert (x * 100.0 + 0.5).Floor == k;
  }

  /** Rounding never reverses the order of two amounts. */
  lemma RoundCentsMonotone(x: real, y: real)
    requires x <= y
    ensures RoundCents(x) <= RoundCents(y)
  {
    assert (x * 100.0 + 0.5).Floor <= (y * 100.0 + 0.5).Floor;
  }

  /**
   * The limit price an action scalar `v` asks for: a move of `10 * v` percent
   * off the previous close, rounded to cents.
   */
  function LimitPrice(preClose: real, v: real): (price: real)
    ensures IsCents(price)
  {
    RoundCents(preClose * (1.0 + v * 0.1))
  }

  /** The limit price is within half a cent of the exact `preClose * (1 + v / 10)`. */
  lemma LimitPriceNear(preClose: real, v: real)
    ensures var price := LimitPrice(preClose, v);
            price - 0.005 <= preClose * (1.0 + 0.1 * v) < price + 0.005
  {
    assert preClose * (1.0 + 0.1 * v) == preClose * (1.0 + v * 0.1);
  }

  /** A zero scalar asks for the previous close itself, when that is in whole cents. */
  lemma LimitPriceNoMove(preClose: real)
    requires IsCents(preClose)
    ensures LimitPrice(preClose, 0.0) == preClose
  {
    assert preClose * (1.0 + 0.0 * 0.1) == preClose;
    RoundCentsOfCents(preClose);
  }

  /** For a non-negative previous close, a larger scalar never asks for a lower price. */
  lemma LimitPriceMonotone(preClose: real, v: real, w: real)
    requires preClose >= 0.0
    requires v <= w
    ensures LimitPrice(preClose, v) <= LimitPrice(preClose, w)
  {
    var d := w - v;
    assert d >= 0.0;
    assert preClose * d >= 0.0;
    assert preClose * (1.0 + w * 0.1) == preClose * (1.0 + v * 0.1) + preClose * d * 0.1;
    assert preClose * (1.0 + v * 0.1) <= preClose * (1.0 + w * 0.1);
    RoundCentsMonotone(preClose * (1.0 + v * 0.1), preClose * (1.0 + w * 0.1));
  }
}

/** Money amounts and `Math.round(x * 100) / 100`, computed on exact reals. */
module Money {

  /** A whole number of cents. */
  predicate IsCents(x: real) {
    (x * 100.0).Floor as real == x * 100.0
  }

  /** Rounding to cents, half a cent rounding up, as `Math.round` does. */
  function Round2(x: real): real {
    (x * 100.0 + 0.5).Floor as real / 100.0
  }

  /** The rounded amount is a whole number of cents within half a cent of `x`. */
  lemma Round2Spec(x: real)
    ensures IsCents(Round2(x))
    ensures x - 0.005 < Round2(x) <= x + 0.005
  {
    var cents := (x * 100.0 + 0.5).Floor;
    assert (cents as real / 100.0) * 100.0 == cents as real;
  }

  /** An amount already in whole cents is left as it is. */
  lemma Round2OfCents(x: real)
    requires IsCents(x)
    ensures Round2(x) == x
  {
    var k := (x * 100.0).Floor;
    assert (x * 100.0 + 0.5).Floor == k;
  }

  /** Rounding never reverses the order of two amounts. */
  lemma Round2Monotone(x: real, y: real)
    requires x <= y
    ensures Round2(x) <= Round2(y)
  {
    assert (x * 100.0 + 0.5).Floor <= (y * 100.0 + 0.5).Floor;
  }
}

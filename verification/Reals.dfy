/** Division on reals, spelled out where the solver needs it. */
module Reals {
  lemma Cancel(a: real, b: real, d: real)
    requires d != 0.0 && a * d == b * d
    ensures a == b
  {
    assert a == (a * d) / d && b == (b * d) / d;
  }

  lemma QuotientIs(a: real, d: real, q: real)
    requires d != 0.0 && q * d == a
    ensures a / d == q
  {
    assert (a / d) * d == a;
    Cancel(a / d, q, d);
  }

  lemma QuotientOrder(a: real, b: real, d: real)
    requires d > 0.0 && a <= b
    ensures a / d <= b / d
  {
    assert (b - a) / d >= 0.0;
    assert b / d - a / d == (b - a) / d;
  }

  lemma Complement(all: real, part: real)
    requires all != 0.0
    ensures 1.0 - part / all == (all - part) / all
  {
    var q := part / all;
    assert q * all == part;
    assert (1.0 - q) * all == all - part;
    QuotientIs(all - part, all, 1.0 - q);
  }

  /** Conversion of a product, which the solver does not see through. */
  lemma {:induction false} ProductAsReal(a: nat, b: nat)
    ensures (a * b) as real == a as real * b as real
  {
    if b > 0 {
      ProductAsReal(a, b - 1);
      assert a * b == a * (b - 1) + a;
      var x, y := a as real, (b - 1) as real;
      assert b as real == y + 1.0;
      assert x * (y + 1.0) == x * y + x;
    }
  }

  lemma QuotientSign(a: real, d: real)
    requires d > 0.0
    ensures a / d > 0.0 <==> a > 0.0
  {
    var q := a / d;
    assert q * d == a;
    if q > 0.0 { assert q * d > 0.0; } else { assert q * d <= 0.0; }
  }
}

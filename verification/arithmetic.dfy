/** Facts about products and quotients, stated once so that no proof about money has to search for them. */
module Arithmetic {
  lemma QuotientBounds(a: int, b: int)
    requires 0 < b
    ensures b * (a / b) <= a < b * (a / b) + b
    ensures 0 <= a ==> 0 <= a / b
  {
  }

  lemma MulKeepsOrder(a: int, b: int, c: int)
    requires a <= b && 0 <= c
    ensures a * c <= b * c && c * a <= c * b
  {
  }

  /** A quotient is the greatest factor whose product still fits. */
  lemma QuotientIsGreatest(a: int, b: int, q: int)
    requires 0 < b
    ensures q <= a / b <==> q * b <= a
  {
    QuotientBounds(a, b);
    if q <= a / b {
      MulKeepsOrder(q, a / b, b);
    } else {
      MulKeepsOrder(a / b + 1, q, b);
    }
  }

  lemma MultipleHasNoRemainder(a: int, b: int)
    requires 0 < b
    ensures (a * b) % b == 0
  {
    var m := a * b;
    QuotientIsGreatest(m, b, a);
    QuotientIsGreatest(m, b, a + 1);
    assert m / b == a;
  }

  lemma MultiplesAreSpaced(a: int, b: int, step: nat)
    requires 0 < step && a % step == 0 && b % step == 0 && a < b + step
    ensures a <= b
  {
    assert a == (a / step) * step && b == (b / step) * step;
    QuotientIsGreatest(b, step, a / step);
    if b / step < a / step {
      MulKeepsOrder(b / step + 1, a / step, step);
      assert false;
    }
  }
}

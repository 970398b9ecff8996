/** Facts of real arithmetic that involve a product or a quotient of variables. */
module Arithmetic {
  lemma TimesMonotone(x: real, y: real, w: real)
    requires x <= y && w >= 0.0
    ensures x * w <= y * w
    ensures w * x <= w * y
  {}

  lemma TimesStrict(x: real, y: real, w: real)
    requires x < y && w > 0.0
    ensures x * w < y * w
    ensures w * x < w * y
  {}

  lemma TimesCommutes(x: real, y: real)
    ensures x * y == y * x
  {}

  lemma TimesPositive(x: real, y: real)
    requires (x > 0.0 && y > 0.0) || (x < 0.0 && y < 0.0)
    ensures x * y > 0.0
  {}

  lemma Distribute(x: real, y: real, w: real)
    ensures (x + y) * w == x * w + y * w
    ensures w * (x + y) == w * x + w * y
  {}

  lemma DivTimes(x: real, w: real)
    requires w > 0.0
    ensures x / w * w == x
  {}

  lemma DivPositive(x: real, w: real)
    requires w > 0.0 && x > 0.0
    ensures x / w > 0.0
  {}

  lemma DivNonNegative(x: real, w: real)
    requires w > 0.0 && x >= 0.0
    ensures x / w >= 0.0
  {}

  lemma DivSelf(x: real)
    requires x > 0.0
    ensures x / x == 1.0
  {}

  lemma AddQuotients(x: real, y: real, w: real)
    requires w > 0.0
    ensures x / w + y / w == (x + y) / w
  {}

  lemma TimesAssociates(x: real, y: real, z: real)
    ensures (x * y) * z == x * (y * z)
  {}

  lemma DivOfTimes(x: real, w: real)
    requires w > 0.0
    ensures (x * w) / w == x
  {}

  lemma DivFraction(x: real, n: real)
    requires n > 0.0
    ensures 1.0 / n > 0.0 && x / (1.0 / n) == x * n
  {
    var d := 1.0 / n;
    DivPositive(1.0, n);
    DivTimes(1.0, n);
    TimesCommutes(n, d);
    TimesAssociates(x, n, d);
    DivOfTimes(x * n, d);
  }

  lemma ShareOfOne(n: real)
    requires n >= 1.0
    ensures 0.0 < 1.0 / n <= 1.0
  {}
}

/** The few facts about products and quotients that the proofs lean on. */
module Arith {

  lemma DivIs(a: int, b: int, q: int, r: int)
    requires b > 0 && a == q * b + r && 0 <= r < b
    ensures a / b == q && a % b == r
  {
    var d := a / b - q;
    assert d * b == (a / b) * b - q * b == r - a % b;
    if d != 0 { Magnitude(d, b); }
  }

  lemma Magnitude(d: int, b: int)
    requires b > 0 && d != 0
    ensures d * b >= b || d * b <= -b
  {
  }

  lemma Grows(a: int, b: int, k: int)
    requires a <= b && k >= 0
    ensures a * k <= b * k
  {
  }

  lemma Quotient(a: int, b: int)
    requires b > 0
    ensures a == (a / b) * b + a % b && 0 <= a % b < b
  {
  }

  /** A positive number divided by a positive one does not grow. */
  lemma QuotientFits(a: int, b: int)
    requires a >= 0 && b >= 1
    ensures 0 <= a / b <= a
  {
    var q := a / b;
    Quotient(a, b);
    if q < 0 { Grows(q, -1, b); }
    assert q * b == q + q * (b - 1);
    if q > 0 { Grows(0, q, b - 1); }
  }
}

/** Small facts about real multiplication and division that the solver does not find on its own. */
module Arith {
  lemma MulLe(a: real, b: real, c: real)
    requires a <= b && 0.0 <= c
    ensures a * c <= b * c
  {}
  lemma MulLt(a: real, b: real, c: real)
    requires a < b && 0.0 < c
    ensures a * c < b * c
  {}
  lemma MulNonNeg(a: real, b: real)
    requires 0.0 <= a && 0.0 <= b
    ensures 0.0 <= a * b
  {}
  /** A fraction in [0, 1] of a non-negative quantity lies between 0 and that quantity. */
  lemma FractionOf(t: real, c: real)
    requires 0.0 <= t <= 1.0 && 0.0 <= c
    ensures 0.0 <= t * c <= c
  {
    MulLe(t, 1.0, c);
  }
  lemma FractionOfNeg(t: real, c: real)
    requires 0.0 <= t <= 1.0 && c <= 0.0
    ensures c <= t * c <= 0.0
  {
    FractionOf(t, -c);
    assert t * (-c) == -(t * c);
  }
  lemma SquareNonNeg(v: real)
    ensures 0.0 <= v * v
  {
    if v < 0.0 { MulNonNeg(-v, -v); assert (-v) * (-v) == v * v; }
  }
  lemma SquarePos(v: real)
    requires v != 0.0
    ensures 0.0 < v * v
  {
    if v > 0.0 { MulLt(0.0, v, v); } else { MulLt(0.0, -v, -v); assert (-v) * (-v) == v * v; }
  }

  lemma SquareLt(s: real, l: real)
    requires 0.0 <= s < l
    ensures s * s < l * l
  {
    var ss, sl, ll := s * s, s * l, l * l;
    assert ss <= sl;
    assert sl < ll;
  }
  lemma SquareLe(s: real, l: real)
    requires 0.0 <= s <= l
    ensures s * s <= l * l
  {
    var ss, ls, ll := s * s, l * s, l * l;
    MulLe(s, l, s);
    MulLe(s, l, l);
    assert ss <= ls;
    assert ls == s * l;
    assert ls <= ll;
  }
  lemma DivSign(a: real, b: real)
    requires 0.0 < b
    ensures 0.0 < a ==> 0.0 < a / b
    ensures 0.0 <= a ==> 0.0 <= a / b
    ensures a == 0.0 ==> a / b == 0.0
    ensures a < 0.0 ==> a / b < 0.0
  {
    var q := a / b;
    assert q * b == a;
    if q < 0.0 { MulLt(q, 0.0, b); }
    if q == 0.0 { assert q * b == 0.0; }
    if q > 0.0 { MulLt(0.0, q, b); }
  }
  lemma DivUnit(a: real, b: real)
    requires 0.0 <= a <= b && 0.0 < b
    ensures 0.0 <= a / b <= 1.0
  {
    var q := a / b;
    assert q * b == a;
    if q < 0.0 { MulLt(q, 0.0, b); }
    if q > 1.0 { MulLt(1.0, q, b); }
  }

  /** Squaring distributes over a product whose value is known. */
  lemma SquareOfScaled(a: real, s: real, v: real)
    requires a * s == v
    ensures (a * a) * (s * s) == v * v
  {
    assert (a * a) * (s * s) == (a * s) * (a * s);
  }

  /** Scaling both components of a vector by k scales its squared length by k * k. */
  lemma SumSquaresScaled(x: real, y: real, k: real)
    ensures (x * k) * (x * k) + (y * k) * (y * k) == (k * k) * (x * x + y * y)
  {}

  /** Adding `c` to k - 1 copies of it gives k copies. */
  lemma NextMultiple(k: nat, c: real)
    requires k >= 1
    ensures (k - 1) as real * c + c == k as real * c
  {}

  /** Linear interpolation with t in [0, 1] stays on the segment between its two ends. */
  lemma LerpWithin(x: real, y: real, t: real)
    requires 0.0 <= t <= 1.0
    ensures (x <= x + (y - x) * t <= y) || (y <= x + (y - x) * t <= x)
  {
    var d := y - x;
    var m := t * d;
    assert (y - x) * t == m;
    if d >= 0.0 {
      FractionOf(t, d);
      assert x <= x + m <= y;
    } else {
      FractionOfNeg(t, d);
      assert y <= x + m <= x;
    }
  }
}

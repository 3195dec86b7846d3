/** Numeric and optional-value helpers shared by the three scorers.
    They stand for JavaScript's `Math.min`, `Math.max`, `Math.abs`,
    `Math.round` and for `||`-defaulting of a possibly missing value. */
module Prelude {

  datatype Option<+T> = None | Some(value: T)

  function Min(a: real, b: real): (r: real)
    ensures r <= a && r <= b && (r == a || r == b)

  {
    if a <= b then a else b
  }

  function Max(a: real, b: real): (r: real)
    ensures r >= a && r >= b && (r == a || r == b)

  {
    if a >= b then a else b
  }

  /** `Math.min` and `Math.max` on integral values. */
  function MinInt(a: int, b: int): (r: int)
    ensures r <= a && r <= b && (r == a || r == b)
  {
    if a <= b then a else b
  }

  function MaxInt(a: int, b: int): (r: int)
    ensures r >= a && r >= b && (r == a || r == b)
  {
    if a >= b then a else b
  }

  function Abs(x: real): (r: real)
    ensures r >= 0.0
    ensures r == x || r == -x
  {
    if x < 0.0 then -x else x
  }

  /** `Math.round`: the nearest integer, halves rounded towards +infinity. */
  function Round(x: real): (r: int)
    ensures x - 0.5 < r as real <= x + 0.5
  {
    (x + 0.5).Floor
  }

  /** Rounding is monotone, so bounds on a real carry over to its rounding. */
  lemma RoundMonotone(x: real, y: real)
    requires x <= y
    ensures Round(x) <= Round(y)
  {
  }

  lemma RoundOfInt(n: int)
    ensures Round(n as real) == n
  {
  }

  /** Where a quotient by a positive divisor lies relative to 0 and 1. */
  lemma QuotientBounds(a: real, d: real)
    requires d > 0.0
    ensures a >= d ==> a / d >= 1.0
    ensures a <= 0.0 ==> a / d <= 0.0
    ensures a >= 0.0 ==> a / d >= 0.0
  {
    var q := a / d;
    assert q * d == a;
    assert (q - 1.0) * d == a - d;
  }

  /** A product with a positive factor has the sign of the other factor. */
  lemma ProductSign(x: real, n: real)
    requires n > 0.0 && x * n >= 0.0
    ensures x >= 0.0
  {
  }

  /** Multiplying by a positive factor keeps the sign. */
  lemma MulSign(x: real, d: real)
    requires d > 0.0
    ensures x > 0.0 <==> x * d > 0.0
    ensures x >= 0.0 <==> x * d >= 0.0
  {
  }

  lemma MulNonNeg(x: real, y: real)
    requires x >= 0.0 && y >= 0.0
    ensures x * y >= 0.0
  {
  }

  /** Multiplying a non-negative value by a factor between 1 and `hi` keeps
      it between itself and its multiple by `hi`; by exactly 1 leaves it
      alone, and by more than 1 raises a positive value. */
  lemma MulBetween(a: real, b: real, hi: real)
    requires a >= 0.0 && 1.0 <= b <= hi
    ensures a <= a * b <= a * hi
    ensures b == 1.0 ==> a * b == a
    ensures b == hi ==> a * b == a * hi
    ensures a > 0.0 && b > 1.0 ==> a * b > a
  {
    MulNonNeg(a, b - 1.0);
    assert a * (b - 1.0) == a * b - a;
    MulNonNeg(a, hi - b);
    assert a * (hi - b) == a * hi - a * b;
  }

  /** Comparing a quotient by a positive divisor is comparing the dividend
      with the scaled bound. */
  lemma DivCompare(a: real, d: real, b: real)
    requires d > 0.0
    ensures a / d > b <==> a > b * d
    ensures a / d >= b <==> a >= b * d
    ensures a / d <= b <==> a <= b * d
  {
    var q := a / d;
    assert q * d == a;
    assert (q - b) * d == a - b * d;
    MulSign(q - b, d);
    assert (b - q) * d == b * d - a;
    MulSign(b - q, d);
  }

  /** Division by a positive divisor is monotone in the dividend. */
  lemma DivMonotone(a: real, b: real, d: real)
    requires d > 0.0 && a <= b
    ensures a / d <= b / d
  {
    var p := a / d;
    assert p * d == a;
    DivCompare(b, d, p);
  }

  /** Bounds on two non-negative factors bound their product. */
  lemma MulBounds(a: real, b: real, la: real, ha: real, lb: real, hb: real)
    requires 0.0 <= la <= a <= ha && 0.0 <= lb <= b <= hb
    ensures la * lb <= a * b <= ha * hb
  {
    MulNonNeg(a - la, b);
    MulNonNeg(la, b - lb);
    assert a * b - la * lb == (a - la) * b + la * (b - lb);
    MulNonNeg(ha - a, hb);
    MulNonNeg(a, hb - b);
    assert ha * hb - a * b == (ha - a) * hb + a * (hb - b);
  }

  /** Sum of a sequence of reals, folded from the back so that a loop
      that appends one element extends it by one step. */
  function Sum(s: seq<real>): real
  {
    if s == [] then 0.0 else Sum(s[..|s| - 1]) + s[|s| - 1]
  }

  /** A sum of positive values is positive as soon as there is one. */
  lemma {:induction false} SumPositive(s: seq<real>)
    requires forall i :: 0 <= i < |s| ==> s[i] > 0.0
    ensures s == [] ==> Sum(s) == 0.0
    ensures s != [] ==> Sum(s) > 0.0
    decreases |s|
  {
    if s != [] {
      SumPositive(s[..|s| - 1]);
    }
  }

  /** The mean of a non-empty sequence lies between its smallest and its
      largest element. */
  lemma {:induction false} SumBounds(s: seq<real>, lo: real, hi: real)
    requires forall i :: 0 <= i < |s| ==> lo <= s[i] <= hi
    ensures |s| as real * lo <= Sum(s) <= |s| as real * hi
    decreases |s|
  {
    if s != [] {
      SumBounds(s[..|s| - 1], lo, hi);
    }
  }
}

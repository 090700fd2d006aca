/** Real-number helpers shared by the Adam step and the driver: powers, absolute
    value, the square-root contract, and element-wise vector operations.
    Numbers are mathematical reals, not IEEE doubles. */
module RealMath {

  function Abs(x: real): (r: real)
    ensures r >= 0.0 && (r == x || r == -x)
  {
    if x >= 0.0 then x else -x
  }

  /** b^n by repeated multiplication; the ensures give the bounds that make the
      bias-correction denominators 1 - b^(n+1) positive. */
  function Pow(b: real, n: nat): (r: real)
    ensures 0.0 <= b <= 1.0 ==> 0.0 <= r <= 1.0
    ensures 0.0 <= b < 1.0 && n >= 1 ==> r < 1.0
  {
    if n == 0 then 1.0
    else
      var p := Pow(b, n - 1);
      assert 0.0 <= b <= 1.0 ==> b * p <= b;
      b * p
  }

  /** What the model relies on of numpy's square root: on non-negative
      arguments it returns the non-negative root. */
  ghost predicate IsSqrt(sqrt: real -> real)
  {
    forall x :: x >= 0.0 ==> sqrt(x) >= 0.0 && sqrt(x) * sqrt(x) == x
  }

  /** The square root of a square is the absolute value. */
  lemma SqrtOfSquare(sqrt: real -> real, x: real)
    requires IsSqrt(sqrt)
    ensures sqrt(x * x) == Abs(x)
  {
    var s := sqrt(x * x);
    var ax := Abs(x);
    assert s >= 0.0 && s * s == x * x;
    assert ax * ax == x * x;
    var d := s - ax;
    var e := s + ax;
    assert d * e == s * s - ax * ax;
    assert d * e == 0.0;
  }

  /** x lies between a and b, whichever is smaller. */
  predicate Between(x: real, a: real, b: real)
  {
    (a <= b ==> a <= x <= b) && (b <= a ==> b <= x <= a)
  }

  /** w * a + (1 - w) * b for a weight w in [0, 1] lies between a and b. */
  lemma WeightedMean(a: real, b: real, w: real, m: real)
    requires 0.0 <= w <= 1.0 && m == w * a + (1.0 - w) * b
    ensures Between(m, a, b)
  {
    assert m - b == w * (a - b);
    assert m - a == (1.0 - w) * (b - a);
    if a <= b {
      ProductNonNegative(w, b - a);
      ProductNonNegative(1.0 - w, b - a);
    } else {
      ProductNonNegative(w, a - b);
      ProductNonNegative(1.0 - w, a - b);
    }
  }

  lemma ProductNonNegative(a: real, b: real)
    requires a >= 0.0 && b >= 0.0
    ensures a * b >= 0.0
  {
  }

  predicate NonNegative(s: seq<real>)
  {
    forall k :: 0 <= k < |s| ==> s[k] >= 0.0
  }

  /** np.zeros(n) */
  function Zeros(n: nat): (z: seq<real>)
    ensures |z| == n && NonNegative(z)
    ensures forall k :: 0 <= k < n ==> z[k] == 0.0
  {
    seq(n, k => 0.0)
  }

  /** c * s, element-wise */
  function Scale(c: real, s: seq<real>): (r: seq<real>)
    ensures |r| == |s|
  {
    seq(|s|, k requires 0 <= k < |s| => c * s[k])
  }

  /** np.square(s) */
  function Squares(s: seq<real>): (r: seq<real>)
    ensures |r| == |s| && NonNegative(r)
    ensures forall k :: 0 <= k < |s| ==> r[k] == s[k] * s[k]
  {
    seq(|s|, k requires 0 <= k < |s| => s[k] * s[k])
  }

  /** Scaling by zero gives the zero vector of the same length. */
  lemma ScaleByZero(s: seq<real>)
    ensures Scale(0.0, s) == Zeros(|s|)
  {
    assert forall k :: 0 <= k < |s| ==> Scale(0.0, s)[k] == Zeros(|s|)[k];
  }

  /** A positive multiple c * s of some s in (-1, 1) lies in (-c, c) and has
      the sign of s, and so of any g with the sign of s. */
  lemma ScaledStep(c: real, s: real, g: real, d: real)
    requires c > 0.0 && -1.0 < s < 1.0 && (g > 0.0 <==> s > 0.0) && (g < 0.0 <==> s < 0.0)
    requires d == c * s
    ensures -c < d < c && (g > 0.0 <==> d > 0.0) && (g < 0.0 <==> d < 0.0)
  {
    ScaledMagnitude(c, s, d);
    ScaledSign(c, s, d);
  }
  lemma ScaledMagnitude(c: real, s: real, d: real)
    requires c > 0.0 && -1.0 < s < 1.0
    requires d == c * s
    ensures -c < d < c
  {
    AboveFactor(c, s);
    BelowFactor(c, s);
  }
  lemma ScaledSign(c: real, s: real, d: real)
    requires c > 0.0 && d == c * s
    ensures (s > 0.0 <==> d > 0.0) && (s < 0.0 <==> d < 0.0)
  {
    if s > 0.0 {
      Positive(c, s);
    } else if s < 0.0 {
      Positive(c, -s);
      assert c * -s == -d;
    } else {
      assert d == 0.0;
    }
  }
  lemma BelowFactor(c: real, s: real)
    requires c > 0.0 && s < 1.0
    ensures c * s < c
  {
    assert c - c * s == c * (1.0 - s);
    Positive(c, 1.0 - s);
  }

  lemma AboveFactor(c: real, s: real)
    requires c > 0.0 && s > -1.0
    ensures -c < c * s
  {
    assert c + c * s == c * (1.0 + s);
    Positive(c, 1.0 + s);
  }
  lemma Positive(a: real, b: real)
    requires a > 0.0 && b > 0.0
    ensures a * b > 0.0
  {
  }
}

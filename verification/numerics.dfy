/** Numeric vocabulary shared by the estimators and planners.

    IEEE doubles are modelled as `real`. The transcendental primitives
    (10^x, square root, the logistic sigmoid, the logarithm) are never
    defined here: every operation that needs one takes it as a function
    parameter, and its precondition states the few laws the proofs rely on. */
module Numerics {

  /** Laws of x |-> 10^x that the Elo expectation relies on. */
  ghost predicate Pow10Laws(pow10: real -> real) {
    && pow10(0.0) == 1.0
    && (forall x :: pow10(x) > 0.0)
    && (forall x, y :: x + y == 0.0 ==> pow10(x) * pow10(y) == 1.0)
    && (forall x, y :: x < y ==> pow10(x) < pow10(y))
  }

  /** Laws of the square root on the non-negative reals. */
  ghost predicate SqrtLaws(sqrt: real -> real) {
    && sqrt(0.0) == 0.0 && sqrt(1.0) == 1.0
    && (forall x :: x >= 0.0 ==> sqrt(x) >= 0.0 && sqrt(x) * sqrt(x) == x)
    && (forall x, y :: 0.0 <= x < y ==> sqrt(x) < sqrt(y))
  }

  /** The logistic sigmoid maps every real into the open unit interval. */
  ghost predicate SigmoidLaws(sigmoid: real -> real) {
    forall x :: 0.0 < sigmoid(x) < 1.0
  }

  function Abs(x: real): (r: real)
    ensures r >= 0.0 && (r == x || r == -x)
  {
    if x < 0.0 then -x else x
  }

  function Max(a: real, b: real): (r: real)
    ensures r >= a && r >= b && (r == a || r == b)
  {
    if a >= b then a else b
  }

  function Min(a: real, b: real): (r: real)
    ensures r <= a && r <= b && (r == a || r == b)
  {
    if a <= b then a else b
  }

  function MaxInt(a: int, b: int): (r: int)
    ensures r >= a && r >= b && (r == a || r == b)
  {
    if a >= b then a else b
  }

  function MinInt(a: int, b: int): (r: int)
    ensures r <= a && r <= b && (r == a || r == b)
  {
    if a <= b then a else b
  }

  /** `max(low, min(high, value))`, the source's clamp. */
  function Clamp(value: real, low: real, high: real): (r: real)
    ensures low <= high ==> low <= r <= high
    ensures low <= value <= high ==> r == value
    ensures value > high && low <= high ==> r == high
    ensures value < low ==> r == low
  {
    Max(low, Min(high, value))
  }

  /** Python's `round(x)` on a float: to the nearest integer, ties to even. */
  function RoundHalfEven(x: real): (n: int)
    ensures x - 0.5 <= n as real <= x + 0.5
    ensures x - 0.5 < n as real < x + 0.5 || n % 2 == 0
  {
    var f := x.Floor;
    var d := x - f as real;
    if d < 0.5 then f
    else if d > 0.5 then f + 1
    else if f % 2 == 0 then f
    else f + 1
  }

  lemma RoundOfInteger(n: int)
    ensures RoundHalfEven(n as real) == n
  {
  }

  /** Rounding to the nearest integer never reverses the order of its arguments. */
  lemma RoundMonotone(x: real, y: real)
    requires x <= y
    ensures RoundHalfEven(x) <= RoundHalfEven(y)
  {
  }

  lemma DivMonotone(x: real, y: real, d: real)
    requires d > 0.0 && x <= y
    ensures x / d <= y / d
  {
    assert y / d - x / d == (y - x) / d;
  }

  lemma MulMonotone(c: real, x: real, y: real)
    requires c >= 0.0 && x <= y
    ensures c * x <= c * y
  {
    assert c * y - c * x == c * (y - x);
  }

  lemma MulStrictRight(x: real, y: real, c: real)
    requires x < y
    ensures c > 0.0 ==> x * c < y * c
    ensures c < 0.0 ==> x * c > y * c
  {
    assert y * c - x * c == (y - x) * c;
  }

  /** The variance p(1 - p) of a Bernoulli variable; positive for p strictly inside (0, 1). */
  function BernoulliVariance(p: real): (v: real)
    ensures 0.0 < p < 1.0 ==> v > 0.0
  {
    p * (1.0 - p)
  }

  function Square(x: real): (s: real)
    ensures s >= 0.0
  {
    x * x
  }

  /** Dividing a positive number by a larger positive divisor gives less. */
  lemma DivStrictlyAntitone(a: real, x: real, y: real)
    requires a > 0.0 && 0.0 < x < y
    ensures a / y < a / x
  {
    var p := a / x;
    var q := a / y;
    assert p * x == a && q * y == a;
    assert p > 0.0;
    assert q * y == p * x;
    assert p * x < p * y;
    assert q * y < p * y;
  }

  /** Python's `int(x)` on a float: truncation toward zero. */
  function TruncToInt(x: real): (n: int)
    ensures x >= 0.0 ==> n as real <= x < n as real + 1.0 && n >= 0
    ensures x < 0.0 ==> n as real - 1.0 < x <= n as real && n <= 0
  {
    if x >= 0.0 then x.Floor else -((-x).Floor)
  }

  /** `np.zeros(n)`. */
  function Zeros(n: nat): (z: seq<real>)
    ensures |z| == n && forall i :: 0 <= i < n ==> z[i] == 0.0
  {
    seq(n, i => 0.0)
  }

  function Sum(xs: seq<real>): real {
    if |xs| == 0 then 0.0 else xs[0] + Sum(xs[1..])
  }

  lemma {:induction false} SumAppend(a: seq<real>, b: seq<real>)
    ensures Sum(a + b) == Sum(a) + Sum(b)
  {
    if |a| == 0 {
      assert a + b == b;
    } else {
      assert (a + b)[1..] == a[1..] + b;
      SumAppend(a[1..], b);
    }
  }

  /** A sum of n copies of c is n * c. */
  lemma {:induction false} SumConstant(xs: seq<real>, c: real)
    requires forall i :: 0 <= i < |xs| ==> xs[i] == c
    ensures Sum(xs) == |xs| as real * c
  {
    if |xs| > 0 {
      SumConstant(xs[1..], c);
    }
  }

  /** Every summand non-negative gives a non-negative sum. */
  lemma {:induction false} SumNonNegative(xs: seq<real>)
    requires forall i :: 0 <= i < |xs| ==> xs[i] >= 0.0
    ensures Sum(xs) >= 0.0
  {
    if |xs| > 0 {
      SumNonNegative(xs[1..]);
    }
  }

  /** A sum lies between |xs| times the least and |xs| times the largest bound. */
  lemma {:induction false} SumBounds(xs: seq<real>, lo: real, hi: real)
    requires forall i :: 0 <= i < |xs| ==> lo <= xs[i] <= hi
    ensures |xs| as real * lo <= Sum(xs) <= |xs| as real * hi
  {
    if |xs| > 0 {
      SumBounds(xs[1..], lo, hi);
    }
  }

  /** numpy's `mean` of a non-empty vector. */
  function Mean(xs: seq<real>): real
    requires |xs| > 0
  {
    Sum(xs) / |xs| as real
  }

  lemma MulDivCancel(n: real, x: real)
    requires n > 0.0
    ensures (n * x) / n == x
  {
  }

  /** A mean lies between the least and the largest bound on the entries. */
  lemma MeanWithin(xs: seq<real>, lo: real, hi: real)
    requires |xs| > 0
    requires forall i :: 0 <= i < |xs| ==> lo <= xs[i] <= hi
    ensures lo <= Mean(xs) <= hi
  {
    var n := |xs| as real;
    SumBounds(xs, lo, hi);
    DivMonotone(n * lo, Sum(xs), n);
    DivMonotone(Sum(xs), n * hi, n);
    MulDivCancel(n, lo);
    MulDivCancel(n, hi);
  }

  /** Every entry below c makes a non-empty sum fall short of |xs| * c. */
  lemma {:induction false} SumBelow(xs: seq<real>, c: real)
    requires |xs| > 0
    requires forall i :: 0 <= i < |xs| ==> xs[i] < c
    ensures Sum(xs) < |xs| as real * c
  {
    if |xs| > 1 {
      SumBelow(xs[1..], c);
    }
  }

  /** Every entry below c puts the mean below c. */
  lemma MeanBelow(xs: seq<real>, c: real)
    requires |xs| > 0
    requires forall i :: 0 <= i < |xs| ==> xs[i] < c
    ensures Mean(xs) < c
  {
    var n := |xs| as real;
    SumBelow(xs, c);
    assert (n * c) / n - Sum(xs) / n == (n * c - Sum(xs)) / n;
    MulDivCancel(n, c);
  }

  /** numpy's `var` (population variance) of a non-empty vector. */
  function Variance(xs: seq<real>): real
    requires |xs| > 0
  {
    var m := Mean(xs);
    Mean(seq(|xs|, i requires 0 <= i < |xs| => (xs[i] - m) * (xs[i] - m)))
  }

  /** A population variance is never negative. */
  lemma VarianceNonNegative(xs: seq<real>)
    requires |xs| > 0
    ensures Variance(xs) >= 0.0
  {
    var m := Mean(xs);
    var sq := seq(|xs|, i requires 0 <= i < |xs| => (xs[i] - m) * (xs[i] - m));
    forall i | 0 <= i < |sq| ensures sq[i] >= 0.0 {
      assert sq[i] == Square(xs[i] - m);
    }
    SumNonNegative(sq);
    DivMonotone(0.0, Sum(sq), |xs| as real);
  }

  /** The mean of a vector with every entry equal to c is c, and its variance is 0. */
  lemma ConstantVectorStatistics(xs: seq<real>, c: real)
    requires |xs| > 0
    requires forall i :: 0 <= i < |xs| ==> xs[i] == c
    ensures Mean(xs) == c
    ensures Variance(xs) == 0.0
  {
    SumConstant(xs, c);
    assert Mean(xs) == c;
    var sq := seq(|xs|, i requires 0 <= i < |xs| => (xs[i] - Mean(xs)) * (xs[i] - Mean(xs)));
    assert forall i :: 0 <= i < |sq| ==> sq[i] == 0.0;
    SumConstant(sq, 0.0);
  }
}

/** The closed-form losses (src/loss/). Every loss pairs the two slices
    the way `zip` does: only the first min(|predicted|, |expected|) positions
    take part. The mean-based losses divide by |predicted|. */
module MseLoss {
  import opened Base

  function Squares(predicted: seq<real>, expected: seq<real>): (s: seq<real>)
    ensures |s| == Min(|predicted|, |expected|)
    ensures forall i :: 0 <= i < |s| ==> s[i] == (predicted[i] - expected[i]) * (predicted[i] - expected[i])
  {
    seq(Min(|predicted|, |expected|), i requires 0 <= i < Min(|predicted|, |expected|) =>
      (predicted[i] - expected[i]) * (predicted[i] - expected[i]))
  }

  /** `MseLoss::loss`: the mean of the squared differences. */
  function Loss(predicted: seq<real>, expected: seq<real>): (r: real)
    requires |predicted| > 0
    ensures r >= 0.0
  {
    SumNonNegative(Squares(predicted, expected));
    Sum(Squares(predicted, expected)) / (|predicted| as real)
  }

  /** `MseLoss::derivative`: p - e at each zipped position. */
  function Derivative(predicted: seq<real>, expected: seq<real>): (d: seq<real>)
    ensures |d| == Min(|predicted|, |expected|)
    ensures forall i :: 0 <= i < |d| ==> d[i] == predicted[i] - expected[i]
  {
    seq(Min(|predicted|, |expected|), i requires 0 <= i < Min(|predicted|, |expected|) =>
      predicted[i] - expected[i])
  }

  /** The two slices agree on every zipped position. */
  predicate AgreeOnZip(predicted: seq<real>, expected: seq<real>)
  {
    forall i :: 0 <= i < |predicted| && i < |expected| ==> predicted[i] == expected[i]
  }

  /** The loss vanishes exactly when the prediction matches the target on
      the zipped positions, and so does every entry of the derivative. */
  lemma {:induction false} ZeroIff(predicted: seq<real>, expected: seq<real>)
    requires |predicted| > 0
    ensures Loss(predicted, expected) == 0.0 <==> AgreeOnZip(predicted, expected)
  {
    var s := Squares(predicted, expected);
    forall i | 0 <= i < |s|
      ensures s[i] >= 0.0 && (s[i] == 0.0 <==> predicted[i] == expected[i])
    {
      SquareOf(predicted[i] - expected[i], s[i]);
    }
    SumZeroIff(s);
    DivZeroIff(Sum(s), |predicted| as real);
  }

  /** The derivative is the zero vector exactly when the prediction matches
      the target on the zipped positions. */
  lemma {:induction false} DerivativeZeroIff(predicted: seq<real>, expected: seq<real>)
    ensures AgreeOnZip(predicted, expected)
      <==> forall i :: 0 <= i < |Derivative(predicted, expected)| ==> Derivative(predicted, expected)[i] == 0.0
  {
    var d := Derivative(predicted, expected);
    assert forall i :: 0 <= i < |d| ==> (d[i] == 0.0 <==> predicted[i] == expected[i]);
    if forall i :: 0 <= i < |d| ==> d[i] == 0.0 {
      forall i | 0 <= i < |predicted| && i < |expected|
        ensures predicted[i] == expected[i]
      {
        assert d[i] == 0.0;
      }
    }
  }

  /** The loss is the mean square of the derivative's entries. */
  lemma {:induction false} LossFromDerivative(predicted: seq<real>, expected: seq<real>)
    requires |predicted| > 0
    ensures var d := Derivative(predicted, expected);
      Loss(predicted, expected) == Sum(seq(|d|, i requires 0 <= i < |d| => d[i] * d[i])) / (|predicted| as real)
  {
    var d := Derivative(predicted, expected);
    var q := seq(|d|, i requires 0 <= i < |d| => d[i] * d[i]);
    var s := Squares(predicted, expected);
    assert |q| == |s|;
    assert forall i :: 0 <= i < |q| ==> q[i] == s[i];
    assert q == s;
  }
}

module CrossEntropyLoss {
  import opened Base
  import MseLoss

  /** The `1e-12` added inside the logarithm. */
  const EPS: real := 0.000000000001

  function Terms(predicted: seq<real>, expected: seq<real>, ln: real -> real): (s: seq<real>)
    ensures |s| == Min(|predicted|, |expected|)
    ensures forall i :: 0 <= i < |s| ==> s[i] == -expected[i] * ln(predicted[i] + EPS)
  {
    seq(Min(|predicted|, |expected|), i requires 0 <= i < Min(|predicted|, |expected|) =>
      -expected[i] * ln(predicted[i] + EPS))
  }

  /** `CrossEntropyLoss::loss`: a sum, not a mean, of -e·ln(p + EPS);
      the natural logarithm is a parameter. */
  function Loss(predicted: seq<real>, expected: seq<real>, ln: real -> real): real
  {
    Sum(Terms(predicted, expected, ln))
  }

  /** `CrossEntropyLoss::derivative`: p - e, the gradient of softmax and
      cross-entropy combined with respect to the logits. */
  function Derivative(predicted: seq<real>, expected: seq<real>): (d: seq<real>)
    ensures |d| == Min(|predicted|, |expected|)
    ensures d == MseLoss.Derivative(predicted, expected)
  {
    seq(Min(|predicted|, |expected|), i requires 0 <= i < Min(|predicted|, |expected|) =>
      predicted[i] - expected[i])
  }

  /** A target entry of 0 contributes nothing: appending such a pair leaves
      the loss as it was. */
  lemma {:induction false} ZeroTargetContributesNothing(predicted: seq<real>, expected: seq<real>, p: real, ln: real -> real)
    requires |predicted| == |expected|
    ensures Loss(predicted + [p], expected + [0.0], ln) == Loss(predicted, expected, ln)
  {
    var t := Terms(predicted + [p], expected + [0.0], ln);
    var u := Terms(predicted, expected, ln);
    assert |t[..|t| - 1]| == |u|;
    forall i | 0 <= i < |u|
      ensures t[..|t| - 1][i] == u[i]
    {
      assert (predicted + [p])[i] == predicted[i] && (expected + [0.0])[i] == expected[i];
    }
    assert t[..|t| - 1] == u;
    assert t[|t| - 1] == -0.0 * ln(p + EPS);
  }

  /** With non-negative targets and probabilities at most 1 - EPS (where the
      logarithm is not positive), the loss is non-negative. */
  lemma {:induction false} NonNegative(predicted: seq<real>, expected: seq<real>, ln: real -> real)
    requires forall i :: 0 <= i < |predicted| && i < |expected| ==> expected[i] >= 0.0 && ln(predicted[i] + EPS) <= 0.0
    ensures Loss(predicted, expected, ln) >= 0.0
  {
    var t := Terms(predicted, expected, ln);
    forall i | 0 <= i < |t|
      ensures t[i] >= 0.0
    {
      assert t[i] == expected[i] * -ln(predicted[i] + EPS);
    }
    SumNonNegative(t);
  }

  /** The derivative is zero exactly when the prediction matches the target
      on the zipped positions. */
  lemma {:induction false} DerivativeZeroIff(predicted: seq<real>, expected: seq<real>)
    ensures (forall i :: 0 <= i < |Derivative(predicted, expected)| ==> Derivative(predicted, expected)[i] == 0.0)
            <==> MseLoss.AgreeOnZip(predicted, expected)
  {
    var d := Derivative(predicted, expected);
    assert forall i :: 0 <= i < |d| ==> d[i] == predicted[i] - expected[i];
  }
}

module MaeLoss {
  import opened Base
  import MseLoss

  function AbsDiffs(predicted: seq<real>, expected: seq<real>): (s: seq<real>)
    ensures |s| == Min(|predicted|, |expected|)
    ensures forall i :: 0 <= i < |s| ==> s[i] == Abs(predicted[i] - expected[i])
  {
    seq(Min(|predicted|, |expected|), i requires 0 <= i < Min(|predicted|, |expected|) =>
      Abs(predicted[i] - expected[i]))
  }

  /** `MaeLoss::loss`: the mean absolute difference. */
  function Loss(predicted: seq<real>, expected: seq<real>): (r: real)
    requires |predicted| > 0
    ensures r >= 0.0
  {
    SumNonNegative(AbsDiffs(predicted, expected));
    Sum(AbsDiffs(predicted, expected)) / (|predicted| as real)
  }

  /** `MaeLoss::derivative`: sign(p - y) / n with n = |predicted|, and 0 at
      a tie. The division by n is only reached when there is a zipped pair,
      so n > 0 there. */
  function Derivative(predicted: seq<real>, expected: seq<real>): (d: seq<real>)
    ensures |d| == Min(|predicted|, |expected|)
    ensures forall i :: 0 <= i < |d| ==>
      (predicted[i] > expected[i] ==> d[i] == 1.0 / (|predicted| as real))
      && (predicted[i] < expected[i] ==> d[i] == -1.0 / (|predicted| as real))
      && (predicted[i] == expected[i] ==> d[i] == 0.0)
  {
    seq(Min(|predicted|, |expected|), i requires 0 <= i < Min(|predicted|, |expected|) =>
      var diff := predicted[i] - expected[i];
      if diff > 0.0 then 1.0 / (|predicted| as real)
      else if diff < 0.0 then -1.0 / (|predicted| as real)
      else 0.0)
  }

  /** Every entry of the derivative lies in [-1/n, 1/n] and has the sign of
      the corresponding entry of the squared-error gradient. */
  lemma {:induction false} DerivativeBounded(predicted: seq<real>, expected: seq<real>)
    ensures var d := Derivative(predicted, expected);
      forall i :: 0 <= i < |d| ==>
        -1.0 / (|predicted| as real) <= d[i] <= 1.0 / (|predicted| as real)
        && (d[i] > 0.0 <==> MseLoss.Derivative(predicted, expected)[i] > 0.0)
        && (d[i] < 0.0 <==> MseLoss.Derivative(predicted, expected)[i] < 0.0)
  {
    var d := Derivative(predicted, expected);
    forall i | 0 <= i < |d|
      ensures -1.0 / (|predicted| as real) <= d[i] <= 1.0 / (|predicted| as real)
    {
      assert 1.0 / (|predicted| as real) > 0.0;
    }
  }

  /** The loss vanishes exactly when the prediction matches the target on
      the zipped positions. */
  lemma {:induction false} ZeroIff(predicted: seq<real>, expected: seq<real>)
    requires |predicted| > 0
    ensures Loss(predicted, expected) == 0.0 <==> MseLoss.AgreeOnZip(predicted, expected)
  {
    var s := AbsDiffs(predicted, expected);
    SumZeroIff(s);
    DivZeroIff(Sum(s), |predicted| as real);
    assert forall i :: 0 <= i < |s| ==> (s[i] == 0.0 <==> predicted[i] == expected[i]);
  }
}

module HuberLoss {
  import opened Base
  import MseLoss
  import MaeLoss

  /** The fixed threshold δ. */
  const DELTA: real := 1.0

  /** The per-element term: quadratic inside [-δ, δ], linear outside. */
  function Term(x: real): real
  {
    if Abs(x) <= DELTA then 0.5 * x * x else DELTA * (Abs(x) - 0.5 * DELTA)
  }

  lemma {:induction false} HalfProduct(a: real, b: real, y: real)
    requires y == 0.5 * a * b && 0.0 <= a <= 1.0 && 0.0 <= b
    ensures 0.0 <= y <= b
  {
    MulMonotone(b, a, 1.0);
    MulMonotone(b, 0.0, a);
    assert b * a == a * b;
    assert 0.0 <= a * b <= b;
    assert y == 0.5 * (a * b);
  }

  /** Both branches are non-negative, the term is never above |x|, and it
      is the quadratic 0.5·x² exactly inside the threshold. */
  lemma {:induction false} TermBounds(x: real)
    ensures 0.0 <= Term(x) <= Abs(x)
    ensures Abs(x) <= DELTA ==> Term(x) == 0.5 * x * x
    ensures Abs(x) > DELTA ==> Term(x) == Abs(x) - 0.5
  {
    if Abs(x) <= DELTA {
      if x >= 0.0 {
        HalfProduct(x, x, Term(x));
      } else {
        HalfProduct(-x, -x, Term(x));
      }
    }
  }

  function Terms(predicted: seq<real>, expected: seq<real>): (s: seq<real>)
    ensures |s| == Min(|predicted|, |expected|)
    ensures forall i :: 0 <= i < |s| ==> s[i] == Term(predicted[i] - expected[i])
  {
    seq(Min(|predicted|, |expected|), i requires 0 <= i < Min(|predicted|, |expected|) =>
      Term(predicted[i] - expected[i]))
  }

  /** `HuberLoss::loss`: the mean of the terms. */
  function Loss(predicted: seq<real>, expected: seq<real>): real
    requires |predicted| > 0
  {
    Sum(Terms(predicted, expected)) / (|predicted| as real)
  }

  /** The Huber loss is non-negative and never exceeds the mean absolute
      error of the same pair of slices. */
  lemma {:induction false} LossBounds(predicted: seq<real>, expected: seq<real>)
    requires |predicted| > 0
    ensures 0.0 <= Loss(predicted, expected) <= MaeLoss.Loss(predicted, expected)
  {
    var t := Terms(predicted, expected);
    var a := MaeLoss.AbsDiffs(predicted, expected);
    forall i | 0 <= i < |t|
      ensures 0.0 <= t[i] <= a[i]
    {
      TermBounds(predicted[i] - expected[i]);
    }
    SumNonNegative(t);
    SumMonotone(t, a);
    var n := |predicted| as real;
    DivMonotone(0.0, Sum(t), n);
    DivMonotone(Sum(t), Sum(a), n);
  }

  /** `x.signum()` for a non-zero x. */
  function Sign(x: real): real
  {
    if x > 0.0 then 1.0 else -1.0
  }

  /** `HuberLoss::derivative`: x inside the threshold, δ·sign(x) outside. */
  function Derivative(predicted: seq<real>, expected: seq<real>): (d: seq<real>)
    ensures |d| == Min(|predicted|, |expected|)
  {
    seq(Min(|predicted|, |expected|), i requires 0 <= i < Min(|predicted|, |expected|) =>
      var x := predicted[i] - expected[i];
      if Abs(x) <= DELTA then x else DELTA * Sign(x))
  }

  /** Each entry is the squared-error gradient clipped to [-δ, δ]. */
  lemma {:induction false} DerivativeIsClipped(predicted: seq<real>, expected: seq<real>)
    ensures var d := Derivative(predicted, expected);
      var g := MseLoss.Derivative(predicted, expected);
      forall i :: 0 <= i < |d| ==>
        -DELTA <= d[i] <= DELTA
        && (-DELTA <= g[i] <= DELTA ==> d[i] == g[i])
        && (g[i] > DELTA ==> d[i] == DELTA)
        && (g[i] < -DELTA ==> d[i] == -DELTA)
  {
  }
}

module BceLoss {
  import opened Base

  /** The `1e-12` that keeps both logarithms finite. */
  const EPS: real := 0.000000000001

  function Denominator(p: real): real
  {
    (p + EPS) * (1.0 - p + EPS)
  }

  /** Inside [0, 1] the denominator is positive. */
  lemma {:induction false} DenominatorPositive(p: real)
    requires 0.0 <= p <= 1.0
    ensures Denominator(p) > 0.0
  {
    var u, v := p + EPS, 1.0 - p + EPS;
    PositiveProduct(u, v);
    assert Denominator(p) == u * v;
  }

  function Terms(predicted: seq<real>, expected: seq<real>, ln: real -> real): (s: seq<real>)
    ensures |s| == Min(|predicted|, |expected|)
    ensures forall i :: 0 <= i < |s| ==>
      s[i] == -(expected[i] * ln(predicted[i] + EPS) + (1.0 - expected[i]) * ln(1.0 - predicted[i] + EPS))
  {
    seq(Min(|predicted|, |expected|), i requires 0 <= i < Min(|predicted|, |expected|) =>
      -(expected[i] * ln(predicted[i] + EPS) + (1.0 - expected[i]) * ln(1.0 - predicted[i] + EPS)))
  }

  /** `BceLoss::loss`: the mean binary cross-entropy; the natural logarithm
      is a parameter. */
  function Loss(predicted: seq<real>, expected: seq<real>, ln: real -> real): real
    requires |predicted| > 0
  {
    Sum(Terms(predicted, expected, ln)) / (|predicted| as real)
  }

  lemma {:induction false} TermNonNegative(y: real, a: real, b: real, t: real)
    requires t == -(y * a + (1.0 - y) * b)
    requires 0.0 <= y <= 1.0 && a <= 0.0 && b <= 0.0
    ensures t >= 0.0
  {
    MulNonPositive(y, a);
    MulNonPositive(1.0 - y, b);
  }

  /** With targets in [0, 1] and both logarithms non-positive (as they are
      for probabilities in [0, 1 - EPS]), the loss is non-negative. */
  lemma {:induction false} NonNegative(predicted: seq<real>, expected: seq<real>, ln: real -> real)
    requires |predicted| > 0
    requires forall i :: 0 <= i < |predicted| && i < |expected| ==>
      0.0 <= expected[i] <= 1.0 && ln(predicted[i] + EPS) <= 0.0 && ln(1.0 - predicted[i] + EPS) <= 0.0
    ensures Loss(predicted, expected, ln) >= 0.0
  {
    var t := Terms(predicted, expected, ln);
    forall i | 0 <= i < |t|
      ensures t[i] >= 0.0
    {
      TermNonNegative(expected[i], ln(predicted[i] + EPS), ln(1.0 - predicted[i] + EPS), t[i]);
    }
    SumNonNegative(t);
    DivZeroIff(Sum(t), |predicted| as real);
  }

  /** `BceLoss::derivative`: (p - y) / ((p + EPS)(1 - p + EPS)). A zero
      denominator gives an infinity or NaN in floating point, which the
      model excludes. */
  function Derivative(predicted: seq<real>, expected: seq<real>): (d: seq<real>)
    requires forall i :: 0 <= i < |predicted| && i < |expected| ==> Denominator(predicted[i]) != 0.0
    ensures |d| == Min(|predicted|, |expected|)
    ensures forall i :: 0 <= i < |d| ==> d[i] * Denominator(predicted[i]) == predicted[i] - expected[i]
  {
    seq(Min(|predicted|, |expected|), i requires 0 <= i < Min(|predicted|, |expected|) =>
      (predicted[i] - expected[i]) / Denominator(predicted[i]))
  }

  /** For probabilities in [0, 1] every entry has the sign of p - y, and is
      zero exactly at a match. */
  lemma {:induction false} DerivativeSign(predicted: seq<real>, expected: seq<real>)
    requires forall i :: 0 <= i < |predicted| ==> 0.0 <= predicted[i] <= 1.0
    ensures forall i :: 0 <= i < |predicted| && i < |expected| ==> Denominator(predicted[i]) > 0.0
    ensures var d := Derivative(predicted, expected);
      forall i :: 0 <= i < |d| ==>
        (d[i] > 0.0 <==> predicted[i] > expected[i])
        && (d[i] < 0.0 <==> predicted[i] < expected[i])
        && (d[i] == 0.0 <==> predicted[i] == expected[i])
  {
    forall i | 0 <= i < |predicted|
      ensures Denominator(predicted[i]) > 0.0
    {
      DenominatorPositive(predicted[i]);
    }
    var d := Derivative(predicted, expected);
    forall i | 0 <= i < |d|
      ensures d[i] > 0.0 <==> predicted[i] > expected[i]
      ensures d[i] < 0.0 <==> predicted[i] < expected[i]
    {
      var q := Denominator(predicted[i]);
      assert d[i] * q == predicted[i] - expected[i];
      assert q > 0.0;
    }
  }
}

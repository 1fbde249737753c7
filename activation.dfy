/** Element-wise activation functions (src/activation/activation.rs). */
module Activation {
  import opened Base

  datatype ActivationFunction = Sigmoid | ReLU | Identity | Softmax

  /** `E.powf(t)`: the exponential is not modelled, only its positivity. */
  type PowE = f: real -> real | forall t :: f(t) > 0.0 witness (t: real) => 1.0

  const SoftmaxElementWise := "ActivationFunction::Softmax::function() must not be called directly"

  /** `ActivationFunction::function`; the Softmax arm panics. */
  function Apply(a: ActivationFunction, x: real, exp: PowE): (r: Result<real>)
    ensures r.Ok? <==> a != Softmax
    ensures a == Sigmoid ==> r.value == 1.0 / (1.0 + exp(-x)) && 0.0 < r.value < 1.0
    ensures a == ReLU ==> r.value >= 0.0 && (r.value == x || r.value == 0.0) && (r.value > 0.0 <==> x > 0.0)
    ensures a == Identity ==> r.value == x
  {
    match a
    case Sigmoid =>
      assert exp(-x) > 0.0;
      Ok(1.0 / (1.0 + exp(-x)))
    case ReLU => Ok(if x > 0.0 then x else 0.0)
    case Identity => Ok(x)
    case Softmax => Err(SoftmaxElementWise)
  }

  /** `ActivationFunction::derivative`. Softmax returns 1 so that the delta
      computed by the cross-entropy derivative passes through unchanged. */
  function Derivative(a: ActivationFunction, x: real, exp: PowE): (r: real)
    ensures a == Sigmoid ==> r == Apply(a, x, exp).value * (1.0 - Apply(a, x, exp).value)
    ensures a == ReLU ==> r == (if x > 0.0 then 1.0 else 0.0)
    ensures a == Identity || a == Softmax ==> r == 1.0
  {
    match a
    case Sigmoid =>
      var fx := Apply(a, x, exp).value;
      fx * (1.0 - fx)
    case ReLU => if x > 0.0 then 1.0 else 0.0
    case Identity => 1.0
    case Softmax => 1.0
  }

  /** The sigmoid's slope lies in (0, 1/4]. */
  lemma {:induction false} SigmoidSlopeBound(x: real, exp: PowE)
    ensures 0.0 < Derivative(Sigmoid, x, exp) <= 0.25
  {
    var s := Apply(Sigmoid, x, exp).value;
    assert 0.0 < s < 1.0;
    assert s * (1.0 - s) == 0.25 - (s - 0.5) * (s - 0.5);
    assert (s - 0.5) * (s - 0.5) >= 0.0;
    assert 0.0 < s * (1.0 - s) by {
      assert 1.0 - s > 0.0;
    }
  }

  /** For every element-wise activation except the sigmoid, the function is
      its slope times its input: ReLU(x) = ReLU'(x) x and Identity(x) = 1 x. */
  lemma {:induction false} PiecewiseLinear(a: ActivationFunction, x: real, exp: PowE)
    requires a == ReLU || a == Identity
    ensures Apply(a, x, exp).value == Derivative(a, x, exp) * x
  {
  }

  /** ReLU is idempotent. */
  lemma {:induction false} ReluIdempotent(x: real, exp: PowE)
    ensures Apply(ReLU, Apply(ReLU, x, exp).value, exp) == Apply(ReLU, x, exp)
  {
  }
}

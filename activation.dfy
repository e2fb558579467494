/** The activation functions of src/activation.rs.  The exponential is a
    parameter constrained only by `ExpLaws`. */
module Activation {

  /** What the model assumes of the exponential: exp(0) = 1, it is positive,
      and it is strictly increasing. */
  ghost predicate ExpLaws(exp: real -> real)
  {
    exp(0.0) == 1.0 &&
    (forall x :: exp(x) > 0.0) &&
    (forall x, y :: x < y ==> exp(x) < exp(y))
  }

  lemma ReciprocalOfGreaterThanOne(d: real)
    requires d > 1.0
    ensures 0.0 < 1.0 / d < 1.0
  {
  }

  lemma ReciprocalDecreases(d: real, e: real)
    requires 0.0 < d < e
    ensures 1.0 / e < 1.0 / d
  {
    var p, q := 1.0 / e, 1.0 / d;
    assert p * e == 1.0 && q * d == 1.0;
    assert p > 0.0;
    assert p * d < p * e;
    assert p * d < q * d;
  }

  /** `sigmoid`: 1 / (1 + exp(-v)), always strictly between 0 and 1. */
  function Sigmoid(exp: real -> real, v: real): (s: real)
    requires ExpLaws(exp)
    ensures 0.0 < s < 1.0
  {
    ReciprocalOfGreaterThanOne(1.0 + exp(-v));
    1.0 / (1.0 + exp(-v))
  }

  lemma SigmoidAtZero(exp: real -> real)
    requires ExpLaws(exp)
    ensures Sigmoid(exp, 0.0) == 0.5 && Sigmoid(exp, -0.0) == 0.5
  {
  }

  /** Because exp is strictly increasing, so is sigmoid. */
  lemma SigmoidIncreasing(exp: real -> real, x: real, y: real)
    requires ExpLaws(exp) && x < y
    ensures Sigmoid(exp, x) < Sigmoid(exp, y)
  {
    assert exp(-y) < exp(-x);
    ReciprocalDecreases(1.0 + exp(-y), 1.0 + exp(-x));
  }

  /** Sigmoid lies above 1/2 exactly on the positive reals. */
  lemma SigmoidAboveHalf(exp: real -> real, x: real)
    requires ExpLaws(exp)
    ensures Sigmoid(exp, x) > 0.5 <==> x > 0.0
    ensures Sigmoid(exp, x) < 0.5 <==> x < 0.0
  {
    SigmoidAtZero(exp);
    if x > 0.0 {
      SigmoidIncreasing(exp, 0.0, x);
    } else if x < 0.0 {
      SigmoidIncreasing(exp, x, 0.0);
    }
  }

  lemma SigmoidNearZeroExample(exp: real -> real)
    requires ExpLaws(exp)
    ensures Sigmoid(exp, 0.00001) > 0.5 && Sigmoid(exp, -0.00001) < 0.5
  {
    SigmoidAboveHalf(exp, 0.00001);
    SigmoidAboveHalf(exp, -0.00001);
  }

  lemma ProductOfComplementsAtMostAQuarter(s: real)
    requires 0.0 < s < 1.0
    ensures 0.0 < s * (1.0 - s) <= 0.25
  {
    assert 0.25 - s * (1.0 - s) == (s - 0.5) * (s - 0.5);
  }

  function Complements(s: real): (p: real)
    requires 0.0 < s < 1.0
    ensures 0.0 < p <= 0.25
  {
    ProductOfComplementsAtMostAQuarter(s);
    s * (1.0 - s)
  }

  /** `sigmoid_derivative`: s * (1 - s) for s = sigmoid(v); it is strictly
      positive and at most 1/4. */
  function SigmoidDerivative(exp: real -> real, v: real): (d: real)
    requires ExpLaws(exp)
    ensures 0.0 < d <= 0.25
  {
    Complements(Sigmoid(exp, v))
  }

  /** The derivative reaches its maximum 1/4 at zero. */
  lemma SigmoidDerivativeAtZero(exp: real -> real)
    requires ExpLaws(exp)
    ensures SigmoidDerivative(exp, 0.0) == 0.25
    ensures forall v :: SigmoidDerivative(exp, v) <= SigmoidDerivative(exp, 0.0)
  {
    SigmoidAtZero(exp);
  }

  /** Sigmoid of every element, in order. */
  function SigmoidAll(exp: real -> real, v: seq<real>): (r: seq<real>)
    requires ExpLaws(exp)
    ensures |r| == |v|
    ensures forall i :: 0 <= i < |v| ==> r[i] == Sigmoid(exp, v[i]) && 0.0 < r[i] < 1.0
  {
    seq(|v|, i requires 0 <= i < |v| => Sigmoid(exp, v[i]))
  }

  /** `vector_sigmoid`: pushes sigmoid of each element. */
  method VectorSigmoid(exp: real -> real, v: seq<real>) returns (r: seq<real>)
    requires ExpLaws(exp)
    ensures r == SigmoidAll(exp, v)
  {
    r := [];
    for i := 0 to |v|
      invariant |r| == i
      invariant forall k :: 0 <= k < i ==> r[k] == Sigmoid(exp, v[k])
    {
      r := r + [Sigmoid(exp, v[i])];
    }
  }

  /** `vector_sigmoid_derivative`: pushes the derivative at each element;
      every entry is positive and at most 1/4. */
  method VectorSigmoidDerivative(exp: real -> real, v: seq<real>) returns (r: seq<real>)
    requires ExpLaws(exp)
    ensures |r| == |v|
    ensures forall i :: 0 <= i < |v| ==> r[i] == SigmoidDerivative(exp, v[i])
    ensures forall i :: 0 <= i < |r| ==> 0.0 < r[i] <= 0.25
  {
    r := [];
    for i := 0 to |v|
      invariant |r| == i
      invariant forall k :: 0 <= k < i ==> r[k] == SigmoidDerivative(exp, v[k])
    {
      r := r + [SigmoidDerivative(exp, v[i])];
    }
  }
}

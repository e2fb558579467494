/** The binary cross-entropy loss of src/loss.rs and its derivative with
    respect to the prediction.  Both are single expressions over the sequence
    helpers; the natural logarithm is a parameter. */
module Loss {
  import opened Sums
  import opened VectorMath

  /** The loss contributed by one sample: y ln h + (1 - y) ln(1 - h). */
  function SampleLoss(ln: real -> real, h: real, y: real): real
  {
    y * ln(h) + (1.0 - y) * ln(1.0 - h)
  }

  function SampleLosses(ln: real -> real, h: seq<real>, y: seq<real>): (s: seq<real>)
    requires |h| == |y|
    ensures |s| == |y| && forall i :: 0 <= i < |y| ==> s[i] == SampleLoss(ln, h[i], y[i])
  {
    seq(|y|, i requires 0 <= i < |y| => SampleLoss(ln, h[i], y[i]))
  }

  /** `cross_entropy_loss`: -(1/n) (y . ln h + (1 - y) . ln(1 - h)), built from
      the helpers exactly as the source nests them; it is minus the mean of
      the per-sample losses. */
  function CrossEntropyLoss(ln: real -> real, h: seq<real>, y: seq<real>): (l: real)
    requires |h| == |y| && |y| > 0
    ensures l == -Sum(SampleLosses(ln, h, y)) / (|y| as real)
  {
    DotsAddUp(ln, h, y);
    ScaleByMinusReciprocal(Sum(SampleLosses(ln, h, y)), |y| as real);
    (Dot(y, Logs(ln, h)) + Dot(ScalarAdd(Negate(y), 1.0), Logs(ln, ScalarAdd(Negate(h), 1.0))))
      * (-1.0 / |y| as real)
  }

  /** The two dot products of the loss add up to the sum of the per-sample
      losses. */
  lemma DotsAddUp(ln: real -> real, h: seq<real>, y: seq<real>)
    requires |h| == |y|
    ensures Dot(y, Logs(ln, h)) + Dot(ScalarAdd(Negate(y), 1.0), Logs(ln, ScalarAdd(Negate(h), 1.0)))
            == Sum(SampleLosses(ln, h, y))
  {
    var first := Products(y, Logs(ln, h));
    var second := Products(ScalarAdd(Negate(y), 1.0), Logs(ln, ScalarAdd(Negate(h), 1.0)));
    var losses := SampleLosses(ln, h, y);
    assert forall i :: 0 <= i < |y| ==> losses[i] == first[i] + second[i] by {
      OneMinus(y);
      OneMinus(h);
    }
    SumPointwiseAdd(first, second, losses);
  }

  lemma ScaleByMinusReciprocal(a: real, n: real)
    requires n != 0.0
    ensures a * (-1.0 / n) == -a / n
  {
  }

  /** The prediction lies strictly between 0 and 1 for every sample. */
  predicate Interior(h: seq<real>)
  {
    forall i :: 0 <= i < |h| ==> h[i] != 0.0 && h[i] != 1.0
  }

  /** `cross_entropy_derivative`: -(y / h) + (1 - y) / (1 - h) elementwise,
      built from the helpers as the source nests them. */
  function CrossEntropyDerivative(h: seq<real>, y: seq<real>): (d: seq<real>)
    requires |h| == |y| && Interior(h)
    ensures |d| == |h|
    ensures forall i :: 0 <= i < |h| ==> d[i] == -(y[i] / h[i]) + (1.0 - y[i]) / (1.0 - h[i])
  {
    OneMinus(y);
    OneMinus(h);
    VectorAdd(Negate(VectorDivide(y, h)),
              VectorDivide(ScalarAdd(Negate(y), 1.0), ScalarAdd(Negate(h), 1.0)))
  }

  /** For a label 1 the entry is -1/h; for a label 0 it is 1/(1 - h). */
  lemma DerivativeForLabels(h: seq<real>, y: seq<real>, i: nat)
    requires |h| == |y| && Interior(h) && i < |h|
    ensures y[i] == 1.0 ==> CrossEntropyDerivative(h, y)[i] == -1.0 / h[i]
    ensures y[i] == 0.0 ==> CrossEntropyDerivative(h, y)[i] == 1.0 / (1.0 - h[i])
  {
  }

  lemma Residual(h: real, y: real)
    requires h != 0.0 && h != 1.0
    ensures -(y / h) + (1.0 - y) / (1.0 - h) == (h - y) / (h * (1.0 - h))
  {
    var a, b := y / h, (1.0 - y) / (1.0 - h);
    var d := h * (1.0 - h);
    assert d != 0.0;
    assert a * h == y;
    assert b * (1.0 - h) == 1.0 - y;
    assert (-a + b) * d == -(a * h) * (1.0 - h) + (b * (1.0 - h)) * h;
    assert (-a + b) * d == h - y;
    assert ((h - y) / d) * d == h - y;
  }

  /** Each entry is the residual h - y over h (1 - h): zero exactly where the
      prediction equals the label, and of the residual's sign when
      0 < h < 1. */
  lemma DerivativeIsScaledResidual(h: seq<real>, y: seq<real>, i: nat)
    requires |h| == |y| && Interior(h) && i < |h|
    ensures CrossEntropyDerivative(h, y)[i] == (h[i] - y[i]) / (h[i] * (1.0 - h[i]))
    ensures CrossEntropyDerivative(h, y)[i] == 0.0 <==> h[i] == y[i]
    ensures 0.0 < h[i] < 1.0 ==> (CrossEntropyDerivative(h, y)[i] > 0.0 <==> h[i] > y[i])
  {
    Residual(h[i], y[i]);
    var v := h[i] * (1.0 - h[i]);
    assert v != 0.0;
    if 0.0 < h[i] < 1.0 {
      assert v > 0.0;
    }
  }

  /** The derivative example with h = [0.1, 0.1] and y = [1, 0]. */
  lemma DerivativeExampleLow()
    ensures CrossEntropyDerivative([0.1, 0.1], [1.0, 0.0]) == [-10.0, 10.0 / 9.0]
  {
    var d := CrossEntropyDerivative([0.1, 0.1], [1.0, 0.0]);
    assert d[0] == -10.0;
    assert d[1] == 10.0 / 9.0;
  }

  /** The derivative example with h = [0.8, 0.8] and y = [1, 0]. */
  lemma DerivativeExampleHigh()
    ensures CrossEntropyDerivative([0.8, 0.8], [1.0, 0.0]) == [-1.25, 5.0]
  {
    var d := CrossEntropyDerivative([0.8, 0.8], [1.0, 0.0]);
    assert d[0] == -1.25;
    assert d[1] == 5.0;
  }
}

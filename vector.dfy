/** The sequence helpers of src/vector.rs (`scalar_multiply`, `logarithm`)
    and the helpers src/loss.rs calls through `vector::` but which that file
    does not define (`dot`, `negate`, `scalar_add`, `vector_divide`,
    `vector_add`); those five follow the formulas written beside the loss
    functions.  The natural logarithm is a parameter. */
module VectorMath {
  import opened Sums

  /** Every element times the scalar, in order. */
  function Scaled(v: seq<real>, s: real): (r: seq<real>)
    ensures |r| == |v|
    ensures forall i :: 0 <= i < |v| ==> r[i] == v[i] * s
  {
    seq(|v|, i requires 0 <= i < |v| => v[i] * s)
  }

  /** `scalar_multiply`: pushes `element * scalar` for each element. */
  method ScalarMultiply(vector: seq<real>, scalar: real) returns (result: seq<real>)
    ensures result == Scaled(vector, scalar)
  {
    result := [];
    for i := 0 to |vector|
      invariant |result| == i
      invariant forall k :: 0 <= k < i ==> result[k] == vector[k] * scalar
    {
      result := result + [vector[i] * scalar];
    }
  }

  /** Scaling by s and then by 1 / s restores the sequence. */
  lemma ScaledRoundTrip(v: seq<real>, s: real)
    requires s != 0.0
    ensures Scaled(Scaled(v, s), 1.0 / s) == v
  {
    var r := Scaled(Scaled(v, s), 1.0 / s);
    forall i | 0 <= i < |v|
      ensures r[i] == v[i]
    {
      TimesThenTimesInverse(v[i], s);
    }
  }

  /** The logarithm of every element, in order. */
  function Logs(ln: real -> real, v: seq<real>): (r: seq<real>)
    ensures |r| == |v|
    ensures forall i :: 0 <= i < |v| ==> r[i] == ln(v[i])
  {
    seq(|v|, i requires 0 <= i < |v| => ln(v[i]))
  }

  /** `logarithm`: pushes `ln(element)` for each element. */
  method Logarithm(ln: real -> real, vector: seq<real>) returns (result: seq<real>)
    ensures result == Logs(ln, vector)
  {
    result := [];
    for i := 0 to |vector|
      invariant |result| == i
      invariant forall k :: 0 <= k < i ==> result[k] == ln(vector[k])
    {
      result := result + [ln(vector[i])];
    }
  }

  // ---------------------------------------------------------------------
  // Helpers called from src/loss.rs

  function Products(x: seq<real>, y: seq<real>): (p: seq<real>)
    requires |x| == |y|
    ensures |p| == |x| && forall i :: 0 <= i < |x| ==> p[i] == x[i] * y[i]
  {
    seq(|x|, i requires 0 <= i < |x| => x[i] * y[i])
  }

  /** `dot`: the inner product written `y.T @ v` in the loss formula; zero
      for empty vectors (see `DotStep` for each further pair). */
  function Dot(x: seq<real>, y: seq<real>): (r: real)
    requires |x| == |y|
    ensures |x| == 0 ==> r == 0.0
  {
    Sum(Products(x, y))
  }

  /** `dot` accumulates from the left: each further pair of elements adds
      its product to the inner product of the shorter vectors. */
  lemma DotStep(x: seq<real>, y: seq<real>)
    requires |x| == |y| && |x| > 0
    ensures Dot(x, y) == Dot(x[..|x| - 1], y[..|y| - 1]) + x[|x| - 1] * y[|y| - 1]
  {
    var n := |x|;
    var p, q := Products(x, y), Products(x[..n - 1], y[..n - 1]);
    assert p[..n - 1] == q by {
      forall i | 0 <= i < n - 1
        ensures p[..n - 1][i] == q[i]
      {
      }
    }
  }

  /** `negate`: every element negated. */
  function Negate(v: seq<real>): (r: seq<real>)
    ensures |r| == |v| && forall i :: 0 <= i < |v| ==> r[i] == -v[i]
  {
    seq(|v|, i requires 0 <= i < |v| => -v[i])
  }

  /** `scalar_add`: the scalar added to every element. */
  function ScalarAdd(v: seq<real>, s: real): (r: seq<real>)
    ensures |r| == |v| && forall i :: 0 <= i < |v| ==> r[i] == v[i] + s
  {
    seq(|v|, i requires 0 <= i < |v| => v[i] + s)
  }

  /** `vector_divide`: the elementwise quotient written `//` in the formula. */
  function VectorDivide(x: seq<real>, y: seq<real>): (r: seq<real>)
    requires |x| == |y|
    requires forall i :: 0 <= i < |y| ==> y[i] != 0.0
    ensures |r| == |x| && forall i :: 0 <= i < |x| ==> r[i] == x[i] / y[i]
  {
    seq(|x|, i requires 0 <= i < |x| => x[i] / y[i])
  }

  /** `vector_add`: the elementwise sum. */
  function VectorAdd(x: seq<real>, y: seq<real>): (r: seq<real>)
    requires |x| == |y|
    ensures |r| == |x| && forall i :: 0 <= i < |x| ==> r[i] == x[i] + y[i]
  {
    seq(|x|, i requires 0 <= i < |x| => x[i] + y[i])
  }

  /** 1 - v, built as the loss builds it: `scalar_add(negate(v), 1)`. */
  lemma OneMinus(v: seq<real>)
    ensures forall i :: 0 <= i < |v| ==> ScalarAdd(Negate(v), 1.0)[i] == 1.0 - v[i]
  {
  }
}

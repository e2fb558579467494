/** Finite sums over real sequences, folded from the left as the engine's
    accumulation loops do (`value += ...`). */
module Sums {

  function Sum(s: seq<real>): real
    decreases |s|
  {
    if |s| == 0 then 0.0 else Sum(s[..|s| - 1]) + s[|s| - 1]
  }

  /** One more step of a left-to-right accumulation. */
  lemma SumStep(s: seq<real>, k: nat)
    requires k < |s|
    ensures Sum(s[..k + 1]) == Sum(s[..k]) + s[k]
  {
    assert s[..k + 1][..k] == s[..k];
  }

  lemma {:induction false} SumConcat(s: seq<real>, t: seq<real>)
    ensures Sum(s + t) == Sum(s) + Sum(t)
    decreases |t|
  {
    if |t| == 0 {
      assert s + t == s;
    } else {
      var t' := t[..|t| - 1];
      assert (s + t)[..|s + t| - 1] == s + t';
      SumConcat(s, t');
    }
  }

  /** The sum of a pointwise sum is the sum of the sums. */
  lemma {:induction false} SumPointwiseAdd(s: seq<real>, t: seq<real>, u: seq<real>)
    requires |s| == |t| == |u|
    requires forall i :: 0 <= i < |u| ==> u[i] == s[i] + t[i]
    ensures Sum(u) == Sum(s) + Sum(t)
    decreases |u|
  {
    if |u| > 0 {
      var n := |u| - 1;
      SumPointwiseAdd(s[..n], t[..n], u[..n]);
    }
  }

  /** Dividing every term by d divides the sum by d. */
  lemma {:induction false} SumPointwiseDiv(s: seq<real>, u: seq<real>, d: real)
    requires d != 0.0
    requires |s| == |u|
    requires forall i :: 0 <= i < |u| ==> u[i] == s[i] / d
    ensures Sum(u) == Sum(s) / d
    decreases |u|
  {
    if |u| > 0 {
      var n := |u| - 1;
      SumPointwiseDiv(s[..n], u[..n], d);
      assert Sum(u) == Sum(s[..n]) / d + s[n] / d;
    }
  }

  /** A sum whose terms are all zero is zero. */
  lemma {:induction false} SumOfZeros(s: seq<real>)
    requires forall i :: 0 <= i < |s| ==> s[i] == 0.0
    ensures Sum(s) == 0.0
    decreases |s|
  {
    if |s| > 0 {
      SumOfZeros(s[..|s| - 1]);
    }
  }

  /** Multiplying by v and then by 1 / v gives x back. */
  lemma TimesThenTimesInverse(x: real, v: real)
    requires v != 0.0
    ensures (x * v) * (1.0 / v) == x
  {
  }
}

/** The trait implementations for `Vector2D` in src/vectors/implementations.rs:
    `Default`, indexing, scalar broadcasting, elementwise arithmetic and
    negation.  The source repeats each operator for owned and borrowed
    operands with identical bodies; one representative of each is modelled. */
module Implementations {
  import opened Outcomes
  import opened Models
  import opened Sums

  /** `Default`: the empty matrix of shape [0, 0]. */
  function Default(): (r: Vector2D)
    ensures Valid(r) && r.values == [] && r.shape == Shape(0, 0)
  {
    New([], Shape(0, 0)).value
  }

  // ---------------------------------------------------------------------
  // Writing through `IndexMut`

  /** `v[i] = x` through `IndexMut<usize>`: fails as `get_value_mut` does,
      otherwise replaces exactly slot i. */
  function WriteValue(m: Vector2D, i: nat, x: real): (r: Result<Vector2D>)
    ensures r.Ok? <==> GetValue(m, i).Ok?
    ensures r.Err? ==> r.error == GetValue(m, i).error
    ensures r.Ok? ==> r.value.shape == m.shape && |r.value.values| == |m.values|
    ensures r.Ok? ==> GetValue(r.value, i) == Ok(x)
    ensures r.Ok? ==> forall k :: 0 <= k < |m.values| && k != i ==> r.value.values[k] == m.values[k]
  {
    match GetValueMut(m, i)
    case Err(e) => Err(e)
    case Ok(slot) => Ok(m.(values := m.values[slot := x]))
  }

  /** `v[(i, j)] = x` through `IndexMut<(usize, usize)>`: fails as
      `get_mat_value_mut` does, otherwise replaces exactly slot i * cols + j,
      so every other entry of a valid matrix keeps its value. */
  function WriteMatValue(m: Vector2D, i: nat, j: nat, x: real): (r: Result<Vector2D>)
    ensures r.Ok? <==> GetMatValue(m, i, j).Ok?
    ensures r.Err? ==> r.error == GetMatValue(m, i, j).error
    ensures r.Ok? ==> r.value.shape == m.shape && |r.value.values| == |m.values|
    ensures r.Ok? ==> GetMatValue(r.value, i, j) == Ok(x)
    ensures r.Ok? ==> forall k :: 0 <= k < |m.values| && k != i * m.shape.cols + j ==>
                        r.value.values[k] == m.values[k]
    ensures Valid(m) && r.Ok? ==>
              (Valid(r.value) &&
               forall p: nat, q: nat :: p < m.shape.rows && q < m.shape.cols && (p != i || q != j) ==>
                 At(r.value, p, q) == At(m, p, q))
  {
    match GetMatValueMut(m, i, j)
    case Err(e) => Err(e)
    case Ok(slot) =>
      var r := m.(values := m.values[slot := x]);
      if Valid(m) then WriteKeepsOtherEntries(m, i, j, x); Ok(r) else Ok(r)
  }

  lemma WriteKeepsOtherEntries(m: Vector2D, i: nat, j: nat, x: real)
    requires Valid(m) && i < m.shape.rows && j < m.shape.cols
    ensures i * m.shape.cols + j < |m.values|
    ensures var r := m.(values := m.values[i * m.shape.cols + j := x]);
            forall p: nat, q: nat :: p < m.shape.rows && q < m.shape.cols && (p != i || q != j) ==>
              At(r, p, q) == At(m, p, q)
  {
    FlatIndexInRange(i, j, m.shape.rows, m.shape.cols);
    var r := m.(values := m.values[i * m.shape.cols + j := x]);
    forall p: nat, q: nat | p < m.shape.rows && q < m.shape.cols && (p != i || q != j)
      ensures At(r, p, q) == At(m, p, q)
    {
      FlatIndexJoin(p, q, m.shape.cols);
      FlatIndexJoin(i, j, m.shape.cols);
      FlatIndexInRange(p, q, m.shape.rows, m.shape.cols);
    }
  }

  /** The indexing example: a literal [4, 2] matrix built without `new`. */
  lemma IndexingExample()
    ensures var v := Vector2D([0.0, 1.1, 2.2, 3.3, 4.4, 5.5, 6.6, 7.7], Shape(4, 2));
            GetValue(v, 5) == Ok(5.5) && GetMatValue(v, 3, 1) == Ok(7.7) &&
            GetMatValue(v, 0, 0) == Ok(0.0) &&
            GetValue(v, 42) == Err(IndexOutOfBounds) && GetMatValue(v, 13, 1) == Err(IndexOutOfBounds)
  {
  }

  // ---------------------------------------------------------------------
  // Broadcasting a scalar

  /** One constructor per scalar operator impl; the comment gives the value
      each pushes for a matrix entry `value` and the scalar. */
  datatype ScalarOp =
    | MatrixTimesScalar   // `Vector2D * f32`: value * rhs
    | ScalarTimesMatrix   // `f32 * Vector2D`: value * self
    | MatrixOverScalar    // `Vector2D / f32`: value / rhs
    | ScalarOverMatrix    // `f32 / Vector2D`: value / self (operand order not kept)
    | MatrixPlusScalar    // `Vector2D + f32`: value + rhs
    | ScalarPlusMatrix    // `f32 + Vector2D`: value + self
    | MatrixMinusScalar   // `Vector2D - f32`: value - rhs
    | ScalarMinusMatrix   // `f32 - Vector2D`: self - value

  predicate DividesByScalar(op: ScalarOp)
  {
    op == MatrixOverScalar || op == ScalarOverMatrix
  }

  function ScalarEntry(op: ScalarOp, value: real, s: real): real
    requires DividesByScalar(op) ==> s != 0.0
  {
    match op
    case MatrixTimesScalar => value * s
    case ScalarTimesMatrix => value * s
    case MatrixOverScalar => value / s
    case ScalarOverMatrix => value / s
    case MatrixPlusScalar => value + s
    case ScalarPlusMatrix => value + s
    case MatrixMinusScalar => value - s
    case ScalarMinusMatrix => s - value
  }

  /** The values a scalar operator pushes, in order. */
  function Entries(op: ScalarOp, vs: seq<real>, s: real): (e: seq<real>)
    requires DividesByScalar(op) ==> s != 0.0
    ensures |e| == |vs| && forall k :: 0 <= k < |vs| ==> e[k] == ScalarEntry(op, vs[k], s)
  {
    seq(|vs|, k requires 0 <= k < |vs| => ScalarEntry(op, vs[k], s))
  }

  /** The matrix a scalar operator returns: the shape is kept and entry k is
      the operator applied to value k; `new` rejects an invalid operand. */
  function Broadcast(op: ScalarOp, m: Vector2D, s: real): (r: Result<Vector2D>)
    requires DividesByScalar(op) ==> s != 0.0
    ensures r.Ok? <==> Valid(m)
    ensures r.Err? ==> r.error == ShapeLengthMismatch
    ensures r.Ok? ==> Valid(r.value) && r.value.shape == m.shape && |r.value.values| == |m.values|
    ensures r.Ok? ==> forall k :: 0 <= k < |m.values| ==> r.value.values[k] == ScalarEntry(op, m.values[k], s)
  {
    New(Entries(op, m.values, s), m.shape)
  }

  /** The loop every scalar operator runs: push one entry per value, then `new`. */
  method ApplyScalar(op: ScalarOp, m: Vector2D, s: real) returns (r: Result<Vector2D>)
    requires DividesByScalar(op) ==> s != 0.0
    ensures r == Broadcast(op, m, s)
  {
    var newValues: seq<real> := [];
    for k := 0 to |m.values|
      invariant |newValues| == k
      invariant forall i :: 0 <= i < k ==> newValues[i] == ScalarEntry(op, m.values[i], s)
    {
      newValues := newValues + [ScalarEntry(op, m.values[k], s)];
    }
    assert newValues == Entries(op, m.values, s);
    r := New(newValues, m.shape);
  }

  /** M * s and s * M agree, as do M + s and s + M. */
  lemma ScalarProductAndSumCommute(m: Vector2D, s: real)
    ensures Broadcast(MatrixTimesScalar, m, s) == Broadcast(ScalarTimesMatrix, m, s)
    ensures Broadcast(MatrixPlusScalar, m, s) == Broadcast(ScalarPlusMatrix, m, s)
  {
    assert Entries(MatrixTimesScalar, m.values, s) == Entries(ScalarTimesMatrix, m.values, s);
    assert Entries(MatrixPlusScalar, m.values, s) == Entries(ScalarPlusMatrix, m.values, s);
  }

  /** s - M keeps the operand order: each entry is the negation of the
      corresponding entry of M - s. */
  lemma ScalarDifferenceKeepsOrder(m: Vector2D, s: real)
    requires Valid(m)
    ensures Broadcast(ScalarMinusMatrix, m, s).Ok? && Broadcast(MatrixMinusScalar, m, s).Ok?
    ensures forall k :: 0 <= k < |m.values| ==>
              Broadcast(ScalarMinusMatrix, m, s).value.values[k] == s - m.values[k] &&
              Broadcast(ScalarMinusMatrix, m, s).value.values[k] == -Broadcast(MatrixMinusScalar, m, s).value.values[k]
  {
  }

  /** s / M as written divides each entry by s: it is M / s. */
  lemma ScalarQuotientIgnoresOrder(m: Vector2D, s: real)
    requires s != 0.0
    ensures Broadcast(ScalarOverMatrix, m, s) == Broadcast(MatrixOverScalar, m, s)
  {
    assert Entries(ScalarOverMatrix, m.values, s) == Entries(MatrixOverScalar, m.values, s);
  }

  /** The input that shows it: 1 / [[2]] gives [[2]] rather than [[0.5]]. */
  lemma ScalarQuotientCounterexample()
    ensures Broadcast(ScalarOverMatrix, Vector2D([2.0], Shape(1, 1)), 1.0) == Ok(Vector2D([2.0], Shape(1, 1)))
  {
    var r := Broadcast(ScalarOverMatrix, Vector2D([2.0], Shape(1, 1)), 1.0).value;
    assert r.values == [2.0];
  }

  /** s / M with the operand order kept: entry k is s / value k.  Every
      entry times the matching entry of M gives back s. */
  function ScalarOverEntries(s: real, m: Vector2D): (r: Result<Vector2D>)
    requires forall k :: 0 <= k < |m.values| ==> m.values[k] != 0.0
    ensures r.Ok? <==> Valid(m)
    ensures r.Ok? ==> Valid(r.value) && r.value.shape == m.shape && |r.value.values| == |m.values|
    ensures r.Ok? ==> forall k :: 0 <= k < |m.values| ==> r.value.values[k] * m.values[k] == s
  {
    var vs := seq(|m.values|, k requires 0 <= k < |m.values| => s / m.values[k]);
    assert forall k :: 0 <= k < |m.values| ==> vs[k] * m.values[k] == s by {
      forall k | 0 <= k < |m.values|
        ensures vs[k] * m.values[k] == s
      {
        DivTimes(s, m.values[k]);
      }
    }
    New(vs, m.shape)
  }

  lemma DivTimes(s: real, v: real)
    requires v != 0.0
    ensures (s / v) * v == s
  {
  }

  /** The subtraction example: [0, 1.5, 3, 4.5] with s = 3. */
  lemma SubtractionExample()
    ensures var m := Vector2D([0.0, 1.5, 3.0, 4.5], Shape(2, 2));
            Broadcast(MatrixMinusScalar, m, 3.0) == Ok(Vector2D([-3.0, -1.5, 0.0, 1.5], Shape(2, 2))) &&
            Broadcast(ScalarMinusMatrix, m, 3.0) == Ok(Vector2D([3.0, 1.5, 0.0, -1.5], Shape(2, 2)))
  {
    var m := Vector2D([0.0, 1.5, 3.0, 4.5], Shape(2, 2));
    assert Broadcast(MatrixMinusScalar, m, 3.0).value.values == [-3.0, -1.5, 0.0, 1.5];
    assert Broadcast(ScalarMinusMatrix, m, 3.0).value.values == [3.0, 1.5, 0.0, -1.5];
  }

  /** Scaling by v and then by 1 / v gives the matrix back. */
  lemma ScalingRoundTrip(m: Vector2D, v: real)
    requires Valid(m) && v != 0.0
    ensures Broadcast(MatrixTimesScalar, m, v).Ok?
    ensures Broadcast(ScalarTimesMatrix, Broadcast(MatrixTimesScalar, m, v).value, 1.0 / v) == Ok(m)
  {
    var scaled := Broadcast(MatrixTimesScalar, m, v).value;
    var back := Broadcast(ScalarTimesMatrix, scaled, 1.0 / v).value;
    forall k | 0 <= k < |m.values|
      ensures back.values[k] == m.values[k]
    {
      TimesThenTimesInverse(m.values[k], v);
    }
    assert back.values == m.values;
  }

  /** The multiplication example: [0, 1, 2, 3] * 1.5 and back. */
  lemma MultiplicationExample()
    ensures var m := Vector2D([0.0, 1.0, 2.0, 3.0], Shape(2, 2));
            Broadcast(MatrixTimesScalar, m, 1.5) == Ok(Vector2D([0.0, 1.5, 3.0, 4.5], Shape(2, 2))) &&
            Broadcast(ScalarTimesMatrix, Vector2D([0.0, 1.5, 3.0, 4.5], Shape(2, 2)), 1.0 / 1.5) == Ok(m)
  {
    var m := Vector2D([0.0, 1.0, 2.0, 3.0], Shape(2, 2));
    assert Broadcast(MatrixTimesScalar, m, 1.5).value.values == [0.0, 1.5, 3.0, 4.5];
    ScalingRoundTrip(m, 1.5);
  }

  // ---------------------------------------------------------------------
  // Elementwise arithmetic between two matrices

  datatype BinOp = Plus | Minus | Times | Over

  function BinEntry(op: BinOp, x: real, y: real): real
    requires op == Over ==> y != 0.0
  {
    match op
    case Plus => x + y
    case Minus => x - y
    case Times => x * y
    case Over => x / y
  }

  predicate NonZeroValues(m: Vector2D)
  {
    forall k :: 0 <= k < |m.values| ==> m.values[k] != 0.0
  }

  /** `values.iter().zip(...)`: pairs up to the shorter operand. */
  function Zipped(op: BinOp, s: seq<real>, t: seq<real>): (z: seq<real>)
    requires op == Over ==> forall k :: 0 <= k < |t| ==> t[k] != 0.0
    ensures |z| == if |s| <= |t| then |s| else |t|
  {
    var n := if |s| <= |t| then |s| else |t|;
    seq(n, k requires 0 <= k < n => BinEntry(op, s[k], t[k]))
  }

  /** The matrix an elementwise operator returns: shapes must be equal, and
      entry k is the operator applied to the two values k. */
  function Combined(op: BinOp, a: Vector2D, b: Vector2D): (r: Result<Vector2D>)
    requires op == Over ==> NonZeroValues(b)
    ensures a.shape != b.shape ==> r == Err(OperandShapeMismatch)
    ensures Valid(a) && Valid(b) ==> (r.Ok? <==> a.shape == b.shape)
    ensures r.Ok? ==> a.shape == b.shape && Valid(r.value) && r.value.shape == a.shape
    ensures r.Ok? ==> forall k :: 0 <= k < |r.value.values| ==>
                        k < |a.values| && k < |b.values| &&
                        r.value.values[k] == BinEntry(op, a.values[k], b.values[k])
    ensures Valid(a) && Valid(b) && r.Ok? ==> |r.value.values| == |a.values|
  {
    if a.shape != b.shape then Err(OperandShapeMismatch)
    else New(Zipped(op, a.values, b.values), a.shape)
  }

  /** The loop every elementwise operator runs after its shape check. */
  method ApplyElementwise(op: BinOp, a: Vector2D, b: Vector2D) returns (r: Result<Vector2D>)
    requires op == Over ==> NonZeroValues(b)
    ensures r == Combined(op, a, b)
  {
    if a.shape != b.shape {
      return Err(OperandShapeMismatch);
    }
    var n := if |a.values| <= |b.values| then |a.values| else |b.values|;
    var newValues: seq<real> := [];
    for k := 0 to n
      invariant |newValues| == k
      invariant forall i :: 0 <= i < k ==> newValues[i] == BinEntry(op, a.values[i], b.values[i])
    {
      newValues := newValues + [BinEntry(op, a.values[k], b.values[k])];
    }
    assert newValues == Zipped(op, a.values, b.values);
    r := New(newValues, a.shape);
  }

  /** (a - b) + b == a for matrices of one shape. */
  lemma DifferenceThenSumRestores(a: Vector2D, b: Vector2D)
    requires Valid(a) && Valid(b) && a.shape == b.shape
    ensures Combined(Minus, a, b).Ok?
    ensures Combined(Plus, Combined(Minus, a, b).value, b) == Ok(a)
  {
    var d := Combined(Minus, a, b).value;
    var back := Combined(Plus, d, b).value;
    assert back.values == a.values;
  }

  /** (a / b) * b == a when b has no zero entry. */
  lemma QuotientThenProductRestores(a: Vector2D, b: Vector2D)
    requires Valid(a) && Valid(b) && a.shape == b.shape && NonZeroValues(b)
    ensures Combined(Over, a, b).Ok?
    ensures Combined(Times, Combined(Over, a, b).value, b) == Ok(a)
  {
    var q := Combined(Over, a, b).value;
    var back := Combined(Times, q, b).value;
    forall k | 0 <= k < |a.values|
      ensures back.values[k] == a.values[k]
    {
      DivTimes(a.values[k], b.values[k]);
    }
    assert back.values == a.values;
  }

  // ---------------------------------------------------------------------
  // Negation

  function Negated(vs: seq<real>): (e: seq<real>)
    ensures |e| == |vs| && forall k :: 0 <= k < |vs| ==> e[k] == -vs[k]
  {
    seq(|vs|, k requires 0 <= k < |vs| => -vs[k])
  }

  function Negation(m: Vector2D): (r: Result<Vector2D>)
    ensures r.Ok? <==> Valid(m)
    ensures r.Ok? ==> Valid(r.value) && r.value.shape == m.shape && |r.value.values| == |m.values|
    ensures r.Ok? ==> forall k :: 0 <= k < |m.values| ==> r.value.values[k] == -m.values[k]
  {
    New(Negated(m.values), m.shape)
  }

  /** `Neg`: push the negation of every value, then `new`. */
  method Neg(m: Vector2D) returns (r: Result<Vector2D>)
    ensures r == Negation(m)
  {
    var newValues: seq<real> := [];
    for k := 0 to |m.values|
      invariant |newValues| == k
      invariant forall i :: 0 <= i < k ==> newValues[i] == -m.values[i]
    {
      newValues := newValues + [-m.values[k]];
    }
    assert newValues == Negated(m.values);
    r := New(newValues, m.shape);
  }

  lemma NegationTwice(m: Vector2D)
    requires Valid(m)
    ensures Negation(m).Ok? && Negation(Negation(m).value) == Ok(m)
  {
    assert Negation(Negation(m).value).value.values == m.values;
  }

  lemma NegationIsScalingByMinusOne(m: Vector2D)
    ensures Negation(m) == Broadcast(MatrixTimesScalar, m, -1.0)
  {
    assert Negated(m.values) == Entries(MatrixTimesScalar, m.values, -1.0);
  }
}

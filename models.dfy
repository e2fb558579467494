/** The dense matrix `Vector2D` of src/vectors/models.rs: a flat row-major
    sequence of values plus a `[rows, cols]` shape.  Elements are reals. */
module Models {
  import opened Outcomes
  import opened Sums

  datatype Shape = Shape(rows: nat, cols: nat)

  /** Both fields are public in the source, so a value may be built without
      `new`; the length invariant is therefore a predicate, not a type. */
  datatype Vector2D = Vector2D(values: seq<real>, shape: Shape)

  predicate Valid(m: Vector2D)
  {
    |m.values| == m.shape.rows * m.shape.cols
  }

  /** Every in-range entry has a storage slot: `get_mat_value` never reads
      past the end.  A valid matrix is stored; so is a literal with more
      values than rows * cols, whose extra values are never read. */
  predicate Stored(m: Vector2D)
  {
    m.shape.rows * m.shape.cols <= |m.values|
  }

  // ---------------------------------------------------------------------
  // Row-major index arithmetic

  lemma MulAtLeast(x: int, c: nat)
    requires x >= 1
    ensures x * c >= c
  {
    assert x * c == c + (x - 1) * c;
  }

  /** Entry (i, j) of a rows x cols matrix lies inside its storage. */
  lemma FlatIndexInRange(i: nat, j: nat, rows: nat, cols: nat)
    requires i < rows && j < cols
    ensures i * cols + j < rows * cols
  {
    var d: nat := rows - (i + 1);
    assert rows * cols == (i + 1) * cols + d * cols;
    assert (i + 1) * cols == i * cols + cols;
  }

  /** Every flat index of a rows x cols matrix comes from one (row, column). */
  lemma FlatIndexSplit(k: nat, rows: nat, cols: nat)
    requires k < rows * cols
    ensures cols > 0 && k / cols < rows && (k / cols) * cols + k % cols == k
  {
  }

  /** ... and that (row, column) is recovered by division and remainder. */
  lemma FlatIndexJoin(i: nat, j: nat, cols: nat)
    requires j < cols
    ensures (i * cols + j) / cols == i && (i * cols + j) % cols == j
  {
    var k := i * cols + j;
    var q, r := k / cols, k % cols;
    assert k == q * cols + r;
    assert (q - i) * cols == j - r by {
      assert (q - i) * cols == q * cols - i * cols;
    }
    if q > i {
      MulAtLeast(q - i, cols);
      assert false;
    } else if q < i {
      MulAtLeast(i - q, cols);
      assert false;
    }
  }

  /** Entry (i, j) of a stored matrix. */
  function At(m: Vector2D, i: nat, j: nat): real
    requires Stored(m) && i < m.shape.rows && j < m.shape.cols
  {
    FlatIndexInRange(i, j, m.shape.rows, m.shape.cols);
    m.values[i * m.shape.cols + j]
  }

  function Column(m: Vector2D, c: nat): (s: seq<real>)
    requires Stored(m) && c < m.shape.cols
    ensures |s| == m.shape.rows
  {
    seq(m.shape.rows, r requires 0 <= r < m.shape.rows => At(m, r, c))
  }

  function Row(m: Vector2D, r: nat): (s: seq<real>)
    requires Stored(m) && r < m.shape.rows
    ensures |s| == m.shape.cols
  {
    seq(m.shape.cols, c requires 0 <= c < m.shape.cols => At(m, r, c))
  }

  // ---------------------------------------------------------------------
  // Construction, length, transpose

  /** `Vector2D::new`: panics unless the length matches the shape. */
  function New(values: seq<real>, shape: Shape): (r: Result<Vector2D>)
    ensures r.Ok? <==> |values| == shape.rows * shape.cols
    ensures r.Ok? ==> Valid(r.value) && r.value.values == values && r.value.shape == shape
    ensures r.Err? ==> r.error == ShapeLengthMismatch
  {
    if |values| != shape.rows * shape.cols then Err(ShapeLengthMismatch)
    else Ok(Vector2D(values, shape))
  }

  function Len(m: Vector2D): (n: nat)
    ensures Valid(m) ==> n == m.shape.rows * m.shape.cols
  {
    |m.values|
  }

  /** `transpose` as written: the shape is swapped and the values are copied
      in their original order. */
  function Transpose(m: Vector2D): (r: Result<Vector2D>)
    ensures r.Ok? <==> Valid(m)
    ensures r.Ok? ==> r.value.values == m.values && r.value.shape == Shape(m.shape.cols, m.shape.rows)
  {
    New(m.values, Shape(m.shape.cols, m.shape.rows))
  }

  lemma TransposeTwice(m: Vector2D)
    requires Valid(m)
    ensures Transpose(m).Ok? && Transpose(Transpose(m).value) == Ok(m)
  {
  }

  /** On the matrix [[0,1,2],[3,4,5]] the as-written transpose does not move
      entry (0, 1) to position (1, 0). */
  lemma TransposeDoesNotSwapEntries()
    ensures var m := Vector2D([0.0, 1.0, 2.0, 3.0, 4.0, 5.0], Shape(2, 3));
            Transpose(m).Ok? && At(Transpose(m).value, 1, 0) == 2.0 && At(m, 0, 1) == 1.0
  {
  }

  /** The first n columns of m, one after the other: the values of the
      first n rows of m's transpose in row-major order. */
  function ColumnsFrom(m: Vector2D, n: nat): (vs: seq<real>)
    requires Valid(m) && n <= m.shape.cols
    ensures |vs| == n * m.shape.rows
  {
    if n == 0 then []
    else
      assert n * m.shape.rows == (n - 1) * m.shape.rows + m.shape.rows;
      ColumnsFrom(m, n - 1) + Column(m, n - 1)
  }

  /** Position j * rows + i of the concatenated columns holds entry (i, j). */
  lemma {:induction false} ColumnsFromEntry(m: Vector2D, n: nat, i: nat, j: nat)
    requires Valid(m) && n <= m.shape.cols && i < m.shape.rows && j < n
    ensures j * m.shape.rows + i < |ColumnsFrom(m, n)|
    ensures ColumnsFrom(m, n)[j * m.shape.rows + i] == At(m, i, j)
  {
    FlatIndexInRange(j, i, n, m.shape.rows);
    if j < n - 1 {
      ColumnsFromEntry(m, n - 1, i, j);
    }
  }

  /** Transpose with the row-major permutation: entry (i, j) moves to (j, i). */
  function TransposeRowMajor(m: Vector2D): (r: Result<Vector2D>)
    ensures r.Ok? <==> Valid(m)
    ensures r.Ok? ==> Valid(r.value) && r.value.shape == Shape(m.shape.cols, m.shape.rows)
    ensures r.Ok? ==> forall i: nat, j: nat :: i < m.shape.rows && j < m.shape.cols ==>
                        At(r.value, j, i) == At(m, i, j)
  {
    if !Valid(m) then Err(ShapeLengthMismatch)
    else
      var r := New(ColumnsFrom(m, m.shape.cols), Shape(m.shape.cols, m.shape.rows));
      assert forall i: nat, j: nat :: i < m.shape.rows && j < m.shape.cols ==>
               At(r.value, j, i) == At(m, i, j) by {
        forall i: nat, j: nat | i < m.shape.rows && j < m.shape.cols
          ensures At(r.value, j, i) == At(m, i, j)
        {
          ColumnsFromEntry(m, m.shape.cols, i, j);
        }
      }
      r
  }

  /** Two well-formed matrices of the same shape with the same entries are
      the same matrix. */
  lemma SameEntries(a: Vector2D, b: Vector2D)
    requires Valid(a) && Valid(b) && a.shape == b.shape
    requires forall i: nat, j: nat :: i < a.shape.rows && j < a.shape.cols ==> At(a, i, j) == At(b, i, j)
    ensures a == b
  {
    forall k | 0 <= k < |a.values|
      ensures a.values[k] == b.values[k]
    {
      FlatIndexSplit(k, a.shape.rows, a.shape.cols);
      assert At(a, k / a.shape.cols, k % a.shape.cols) == At(b, k / a.shape.cols, k % a.shape.cols);
    }
    assert a.values == b.values;
  }

  lemma TransposeRowMajorTwice(m: Vector2D)
    requires Valid(m)
    ensures TransposeRowMajor(m).Ok?
    ensures TransposeRowMajor(TransposeRowMajor(m).value) == Ok(m)
  {
    var t := TransposeRowMajor(m).value;
    var tt := TransposeRowMajor(t).value;
    forall i: nat, j: nat | i < m.shape.rows && j < m.shape.cols
      ensures At(tt, i, j) == At(m, i, j)
    {
      assert At(tt, i, j) == At(t, j, i);
    }
    SameEntries(tt, m);
  }

  /** For a row or column vector the row-major transpose keeps the value
      order, so it agrees with the as-written transpose. */
  lemma TransposeAgreesOnVectors(m: Vector2D)
    requires Valid(m) && (m.shape.rows == 1 || m.shape.cols == 1)
    ensures TransposeRowMajor(m) == Transpose(m)
  {
    var t := TransposeRowMajor(m).value;
    forall k | 0 <= k < |m.values|
      ensures t.values[k] == m.values[k]
    {
      if m.shape.rows == 1 {
        assert At(t, k, 0) == At(m, 0, k);
      } else {
        assert At(t, 0, k) == At(m, k, 0);
      }
    }
    assert t.values == m.values;
  }

  /** The 2 x 3 example: the row-major transpose gives [0,3,1,4,2,5]. */
  lemma TransposeRowMajorExample()
    ensures TransposeRowMajor(Vector2D([0.0, 1.0, 2.0, 3.0, 4.0, 5.0], Shape(2, 3)))
            == Ok(Vector2D([0.0, 3.0, 1.0, 4.0, 2.0, 5.0], Shape(3, 2)))
  {
    var m := Vector2D([0.0, 1.0, 2.0, 3.0, 4.0, 5.0], Shape(2, 3));
    assert Column(m, 0) == [0.0, 3.0];
    assert Column(m, 1) == [1.0, 4.0];
    assert Column(m, 2) == [2.0, 5.0];
    assert ColumnsFrom(m, 1) == [0.0, 3.0];
    assert ColumnsFrom(m, 2) == [0.0, 3.0, 1.0, 4.0];
    assert ColumnsFrom(m, 3) == [0.0, 3.0, 1.0, 4.0, 2.0, 5.0];
  }

  // ---------------------------------------------------------------------
  // Element access

  /** `get_value` (and `Index<usize>`). */
  function GetValue(m: Vector2D, i: nat): (r: Result<real>)
    ensures r.Ok? <==> i < |m.values|
    ensures r.Ok? ==> r.value == m.values[i]
    ensures r.Err? ==> r.error == IndexOutOfBounds
  {
    if i >= |m.values| then Err(IndexOutOfBounds) else Ok(m.values[i])
  }

  /** `get_value_mut`: the mutable reference it hands out is the slot index
      into `values`. */
  function GetValueMut(m: Vector2D, i: nat): (r: Result<nat>)
    ensures r.Ok? <==> GetValue(m, i).Ok?
    ensures r.Ok? ==> r.value == i && GetValue(m, i) == Ok(m.values[r.value])
    ensures r.Err? ==> r.error == GetValue(m, i).error
  {
    if i >= |m.values| then Err(IndexOutOfBounds) else Ok(i)
  }

  /** `get_mat_value` (and `Index<(usize, usize)>`).  On a stored matrix the
      storage check never fails; on a literal with too few values the `Vec`
      index itself panics. */
  function GetMatValue(m: Vector2D, i: nat, j: nat): (r: Result<real>)
    ensures (i >= m.shape.rows || j >= m.shape.cols) ==> r == Err(IndexOutOfBounds)
    ensures Stored(m) ==> (r.Ok? <==> i < m.shape.rows && j < m.shape.cols)
    ensures r.Ok? ==> i * m.shape.cols + j < |m.values| && r.value == m.values[i * m.shape.cols + j]
    ensures r.Err? && i < m.shape.rows && j < m.shape.cols ==>
              r.error == StorageOutOfBounds && i * m.shape.cols + j >= |m.values|
    ensures Stored(m) && r.Ok? ==> r.value == At(m, i, j)
  {
    if i >= m.shape.rows || j >= m.shape.cols then Err(IndexOutOfBounds)
    else
      var k := i * m.shape.cols + j;
      if Stored(m) then FlatIndexInRange(i, j, m.shape.rows, m.shape.cols); Ok(m.values[k])
      else if k >= |m.values| then Err(StorageOutOfBounds)
      else Ok(m.values[k])
  }

  /** `get_mat_value_mut`: same checks as `get_mat_value`, handing out the
      slot it reads. */
  function GetMatValueMut(m: Vector2D, i: nat, j: nat): (r: Result<nat>)
    ensures r.Ok? <==> GetMatValue(m, i, j).Ok?
    ensures r.Ok? ==> r.value == i * m.shape.cols + j && r.value < |m.values|
                      && GetMatValue(m, i, j) == Ok(m.values[r.value])
    ensures r.Err? ==> r.error == GetMatValue(m, i, j).error
  {
    if i >= m.shape.rows || j >= m.shape.cols then Err(IndexOutOfBounds)
    else if i * m.shape.cols + j >= |m.values| then Err(StorageOutOfBounds)
    else Ok(i * m.shape.cols + j)
  }

  /** Flat and (row, column) indexing read the same storage, in both
      directions. */
  lemma FlatAndMatIndexAgree(m: Vector2D, i: nat, j: nat)
    requires Valid(m) && i < m.shape.rows && j < m.shape.cols
    ensures GetMatValue(m, i, j).Ok?
    ensures GetMatValue(m, i, j) == GetValue(m, i * m.shape.cols + j)
  {
  }

  lemma EveryFlatIndexIsAnEntry(m: Vector2D, k: nat)
    requires Valid(m) && k < |m.values|
    ensures m.shape.cols > 0 && k / m.shape.cols < m.shape.rows
    ensures GetMatValue(m, k / m.shape.cols, k % m.shape.cols) == GetValue(m, k)
  {
    FlatIndexSplit(k, m.shape.rows, m.shape.cols);
  }

  // ---------------------------------------------------------------------
  // Matrix product

  /** The products summed into entry (r, c) of a·b. */
  function Terms(a: Vector2D, b: Vector2D, r: nat, c: nat): (t: seq<real>)
    requires Valid(a) && Valid(b) && a.shape.cols == b.shape.rows
    requires r < a.shape.rows && c < b.shape.cols
    ensures |t| == a.shape.cols
  {
    seq(a.shape.cols, k requires 0 <= k < a.shape.cols => At(a, r, k) * At(b, k, c))
  }

  /** The first n entries of row r of a·b. */
  function PartialRow(a: Vector2D, b: Vector2D, r: nat, n: nat): (s: seq<real>)
    requires Valid(a) && Valid(b) && a.shape.cols == b.shape.rows
    requires r < a.shape.rows && n <= b.shape.cols
    ensures |s| == n
  {
    seq(n, c requires 0 <= c < n => Sum(Terms(a, b, r, c)))
  }

  lemma PartialRowStep(a: Vector2D, b: Vector2D, r: nat, n: nat)
    requires Valid(a) && Valid(b) && a.shape.cols == b.shape.rows
    requires r < a.shape.rows && n < b.shape.cols
    ensures PartialRow(a, b, r, n + 1) == PartialRow(a, b, r, n) + [Sum(Terms(a, b, r, n))]
  {
  }

  /** Values of the first n rows of a·b, in row-major order. */
  function ProductRows(a: Vector2D, b: Vector2D, n: nat): (s: seq<real>)
    requires Valid(a) && Valid(b) && a.shape.cols == b.shape.rows && n <= a.shape.rows
    ensures |s| == n * b.shape.cols
  {
    if n == 0 then []
    else
      assert n * b.shape.cols == (n - 1) * b.shape.cols + b.shape.cols;
      ProductRows(a, b, n - 1) + PartialRow(a, b, n - 1, b.shape.cols)
  }

  lemma {:induction false} ProductRowsEntry(a: Vector2D, b: Vector2D, n: nat, r: nat, c: nat)
    requires Valid(a) && Valid(b) && a.shape.cols == b.shape.rows && n <= a.shape.rows
    requires r < n && c < b.shape.cols
    ensures r * b.shape.cols + c < |ProductRows(a, b, n)|
    ensures ProductRows(a, b, n)[r * b.shape.cols + c] == Sum(Terms(a, b, r, c))
  {
    FlatIndexInRange(r, c, n, b.shape.cols);
    if r < n - 1 {
      ProductRowsEntry(a, b, n - 1, r, c);
    }
  }

  /** The matrix product: defined iff self.cols == other.rows; the result has
      shape [self.rows, other.cols] and entry (i, j) = sum over k of
      a[i, k] * b[k, j]. */
  function MatrixProduct(a: Vector2D, b: Vector2D): (r: Result<Vector2D>)
    requires Valid(a) && Valid(b)
    ensures r.Ok? <==> a.shape.cols == b.shape.rows
    ensures r.Err? ==> r.error == DotShapeMismatch
    ensures r.Ok? ==> Valid(r.value) && r.value.shape == Shape(a.shape.rows, b.shape.cols)
    ensures r.Ok? ==> forall i: nat, j: nat :: i < a.shape.rows && j < b.shape.cols ==>
                        At(r.value, i, j) == Sum(Terms(a, b, i, j))
  {
    if a.shape.cols != b.shape.rows then Err(DotShapeMismatch)
    else
      var r := New(ProductRows(a, b, a.shape.rows), Shape(a.shape.rows, b.shape.cols));
      assert forall i: nat, j: nat :: i < a.shape.rows && j < b.shape.cols ==>
               At(r.value, i, j) == Sum(Terms(a, b, i, j)) by {
        forall i: nat, j: nat | i < a.shape.rows && j < b.shape.cols
          ensures At(r.value, i, j) == Sum(Terms(a, b, i, j))
        {
          ProductRowsEntry(a, b, a.shape.rows, i, j);
        }
      }
      r
  }

  /** The innermost loop of `dot`: accumulates a[row, idx] * b[idx, col],
      skipping a term when either factor is zero. */
  method EntryValue(a: Vector2D, b: Vector2D, row: nat, col: nat) returns (value: real)
    requires Valid(a) && Valid(b) && a.shape.cols == b.shape.rows
    requires row < a.shape.rows && col < b.shape.cols
    ensures value == Sum(Terms(a, b, row, col))
  {
    ghost var terms := Terms(a, b, row, col);
    value := 0.0;
    for idx := 0 to a.shape.cols
      invariant value == Sum(terms[..idx])
    {
      var x := GetMatValue(a, row, idx).value;
      var y := GetMatValue(b, idx, col).value;
      SumStep(terms, idx);
      assert terms[idx] == x * y;
      if x == 0.0 || y == 0.0 {
        assert x * y == 0.0;
        continue;
      }
      value := value + x * y;
    }
    assert terms[..a.shape.cols] == terms;
  }

  /** `dot`: the triple loop, skipping a term when either factor is zero. */
  method Dot(a: Vector2D, b: Vector2D) returns (r: Result<Vector2D>)
    requires Valid(a) && Valid(b)
    ensures r == MatrixProduct(a, b)
  {
    if a.shape.cols != b.shape.rows {
      return Err(DotShapeMismatch);
    }
    var result: seq<real> := [];
    var rows, cols := a.shape.rows, b.shape.cols;
    for row := 0 to rows
      invariant result == ProductRows(a, b, row)
    {
      ghost var done := result;
      for col := 0 to cols
        invariant result == done + PartialRow(a, b, row, col)
      {
        var value := EntryValue(a, b, row, col);
        PartialRowStep(a, b, row, col);
        result := result + [value];
      }
    }
    r := New(result, Shape(rows, cols));
  }

  /** The 2 x 3 times 3 x 1 example gives [5, 15.5] of shape [2, 1]. */
  lemma DotExample()
    ensures MatrixProduct(Vector2D([0.0, 1.0, 2.0, 3.0, 4.0, 5.0], Shape(2, 3)),
                          Vector2D([0.5, 1.0, 2.0], Shape(3, 1)))
            == Ok(Vector2D([5.0, 15.5], Shape(2, 1)))
  {
    var a := Vector2D([0.0, 1.0, 2.0, 3.0, 4.0, 5.0], Shape(2, 3));
    var b := Vector2D([0.5, 1.0, 2.0], Shape(3, 1));
    var p := MatrixProduct(a, b).value;
    assert Terms(a, b, 0, 0) == [0.0, 1.0, 4.0];
    assert Terms(a, b, 1, 0) == [1.5, 4.0, 10.0];
    assert Sum([0.0, 1.0, 4.0]) == 5.0 by {
      assert [0.0, 1.0, 4.0][..2] == [0.0, 1.0];
      assert [0.0, 1.0][..1] == [0.0];
    }
    assert Sum([1.5, 4.0, 10.0]) == 15.5 by {
      assert [1.5, 4.0, 10.0][..2] == [1.5, 4.0];
      assert [1.5, 4.0][..1] == [1.5];
    }
    assert p.values[0] == At(p, 0, 0) == 5.0;
    assert p.values[1] == At(p, 1, 0) == 15.5;
    assert p.values == [5.0, 15.5];
  }

  /** The products summed into entry (i, j) of a·b are those summed into
      entry (j, i) of bt·at, when bt and at hold the entries of b and a
      swapped. */
  lemma TermsOfTransposes(a: Vector2D, b: Vector2D, at: Vector2D, bt: Vector2D, i: nat, j: nat)
    requires Valid(a) && Valid(b) && a.shape.cols == b.shape.rows
    requires Valid(at) && at.shape == Shape(a.shape.cols, a.shape.rows)
    requires Valid(bt) && bt.shape == Shape(b.shape.cols, b.shape.rows)
    requires forall p: nat, q: nat :: p < a.shape.rows && q < a.shape.cols ==> At(at, q, p) == At(a, p, q)
    requires forall p: nat, q: nat :: p < b.shape.rows && q < b.shape.cols ==> At(bt, q, p) == At(b, p, q)
    requires i < a.shape.rows && j < b.shape.cols
    ensures Terms(a, b, i, j) == Terms(bt, at, j, i)
  {
    var s, t := Terms(a, b, i, j), Terms(bt, at, j, i);
    forall k | 0 <= k < a.shape.cols
      ensures s[k] == t[k]
    {
      var x, y := At(a, i, k), At(b, k, j);
      assert At(bt, j, k) == y && At(at, k, i) == x;
      assert s[k] == x * y && t[k] == y * x;
    }
    assert s == t;
  }

  /** With the row-major transpose, the transpose of a product is the
      product of the transposes in reverse order. */
  lemma TransposeOfProduct(a: Vector2D, b: Vector2D)
    requires Valid(a) && Valid(b) && a.shape.cols == b.shape.rows
    ensures MatrixProduct(a, b).Ok?
    ensures var bt, at := TransposeRowMajor(b).value, TransposeRowMajor(a).value;
            MatrixProduct(bt, at).Ok? &&
            TransposeRowMajor(MatrixProduct(a, b).value) == MatrixProduct(bt, at)
  {
    var p := MatrixProduct(a, b).value;
    var pt := TransposeRowMajor(p).value;
    var bt, at := TransposeRowMajor(b).value, TransposeRowMajor(a).value;
    var q := MatrixProduct(bt, at).value;
    forall j: nat, i: nat | j < b.shape.cols && i < a.shape.rows
      ensures At(pt, j, i) == At(q, j, i)
    {
      TermsOfTransposes(a, b, at, bt, i, j);
      assert At(pt, j, i) == At(p, i, j) == Sum(Terms(a, b, i, j));
      assert At(q, j, i) == Sum(Terms(bt, at, j, i));
    }
    SameEntries(pt, q);
  }

  // ---------------------------------------------------------------------
  // Elementwise logarithm

  /** `ln`: the logarithm `ln` is a parameter (any real function); the
      result keeps the shape and holds ln of each value, in order. */
  method Ln(ln: real -> real, m: Vector2D) returns (r: Result<Vector2D>)
    ensures r.Ok? <==> Valid(m)
    ensures r.Err? ==> r.error == ShapeLengthMismatch
    ensures r.Ok? ==> r.value.shape == m.shape && |r.value.values| == |m.values|
    ensures r.Ok? ==> forall k :: 0 <= k < |m.values| ==> r.value.values[k] == ln(m.values[k])
  {
    var logValues: seq<real> := [];
    for k := 0 to |m.values|
      invariant |logValues| == k
      invariant forall i :: 0 <= i < k ==> logValues[i] == ln(m.values[i])
    {
      logValues := logValues + [ln(m.values[k])];
    }
    r := New(logValues, m.shape);
  }

  // ---------------------------------------------------------------------
  // Means

  function ColumnMeans(m: Vector2D): (s: seq<real>)
    requires Stored(m) && (m.shape.rows > 0 || m.shape.cols == 0)
    ensures |s| == m.shape.cols
    ensures forall c :: 0 <= c < m.shape.cols ==> s[c] == Sum(Column(m, c)) / (m.shape.rows as real)
  {
    seq(m.shape.cols, c requires 0 <= c < m.shape.cols => Sum(Column(m, c)) / (m.shape.rows as real))
  }

  function RowMeans(m: Vector2D): (s: seq<real>)
    requires Stored(m) && (m.shape.cols > 0 || m.shape.rows == 0)
    ensures |s| == m.shape.rows
    ensures forall i :: 0 <= i < m.shape.rows ==> s[i] == Sum(Row(m, i)) / (m.shape.cols as real)
  {
    seq(m.shape.rows, i requires 0 <= i < m.shape.rows => Sum(Row(m, i)) / (m.shape.cols as real))
  }

  /** Column means ([1, cols]) for axis 0, row means ([rows, 1]) for axis 1,
      a failure for any other axis whatever the matrix.  Only the first
      rows * cols values are read; a literal with fewer values fails in
      `get_mat_value`.  An empty axis only divides by zero when there is
      something to divide. */
  function Means(m: Vector2D, axis: nat): (r: Result<Vector2D>)
    requires axis == 0 ==> m.shape.rows > 0 || m.shape.cols == 0
    requires axis == 1 ==> m.shape.cols > 0 || m.shape.rows == 0
    ensures r.Ok? <==> axis <= 1 && Stored(m)
    ensures r.Err? ==> r.error == (if axis > 1 then InvalidAxis else StorageOutOfBounds)
    ensures r.Ok? ==> Valid(r.value)
    ensures r.Ok? && axis == 0 ==>
              r.value.shape == Shape(1, m.shape.cols) &&
              forall c: nat :: c < m.shape.cols ==>
                r.value.values[c] == Sum(Column(m, c)) / (m.shape.rows as real)
    ensures r.Ok? && axis == 1 ==>
              r.value.shape == Shape(m.shape.rows, 1) &&
              forall i: nat :: i < m.shape.rows ==>
                r.value.values[i] == Sum(Row(m, i)) / (m.shape.cols as real)
  {
    if axis > 1 then Err(InvalidAxis)
    else if !Stored(m) then Err(StorageOutOfBounds)
    else if axis == 0 then New(ColumnMeans(m), Shape(1, m.shape.cols))
    else New(RowMeans(m), Shape(m.shape.rows, 1))
  }

  /** An in-range read that fails shows the literal is short. */
  lemma FailedReadIsShort(m: Vector2D, i: nat, j: nat)
    requires i < m.shape.rows && j < m.shape.cols && GetMatValue(m, i, j).Err?
    ensures GetMatValue(m, i, j).error == StorageOutOfBounds && !Stored(m)
  {
    FlatIndexInRange(i, j, m.shape.rows, m.shape.cols);
  }

  /** A read of the last entry that succeeds shows every entry is stored. */
  lemma LastReadIsStored(m: Vector2D)
    requires m.shape.rows > 0 && m.shape.cols > 0
    requires GetMatValue(m, m.shape.rows - 1, m.shape.cols - 1).Ok?
    ensures Stored(m)
  {
    var rows, cols := m.shape.rows, m.shape.cols;
    assert (rows - 1) * cols + (cols - 1) + 1 == rows * cols;
  }

  /** The inner loop of `mean(0)`: accumulates one column, or stops at the
      first read past the end of a short literal. */
  method ColumnTotal(m: Vector2D, column: nat) returns (r: Result<real>)
    requires column < m.shape.cols
    ensures Stored(m) ==> r == Ok(Sum(Column(m, column)))
    ensures r.Err? ==> r.error == StorageOutOfBounds && !Stored(m)
    ensures r.Ok? && column + 1 == m.shape.cols ==> Stored(m)
  {
    var rows := m.shape.rows;
    var value := 0.0;
    for row := 0 to rows
      invariant Stored(m) ==> value == Sum(Column(m, column)[..row])
      invariant row == rows && column + 1 == m.shape.cols ==> Stored(m)
    {
      var entry := GetMatValue(m, row, column);
      if entry.Err? {
        FailedReadIsShort(m, row, column);
        return Err(entry.error);
      }
      if Stored(m) {
        SumStep(Column(m, column), row);
      }
      value := value + entry.value;
      if row + 1 == rows && column + 1 == m.shape.cols {
        LastReadIsStored(m);
      }
    }
    if Stored(m) {
      assert Column(m, column)[..rows] == Column(m, column);
    }
    r := Ok(value);
  }

  /** The inner loop of `mean(1)`: accumulates one row, or stops at the
      first read past the end of a short literal. */
  method RowTotal(m: Vector2D, row: nat) returns (r: Result<real>)
    requires row < m.shape.rows
    ensures Stored(m) ==> r == Ok(Sum(Row(m, row)))
    ensures r.Err? ==> r.error == StorageOutOfBounds && !Stored(m)
    ensures r.Ok? && row + 1 == m.shape.rows ==> Stored(m)
  {
    var cols := m.shape.cols;
    var value := 0.0;
    for column := 0 to cols
      invariant Stored(m) ==> value == Sum(Row(m, row)[..column])
      invariant column == cols && row + 1 == m.shape.rows ==> Stored(m)
    {
      var entry := GetMatValue(m, row, column);
      if entry.Err? {
        FailedReadIsShort(m, row, column);
        return Err(entry.error);
      }
      if Stored(m) {
        SumStep(Row(m, row), column);
      }
      value := value + entry.value;
      if row + 1 == m.shape.rows && column + 1 == cols {
        LastReadIsStored(m);
      }
    }
    if Stored(m) {
      assert Row(m, row)[..cols] == Row(m, row);
    }
    r := Ok(value);
  }

  /** `mean`: nested accumulation loops, one per axis; the axis is checked
      before anything is read. */
  method Mean(m: Vector2D, axis: nat) returns (r: Result<Vector2D>)
    requires axis == 0 ==> m.shape.rows > 0 || m.shape.cols == 0
    requires axis == 1 ==> m.shape.cols > 0 || m.shape.rows == 0
    ensures r == Means(m, axis)
  {
    var rows, cols := m.shape.rows, m.shape.cols;
    var newShape := m.shape;
    var newValues: seq<real> := [];
    if axis == 0 {
      for column := 0 to cols
        invariant |newValues| == column
        invariant Stored(m) ==> forall c :: 0 <= c < column ==> newValues[c] == ColumnMeans(m)[c]
        invariant column == cols ==> Stored(m)
      {
        var value := ColumnTotal(m, column);
        if value.Err? {
          return Err(value.error);
        }
        newValues := newValues + [value.value / (rows as real)];
      }
      assert newValues == ColumnMeans(m);
      newShape := Shape(1, cols);
    } else if axis == 1 {
      for row := 0 to rows
        invariant |newValues| == row
        invariant Stored(m) ==> forall i :: 0 <= i < row ==> newValues[i] == RowMeans(m)[i]
        invariant row == rows ==> Stored(m)
      {
        var value := RowTotal(m, row);
        if value.Err? {
          return Err(value.error);
        }
        newValues := newValues + [value.value / (cols as real)];
      }
      assert newValues == RowMeans(m);
      newShape := Shape(rows, 1);
    } else {
      return Err(InvalidAxis);
    }
    r := New(newValues, newShape);
  }

  /** Sums of the first k entries of every column. */
  function ColumnPrefixSums(m: Vector2D, k: nat): (s: seq<real>)
    requires Stored(m) && k <= m.shape.rows
    ensures |s| == m.shape.cols
  {
    seq(m.shape.cols, c requires 0 <= c < m.shape.cols => Sum(Column(m, c)[..k]))
  }

  /** Row r occupies the slice [r * cols, (r + 1) * cols) of the storage. */
  lemma RowIsSlice(m: Vector2D, r: nat)
    requires Stored(m) && r < m.shape.rows
    ensures r * m.shape.cols + m.shape.cols <= |m.values|
    ensures m.values[r * m.shape.cols..r * m.shape.cols + m.shape.cols] == Row(m, r)
  {
    var rows, cols := m.shape.rows, m.shape.cols;
    var d: nat := rows - (r + 1);
    assert rows * cols == (r + 1) * cols + d * cols;
    assert (r + 1) * cols == r * cols + cols;
    forall c | 0 <= c < cols
      ensures m.values[r * cols..r * cols + cols][c] == Row(m, r)[c]
    {
      FlatIndexInRange(r, c, rows, cols);
    }
  }

  /** Extending every column prefix by one row adds that row's entries. */
  lemma ColumnPrefixStep(m: Vector2D, k: nat)
    requires Stored(m) && k < m.shape.rows
    ensures Sum(ColumnPrefixSums(m, k + 1)) == Sum(ColumnPrefixSums(m, k)) + Sum(Row(m, k))
  {
    var before, after, line := ColumnPrefixSums(m, k), ColumnPrefixSums(m, k + 1), Row(m, k);
    forall c | 0 <= c < m.shape.cols
      ensures after[c] == before[c] + line[c]
    {
      SumStep(Column(m, c), k);
    }
    SumPointwiseAdd(before, line, after);
  }

  /** One more row of the storage adds that row's sum. */
  lemma StoragePrefixStep(m: Vector2D, j: nat)
    requires Stored(m) && j < m.shape.rows
    ensures (j + 1) * m.shape.cols <= |m.values|
    ensures Sum(m.values[..(j + 1) * m.shape.cols]) == Sum(m.values[..j * m.shape.cols]) + Sum(Row(m, j))
  {
    var cols := m.shape.cols;
    RowIsSlice(m, j);
    var lo := j * cols;
    assert (j + 1) * cols == lo + cols;
    assert m.values[..lo + cols] == m.values[..lo] + m.values[lo..lo + cols];
    SumConcat(m.values[..lo], m.values[lo..lo + cols]);
  }

  /** Summing column by column gives the sum of the storage. */
  lemma {:induction false} ColumnSumsTotal(m: Vector2D, k: nat)
    requires Stored(m) && k <= m.shape.rows
    ensures k * m.shape.cols <= |m.values|
    ensures Sum(ColumnPrefixSums(m, k)) == Sum(m.values[..k * m.shape.cols])
  {
    if k == 0 {
      forall c | 0 <= c < m.shape.cols
        ensures ColumnPrefixSums(m, 0)[c] == 0.0
      {
        assert Column(m, c)[..0] == [];
      }
      SumOfZeros(ColumnPrefixSums(m, 0));
      assert m.values[..0 * m.shape.cols] == [];
    } else {
      var j := k - 1;
      ColumnSumsTotal(m, j);
      ColumnPrefixStep(m, j);
      StoragePrefixStep(m, j);
      assert (j + 1) * m.shape.cols == k * m.shape.cols;
    }
  }

  function ColumnSums(m: Vector2D): (s: seq<real>)
    requires Stored(m)
    ensures |s| == m.shape.cols
  {
    seq(m.shape.cols, c requires 0 <= c < m.shape.cols => Sum(Column(m, c)))
  }

  /** The full column sums add up to the sum of the values that are read,
      the first rows * cols (all of them on a valid matrix). */
  lemma ColumnSumsAddUp(m: Vector2D)
    requires Stored(m)
    ensures Sum(ColumnSums(m)) == Sum(m.values[..m.shape.rows * m.shape.cols])
  {
    ColumnSumsTotal(m, m.shape.rows);
    assert ColumnPrefixSums(m, m.shape.rows) == ColumnSums(m) by {
      forall c | 0 <= c < m.shape.cols
        ensures Column(m, c)[..m.shape.rows] == Column(m, c)
      {
      }
    }
  }

  /** `overall_mean`: the mean of the column means, read at index 0.  It
      fails only where `mean(0)` does, on a literal with too few values. */
  method OverallMean(m: Vector2D) returns (r: Result<real>)
    requires m.shape.rows > 0 && m.shape.cols > 0
    ensures r.Ok? <==> Stored(m)
    ensures r.Err? ==> r.error == StorageOutOfBounds
    ensures r.Ok? ==>
              r.value == Sum(m.values[..m.shape.rows * m.shape.cols]) / ((m.shape.rows * m.shape.cols) as real)
  {
    var mean0 := Mean(m, 0);
    if mean0.Err? {
      return Err(mean0.error);
    }
    var mean01 := Mean(mean0.value, 1);
    OverallMeanIsMeanOfAll(m);
    r := Ok(GetValue(mean01.value, 0).value);
  }

  lemma OverallMeanIsMeanOfAll(m: Vector2D)
    requires Stored(m) && m.shape.rows > 0 && m.shape.cols > 0
    ensures Means(m, 0).Ok? && Means(Means(m, 0).value, 1).Ok?
    ensures var mm := Means(Means(m, 0).value, 1).value;
            |mm.values| == 1 &&
            mm.values[0] == Sum(m.values[..m.shape.rows * m.shape.cols]) / ((m.shape.rows * m.shape.cols) as real)
  {
    var rows, cols := m.shape.rows, m.shape.cols;
    var m0 := Means(m, 0).value;
    var mm := Means(m0, 1).value;
    var sums := ColumnSums(m);
    var means := Row(m0, 0);
    var total := Sum(m.values[..rows * cols]);
    ColumnMeansRow(m);
    SumPointwiseDiv(sums, means, rows as real);
    ColumnSumsAddUp(m);
    assert Sum(means) == total / (rows as real);
    assert mm.values[0] == Sum(means) / (cols as real);
    MeanOfMean(total, rows, cols);
  }

  /** The single row of the column means holds each column sum over rows. */
  lemma ColumnMeansRow(m: Vector2D)
    requires Stored(m) && m.shape.rows > 0
    ensures Means(m, 0).Ok? && Means(m, 0).value.shape.rows == 1
    ensures var means := Row(Means(m, 0).value, 0);
            forall c :: 0 <= c < m.shape.cols ==>
              means[c] == Sum(Column(m, c)) / (m.shape.rows as real)
  {
    var m0 := Means(m, 0).value;
    forall c | 0 <= c < m.shape.cols
      ensures Row(m0, 0)[c] == Sum(Column(m, c)) / (m.shape.rows as real)
    {
      assert 0 * m.shape.cols + c == c;
    }
  }

  lemma MeanOfMean(total: real, rows: nat, cols: nat)
    requires rows > 0 && cols > 0
    ensures (total / (rows as real)) / (cols as real) == total / ((rows * cols) as real)
  {
    assert (rows * cols) as real == (rows as real) * (cols as real);
  }

  /** The column means of [[0,1,2],[3,4,5]]. */
  lemma ColumnMeansExample()
    ensures Means(Vector2D([0.0, 1.0, 2.0, 3.0, 4.0, 5.0], Shape(2, 3)), 0) ==
            Ok(Vector2D([1.5, 2.5, 3.5], Shape(1, 3)))
  {
    var m := Vector2D([0.0, 1.0, 2.0, 3.0, 4.0, 5.0], Shape(2, 3));
    assert Column(m, 0) == [0.0, 3.0] && Column(m, 1) == [1.0, 4.0] && Column(m, 2) == [2.0, 5.0];
    assert Sum([0.0, 3.0]) == 3.0 by { assert [0.0, 3.0][..1] == [0.0]; }
    assert Sum([1.0, 4.0]) == 5.0 by { assert [1.0, 4.0][..1] == [1.0]; }
    assert Sum([2.0, 5.0]) == 7.0 by { assert [2.0, 5.0][..1] == [2.0]; }
    assert Means(m, 0).value.values == [1.5, 2.5, 3.5];
  }

  /** The row means of [[0,1,2],[3,4,5]]. */
  lemma RowMeansExample()
    ensures Means(Vector2D([0.0, 1.0, 2.0, 3.0, 4.0, 5.0], Shape(2, 3)), 1) ==
            Ok(Vector2D([1.0, 4.0], Shape(2, 1)))
  {
    var m := Vector2D([0.0, 1.0, 2.0, 3.0, 4.0, 5.0], Shape(2, 3));
    assert Row(m, 0) == [0.0, 1.0, 2.0] && Row(m, 1) == [3.0, 4.0, 5.0];
    assert Sum([0.0, 1.0, 2.0]) == 3.0 by {
      assert [0.0, 1.0, 2.0][..2] == [0.0, 1.0];
      assert [0.0, 1.0][..1] == [0.0];
    }
    assert Sum([3.0, 4.0, 5.0]) == 12.0 by {
      assert [3.0, 4.0, 5.0][..2] == [3.0, 4.0];
      assert [3.0, 4.0][..1] == [3.0];
    }
    assert Means(m, 1).value.values == [1.0, 4.0];
  }

  /** Means of literals: the empty [0, 0] matrix has empty means on both
      axes; a literal with a value beyond rows * cols is read without it;
      one with too few values fails. */
  lemma LiteralMeansExample()
    ensures Means(Vector2D([], Shape(0, 0)), 0) == Ok(Vector2D([], Shape(1, 0)))
    ensures Means(Vector2D([], Shape(0, 0)), 1) == Ok(Vector2D([], Shape(0, 1)))
    ensures Means(Vector2D([1.0, 3.0, 99.0], Shape(1, 2)), 1) == Ok(Vector2D([2.0], Shape(1, 1)))
    ensures Means(Vector2D([1.0], Shape(1, 2)), 0) == Err(StorageOutOfBounds)
    ensures Means(Vector2D([1.0], Shape(1, 2)), 2) == Err(InvalidAxis)
  {
    var m := Vector2D([1.0, 3.0, 99.0], Shape(1, 2));
    assert Row(m, 0) == [1.0, 3.0];
    assert Sum([1.0, 3.0]) == 4.0 by { assert [1.0, 3.0][..1] == [1.0]; }
    assert Means(m, 1).value.values == [2.0];
  }

  /** The overall mean of [[0,1,2],[3,4,5]]: the axis-1 mean of its axis-0
      means is the single value 2.5, and so is the value `OverallMean`
      returns, Sum(values) / (rows * cols). */
  lemma OverallMeanExample()
    ensures var m := Vector2D([0.0, 1.0, 2.0, 3.0, 4.0, 5.0], Shape(2, 3));
            Means(m, 0).Ok? && Means(Means(m, 0).value, 1).Ok? &&
            Means(Means(m, 0).value, 1).value.values == [2.5] &&
            Sum(m.values) / ((m.shape.rows * m.shape.cols) as real) == 2.5
  {
    var m := Vector2D([0.0, 1.0, 2.0, 3.0, 4.0, 5.0], Shape(2, 3));
    assert Sum([0.0, 1.0, 2.0]) == 3.0 by {
      assert [0.0, 1.0, 2.0][..2] == [0.0, 1.0];
      assert [0.0, 1.0][..1] == [0.0];
    }
    assert Sum([3.0, 4.0, 5.0]) == 12.0 by {
      assert [3.0, 4.0, 5.0][..2] == [3.0, 4.0];
      assert [3.0, 4.0][..1] == [3.0];
    }
    SumConcat([0.0, 1.0, 2.0], [3.0, 4.0, 5.0]);
    assert m.values == [0.0, 1.0, 2.0] + [3.0, 4.0, 5.0] == m.values[..m.shape.rows * m.shape.cols];
    OverallMeanIsMeanOfAll(m);
  }
}

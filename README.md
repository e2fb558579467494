# Vector2D matrix engine and a small sigmoid network, modelled in Dafny

This project models the dense-matrix engine `Vector2D` of the rusty-playground
repository and the neural-network code built on it, and proves properties of
that model.

A `Vector2D` is a flat row-major sequence of values plus a `[rows, cols]`
shape. Its fields are public, so the length invariant `len == rows * cols` is
a predicate (`Models.Valid`) rather than a type, and literal matrices that
bypass `new` can be expressed. `Models.Stored` is the weaker condition that
every in-range entry has a storage slot (at least rows * cols values); the
operations that read only through `get_mat_value` (`mean`, `overall_mean`)
accept every stored literal. Every panic of the source becomes an `Err` of
a `Result`, with one `Error` constructor per kind of panic.

The modules follow the source files:

- `Models` is src/vectors/models.rs: `new`, `len`, `transpose`, `dot`,
  `ln`, `mean`, `overall_mean` and the four accessors. It also holds a
  corrected row-major transpose (see Findings).
- `Implementations` is src/vectors/implementations.rs: `Default`,
  `Index`/`IndexMut`, scalar broadcasting in both operand orders,
  elementwise arithmetic and `Neg`. There is one representative per operator
  kind, through the `ScalarOp` and `BinOp` datatypes.
- `Activation` is src/activation.rs. `VectorMath` is src/vector.rs
  (`scalar_multiply`, `logarithm`) plus the five helpers src/loss.rs calls
  through `vector::` (`dot`, `negate`, `scalar_add`, `vector_divide`,
  `vector_add`), which src/vector.rs does not define; those follow the
  formulas written beside the loss functions. `Loss` is src/loss.rs.
- `Network` is src/neuralnetwork.rs: initialisation, the
  `NeuralNetworkGradients` caches, `forward` and `backward`. The two structs
  are classes whose methods update their fields.
- `Sums` (a left-fold sum with its algebra) and `Outcomes` (`Result`,
  `Option`, `Error`, `Status`) are shared support modules.

Matrix elements are reals. The exponential and the natural logarithm are
parameters of type `real -> real`. The only assumption about the exponential
is `Activation.ExpLaws`: exp(0) = 1, exp is positive, and exp is strictly
increasing. Nothing at all is assumed about the logarithm. Loops in the
source are methods with loops. Each is proved equal to a specification
function, or to an entrywise statement of its result; the properties are
proved about those.

The network's forward pass reads `a[layer]` and `z[layer]` by absolute
position while it keeps pushing onto the caches. `Network.ForwardFrom` models
exactly that. Two lemmas follow for a second call on the caches a first call
left. It never fails, whatever its input. With at least one layer, it
returns the first call's prediction again (`Network.RepeatedForward`).

Where the code behaves differently from what its own tests or its
neighbouring code suggest, the model follows the code:

- `transpose` (src/vectors/models.rs:21-24) only swaps the shape, while
  src/vectors/tests.rs:17-26 expects the row-major permutation
  [0,3,1,4,2,5]. Both are modelled (see "## Findings").
- `s / M` (src/vectors/implementations.rs:134-144) pushes value / s for
  each entry, while `s - M` (src/vectors/implementations.rs:427-437) pushes
  s - value (see "## Findings").
- `forward` (src/neuralnetwork.rs:61) adds the scalar bias with the
  `&Vector2D + &f32` operator. It does not call `row_add`, which
  src/vectors/tests.rs:51-60 calls but neither src/vectors/models.rs nor
  src/vectors/implementations.rs defines.
- `forward` reads `a[layer]` and `z[layer]` by absolute position
  (src/neuralnetwork.rs:61-62). A second call on the same network therefore
  returns the first call's prediction, whatever its input
  (`Network.RepeatedForward`). Only on fresh caches does it compute the
  layered composition of its input (`Network.FreshForward`).
- `backward` (src/neuralnetwork.rs:68-71) pushes the loss derivative of the
  prediction onto `da` and does nothing else. Full backpropagation is left
  out.

## Model

| member | source | states |
|---|---|---|
| Models.New | src/vectors/models.rs:10-15 | fails (shape/length mismatch) exactly when len(values) != rows * cols; otherwise the result is valid and stores values and shape unchanged |
| Models.Len | src/vectors/models.rs:17-19 | for a valid matrix the length is rows * cols |
| Models.FlatIndexInRange | src/vectors/models.rs:110-116 | entry (i, j) with i < rows and j < cols has flat index i * cols + j < rows * cols |
| Models.Transpose | src/vectors/models.rs:21-24 | as written: succeeds exactly on valid matrices, keeps the values in their original order and swaps the shape to [cols, rows] |
| Models.TransposeTwice | src/vectors/models.rs:21-24 | transposing twice gives back the original matrix |
| Models.TransposeDoesNotSwapEntries | src/vectors/models.rs:142-150 | on [[0,1,2],[3,4,5]] the as-written transpose holds 2 at (1, 0) where entry (0, 1) is 1: entries are not moved |
| Models.TransposeRowMajor | src/vectors/tests.rs:17-26 | corrected transpose: on a valid matrix it gives a valid [cols, rows] matrix whose entry (j, i) is entry (i, j) of the input; it fails exactly on invalid input |
| Models.SameEntries | src/vectors/models.rs:110-116 | two valid matrices of one shape that agree at every (i, j) are equal |
| Models.TransposeRowMajorTwice | src/vectors/tests.rs:17-26 | the corrected transpose is an involution |
| Models.TransposeAgreesOnVectors | src/vectors/tests.rs:28-48 | on a row or column vector the corrected transpose equals the as-written one, as the [6, 1] and [1, 1] tests expect |
| Models.TransposeRowMajorExample | src/vectors/tests.rs:17-26 | [[0,1,2],[3,4,5]] transposes to values [0,3,1,4,2,5] of shape [3, 2] |
| Models.TermsOfTransposes | src/vectors/models.rs:26-49 | the products summed into entry (i, j) of a·b are those summed into entry (j, i) of bᵀ·aᵀ |
| Models.TransposeOfProduct | src/vectors/models.rs:26-49 | with the corrected transpose, (a·b)ᵀ = bᵀ·aᵀ |
| Models.GetValue | src/vectors/models.rs:94-100 | fails with IndexOutOfBounds exactly when i >= len, and otherwise returns values[i] |
| Models.GetValueMut | src/vectors/models.rs:102-108 | same bounds check and error as get_value; the slot it hands out is index i itself, the one get_value reads |
| Models.GetMatValue | src/vectors/models.rs:110-116 | fails with IndexOutOfBounds when i >= rows or j >= cols; an in-range read of slot i * cols + j past the end of a short literal fails with StorageOutOfBounds; on a matrix with at least rows * cols values it succeeds otherwise and returns values[i * cols + j], entry (i, j) |
| Models.GetMatValueMut | src/vectors/models.rs:118-124 | succeeds exactly when get_mat_value does, with the same error; the slot is i * cols + j, the one get_mat_value reads |
| Models.FlatAndMatIndexAgree | src/vectors/implementations.rs:11-23 | on a valid matrix, v[(i, j)] succeeds and equals v[i * cols + j] |
| Models.EveryFlatIndexIsAnEntry | src/vectors/implementations.rs:11-23 | every flat index k of a valid matrix is entry (k / cols, k % cols) |
| Models.ProductRowsEntry | src/vectors/models.rs:33-46 | the pushed row-major sequence holds the entry (r, c) sum at position r * cols + c |
| Models.MatrixProduct | src/vectors/models.rs:26-49 | fails (dot shape mismatch) exactly when a.cols != b.rows; otherwise a valid [a.rows, b.cols] matrix whose entry (i, j) is the sum over k of a[i, k] * b[k, j] |
| Models.EntryValue | src/vectors/models.rs:35-43 | the innermost loop, which skips a term when either factor is zero, still yields the full sum of products |
| Models.Dot | src/vectors/models.rs:26-49 | the triple loop returns exactly the matrix product, or its error |
| Models.DotExample | src/vectors/models.rs:153-165 | [[0,1,2],[3,4,5]] · [0.5,1,2]ᵀ = [5, 15.5] of shape [2, 1] |
| Models.Ln | src/vectors/models.rs:51-57 | keeps the shape and holds ln of each value, in order; fails only on an invalid matrix |
| Models.Means | src/vectors/models.rs:59-86 | any axis other than 0 or 1 fails with InvalidAxis, whatever the matrix; otherwise it fails (StorageOutOfBounds) exactly when the literal has fewer than rows * cols values, and succeeds with the [1, cols] column means for axis 0 and the [rows, 1] row means for axis 1, read from the first rows * cols values; an empty axis with nothing to divide gives an empty result |
| Models.ColumnTotal | src/vectors/models.rs:64-69 | the inner loop of axis 0 returns the column's sum whenever every entry is stored, and fails only on a short literal |
| Models.RowTotal | src/vectors/models.rs:74-78 | the inner loop of axis 1 returns the row's sum whenever every entry is stored, and fails only on a short literal |
| Models.Mean | src/vectors/models.rs:59-86 | the nested loops return exactly Means (values, shape, the axis error and the storage failure) |
| Models.ColumnSumsAddUp | src/vectors/models.rs:88-92 | the column sums add up to the sum of the first rows * cols values (all of them on a valid matrix) |
| Models.OverallMeanIsMeanOfAll | src/vectors/models.rs:88-92 | the mean over axis 1 of the mean over axis 0 is a single value, the sum of the first rows * cols values over rows * cols |
| Models.OverallMean | src/vectors/models.rs:88-92 | overall_mean fails exactly on a literal with fewer than rows * cols values, and otherwise returns the mean of the first rows * cols values (all entries of a valid matrix) |
| Models.ColumnMeansExample | src/vectors/models.rs:178-186 | on [[0,1,2],[3,4,5]] the axis-0 means are the row [1.5, 2.5, 3.5] |
| Models.RowMeansExample | src/vectors/models.rs:188-190 | on [[0,1,2],[3,4,5]] the axis-1 means are the column [1, 4] |
| Models.LiteralMeansExample | src/vectors/models.rs:59-86 | the [0, 0] matrix has the empty [1, 0] and [0, 1] means; [1, 3, 99] with shape [1, 2] has row mean [2], the extra value unread; [1] with shape [1, 2] fails for axis 0 with StorageOutOfBounds and for axis 2 with InvalidAxis |
| Models.OverallMeanExample | src/vectors/models.rs:193-201 | the overall mean of [[0,1,2],[3,4,5]] is 2.5: the axis-1 mean of its axis-0 means is [2.5], and Sum(values) / (rows * cols), the value Models.OverallMean returns, is 2.5 |
| Implementations.Default | src/vectors/implementations.rs:5-9 | a valid matrix with no values and shape [0, 0] |
| Implementations.WriteValue | src/vectors/implementations.rs:25-29 | v[i] = x fails exactly when get_value fails; otherwise slot i reads x, shape and length are kept and every other slot is unchanged |
| Implementations.WriteMatValue | src/vectors/implementations.rs:31-35 | v[(i, j)] = x fails exactly when get_mat_value fails; otherwise (i, j) reads x, shape and length are kept, and every other slot and every other entry are unchanged |
| Implementations.WriteKeepsOtherEntries | src/vectors/models.rs:118-124 | replacing slot i * cols + j of a valid matrix leaves every other entry (p, q) unchanged |
| Implementations.IndexingExample | src/vectors/implementations.rs:593-622 | on the [4, 2] literal: v[5] = 5.5, v[(3, 1)] = 7.7, v[(0, 0)] = 0; v[42] and v[(13, 1)] fail with IndexOutOfBounds |
| Implementations.Entries | src/vectors/implementations.rs:37-47 | the pushed values: one per input value, each the operator applied to that value and the scalar |
| Implementations.Broadcast | src/vectors/implementations.rs:37-131 | a scalar operator succeeds exactly on a valid matrix, keeps its shape and gives the operator applied to each entry |
| Implementations.ApplyScalar | src/vectors/implementations.rs:231-241 | the push loop of every scalar operator returns exactly Broadcast |
| Implementations.ScalarProductAndSumCommute | src/vectors/implementations.rs:279-301 | M * s = s * M and M + s = s + M |
| Implementations.ScalarDifferenceKeepsOrder | src/vectors/implementations.rs:427-437 | s - M gives s - v at every entry, the negation of M - s |
| Implementations.ScalarQuotientIgnoresOrder | src/vectors/implementations.rs:134-144 | as written, s / M equals M / s |
| Implementations.ScalarQuotientCounterexample | src/vectors/implementations.rs:134-144 | as written, 1 / [[2]] gives [[2]] |
| Implementations.ScalarOverEntries | src/vectors/implementations.rs:134-144 | corrected s / M: same shape, and each entry times the matching entry of M is s |
| Implementations.SubtractionExample | src/vectors/implementations.rs:639-650 | [0,1.5,3,4.5] - 3 = [-3,-1.5,0,1.5] and 3 - [0,1.5,3,4.5] = [3,1.5,0,-1.5] |
| Implementations.ScalingRoundTrip | src/vectors/implementations.rs:624-637 | (1 / v) * (M * v) = M for v != 0 |
| Implementations.MultiplicationExample | src/vectors/implementations.rs:624-637 | [0,1,2,3] * 1.5 = [0,1.5,3,4.5], and (1 / 1.5) times that gives the input back |
| Implementations.Zipped | src/vectors/implementations.rs:311-313 | the zip of two value sequences is as long as the shorter one |
| Implementations.Combined | src/vectors/implementations.rs:303-316 | an elementwise operator fails when the shapes differ and, on valid operands, succeeds exactly when they agree; the result keeps the shape and entry k is a[k] op b[k] |
| Implementations.ApplyElementwise | src/vectors/implementations.rs:475-488 | the zip loop of every elementwise operator returns exactly Combined |
| Implementations.DifferenceThenSumRestores | src/vectors/implementations.rs:318-331 | (a - b) + b = a for operands of one shape |
| Implementations.QuotientThenProductRestores | src/vectors/implementations.rs:535-548 | (a / b) * b = a when b has no zero entry |
| Implementations.Negation | src/vectors/implementations.rs:565-575 | negation succeeds exactly on a valid matrix, keeps the shape and negates every entry |
| Implementations.Neg | src/vectors/implementations.rs:565-575 | the push loop returns exactly Negation |
| Implementations.NegationTwice | src/vectors/implementations.rs:565-575 | negating twice gives back the matrix |
| Implementations.NegationIsScalingByMinusOne | src/vectors/implementations.rs:565-575 | -M = M * (-1) |
| Activation.Sigmoid | src/activation.rs:3-5 | 1 / (1 + exp(-v)) lies strictly between 0 and 1 |
| Activation.SigmoidAtZero | src/activation.rs:35-37 | sigmoid(0) = sigmoid(-0) = 0.5 |
| Activation.SigmoidIncreasing | src/activation.rs:3-5 | sigmoid is strictly increasing |
| Activation.SigmoidAboveHalf | src/activation.rs:38-39 | sigmoid(x) > 0.5 exactly when x > 0, and sigmoid(x) < 0.5 exactly when x < 0 |
| Activation.SigmoidNearZeroExample | src/activation.rs:38-39 | sigmoid(0.00001) > 0.5 and sigmoid(-0.00001) < 0.5 |
| Activation.ProductOfComplementsAtMostAQuarter | src/activation.rs:7-10 | for 0 < s < 1, 0 < s * (1 - s) <= 1/4 |
| Activation.SigmoidDerivative | src/activation.rs:7-10 | s * (1 - s) with s = sigmoid(v) is strictly positive and at most 1/4 |
| Activation.SigmoidDerivativeAtZero | src/activation.rs:7-10 | the derivative is 1/4 at 0, its maximum |
| Activation.SigmoidAll | src/activation.rs:12-18 | same length, entry i is sigmoid(v[i]) and lies in (0, 1) |
| Activation.VectorSigmoid | src/activation.rs:12-18 | the push loop returns exactly SigmoidAll |
| Activation.VectorSigmoidDerivative | src/activation.rs:20-26 | same length, entry i is sigmoid_derivative(v[i]), every entry in (0, 1/4] |
| VectorMath.Scaled | src/vector.rs:3-9 | same length, entry i is vector[i] * scalar |
| VectorMath.ScalarMultiply | src/vector.rs:3-9 | the push loop returns exactly Scaled (so empty input gives empty output) |
| VectorMath.ScaledRoundTrip | src/vector.rs:3-9 | scaling by s and then by 1 / s restores the sequence |
| VectorMath.Logs | src/vector.rs:11-17 | same length, entry i is ln(vector[i]) |
| VectorMath.Logarithm | src/vector.rs:11-17 | the push loop returns exactly Logs |
| VectorMath.Products | src/loss.rs:5 | entry i of the pairwise products is x[i] * y[i] |
| VectorMath.Dot | src/loss.rs:8-9 | the inner product of two empty vectors is 0 |
| VectorMath.DotStep | src/loss.rs:8-9 | each further pair of elements adds its product: dot(x, y) = dot(x without its last, y without its last) + x_last * y_last |
| VectorMath.Negate | src/loss.rs:5 | entry i is -v[i] |
| VectorMath.ScalarAdd | src/loss.rs:5 | entry i is v[i] + s |
| VectorMath.VectorDivide | src/loss.rs:19 | entry i is x[i] / y[i] |
| VectorMath.VectorAdd | src/loss.rs:19 | entry i is x[i] + y[i] |
| VectorMath.OneMinus | src/loss.rs:5 | scalar_add(negate(v), 1) is 1 - v entrywise |
| Loss.SampleLosses | src/loss.rs:5 | entry i is y[i] ln h[i] + (1 - y[i]) ln(1 - h[i]) |
| Loss.DotsAddUp | src/loss.rs:7-15 | the two dot products of the loss add up to the sum of the per-sample losses |
| Loss.CrossEntropyLoss | src/loss.rs:4-16 | the loss is minus the mean of y ln h + (1 - y) ln(1 - h) over the samples |
| Loss.CrossEntropyDerivative | src/loss.rs:18-28 | same length, entry i is -(y[i] / h[i]) + (1 - y[i]) / (1 - h[i]) |
| Loss.DerivativeForLabels | src/loss.rs:18-28 | with label 1 the entry is -1 / h; with label 0 it is 1 / (1 - h) |
| Loss.Residual | src/loss.rs:18-28 | -(y / h) + (1 - y) / (1 - h) = (h - y) / (h (1 - h)) |
| Loss.DerivativeIsScaledResidual | src/loss.rs:18-28 | each entry is (h - y) / (h (1 - h)); it is zero exactly when h = y, and for 0 < h < 1 positive exactly when h > y |
| Loss.DerivativeExampleLow | src/loss.rs:60-66 | h = [0.1, 0.1], y = [1, 0] gives [-10, 10/9] |
| Loss.DerivativeExampleHigh | src/loss.rs:68-74 | h = [0.8, 0.8], y = [1, 0] gives [-1.25, 5] |
| Network.SigmoidMatrix | src/neuralnetwork.rs:62 | sigmoid on a matrix keeps the shape and validity, and maps every entry into (0, 1) |
| Network.InitializeWeights | src/neuralnetwork.rs:5-15 | an empty shape fails (the len() - 1 underflow); otherwise shape.len() - 1 valid matrices, matrix idx of shape [shape[idx], shape[idx + 1]] holding that layer's draws |
| Network.InitializeBiases | src/neuralnetwork.rs:17-23 | an empty shape fails; otherwise shape.len() - 1 zeros |
| Network.LayerInput | src/neuralnetwork.rs:61 | a·W + b fails exactly when a.cols != W.rows; otherwise [a.rows, W.cols], entry (i, j) the product sum plus the bias |
| Network.ForwardFrom | src/neuralnetwork.rs:60-63 | the layer loop only appends to the caches, keeps them valid, and on success adds one a and one z per remaining layer |
| Network.ForwardStep | src/neuralnetwork.rs:60-63 | one iteration: a failed product stops with the caches as they were; otherwise z[layer] and then a[layer + 1] are pushed |
| Network.ForwardFromFresh | src/neuralnetwork.rs:57-63 | on caches that satisfy the layer equations so far, the loop succeeds, and the final caches satisfy them for every layer |
| Network.FreshForward | src/neuralnetwork.rs:57-65 | on fresh caches with chained weights the pass succeeds: len(a) = len(shape), len(z) = len(shape) - 1, z[l] = a[l]·W[l] + b[l], a[l + 1] = sigmoid(z[l]), and the prediction has shape [batch, shape[last]] |
| Network.FreshForwardMismatch | src/neuralnetwork.rs:61 | an input whose column count differs from the first weight's row count stops with DotShapeMismatch after caching only the input |
| Network.RepeatedCaches | src/neuralnetwork.rs:57-63 | the caches a second pass holds stay valid and extend one entry at a time |
| Network.ForwardFromRepeat | src/neuralnetwork.rs:60-63 | on the caches a first pass left, every later layer reads the first pass's entries at their absolute positions and pushes copies of them |
| Network.RepeatedForward | src/neuralnetwork.rs:57-65 | a second forward never fails; it appends copies of the first call's caches, and returns the first prediction (or its own input when there are no layers) |
| Network.PredictionInUnitInterval | src/neuralnetwork.rs:62-65 | a successful pass over at least one layer predicts values strictly between 0 and 1 |
| Network.DerivativeMatrix | src/neuralnetwork.rs:69 | the pushed derivative keeps h's shape and validity, entry i being -(y / h) + (1 - y) / (1 - h) |
| Network.NeuralNetworkGradients.constructor | src/neuralnetwork.rs:33-35 | all four caches start empty |
| Network.NeuralNetworkGradients.H | src/neuralnetwork.rs:37-39 | h() is the last activation; an empty cache fails with LengthUnderflow, the underflow of `len() - 1` |
| Network.NeuralNetwork.WeightsChain | src/neuralnetwork.rs:5-15 | the weights of a valid network chain layer to layer, one bias per weight |
| Network.NeuralNetwork.constructor | src/neuralnetwork.rs:50-55 | a valid network with the given shape, weights from the draws, zero biases and empty caches |
| Network.NewNetwork | src/neuralnetwork.rs:50-55 | new fails with LengthUnderflow exactly on an empty shape, and otherwise builds that network |
| Network.NeuralNetwork.ForwardLayer | src/neuralnetwork.rs:61-62 | one iteration of the loop agrees with ForwardFrom: on failure the caches are unchanged, otherwise one z and one a are pushed |
| Network.NeuralNetwork.LayerLoop | src/neuralnetwork.rs:60-63 | the loop ends with the caches and the failure that ForwardFrom gives |
| Network.NeuralNetwork.Forward | src/neuralnetwork.rs:57-66 | pushes the input, leaves a and z as ForwardFrom says, returns h() or the product's error, keeps the network valid and leaves dz, da, shape, weights and biases untouched |
| Network.NeuralNetwork.Backward | src/neuralnetwork.rs:68-71 | appends exactly the loss derivative of h() to da and changes nothing else; an empty a fails in h() |

## Left out

- IEEE-754 arithmetic is not modelled, because the elements are reals. This covers f32 rounding, ln(0) = -∞ (src/vectors/models.rs:174), the infinite losses and the approximate loss value in src/loss.rs:41-48, the NaN derivative at h ∈ {0, 1} (src/loss.rs:53-58), the sigmoid derivative rounding to 0 (src/activation.rs:50-51), and whether the zero-skip in `dot` matters for NaN or ∞ factors.
- Where the source would divide by zero, the model instead carries a `requires`: nonzero divisors in scalar and elementwise division and in `vector_divide`, and h ∉ {0, 1} for the derivative.
- Models.Mean: requires that the axis it divides by is non-empty whenever there is something to divide (rows > 0 or cols = 0 for axis 0, cols > 0 or rows = 0 for axis 1); otherwise the source divides zero by zero and gets NaN. Models.Means and Models.OverallMean (rows > 0 and cols > 0) carry the same condition for the same reason.
- Loss.CrossEntropyLoss: requires len(h) = len(y) > 0. An empty y divides by zero. Unequal lengths are excluded because `dot`, which it calls, has no definition in the crate to say what it does on them.
- `dot`, `negate`, `scalar_add`, `vector_divide` and `vector_add`, called at src/loss.rs:8-27, are not defined in src/vector.rs (which defines only `scalar_multiply` and `logarithm`, src/vector.rs:3-17). They are modelled as the formulas at src/loss.rs:5 and src/loss.rs:19 read (`VectorMath.Dot`, `Negate`, `ScalarAdd`, `VectorDivide`, `VectorAdd`), on vectors of equal length.
- usize overflow of rows * cols and of i * cols + j is not modelled: indices and sizes are unbounded naturals.
- The Gaussian sampler (src/gaussian.rs) is not part of this model: initial weights come from a `draws` parameter of the right lengths.
- The `println!` diagnostics, src/main.rs and src/data.rs are not modelled.
- The exact values of exp and ln are not modelled: both are parameters, exp constrained only by `ExpLaws`.
- `row_add` and `get_mat_row_values`, which src/vectors/tests.rs calls, are defined in neither src/vectors/models.rs nor src/vectors/implementations.rs, so they are left out. The row-major transpose that src/vectors/tests.rs:17-26 expects is modelled as the corrected `Models.TransposeRowMajor`.
- The owned and borrowed copies of each operator have identical bodies, so one of each kind is modelled.
- Backpropagation beyond the top-level loss derivative, parameter updates and training: `backward` (src/neuralnetwork.rs:68-71) stops after pushing that derivative, and no other function of the crate does any of these.
- `IndexMut` and the `_mut` accessors hand out a mutable reference. The model returns the slot index and models the write as a new value (`WriteValue`, `WriteMatValue`), so aliasing is not captured.
- Methods taking `&mut self` that do not change `self` (`transpose`, `dot`, `ln`, `mean`, `overall_mean`) are modelled on values.
- Models.Dot: requires both operands valid (values of length rows * cols), so two kinds of malformed literal are not modelled for the product. On a literal with too few values, the source's `get_mat_value` indexing would panic. On a literal with more values than rows * cols, the source's `dot` succeeds and reads only the first rows * cols values, because it indexes only i * cols + k and k * cols + j.
- Network.NeuralNetwork.Forward: requires a valid input, as `new` builds. The layer loop works on local copies of the caches and stores them back after the loop; nothing observes the caches in between.
- Network.NeuralNetwork.Backward: requires the target to have as many values as h() and h() to have no 0 or 1 entries whenever a is non-empty (the NaN case above).
- Network.NeuralNetwork.constructor: requires a non-empty shape; the panic on an empty shape is modelled by `Network.NewNetwork`.
- Sigmoid of a `Vector2D`, called at src/neuralnetwork.rs:62, is not defined in the crate: `activation::sigmoid` (src/activation.rs:3) takes an `&f32`. It is modelled as the scalar sigmoid applied to each entry, with the shape kept.
- The loss derivative that `backward` pushes is a `Vec<f32>` in the source; the model wraps it with h()'s shape.

## Findings

| source | as written | input that shows it | evidently intended | confidence | as-written member | corrected member |
|---|---|---|---|---|---|---|
| src/vectors/models.rs:21-24 | `transpose` swaps the shape and copies the values in their original order, so entries do not move (the test at src/vectors/models.rs:142-150 asserts this) | [[0,1,2],[3,4,5]]: entry (1, 0) of the result is 2, not entry (0, 1) = 1 | the row-major permutation [0,3,1,4,2,5] that src/vectors/tests.rs:17-26 expects, with (Mᵀ)ᵀ = M and (a·b)ᵀ = bᵀ·aᵀ | medium, not executed | Models.TransposeDoesNotSwapEntries | Models.TransposeRowMajor |
| src/vectors/implementations.rs:134-144 | `s / M` pushes value / s for each entry, the same as `M / s`, unlike `s - M`, which keeps the order | 1 / [[2]] gives [[2]] | s / value for each entry, so each entry times the matching entry of M is s (here [[0.5]]) | high, not executed | Implementations.ScalarQuotientCounterexample | Implementations.ScalarOverEntries |

/** The network of src/neuralnetwork.rs: weight and bias initialisation, the
    activation caches, the forward pass and the first step of the backward
    pass.  Gaussian draws are a parameter, as is the exponential. */
module Network {
  import opened Outcomes
  import opened Sums
  import opened Models
  import opened Implementations
  import opened Activation
  import Loss

  predicate AllValid(ms: seq<Vector2D>)
  {
    forall k :: 0 <= k < |ms| ==> Valid(ms[k])
  }

  function Last(ms: seq<Vector2D>): Vector2D
    requires |ms| > 0
  {
    ms[|ms| - 1]
  }

  /** Each weight matrix's column count is the next one's row count. */
  predicate Chained(ws: seq<Vector2D>)
  {
    forall l :: 0 <= l < |ws| - 1 ==> ws[l].shape.cols == ws[l + 1].shape.rows
  }

  /** `sigmoid` applied to a whole matrix: elementwise, shape kept. */
  function SigmoidMatrix(exp: real -> real, m: Vector2D): (r: Vector2D)
    requires ExpLaws(exp)
    ensures r.shape == m.shape && |r.values| == |m.values|
    ensures Valid(m) ==> Valid(r)
    ensures forall k :: 0 <= k < |m.values| ==> r.values[k] == Sigmoid(exp, m.values[k]) && 0.0 < r.values[k] < 1.0
  {
    Vector2D(SigmoidAll(exp, m.values), m.shape)
  }

  // ---------------------------------------------------------------------
  // Initialisation

  /** `initialize_weights`: one [shape[idx], shape[idx + 1]] matrix per layer,
      filled with the sampler's draws for that layer. */
  method InitializeWeights(shape: seq<nat>, draws: seq<seq<real>>) returns (r: Result<seq<Vector2D>>)
    requires |shape| >= 1 ==> |draws| == |shape| - 1
    requires |shape| >= 1 ==> forall idx :: 0 <= idx < |draws| ==> |draws[idx]| == shape[idx] * shape[idx + 1]
    ensures r.Err? <==> |shape| == 0
    ensures r.Err? ==> r.error == LengthUnderflow
    ensures r.Ok? ==> |r.value| == |shape| - 1 && AllValid(r.value)
    ensures r.Ok? ==> forall idx :: 0 <= idx < |r.value| ==>
                        r.value[idx] == Vector2D(draws[idx], Shape(shape[idx], shape[idx + 1]))
  {
    if |shape| == 0 {
      return Err(LengthUnderflow);
    }
    var weights: seq<Vector2D> := [];
    for idx := 0 to |shape| - 1
      invariant |weights| == idx && AllValid(weights)
      invariant forall k :: 0 <= k < idx ==> weights[k] == Vector2D(draws[k], Shape(shape[k], shape[k + 1]))
    {
      var weight := New(draws[idx], Shape(shape[idx], shape[idx + 1]));
      weights := weights + [weight.value];
    }
    r := Ok(weights);
  }

  /** `initialize_biases`: one zero bias per layer. */
  method InitializeBiases(shape: seq<nat>) returns (r: Result<seq<real>>)
    ensures r.Err? <==> |shape| == 0
    ensures r.Err? ==> r.error == LengthUnderflow
    ensures r.Ok? ==> |r.value| == |shape| - 1 && forall l :: 0 <= l < |r.value| ==> r.value[l] == 0.0
  {
    if |shape| == 0 {
      return Err(LengthUnderflow);
    }
    var biases: seq<real> := [];
    for idx := 0 to |shape| - 1
      invariant |biases| == idx && forall l :: 0 <= l < idx ==> biases[l] == 0.0
    {
      biases := biases + [0.0];
    }
    r := Ok(biases);
  }

  // ---------------------------------------------------------------------
  // The forward pass as a function of the caches

  /** One layer's pre-activation: a . W with the scalar bias added to every
      entry; it fails exactly when a's columns do not match W's rows. */
  function LayerInput(a: Vector2D, w: Vector2D, bias: real): (r: Result<Vector2D>)
    requires Valid(a) && Valid(w)
    ensures r.Ok? <==> a.shape.cols == w.shape.rows
    ensures r.Err? ==> r.error == DotShapeMismatch
    ensures r.Ok? ==> Valid(r.value) && r.value.shape == Shape(a.shape.rows, w.shape.cols)
    ensures r.Ok? ==> forall i: nat, j: nat :: i < a.shape.rows && j < w.shape.cols ==>
                        At(r.value, i, j) == Sum(Terms(a, w, i, j)) + bias
  {
    var p := MatrixProduct(a, w);
    if p.Err? then Err(p.error)
    else
      var r := Broadcast(MatrixPlusScalar, p.value, bias);
      assert forall i: nat, j: nat :: i < a.shape.rows && j < w.shape.cols ==>
               At(r.value, i, j) == At(p.value, i, j) + bias by {
        forall i: nat, j: nat | i < a.shape.rows && j < w.shape.cols
          ensures At(r.value, i, j) == At(p.value, i, j) + bias
        {
          FlatIndexInRange(i, j, a.shape.rows, w.shape.cols);
        }
      }
      r
  }

  /** The caches after a forward pass, and the error that stopped it, if any. */
  datatype Pass = Pass(a: seq<Vector2D>, z: seq<Vector2D>, failure: Option<Error>)

  /** The loop of `forward` from `layer` on: each step reads a[layer], pushes
      its pre-activation onto z, then pushes sigmoid of z[layer] onto a.  The
      reads use absolute positions, so caches left by an earlier call are
      read in place of the entries this call pushes.  The caches only grow. */
  function ForwardFrom(exp: real -> real, ws: seq<Vector2D>, bs: seq<real>,
                       a: seq<Vector2D>, z: seq<Vector2D>, layer: nat): (p: Pass)
    requires ExpLaws(exp)
    requires |bs| == |ws| && AllValid(ws) && AllValid(a) && AllValid(z)
    requires layer <= |ws| && layer < |a| && layer <= |z|
    ensures a <= p.a && z <= p.z && AllValid(p.a) && AllValid(p.z)
    ensures p.failure.None? ==> |p.a| == |a| + (|ws| - layer) && |p.z| == |z| + (|ws| - layer)
    decreases |ws| - layer
  {
    if layer == |ws| then Pass(a, z, None)
    else
      var zl := LayerInput(a[layer], ws[layer], bs[layer]);
      if zl.Err? then Pass(a, z, Some(zl.error))
      else
        var z' := z + [zl.value];
        ForwardFrom(exp, ws, bs, a + [SigmoidMatrix(exp, z'[layer])], z', layer + 1)
  }

  /** One step of `ForwardFrom`, unfolded. */
  lemma {:induction false} ForwardStep(exp: real -> real, ws: seq<Vector2D>, bs: seq<real>,
                    a: seq<Vector2D>, z: seq<Vector2D>, layer: nat)
    requires ExpLaws(exp)
    requires |bs| == |ws| && AllValid(ws) && AllValid(a) && AllValid(z)
    requires layer < |ws| && layer < |a| && layer <= |z|
    ensures var zl := LayerInput(a[layer], ws[layer], bs[layer]);
            (zl.Err? ==> ForwardFrom(exp, ws, bs, a, z, layer) == Pass(a, z, Some(zl.error))) &&
            (zl.Ok? ==>
               var z' := z + [zl.value];
               AllValid(z') && AllValid(a + [SigmoidMatrix(exp, z'[layer])]) &&
               ForwardFrom(exp, ws, bs, a, z, layer) ==
               ForwardFrom(exp, ws, bs, a + [SigmoidMatrix(exp, z'[layer])], z', layer + 1))
  {
  }

  /** The first `layers` layers of a and z satisfy the layer equations
      z[l] = a[l] . W[l] + b[l] and a[l + 1] = sigmoid(z[l]). */
  predicate Computed(exp: real -> real, ws: seq<Vector2D>, bs: seq<real>,
                     a: seq<Vector2D>, z: seq<Vector2D>, layers: nat)
    requires ExpLaws(exp)
    requires |bs| == |ws| && AllValid(ws) && AllValid(a)
    requires layers <= |ws| && layers < |a| && layers <= |z|
  {
    forall l :: 0 <= l < layers ==>
      LayerInput(a[l], ws[l], bs[l]) == Ok(z[l]) && a[l + 1] == SigmoidMatrix(exp, z[l])
  }

  lemma {:induction false} ForwardFromFresh(exp: real -> real, ws: seq<Vector2D>, bs: seq<real>,
                                            a: seq<Vector2D>, z: seq<Vector2D>, layer: nat)
    requires ExpLaws(exp)
    requires |bs| == |ws| && AllValid(ws) && Chained(ws) && AllValid(a) && AllValid(z)
    requires layer <= |ws| && |a| == layer + 1 && |z| == layer
    requires layer < |ws| ==> Last(a).shape.cols == ws[layer].shape.rows
    requires Computed(exp, ws, bs, a, z, layer)
    ensures var p := ForwardFrom(exp, ws, bs, a, z, layer);
            p.failure == None && |p.a| == |ws| + 1 && |p.z| == |ws| &&
            Computed(exp, ws, bs, p.a, p.z, |ws|) &&
            Last(p.a).shape == if layer == |ws| then Last(a).shape
                               else Shape(Last(a).shape.rows, ws[|ws| - 1].shape.cols)
    decreases |ws| - layer
  {
    if layer < |ws| {
      var zl := LayerInput(a[layer], ws[layer], bs[layer]);
      assert zl.Ok?;
      var z' := z + [zl.value];
      var s := SigmoidMatrix(exp, z'[layer]);
      var a' := a + [s];
      assert Last(a').shape == Shape(Last(a).shape.rows, ws[layer].shape.cols);
      assert Computed(exp, ws, bs, a', z', layer + 1) by {
        forall l | 0 <= l < layer + 1
          ensures LayerInput(a'[l], ws[l], bs[l]) == Ok(z'[l]) && a'[l + 1] == SigmoidMatrix(exp, z'[l])
        {
          if l < layer {
            assert a'[l] == a[l] && a'[l + 1] == a[l + 1] && z'[l] == z[l];
          }
        }
      }
      ForwardFromFresh(exp, ws, bs, a', z', layer + 1);
    }
  }

  /** `forward` on fresh caches with chained weights and an input whose
      columns match the first layer: it succeeds, leaves |shape| activations
      and |shape| - 1 pre-activations that satisfy the layer equations, and
      predicts a [batch, shape[last]] matrix. */
  lemma FreshForward(exp: real -> real, ws: seq<Vector2D>, bs: seq<real>, x: Vector2D)
    requires ExpLaws(exp)
    requires |bs| == |ws| && AllValid(ws) && Chained(ws) && Valid(x)
    requires |ws| > 0 ==> x.shape.cols == ws[0].shape.rows
    ensures var p := ForwardFrom(exp, ws, bs, [x], [], 0);
            p.failure == None && |p.a| == |ws| + 1 && |p.z| == |ws| && p.a[0] == x &&
            Computed(exp, ws, bs, p.a, p.z, |ws|) &&
            Last(p.a).shape == if |ws| == 0 then x.shape else Shape(x.shape.rows, ws[|ws| - 1].shape.cols)
  {
    ForwardFromFresh(exp, ws, bs, [x], [], 0);
  }

  /** An input whose columns do not match the first layer stops the pass
      with the product's error, after only the input has been cached. */
  lemma FreshForwardMismatch(exp: real -> real, ws: seq<Vector2D>, bs: seq<real>, x: Vector2D)
    requires ExpLaws(exp)
    requires |bs| == |ws| && AllValid(ws) && Valid(x)
    requires |ws| > 0 && x.shape.cols != ws[0].shape.rows
    ensures ForwardFrom(exp, ws, bs, [x], [], 0) == Pass([x], [], Some(DotShapeMismatch))
  {
  }

  /** The caches a second pass holds before `layer`: the first pass's
      entries, the new input, then the first pass's activations again. */
  lemma RepeatedCaches(A: seq<Vector2D>, Z: seq<Vector2D>, x: Vector2D, layer: nat)
    requires AllValid(A) && AllValid(Z) && Valid(x) && |A| == |Z| + 1 && layer <= |Z|
    ensures AllValid(A + [x] + A[1..layer + 1]) && AllValid(Z + Z[..layer])
    ensures layer == |Z| ==> A + [x] + A[1..layer + 1] == A + [x] + A[1..] && Z + Z[..layer] == Z + Z
    ensures layer < |Z| ==>
              (A + [x] + A[1..layer + 1])[layer] == A[layer] &&
              (Z + Z[..layer]) + [Z[layer]] == Z + Z[..layer + 1] &&
              (A + [x] + A[1..layer + 1]) + [A[layer + 1]] == A + [x] + A[1..layer + 2]
  {
    var a := A + [x] + A[1..layer + 1];
    assert AllValid(a) by {
      forall k | 0 <= k < |a|
        ensures Valid(a[k])
      {
        if k > |A| {
          assert a[k] == A[k - |A|];
        }
      }
    }
    if layer == |Z| {
      assert A[1..layer + 1] == A[1..];
      assert Z[..layer] == Z;
    } else {
      assert Z[..layer] + [Z[layer]] == Z[..layer + 1];
      assert A[1..layer + 1] + [A[layer + 1]] == A[1..layer + 2];
    }
  }

  lemma {:induction false} ForwardFromRepeat(exp: real -> real, ws: seq<Vector2D>, bs: seq<real>,
                                             A: seq<Vector2D>, Z: seq<Vector2D>, x: Vector2D, layer: nat)
    requires ExpLaws(exp)
    requires |bs| == |ws| && AllValid(ws) && AllValid(A) && AllValid(Z) && Valid(x)
    requires |A| == |ws| + 1 && |Z| == |ws| && Computed(exp, ws, bs, A, Z, |ws|)
    requires layer <= |ws|
    ensures AllValid(A + [x] + A[1..layer + 1]) && AllValid(Z + Z[..layer])
    ensures ForwardFrom(exp, ws, bs, A + [x] + A[1..layer + 1], Z + Z[..layer], layer) ==
            Pass(A + [x] + A[1..], Z + Z, None)
    decreases |ws| - layer
  {
    RepeatedCaches(A, Z, x, layer);
    if layer < |ws| {
      var a, z := A + [x] + A[1..layer + 1], Z + Z[..layer];
      assert LayerInput(A[layer], ws[layer], bs[layer]) == Ok(Z[layer]) &&
             A[layer + 1] == SigmoidMatrix(exp, Z[layer]);
      ForwardStep(exp, ws, bs, a, z, layer);
      assert (z + [Z[layer]])[layer] == Z[layer];
      ForwardFromRepeat(exp, ws, bs, A, Z, x, layer + 1);
    }
  }

  /** A second `forward` call, on the caches a successful first call left,
      never fails and whatever its input, returns the first call's prediction
      (with at least one layer; with none it returns its own input): every
      layer reads the first call's entries at their absolute positions. */
  lemma RepeatedForward(exp: real -> real, ws: seq<Vector2D>, bs: seq<real>, x1: Vector2D, x2: Vector2D)
    requires ExpLaws(exp)
    requires |bs| == |ws| && AllValid(ws) && Chained(ws) && Valid(x1) && Valid(x2)
    requires |ws| > 0 ==> x1.shape.cols == ws[0].shape.rows
    ensures var first := ForwardFrom(exp, ws, bs, [x1], [], 0);
            AllValid(first.a + [x2]) &&
            var second := ForwardFrom(exp, ws, bs, first.a + [x2], first.z, 0);
            second.failure == None &&
            second.a == first.a + [x2] + first.a[1..] && second.z == first.z + first.z &&
            (|ws| > 0 ==> Last(second.a) == Last(first.a)) &&
            (|ws| == 0 ==> Last(second.a) == x2)
  {
    FreshForward(exp, ws, bs, x1);
    var first := ForwardFrom(exp, ws, bs, [x1], [], 0);
    ForwardFromRepeat(exp, ws, bs, first.a, first.z, x2, 0);
    assert first.a + [x2] + first.a[1..1] == first.a + [x2];
    assert first.z + first.z[..0] == first.z;
  }

  /** With at least one layer left, a pass that succeeds predicts a matrix
      whose entries all lie strictly between 0 and 1. */
  lemma {:induction false} PredictionInUnitInterval(exp: real -> real, ws: seq<Vector2D>, bs: seq<real>,
                                                    a: seq<Vector2D>, z: seq<Vector2D>, layer: nat)
    requires ExpLaws(exp)
    requires |bs| == |ws| && AllValid(ws) && AllValid(a) && AllValid(z)
    requires layer < |ws| && layer < |a| && layer <= |z|
    ensures var p := ForwardFrom(exp, ws, bs, a, z, layer);
            p.failure == None ==>
              forall k :: 0 <= k < |Last(p.a).values| ==> 0.0 < Last(p.a).values[k] < 1.0
    decreases |ws| - layer
  {
    var zl := LayerInput(a[layer], ws[layer], bs[layer]);
    if zl.Ok? && layer + 1 < |ws| {
      var z' := z + [zl.value];
      PredictionInUnitInterval(exp, ws, bs, a + [SigmoidMatrix(exp, z'[layer])], z', layer + 1);
    }
  }

  /** The value `backward` pushes: the loss derivative of the prediction
      against the target, kept in the prediction's shape. */
  function DerivativeMatrix(h: Vector2D, y: Vector2D): (r: Vector2D)
    requires |h.values| == |y.values| && Loss.Interior(h.values)
    ensures r.shape == h.shape && |r.values| == |h.values|
    ensures Valid(h) ==> Valid(r)
    ensures forall i :: 0 <= i < |h.values| ==>
              r.values[i] == -(y.values[i] / h.values[i]) + (1.0 - y.values[i]) / (1.0 - h.values[i])
  {
    Vector2D(Loss.CrossEntropyDerivative(h.values, y.values), h.shape)
  }

  // ---------------------------------------------------------------------
  // The network objects

  class NeuralNetworkGradients {
    var z: seq<Vector2D>
    var a: seq<Vector2D>
    var dz: seq<Vector2D>
    var da: seq<Vector2D>

    constructor ()
      ensures z == [] && a == [] && dz == [] && da == []
    {
      z := [];
      a := [];
      dz := [];
      da := [];
    }

    /** `h`: the latest activation; an empty cache fails like the source's
        `len() - 1` index. */
    function H(): (r: Result<Vector2D>)
      reads this
      ensures r.Ok? <==> |a| > 0
      ensures r.Ok? ==> r.value == a[|a| - 1]
      ensures r.Err? ==> r.error == LengthUnderflow
    {
      if |a| == 0 then Err(LengthUnderflow) else Ok(a[|a| - 1])
    }
  }

  class NeuralNetwork {
    var shape: seq<nat>
    var weights: seq<Vector2D>
    var biases: seq<real>
    var internal: NeuralNetworkGradients

    /** One weight matrix and one bias per layer, weights[l] of shape
        [shape[l], shape[l + 1]]. */
    ghost predicate Layered()
      reads this
    {
      |shape| >= 1 && |weights| == |shape| - 1 && |biases| == |shape| - 1 &&
      forall l :: 0 <= l < |weights| ==>
        Models.Valid(weights[l]) && weights[l].shape == Shape(shape[l], shape[l + 1])
    }

    /** The layers are well formed and so is every cached matrix. */
    ghost predicate Valid()
      reads this, internal
    {
      Layered() &&
      AllValid(internal.z) && AllValid(internal.a) && AllValid(internal.dz) && AllValid(internal.da)
    }

    /** A valid network's weights chain, so fresh caches take the lemmas
        above. */
    lemma WeightsChain()
      requires Valid()
      ensures AllValid(weights) && Chained(weights) && |biases| == |weights|
    {
      forall l | 0 <= l < |weights| - 1
        ensures weights[l].shape.cols == weights[l + 1].shape.rows
      {
        assert weights[l].shape == Shape(shape[l], shape[l + 1]);
        assert weights[l + 1].shape == Shape(shape[l + 1], shape[l + 2]);
      }
    }

    /** `new`: weights from the draws, zero biases, empty caches. */
    constructor (shape: seq<nat>, draws: seq<seq<real>>)
      requires |shape| >= 1 && |draws| == |shape| - 1
      requires forall idx :: 0 <= idx < |draws| ==> |draws[idx]| == shape[idx] * shape[idx + 1]
      ensures Valid() && fresh(internal)
      ensures this.shape == shape && |weights| == |draws|
      ensures forall idx :: 0 <= idx < |draws| ==> weights[idx] == Vector2D(draws[idx], Shape(shape[idx], shape[idx + 1]))
      ensures forall l :: 0 <= l < |biases| ==> biases[l] == 0.0
      ensures internal.z == [] && internal.a == [] && internal.dz == [] && internal.da == []
    {
      var w := InitializeWeights(shape, draws);
      var b := InitializeBiases(shape);
      this.shape := shape;
      weights := w.value;
      biases := b.value;
      internal := new NeuralNetworkGradients();
    }

    /** One iteration of the layer loop of `forward` on the caches a and z:
        push a[layer] . W + b onto z, then sigmoid of z[layer] onto a, or stop
        at a failed product with the caches as they were. */
    method ForwardLayer(exp: real -> real, a: seq<Vector2D>, z: seq<Vector2D>, layer: nat)
      returns (a': seq<Vector2D>, z': seq<Vector2D>, failure: Option<Error>)
      requires ExpLaws(exp) && |biases| == |weights| && AllValid(weights)
      requires AllValid(a) && AllValid(z)
      requires layer < |weights| && layer < |a| && layer <= |z|
      ensures AllValid(a') && AllValid(z')
      ensures failure.Some? ==>
                a' == a && z' == z && ForwardFrom(exp, weights, biases, a, z, layer) == Pass(a, z, failure)
      ensures failure.None? ==>
                |a'| == |a| + 1 && |z'| == |z| + 1 &&
                ForwardFrom(exp, weights, biases, a, z, layer) == ForwardFrom(exp, weights, biases, a', z', layer + 1)
    {
      ForwardStep(exp, weights, biases, a, z, layer);
      var product := Dot(a[layer], weights[layer]);
      if product.Err? {
        return a, z, Some(product.error);
      }
      var zl := ApplyScalar(MatrixPlusScalar, product.value, biases[layer]);
      assert zl == LayerInput(a[layer], weights[layer], biases[layer]);
      z' := z + [zl.value];
      var al := VectorSigmoid(exp, z'[layer].values);
      assert Vector2D(al, z'[layer].shape) == SigmoidMatrix(exp, z'[layer]);
      a' := a + [Vector2D(al, z'[layer].shape)];
      failure := None;
    }

    /** The layer loop of `forward` over the caches a and z, from layer 0:
        it ends with the caches and the failure `ForwardFrom` gives. */
    method LayerLoop(exp: real -> real, a: seq<Vector2D>, z: seq<Vector2D>)
      returns (a': seq<Vector2D>, z': seq<Vector2D>, failure: Option<Error>)
      requires ExpLaws(exp) && |shape| == |weights| + 1 && |biases| == |weights| && AllValid(weights)
      requires AllValid(a) && AllValid(z) && |a| >= 1
      ensures Pass(a', z', failure) == ForwardFrom(exp, weights, biases, a, z, 0)
    {
      ghost var whole := ForwardFrom(exp, weights, biases, a, z, 0);
      a', z' := a, z;
      for layer := 0 to |shape| - 1
        invariant |a'| == |a| + layer && |z'| == |z| + layer
        invariant AllValid(a') && AllValid(z')
        invariant ForwardFrom(exp, weights, biases, a', z', layer) == whole
      {
        a', z', failure := ForwardLayer(exp, a', z', layer);
        if failure.Some? {
          return;
        }
      }
      failure := None;
    }

    /** `forward`: pushes the input, then runs the layer loop over the
        caches; the caches end as `ForwardFrom` says, and the result is the
        latest activation, or the error that stopped the loop. */
    method Forward(exp: real -> real, input: Vector2D) returns (r: Result<Vector2D>)
      requires ExpLaws(exp) && Valid() && Models.Valid(input)
      modifies internal
      ensures Valid()
      ensures var p := ForwardFrom(exp, weights, biases, old(internal.a) + [input], old(internal.z), 0);
              internal.a == p.a && internal.z == p.z &&
              (p.failure.Some? ==> r == Err(p.failure.value)) &&
              (p.failure.None? ==> r == Ok(Last(p.a)))
      ensures internal.dz == old(internal.dz) && internal.da == old(internal.da)
    {
      var a, z, failure := LayerLoop(exp, internal.a + [input], internal.z);
      internal.a, internal.z := a, z;
      if failure.Some? {
        r := Err(failure.value);
      } else {
        r := internal.H();
      }
    }

    /** `backward`: pushes the loss derivative of `h()` against the target
        onto `da` and changes nothing else; an empty cache fails in `h()`. */
    method Backward(trueOutput: Vector2D) returns (status: Status)
      requires Valid()
      requires |internal.a| > 0 ==>
                 |Last(internal.a).values| == |trueOutput.values| && Loss.Interior(Last(internal.a).values)
      modifies internal
      ensures Valid()
      ensures internal.a == old(internal.a) && internal.z == old(internal.z) && internal.dz == old(internal.dz)
      ensures |old(internal.a)| == 0 ==> status == Failed(LengthUnderflow) && internal.da == old(internal.da)
      ensures |old(internal.a)| > 0 ==>
                status == Done && internal.da == old(internal.da) + [DerivativeMatrix(Last(old(internal.a)), trueOutput)]
    {
      var h := internal.H();
      if h.Err? {
        return Failed(h.error);
      }
      internal.da := internal.da + [DerivativeMatrix(h.value, trueOutput)];
      status := Done;
    }
  }

  /** `NeuralNetwork::new` with its failure: an empty shape makes the
      initialisers' `shape.len() - 1` underflow; otherwise the constructor
      above builds the network. */
  method NewNetwork(shape: seq<nat>, draws: seq<seq<real>>) returns (r: Result<NeuralNetwork>)
    requires |shape| >= 1 ==> |draws| == |shape| - 1
    requires |shape| >= 1 ==> forall idx :: 0 <= idx < |draws| ==> |draws[idx]| == shape[idx] * shape[idx + 1]
    ensures r.Err? <==> |shape| == 0
    ensures r.Err? ==> r.error == LengthUnderflow
    ensures r.Ok? ==> fresh(r.value) && fresh(r.value.internal) && r.value.Valid() && r.value.shape == shape
    ensures r.Ok? ==> forall idx :: 0 <= idx < |draws| ==>
                        r.value.weights[idx] == Vector2D(draws[idx], Shape(shape[idx], shape[idx + 1]))
    ensures r.Ok? ==> forall l :: 0 <= l < |r.value.biases| ==> r.value.biases[l] == 0.0
    ensures r.Ok? ==> r.value.internal.z == [] && r.value.internal.a == [] &&
                      r.value.internal.dz == [] && r.value.internal.da == []
  {
    if |shape| == 0 {
      return Err(LengthUnderflow);
    }
    var network := new NeuralNetwork(shape, draws);
    r := Ok(network);
  }
}

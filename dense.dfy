/** A fully connected layer (src/layers/dense.rs). The layer's fields change
    in place, so the layer is a class; `LayerState` is its value, and the
    functions over it specify the class's methods. */
module Dense {
  import opened Base
  import opened Matrices
  import opened Activation

  datatype LayerState = LayerState(
    size: nat,
    neurons: Matrix,      // activations a of the last forward pass, 1 x size
    preNeurons: Matrix,   // pre-activations z of the last forward pass, 1 x size
    weights: Matrix,      // input_size x size
    biases: Matrix,       // 1 x size
    activator: ActivationFunction)

  const ShapeAssertion := "assertion `left == right` failed"

  /** The shapes every layer keeps. */
  predicate WellShaped(l: LayerState)
  {
    Valid(l.weights) && l.weights.cols == l.size
    && Shape(l.biases, 1, l.size) && Shape(l.neurons, 1, l.size) && Shape(l.preNeurons, 1, l.size)
  }

  function InputSize(l: LayerState): nat { l.weights.rows }

  /** Same size, weights, biases and activation: only the caches may differ. */
  predicate SameParameters(a: LayerState, b: LayerState)
  {
    a.size == b.size && a.weights == b.weights && a.biases == b.biases && a.activator == b.activator
  }

  /** Every entry lies in [-1, 1), the range of `Matrix::random`. */
  predicate InUnitRange(m: Matrix)
  {
    forall i, j :: 0 <= i < |m.data| && 0 <= j < |m.data[i]| ==> -1.0 <= m.data[i][j] < 1.0
  }

  /** The three matrices `Layer::new` draws with `Matrix::random`. */
  datatype Draw = Draw(neurons: Matrix, weights: Matrix, biases: Matrix)

  predicate DrawFor(d: Draw, size: nat, inputSize: nat)
  {
    Shape(d.neurons, 1, size) && Shape(d.weights, inputSize, size) && Shape(d.biases, 1, size)
    && InUnitRange(d.neurons) && InUnitRange(d.weights) && InUnitRange(d.biases)
  }

  /** The layer `Layer::new` builds from its random draws. */
  function Initial(size: nat, inputSize: nat, activation: ActivationFunction, d: Draw): (l: LayerState)
    requires DrawFor(d, size, inputSize)
    ensures WellShaped(l) && InputSize(l) == inputSize && l.size == size && l.activator == activation
    ensures InUnitRange(l.weights) && InUnitRange(l.biases)
  {
    LayerState(size, d.neurons, Zeros(1, size), d.weights, d.biases, activation)
  }

  /** `z.map(|x| activator.function(x))`. The closure panics for Softmax, but
      only once it is called, so a Softmax layer of width zero passes; that
      is the only case in which the `0.0` arm below is reached, and there it
      is applied to no entry. */
  function Activate(z: Matrix, a: ActivationFunction, exp: PowE): (r: Result<Matrix>)
    requires Valid(z)
    ensures r.Ok? <==> z.rows > 0 && (a != Softmax || z.cols == 0)
    ensures r.Ok? ==> Shape(r.value, z.rows, z.cols)
    ensures r.Ok? ==> forall i, j :: 0 <= i < z.rows && 0 <= j < z.cols ==>
      r.value.data[i][j] == Apply(a, z.data[i][j], exp).value
  {
    if a == Softmax && z.rows > 0 && z.cols > 0 then Err(SoftmaxElementWise)
    else Map(z, x => if a == Softmax then 0.0 else Apply(a, x, exp).value)
  }

  /** The row vector `Matrix::from_data(vec![input])`. */
  function Row(input: seq<real>): (m: Matrix)
    ensures Shape(m, 1, |input|) && m.data == [input]
  {
    FromData([input]).value
  }

  /** The pre-activation z = [input] W + b of `Layer::feed_from`. The product
      panics unless the input has one entry per weight row; the sum of two
      1 x size matrices cannot fail. */
  function Affine(l: LayerState, input: seq<real>): (r: Result<Matrix>)
    requires WellShaped(l)
    ensures r.Ok? <==> |input| == InputSize(l)
    ensures r.Ok? ==> Shape(r.value, 1, l.size)
    ensures r.Ok? ==> forall j :: 0 <= j < l.size ==>
      r.value.data[0][j] == Dot(Row(input), l.weights, 0, j, |input|) + l.biases.data[0][j]
  {
    var p :- Product(Row(input), l.weights);
    Ok(Plus(p, l.biases).value)
  }

  /** `Layer::feed_from`: the layer stores z and a = activation(z) and the
      call returns a's only row. */
  function Feed(l: LayerState, input: seq<real>, exp: PowE): (r: Result<(LayerState, seq<real>)>)
    requires WellShaped(l)
    ensures r.Ok? <==> |input| == InputSize(l) && (l.activator != Softmax || l.size == 0)
    ensures r.Ok? ==> WellShaped(r.value.0) && SameParameters(l, r.value.0)
    ensures r.Ok? ==> |r.value.1| == l.size && r.value.0.neurons.data == [r.value.1]
  {
    var z :- Affine(l, input);
    var a :- Activate(z, l.activator, exp);
    Ok((l.(preNeurons := z, neurons := a), a.data[0]))
  }

  /** What one forward step stores and returns, entry by entry. */
  lemma {:induction false} FeedEntries(l: LayerState, input: seq<real>, exp: PowE)
    requires WellShaped(l) && Feed(l, input, exp).Ok?
    ensures Feed(l, input, exp).value.0.preNeurons == Affine(l, input).value
    ensures forall j :: 0 <= j < l.size ==>
      Feed(l, input, exp).value.1[j] == Apply(l.activator, Affine(l, input).value.data[0][j], exp).value
  {
  }

  /** A Softmax layer of positive width always fails its forward step: the
      vector softmax described next to the activation is not implemented. */
  lemma {:induction false} SoftmaxFeedFails(l: LayerState, input: seq<real>, exp: PowE)
    requires WellShaped(l) && l.activator == Softmax && l.size > 0
    ensures Feed(l, input, exp).Err?
  {
  }

  /** The private `hadamard`: entry-wise product of two matrices of one
      shape; it asserts the shapes and builds with `from_data`. */
  function Hadamard(a: Matrix, b: Matrix): (r: Result<Matrix>)
    requires Valid(a) && Valid(b)
    ensures r.Ok? <==> SameShape(a, b) && a.rows > 0
    ensures r.Ok? ==> Shape(r.value, a.rows, a.cols)
    ensures r.Ok? ==> forall i, j :: 0 <= i < a.rows && 0 <= j < a.cols ==>
      r.value.data[i][j] == a.data[i][j] * b.data[i][j]
  {
    if !SameShape(a, b) then Err(ShapeAssertion)
    else FromData(seq(a.rows, i requires 0 <= i < a.rows =>
      seq(a.cols, j requires 0 <= j < a.cols => a.data[i][j] * b.data[i][j])))
  }

  /** delta = next_delta (.) activation'(z), z being the stored
      pre-activation. The map over the one-row z cannot fail; the Hadamard
      product asserts that next_delta is 1 x size too. */
  function LayerDelta(l: LayerState, nextDelta: Matrix, exp: PowE): (r: Result<Matrix>)
    requires WellShaped(l) && Valid(nextDelta)
    ensures r.Ok? <==> Shape(nextDelta, 1, l.size)
    ensures r.Ok? ==> Shape(r.value, 1, l.size)
    ensures r.Ok? ==> forall j :: 0 <= j < l.size ==>
      r.value.data[0][j] == nextDelta.data[0][j] * Derivative(l.activator, l.preNeurons.data[0][j], exp)
  {
    var act := Map(l.preNeurons, x => Derivative(l.activator, x, exp)).value;
    Hadamard(nextDelta, act)
  }

  /** `Layer::compute_gradients`: returns (inputs^T delta, delta). */
  function ComputeGradients(l: LayerState, nextDelta: Matrix, inputs: Matrix, exp: PowE): (r: Result<(Matrix, Matrix)>)
    requires WellShaped(l) && Valid(nextDelta) && Valid(inputs)
    ensures r.Ok? <==> Shape(nextDelta, 1, l.size) && inputs.rows == 1
    ensures r.Ok? ==> Shape(r.value.0, inputs.cols, l.size) && Shape(r.value.1, 1, l.size)
  {
    var delta :- LayerDelta(l, nextDelta, exp);
    TransposedShape(inputs);
    var wg :- Product(Transposed(inputs), delta);
    Ok((wg, delta))
  }

  /** For the single input row the source always passes, the bias gradient
      is delta and the weight gradient is the outer product of the input row
      with delta. */
  lemma {:induction false} GradientEntries(l: LayerState, nextDelta: Matrix, inputs: Matrix, exp: PowE,
                                           g: (Matrix, Matrix), bg: Matrix)
    requires WellShaped(l) && Valid(nextDelta) && Valid(inputs)
    requires ComputeGradients(l, nextDelta, inputs, exp) == Ok(g) && LayerDelta(l, nextDelta, exp) == Ok(bg)
    ensures g.1 == bg
    ensures forall i, j :: 0 <= i < inputs.cols && 0 <= j < l.size ==> g.0.data[i][j] == inputs.data[0][i] * bg.data[0][j]
  {
    TransposedShape(inputs);
    assert g == (Product(Transposed(inputs), bg).value, bg);
    OuterProduct(inputs, bg);
  }

  /** `Layer::apply_gradients`: W := W - lr * dW and b := b - lr * db. Scaling
      uses `map`, so a gradient without rows (a layer with no inputs) panics. */
  function Stepped(l: LayerState, wg: Matrix, bg: Matrix, lr: real): (r: Result<LayerState>)
    requires WellShaped(l) && Valid(wg) && Valid(bg)
    ensures r.Ok? <==> SameShape(wg, l.weights) && wg.rows > 0 && SameShape(bg, l.biases)
    ensures r.Ok? ==> WellShaped(r.value) && r.value.size == l.size && r.value.activator == l.activator
    ensures r.Ok? ==> r.value.neurons == l.neurons && r.value.preNeurons == l.preNeurons
    ensures r.Ok? ==> SameShape(r.value.weights, l.weights)
  {
    var sw :- Map(wg, x => x * lr);
    var w :- Minus(l.weights, sw);
    var sb :- Map(bg, x => x * lr);
    var b :- Minus(l.biases, sb);
    Ok(l.(weights := w, biases := b))
  }

  /** The update is plain gradient descent, entry by entry. */
  lemma {:induction false} SteppedEntries(l: LayerState, wg: Matrix, bg: Matrix, lr: real)
    requires WellShaped(l) && Valid(wg) && Valid(bg) && Stepped(l, wg, bg, lr).Ok?
    ensures var l' := Stepped(l, wg, bg, lr).value;
      (forall i, j :: 0 <= i < l.weights.rows && 0 <= j < l.size ==>
        l'.weights.data[i][j] == l.weights.data[i][j] - wg.data[i][j] * lr)
      && (forall j :: 0 <= j < l.size ==> l'.biases.data[0][j] == l.biases.data[0][j] - bg.data[0][j] * lr)
  {
  }

  /** With learning rate zero a step leaves the layer as it was. */
  lemma {:induction false} ZeroRateKeepsLayer(l: LayerState, wg: Matrix, bg: Matrix)
    requires WellShaped(l) && Valid(wg) && Valid(bg) && Stepped(l, wg, bg, 0.0).Ok?
    ensures Stepped(l, wg, bg, 0.0) == Ok(l)
  {
    var l' := Stepped(l, wg, bg, 0.0).value;
    SameEntries(l'.weights, l.weights);
    SameEntries(l'.biases, l.biases);
  }

  class Layer {
    var size: nat
    var neurons: Matrix
    var preNeurons: Matrix
    var weights: Matrix
    var biases: Matrix
    var activator: ActivationFunction

    function State(): LayerState
      reads this
    {
      LayerState(size, neurons, preNeurons, weights, biases, activator)
    }

    /** `Layer::new`, given the values its three `Matrix::random` calls drew. */
    constructor (size: nat, inputSize: nat, activation: ActivationFunction, draw: Draw)
      requires DrawFor(draw, size, inputSize)
      ensures State() == Initial(size, inputSize, activation, draw)
    {
      this.size := size;
      neurons := draw.neurons;
      preNeurons := Zeros(1, size);
      weights := draw.weights;
      biases := draw.biases;
      activator := activation;
    }

    /** A layer object holding the given value: how the network lends one of
        its layers to a method taking `&mut Layer`. */
    constructor Holding(s: LayerState)
      ensures State() == s
    {
      size := s.size;
      neurons := s.neurons;
      preNeurons := s.preNeurons;
      weights := s.weights;
      biases := s.biases;
      activator := s.activator;
    }

    /** `Layer::feed_from`. Nothing is stored when the step panics. */
    method FeedFrom(input: seq<real>, exp: PowE) returns (r: Result<seq<real>>)
      requires WellShaped(State())
      modifies this
      ensures WellShaped(State())
      ensures r.Ok? <==> Feed(old(State()), input, exp).Ok?
      ensures r.Ok? ==> (State(), r.value) == Feed(old(State()), input, exp).value
      ensures r.Err? ==> State() == old(State())
    {
      var p := Mul(Row(input), weights);
      if p.Err? {
        return Err(p.error);
      }
      // Both operands are 1 x size: the addition cannot panic.
      var z := Add(p.value, biases);
      assert z.value == Affine(State(), input).value;
      var a := Activate(z.value, activator, exp);
      if a.Err? {
        return Err(a.error);
      }
      preNeurons := z.value;
      neurons := a.value;
      r := Ok(a.value.data[0]);
    }

    /** `Layer::apply_gradients`. The weights are replaced before the biases
        are computed, as in the source; after a panic the layer is not used
        again, so only its shape is promised then. */
    method ApplyGradients(wg: Matrix, bg: Matrix, lr: real) returns (r: Result<()>)
      requires WellShaped(State()) && Valid(wg) && Valid(bg)
      modifies this
      ensures WellShaped(State())
      ensures r.Ok? <==> Stepped(old(State()), wg, bg, lr).Ok?
      ensures r.Ok? ==> State() == Stepped(old(State()), wg, bg, lr).value
    {
      var sw := Map(wg, x => x * lr);
      if sw.Err? {
        return Err(sw.error);
      }
      var w := Sub(weights, sw.value);
      if w.Err? {
        return Err(w.error);
      }
      weights := w.value;
      var sb := Map(bg, x => x * lr);
      if sb.Err? {
        return Err(sb.error);
      }
      var b := Sub(biases, sb.value);
      if b.Err? {
        return Err(b.error);
      }
      biases := b.value;
      r := Ok(());
    }
  }
}

/** Per-sample back-propagation (src/train/trainer.rs): for each zipped
    (input, expected) pair, a forward pass, the squared-error loss, and a
    backward pass from the last layer to the first in which every layer
    computes its gradients, hands the delta on through its weights as they
    were before the update, and takes one optimizer step. */
module Trainer {
  import opened Base
  import opened Matrices
  import opened Activation
  import opened Dense
  import opened Networks
  import opened Optim
  import MseLoss

  /** Training changes weights and biases, never the shape of a network. */
  predicate SameLayout(a: seq<LayerState>, b: seq<LayerState>)
  {
    |a| == |b|
    && forall k :: 0 <= k < |a| ==>
      a[k].size == b[k].size && InputSize(a[k]) == InputSize(b[k]) && a[k].activator == b[k].activator
  }

  /** The forward pass yields at least one value to average the loss over:
      the last layer has positive width, or, without layers, the input is
      not empty. */
  predicate Productive(ls: seq<LayerState>, input: seq<real>)
  {
    if |ls| == 0 then |input| > 0 else ls[|ls| - 1].size > 0
  }

  /** What layer i is fed in the backward pass: the raw input as a row for
      layer 0, the stored activations of layer i - 1 otherwise. */
  function LayerInput(ls: seq<LayerState>, input: seq<real>, i: nat): (m: Matrix)
    requires AllWellShaped(ls) && i < |ls|
    ensures Valid(m) && m.rows == 1
    ensures i == 0 ==> m == Row(input)
    ensures i > 0 ==> m == ls[i - 1].neurons
  {
    if i == 0 then Row(input) else ls[i - 1].neurons
  }

  /** `b_grad * weights.transpose()`: the delta handed to the layer below,
      a row with one entry per input of this layer. */
  function DeltaBelow(l: LayerState, bg: Matrix): (d: Matrix)
    requires WellShaped(l) && Shape(bg, 1, l.size)
    ensures Shape(d, 1, InputSize(l))
  {
    TransposedShape(l.weights);
    Product(bg, Transposed(l.weights)).value
  }

  /** Layer i's part of the backward pass: gradients from the incoming
      delta and the layer's input, the delta for layer i - 1 from the bias
      gradient and the weights before the update, then the update. */
  function BackStep(ls: seq<LayerState>, input: seq<real>, i: nat, delta: Matrix, lr: real, exp: PowE): (r: Result<(LayerState, Matrix)>)
    requires AllWellShaped(ls) && i < |ls| && Valid(delta)
    ensures r.Ok? ==> WellShaped(r.value.0) && Valid(r.value.1)
    ensures r.Ok? ==> r.value.0.size == ls[i].size && InputSize(r.value.0) == InputSize(ls[i])
    ensures r.Ok? ==> r.value.0.activator == ls[i].activator
    ensures r.Ok? ==> r.value.0.neurons == ls[i].neurons && r.value.0.preNeurons == ls[i].preNeurons
  {
    var g :- ComputeGradients(ls[i], delta, LayerInput(ls, input, i), exp);
    var next := if i > 0 then DeltaBelow(ls[i], g.1) else delta;
    var l' :- Stepped(ls[i], g.0, g.1, lr);
    Ok((l', next))
  }

  /** What the backward pass keeps when it has reached layer k: every
      layer keeps its shape, its activation and its cached activations, and
      the layers from k on are untouched. */
  predicate Retrained(a: seq<LayerState>, b: seq<LayerState>, k: nat)
  {
    |a| == |b|
    && forall j :: 0 <= j < |a| ==>
      a[j].size == b[j].size && InputSize(a[j]) == InputSize(b[j]) && a[j].activator == b[j].activator
      && a[j].neurons == b[j].neurons && a[j].preNeurons == b[j].preNeurons
      && (k <= j ==> a[j] == b[j])
  }

  lemma {:induction false} RetrainedStep(ls: seq<LayerState>, i: nat, l: LayerState)
    requires AllWellShaped(ls) && i < |ls| && WellShaped(l)
    requires l.size == ls[i].size && InputSize(l) == InputSize(ls[i]) && l.activator == ls[i].activator
    requires l.neurons == ls[i].neurons && l.preNeurons == ls[i].preNeurons
    ensures AllWellShaped(ls[i := l]) && Retrained(ls, ls[i := l], i + 1)
  {
  }

  lemma {:induction false} RetrainedTrans(a: seq<LayerState>, b: seq<LayerState>, c: seq<LayerState>, k: nat, m: nat)
    requires Retrained(a, b, k) && Retrained(b, c, m) && m <= k
    ensures Retrained(a, c, k)
  {
  }

  lemma {:induction false} RetrainedLayout(a: seq<LayerState>, b: seq<LayerState>, k: nat)
    requires Retrained(a, b, k)
    ensures SameLayout(a, b)
  {
  }

  /** The backward pass over layers k-1, k-2, ..., 0, entering with delta. */
  function BackFrom(ls: seq<LayerState>, input: seq<real>, k: nat, delta: Matrix, lr: real, exp: PowE): Result<seq<LayerState>>
    requires AllWellShaped(ls) && k <= |ls| && Valid(delta)
    decreases k, 0
  {
    if k == 0 then Ok(ls) else StepThen(ls, input, k - 1, delta, lr, exp)
  }

  /** Layer i takes its step, and the pass goes on below it with the delta
      the step handed down. */
  function StepThen(ls: seq<LayerState>, input: seq<real>, i: nat, delta: Matrix, lr: real, exp: PowE): Result<seq<LayerState>>
    requires AllWellShaped(ls) && i < |ls| && Valid(delta)
    decreases i, 1
  {
    var st :- BackStep(ls, input, i, delta, lr, exp);
    RetrainedStep(ls, i, st.0);
    BackFrom(ls[i := st.0], input, i, st.1, lr, exp)
  }

  /** A backward pass that reaches layer 0 changes only the weights and
      biases of layers below k, and leaves every layer well shaped. */
  lemma {:induction false} BackFromRetrained(ls: seq<LayerState>, input: seq<real>, k: nat, delta: Matrix, lr: real, exp: PowE)
    requires AllWellShaped(ls) && k <= |ls| && Valid(delta)
    requires BackFrom(ls, input, k, delta, lr, exp).Ok?
    ensures AllWellShaped(BackFrom(ls, input, k, delta, lr, exp).value)
    ensures Retrained(ls, BackFrom(ls, input, k, delta, lr, exp).value, k)
    decreases k
  {
    if k > 0 {
      var l, next := BackFromUnfold(ls, input, k, delta, lr, exp);
      var ls' := ls[k - 1 := l];
      BackFromRetrained(ls', input, k - 1, next, lr, exp);
      RetrainedTrans(ls, ls', BackFrom(ls', input, k - 1, next, lr, exp).value, k, k - 1);
    }
  }

  /** A successful pass from k > 0 steps layer k - 1 into some l, keeping
      its shape and caches, and goes on below with some delta. */
  lemma {:induction false} BackFromUnfold(ls: seq<LayerState>, input: seq<real>, k: nat, delta: Matrix, lr: real, exp: PowE)
    returns (l: LayerState, next: Matrix)
    requires AllWellShaped(ls) && 0 < k <= |ls| && Valid(delta)
    requires BackFrom(ls, input, k, delta, lr, exp).Ok?
    ensures AllWellShaped(ls[k - 1 := l]) && Valid(next) && Retrained(ls, ls[k - 1 := l], k)
    ensures BackFrom(ls, input, k, delta, lr, exp) == BackFrom(ls[k - 1 := l], input, k - 1, next, lr, exp)
  {
    if BackStep(ls, input, k - 1, delta, lr, exp).Err? {
      BackFromStepErr(ls, input, k, delta, lr, exp);
      assert false;
    }
    var st := BackStep(ls, input, k - 1, delta, lr, exp).value;
    l, next := st.0, st.1;
    BackFromStepOk(ls, input, k, delta, lr, exp, l, next);
    RetrainedStep(ls, k - 1, l);
  }

  /** One sample: forward pass, loss, initial delta `MseLoss::derivative`
      as a row, backward pass over every layer. */
  function TrainSample(ls: seq<LayerState>, input: seq<real>, expected: seq<real>, lr: real, exp: PowE): (r: Result<(seq<LayerState>, real)>)
    requires AllWellShaped(ls) && Productive(ls, input)
    ensures r.Ok? ==> AllWellShaped(r.value.0) && SameLayout(ls, r.value.0)
    ensures r.Ok? ==> r.value.1 >= 0.0
  {
    var fwd :- Propagate(ls, input, exp);
    PropagateOk(ls, input, exp);
    PropagateFromShape(ls, 0, input, exp);
    var loss := MseLoss.Loss(fwd.1, expected);
    var delta := Row(MseLoss.Derivative(fwd.1, expected));
    var back :- BackFrom(fwd.0, input, |fwd.0|, delta, lr, exp);
    BackFromRetrained(fwd.0, input, |fwd.0|, delta, lr, exp);
    RetrainedLayout(fwd.0, back, |fwd.0|);
    Ok((back, loss))
  }

  lemma {:induction false} ProductiveLayout(a: seq<LayerState>, b: seq<LayerState>, input: seq<real>)
    requires SameLayout(a, b) && Productive(a, input)
    ensures Productive(b, input)
  {
  }

  /** Every sample the zip of inputs and targets reaches yields output. */
  predicate AllProductive(ls: seq<LayerState>, inputs: seq<seq<real>>)
  {
    forall j :: 0 <= j < |inputs| ==> Productive(ls, inputs[j])
  }

  /** Samples j, j+1, ... of the zip, adding each loss to total. */
  function TrainFrom(ls: seq<LayerState>, inputs: seq<seq<real>>, expected: seq<seq<real>>, j: nat, total: real, lr: real, exp: PowE): (r: Result<(seq<LayerState>, real)>)
    requires AllWellShaped(ls) && AllProductive(ls, inputs) && j <= Min(|inputs|, |expected|)
    ensures r.Ok? ==> AllWellShaped(r.value.0) && SameLayout(ls, r.value.0)
    ensures r.Ok? && total >= 0.0 ==> r.value.1 >= 0.0
    decreases |inputs| - j
  {
    if j == Min(|inputs|, |expected|) then Ok((ls, total))
    else
      var s :- TrainSample(ls, inputs[j], expected[j], lr, exp);
      assert AllProductive(s.0, inputs) by {
        forall t | 0 <= t < |inputs| ensures Productive(s.0, inputs[t]) {
          ProductiveLayout(ls, s.0, inputs[t]);
        }
      }
      TrainFrom(s.0, inputs, expected, j + 1, total + s.1, lr, exp)
  }

  /** `train_network` on values: the summed loss over the zipped samples,
      divided by the number of inputs (not of pairs). */
  function Train(ls: seq<LayerState>, inputs: seq<seq<real>>, expected: seq<seq<real>>, lr: real, exp: PowE): (r: Result<(seq<LayerState>, real)>)
    requires AllWellShaped(ls) && AllProductive(ls, inputs) && |inputs| > 0
    ensures r.Ok? ==> AllWellShaped(r.value.0) && SameLayout(ls, r.value.0) && r.value.1 >= 0.0
  {
    var res :- TrainFrom(ls, inputs, expected, 0, 0.0, lr, exp);
    DivZeroIff(res.1, |inputs| as real);
    Ok((res.0, res.1 / (|inputs| as real)))
  }

  /** TrainFrom, one call away, for the loop to state its progress. */
  function TrainRest(ls: seq<LayerState>, inputs: seq<seq<real>>, expected: seq<seq<real>>, j: nat, total: real, lr: real, exp: PowE): (r: Result<(seq<LayerState>, real)>)
    requires AllWellShaped(ls) && AllProductive(ls, inputs) && j <= Min(|inputs|, |expected|)
  {
    TrainFrom(ls, inputs, expected, j, total, lr, exp)
  }

  /** Unfolding BackFrom one layer: layer k - 1 is the next to step. */
  lemma {:induction false} BackFromStepErr(ls: seq<LayerState>, input: seq<real>, k: nat, delta: Matrix, lr: real, exp: PowE)
    requires AllWellShaped(ls) && 0 < k <= |ls| && Valid(delta)
    requires BackStep(ls, input, k - 1, delta, lr, exp).Err?
    ensures BackFrom(ls, input, k, delta, lr, exp).Err?
  {
    assert BackFrom(ls, input, k, delta, lr, exp) == StepThen(ls, input, k - 1, delta, lr, exp);
  }

  lemma {:induction false} BackFromStepOk(ls: seq<LayerState>, input: seq<real>, k: nat, delta: Matrix, lr: real, exp: PowE, l: LayerState, next: Matrix)
    requires AllWellShaped(ls) && 0 < k <= |ls| && Valid(delta)
    requires BackStep(ls, input, k - 1, delta, lr, exp) == Ok((l, next))
    ensures AllWellShaped(ls[k - 1 := l]) && Valid(next)
    ensures BackFrom(ls, input, k, delta, lr, exp) == BackFrom(ls[k - 1 := l], input, k - 1, next, lr, exp)
  {
    RetrainedStep(ls, k - 1, l);
    assert BackFrom(ls, input, k, delta, lr, exp) == StepThen(ls, input, k - 1, delta, lr, exp);
  }

  /** `b_grad.clone() * weights.transpose()`. */
  method DeltaThrough(l: LayerState, bg: Matrix) returns (d: Matrix)
    requires WellShaped(l) && Shape(bg, 1, l.size)
    ensures d == DeltaBelow(l, bg)
  {
    var transposed := Transpose(l.weights);
    var product := Mul(bg, transposed);
    d := product.value;
  }

  /** `optimizer.step(&mut network.layers[i], w_grad, b_grad)`: layer i is
      lent to the optimizer as a `Layer` object and its new value stored
      back; the other layers are left alone. */
  method StepLayer(network: Network, optimizer: Sgd, i: nat, wg: Matrix, bg: Matrix) returns (r: Result<()>)
    requires network.Wellformed() && i < |network.layers| && Valid(wg) && Valid(bg)
    modifies network
    ensures network.Wellformed()
    ensures r.Ok? <==> Stepped(old(network.layers[i]), wg, bg, optimizer.learningRate).Ok?
    ensures r.Ok? ==>
      network.layers == old(network.layers)[i := Stepped(old(network.layers[i]), wg, bg, optimizer.learningRate).value]
    ensures r.Err? ==> network.layers == old(network.layers)
  {
    var layer := new Layer.Holding(network.layers[i]);
    r := optimizer.Step(layer, wg, bg);
    if r.Ok? {
      network.layers := network.layers[i := layer.State()];
    }
  }

  /** What one iteration of the backward loop computes, as BackFrom sees
      it, layer k - 1 being the one to step: a failed gradient fails the
      rest of the pass, ... */
  lemma {:induction false} BackFromGradientErr(ls: seq<LayerState>, input: seq<real>, k: nat, delta: Matrix, lr: real, exp: PowE)
    requires AllWellShaped(ls) && 0 < k <= |ls| && Valid(delta)
    requires ComputeGradients(ls[k - 1], delta, LayerInput(ls, input, k - 1), exp).Err?
    ensures BackFrom(ls, input, k, delta, lr, exp).Err?
  {
    BackFromStepErr(ls, input, k, delta, lr, exp);
  }

  /** ... so does a failed step, ... */
  lemma {:induction false} BackFromSteppedErr(ls: seq<LayerState>, input: seq<real>, k: nat, delta: Matrix, lr: real, exp: PowE,
                                              g: (Matrix, Matrix))
    requires AllWellShaped(ls) && 0 < k <= |ls| && Valid(delta)
    requires ComputeGradients(ls[k - 1], delta, LayerInput(ls, input, k - 1), exp) == Ok(g)
    requires Stepped(ls[k - 1], g.0, g.1, lr).Err?
    ensures BackFrom(ls, input, k, delta, lr, exp).Err?
  {
    BackFromStepErr(ls, input, k, delta, lr, exp);
  }

  /** ... and after a good one the rest of the pass goes on from the updated
      layers with the new delta. */
  lemma {:induction false} BackFromSteppedOk(ls: seq<LayerState>, input: seq<real>, k: nat, delta: Matrix, lr: real, exp: PowE,
                                             g: (Matrix, Matrix), next: Matrix, l: LayerState)
    requires AllWellShaped(ls) && 0 < k <= |ls| && Valid(delta)
    requires ComputeGradients(ls[k - 1], delta, LayerInput(ls, input, k - 1), exp) == Ok(g)
    requires next == if k > 1 then DeltaBelow(ls[k - 1], g.1) else delta
    requires Stepped(ls[k - 1], g.0, g.1, lr) == Ok(l)
    ensures AllWellShaped(ls[k - 1 := l]) && Valid(next)
    ensures BackFrom(ls[k - 1 := l], input, k - 1, next, lr, exp) == BackFrom(ls, input, k, delta, lr, exp)
  {
    BackFromStepOk(ls, input, k, delta, lr, exp, l, next);
  }

  /** One iteration of the backward loop, with k layers still to go: the
      gradients of layer i = k - 1, the delta for layer i - 1 computed
      before layer i is stepped, then the step. What is left of the pass
      afterwards is what was left of it before. */
  method BackwardLayer(network: Network, optimizer: Sgd, k: nat, input: seq<real>, delta: Matrix, exp: PowE)
    returns (r: Result<Matrix>)
    requires network.Wellformed() && 0 < k <= |network.layers| && Valid(delta)
    modifies network
    ensures network.Wellformed() && |network.layers| == |old(network.layers)|
    ensures r.Err? ==> BackFrom(old(network.layers), input, k, delta, optimizer.learningRate, exp).Err?
    ensures r.Ok? ==> Valid(r.value)
    ensures r.Ok? ==>
      BackFrom(network.layers, input, k - 1, r.value, optimizer.learningRate, exp)
      == BackFrom(old(network.layers), input, k, delta, optimizer.learningRate, exp)
  {
    ghost var ls := network.layers;
    var i := k - 1;
    var layerInput := if i == 0 then Row(input) else network.layers[i - 1].neurons;
    var g := ComputeGradients(network.layers[i], delta, layerInput, exp);
    if g.Err? {
      BackFromGradientErr(ls, input, k, delta, optimizer.learningRate, exp);
      return Err(g.error);
    }
    var next := delta;
    if i > 0 {
      next := DeltaThrough(network.layers[i], g.value.1);
    }
    var stepped := StepLayer(network, optimizer, i, g.value.0, g.value.1);
    if stepped.Err? {
      BackFromSteppedErr(ls, input, k, delta, optimizer.learningRate, exp, g.value);
      return Err(stepped.error);
    }
    ghost var l := Stepped(ls[i], g.value.0, g.value.1, optimizer.learningRate).value;
    assert network.layers == ls[i := l];
    BackFromSteppedOk(ls, input, k, delta, optimizer.learningRate, exp, g.value, next, l);
    r := Ok(next);
  }

  /** The backward loop `for i in (0..layers.len()).rev()`. */
  method Backward(network: Network, optimizer: Sgd, input: seq<real>, delta: Matrix, exp: PowE)
    returns (r: Result<()>)
    requires network.Wellformed() && Valid(delta)
    modifies network
    ensures network.Wellformed()
    ensures r.Ok? <==> BackFrom(old(network.layers), input, |old(network.layers)|, delta, optimizer.learningRate, exp).Ok?
    ensures r.Ok? ==>
      network.layers == BackFrom(old(network.layers), input, |old(network.layers)|, delta, optimizer.learningRate, exp).value
  {
    var i := |network.layers|;
    var current := delta;
    while i > 0
      invariant 0 <= i <= |network.layers| == |old(network.layers)| && Valid(current)
      invariant network.Wellformed()
      invariant BackFrom(network.layers, input, i, current, optimizer.learningRate, exp)
        == BackFrom(old(network.layers), input, |old(network.layers)|, delta, optimizer.learningRate, exp)
      decreases i
    {
      var step := BackwardLayer(network, optimizer, i, input, current, exp);
      if step.Err? {
        return Err(step.error);
      }
      current := step.value;
      i := i - 1;
    }
    r := Ok(());
  }

  /** Unfolding TrainFrom one sample. */
  lemma {:induction false} TrainFromStep(ls: seq<LayerState>, inputs: seq<seq<real>>, expected: seq<seq<real>>, j: nat, total: real, lr: real, exp: PowE)
    requires AllWellShaped(ls) && AllProductive(ls, inputs) && j < Min(|inputs|, |expected|)
    ensures TrainSample(ls, inputs[j], expected[j], lr, exp).Err? ==> TrainRest(ls, inputs, expected, j, total, lr, exp).Err?
    ensures TrainSample(ls, inputs[j], expected[j], lr, exp).Ok? ==>
      var s := TrainSample(ls, inputs[j], expected[j], lr, exp).value;
      AllWellShaped(s.0) && AllProductive(s.0, inputs)
      && TrainRest(ls, inputs, expected, j, total, lr, exp) == TrainRest(s.0, inputs, expected, j + 1, total + s.1, lr, exp)
  {
    var s := TrainSample(ls, inputs[j], expected[j], lr, exp);
    if s.Ok? {
      TrainFromSampleOk(ls, inputs, expected, j, total, lr, exp, s.value.0, s.value.1);
    } else {
      TrainFromSampleErr(ls, inputs, expected, j, total, lr, exp);
    }
  }

  /** A failed sample fails the rest of the pass. */
  lemma {:induction false} TrainFromSampleErr(ls: seq<LayerState>, inputs: seq<seq<real>>, expected: seq<seq<real>>, j: nat, total: real, lr: real, exp: PowE)
    requires AllWellShaped(ls) && AllProductive(ls, inputs) && j < Min(|inputs|, |expected|)
    requires TrainSample(ls, inputs[j], expected[j], lr, exp).Err?
    ensures TrainRest(ls, inputs, expected, j, total, lr, exp).Err?
  {
  }

  /** A good sample hands on its layers, which still yield output for every
      sample, and adds its loss. */
  lemma {:induction false} TrainFromSampleOk(ls: seq<LayerState>, inputs: seq<seq<real>>, expected: seq<seq<real>>, j: nat, total: real, lr: real, exp: PowE,
                                             ls': seq<LayerState>, loss: real)
    requires AllWellShaped(ls) && AllProductive(ls, inputs) && j < Min(|inputs|, |expected|)
    requires TrainSample(ls, inputs[j], expected[j], lr, exp) == Ok((ls', loss))
    ensures AllWellShaped(ls') && AllProductive(ls', inputs)
    ensures TrainRest(ls, inputs, expected, j, total, lr, exp) == TrainRest(ls', inputs, expected, j + 1, total + loss, lr, exp)
  {
    forall t | 0 <= t < |inputs|
      ensures Productive(ls', inputs[t])
    {
      ProductiveLayout(ls, ls', inputs[t]);
    }
    TrainFromSampleNext(ls, inputs, expected, j, total, lr, exp, ls', loss);
  }

  /** The pass from sample j is the pass from j + 1 on what sample j left. */
  lemma {:induction false} TrainFromSampleNext(ls: seq<LayerState>, inputs: seq<seq<real>>, expected: seq<seq<real>>, j: nat, total: real, lr: real, exp: PowE,
                                               ls': seq<LayerState>, loss: real)
    requires AllWellShaped(ls) && AllProductive(ls, inputs) && j < Min(|inputs|, |expected|)
    requires TrainSample(ls, inputs[j], expected[j], lr, exp) == Ok((ls', loss))
    requires AllWellShaped(ls') && AllProductive(ls', inputs)
    ensures TrainRest(ls, inputs, expected, j, total, lr, exp) == TrainRest(ls', inputs, expected, j + 1, total + loss, lr, exp)
  {
  }

  /** The body of the loop over samples in `train_network`: forward pass,
      loss, initial delta `Matrix::from_data(vec![error])`, backward pass. */
  method TrainOne(network: Network, optimizer: Sgd, input: seq<real>, expected: seq<real>, exp: PowE)
    returns (r: Result<real>)
    requires network.Wellformed() && Productive(network.layers, input)
    modifies network
    ensures network.Wellformed()
    ensures r.Ok? <==> TrainSample(old(network.layers), input, expected, optimizer.learningRate, exp).Ok?
    ensures r.Ok? ==> (network.layers, r.value) == TrainSample(old(network.layers), input, expected, optimizer.learningRate, exp).value
  {
    ghost var ls := network.layers;
    PropagateOk(ls, input, exp);
    var output := network.Forward(input, exp);
    if output.Err? {
      return Err(output.error);
    }
    PropagateFromShape(ls, 0, input, exp);
    var loss := MseLoss.Loss(output.value, expected);
    var delta := Row(MseLoss.Derivative(output.value, expected));
    var back := Backward(network, optimizer, input, delta, exp);
    if back.Err? {
      return Err(back.error);
    }
    r := Ok(loss);
  }

  /** `train_network`: one forward and backward pass per zipped sample, in
      order, returning the summed loss divided by the number of inputs. */
  method TrainNetwork(network: Network, inputs: seq<seq<real>>, expected: seq<seq<real>>, optimizer: Sgd, exp: PowE)
    returns (r: Result<real>)
    requires network.Wellformed() && AllProductive(network.layers, inputs) && |inputs| > 0
    modifies network
    ensures network.Wellformed()
    ensures r.Ok? <==> Train(old(network.layers), inputs, expected, optimizer.learningRate, exp).Ok?
    ensures r.Ok? ==> (network.layers, r.value) == Train(old(network.layers), inputs, expected, optimizer.learningRate, exp).value
  {
    var total := 0.0;
    ghost var pass := TrainRest(network.layers, inputs, expected, 0, 0.0, optimizer.learningRate, exp);
    for j := 0 to Min(|inputs|, |expected|)
      invariant network.Wellformed() && AllProductive(network.layers, inputs)
      invariant TrainRest(network.layers, inputs, expected, j, total, optimizer.learningRate, exp) == pass
    {
      TrainFromStep(network.layers, inputs, expected, j, total, optimizer.learningRate, exp);
      var loss := TrainOne(network, optimizer, inputs[j], expected[j], exp);
      if loss.Err? {
        return Err(loss.error);
      }
      total := total + loss.value;
    }
    r := Ok(total / (|inputs| as real));
  }
}

/** Mini-batch training with progress reporting and early stop
    (src/train/loop_fn.rs). The network is the `Network` object of the
    forward pass; the functions below give the value of each stage of an
    epoch, and the methods that run the stages are proved against them. */
module TrainLoop {
  import opened Base
  import opened Matrices
  import opened Activation
  import opened Dense
  import opened Networks
  import opened Optim
  import opened Trainer
  import MseLoss
  import CrossEntropyLoss

  /** `LossType` (src/loss/loss_type.rs). */
  datatype LossType = Mse | CrossEntropy | BinaryCrossEntropy | Mae | Huber

  /** The loss types the dispatch in the training loop handles. */
  predicate LoopLoss(t: LossType) { t == Mse || t == CrossEntropy }

  /** `compute_loss`. */
  function ComputeLoss(predicted: seq<real>, expected: seq<real>, t: LossType, ln: real -> real): (r: real)
    requires LoopLoss(t) && (t == Mse ==> |predicted| > 0)
    ensures t == Mse ==> r >= 0.0
  {
    if t == Mse then MseLoss.Loss(predicted, expected)
    else CrossEntropyLoss.Loss(predicted, expected, ln)
  }

  /** The dispatch gives the loss of the selected type: under MSE it vanishes
      exactly on a prediction that matches the target on the zipped
      positions, and under cross-entropy it is the sum of the terms
      -e ln(p + EPS). */
  lemma {:induction false} ComputeLossMeaning(predicted: seq<real>, expected: seq<real>, t: LossType, ln: real -> real)
    requires LoopLoss(t) && (t == Mse ==> |predicted| > 0)
    ensures t == Mse ==> (ComputeLoss(predicted, expected, t, ln) == 0.0 <==> MseLoss.AgreeOnZip(predicted, expected))
    ensures t == CrossEntropy ==> ComputeLoss(predicted, expected, t, ln) == Sum(CrossEntropyLoss.Terms(predicted, expected, ln))
  {
    if t == Mse {
      MseLoss.ZeroIff(predicted, expected);
    }
  }

  /** `compute_loss_derivative`: both losses the loop handles have the
      gradient p - e on the zipped positions. */
  function ComputeLossDerivative(predicted: seq<real>, expected: seq<real>, t: LossType): (d: seq<real>)
    requires LoopLoss(t)
    ensures |d| == Min(|predicted|, |expected|)
    ensures forall i :: 0 <= i < |d| ==> d[i] == predicted[i] - expected[i]
  {
    if t == Mse then MseLoss.Derivative(predicted, expected)
    else CrossEntropyLoss.Derivative(predicted, expected)
  }

  /** `argmax`: `max_by` over (index, value) pairs, which keeps the LAST of
      several equal maxima; 0 for an empty slice. */
  function ArgMax(v: seq<real>): (r: nat)
    ensures |v| == 0 ==> r == 0
    ensures |v| > 0 ==> r < |v|
    ensures forall j :: 0 <= j < |v| ==> v[j] <= v[r]
    ensures forall j :: r < j < |v| ==> v[j] < v[r]
  {
    if |v| <= 1 then 0
    else
      var m := ArgMax(v[..|v| - 1]);
      assert forall j :: 0 <= j < |v| - 1 ==> v[..|v| - 1][j] == v[j];
      if v[|v| - 1] >= v[m] then |v| - 1 else m
  }

  // ---------------------------------------------------------------------
  // Batches

  /** The number of batches `(0..n).step_by(bs)` yields. */
  function BatchCount(n: nat, bs: nat): nat
    requires bs > 0
  {
    (n + bs - 1) / bs
  }

  /** Batch b runs from b * bs up to min(b * bs + bs, n). */
  function BatchStart(bs: nat, b: nat): nat { b * bs }

  function BatchEnd(n: nat, bs: nat, b: nat): nat { Min(b * bs + bs, n) }

  lemma {:induction false} MulStrict(b: nat, c: nat, bs: nat)
    requires bs > 0 && b < c
    ensures b * bs + bs <= c * bs
  {
    assert c * bs - b * bs == (c - b) * bs;
    assert (c - b) * bs >= bs by {
      MulMonotoneNat(c - b, 1, bs);
    }
  }

  lemma {:induction false} MulMonotoneNat(a: nat, b: nat, c: nat)
    requires a >= b
    ensures a * c >= b * c
  {
    assert a * c - b * c == (a - b) * c;
  }

  /** A batch starts inside the data exactly when its number is below the
      batch count, and then it is not empty. */
  lemma {:induction false} BatchInRange(n: nat, bs: nat, b: nat)
    requires bs > 0
    ensures BatchStart(bs, b) < n <==> b < BatchCount(n, bs)
    ensures BatchStart(bs, b) < n ==> BatchStart(bs, b) < BatchEnd(n, bs, b) <= n
  {
    var q := BatchCount(n, bs);
    assert (n + bs - 1) == q * bs + (n + bs - 1) % bs;
    if b < q {
      MulStrict(b, q, bs);
    } else {
      MulMonotoneNat(b, q, bs);
    }
  }

  /** Every position j < n lies in batch j / bs and in no other batch: the
      batches partition the shuffled order. */
  lemma {:induction false} BatchesPartition(n: nat, bs: nat, j: nat, b: nat)
    requires bs > 0 && j < n
    ensures j / bs < BatchCount(n, bs)
    ensures BatchStart(bs, j / bs) <= j < BatchEnd(n, bs, j / bs)
    ensures BatchStart(bs, b) <= j < BatchEnd(n, bs, b) ==> b == j / bs
  {
    var q := j / bs;
    assert j == q * bs + j % bs;
    BatchInRange(n, bs, q);
    if BatchStart(bs, b) <= j < BatchEnd(n, bs, b) && b != q {
      if b < q {
        MulStrict(b, q, bs);
      } else {
        MulStrict(q, b, bs);
      }
    }
  }

  /** `order` lists 0..n-1, each once: the outcome of `indices.shuffle`. */
  predicate IsPermutation(order: seq<nat>, n: nat)
  {
    |order| == n
    && (forall j :: 0 <= j < n ==> order[j] < n)
    && (forall j, k :: 0 <= j < k < n ==> order[j] != order[k])
  }

  // ---------------------------------------------------------------------
  // Gradient accumulation

  /** One (weights, biases) accumulator per layer, shaped like that layer's
      weights and biases. */
  predicate Accumulates(ls: seq<LayerState>, acc: seq<(Matrix, Matrix)>)
  {
    |acc| == |ls|
    && forall i :: 0 <= i < |acc| ==>
         Shape(acc[i].0, ls[i].weights.rows, ls[i].weights.cols)
         && Shape(acc[i].1, ls[i].biases.rows, ls[i].biases.cols)
  }

  /** The accumulators only depend on the shapes of the parameters. */
  lemma {:induction false} AccumulatesLayout(a: seq<LayerState>, b: seq<LayerState>, acc: seq<(Matrix, Matrix)>)
    requires Accumulates(a, acc) && |a| == |b|
    requires forall i :: 0 <= i < |a| ==> SameShape(a[i].weights, b[i].weights) && SameShape(a[i].biases, b[i].biases)
    ensures Accumulates(b, acc)
  {
  }

  /** The zero-initialised storage built at the start of every batch. */
  function ZeroGrads(ls: seq<LayerState>): (acc: seq<(Matrix, Matrix)>)
    ensures Accumulates(ls, acc)
    ensures forall i, r, c :: 0 <= i < |acc| && 0 <= r < ls[i].weights.rows && 0 <= c < ls[i].weights.cols ==>
      acc[i].0.data[r][c] == 0.0
    ensures forall i, r, c :: 0 <= i < |acc| && 0 <= r < ls[i].biases.rows && 0 <= c < ls[i].biases.cols ==>
      acc[i].1.data[r][c] == 0.0
  {
    seq(|ls|, i requires 0 <= i < |ls| =>
      (Zeros(ls[i].weights.rows, ls[i].weights.cols), Zeros(ls[i].biases.rows, ls[i].biases.cols)))
  }

  /** Layer i = k - 1 of the backward pass adds its gradients to its
      accumulator; the delta for the layer below is b_grad W^T. The layers
      themselves are not stepped inside a batch. */
  function GradsFrom(ls: seq<LayerState>, input: seq<real>, k: nat, delta: Matrix, acc: seq<(Matrix, Matrix)>, exp: PowE)
    : (r: Result<seq<(Matrix, Matrix)>>)
    requires AllWellShaped(ls) && k <= |ls| && Valid(delta) && Accumulates(ls, acc)
    ensures r.Ok? ==> Accumulates(ls, r.value)
    ensures r.Ok? ==> forall j :: k <= j < |ls| ==> r.value[j] == acc[j]
    decreases k, 1
  {
    if k == 0 then Ok(acc) else GradThen(ls, input, k - 1, delta, acc, exp)
  }

  /** Layer i's gradients are added in, and the pass goes on below it. */
  function GradThen(ls: seq<LayerState>, input: seq<real>, i: nat, delta: Matrix, acc: seq<(Matrix, Matrix)>, exp: PowE)
    : (r: Result<seq<(Matrix, Matrix)>>)
    requires AllWellShaped(ls) && i < |ls| && Valid(delta) && Accumulates(ls, acc)
    ensures r.Ok? ==> Accumulates(ls, r.value)
    ensures r.Ok? ==> forall j :: i < j < |ls| ==> r.value[j] == acc[j]
    decreases i + 1, 0
  {
    var g :- ComputeGradients(ls[i], delta, LayerInput(ls, input, i), exp);
    var next := if i > 0 then DeltaBelow(ls[i], g.1) else delta;
    var w :- Plus(acc[i].0, g.0);
    // Both bias operands are 1 x size: this sum cannot fail.
    var b := Plus(acc[i].1, g.1).value;
    GradsFrom(ls, input, i, next, acc[i := (w, b)], exp)
  }

  /** Only the caches differ: what a forward pass changes. */
  predicate Recached(a: seq<LayerState>, b: seq<LayerState>)
  {
    |a| == |b| && forall i :: 0 <= i < |a| ==> SameParameters(a[i], b[i])
  }

  /** One sample of a batch: forward pass, loss, initial delta as a row,
      gradients added to the accumulators. */
  function SampleGrads(ls: seq<LayerState>, input: seq<real>, expected: seq<real>, t: LossType,
                       acc: seq<(Matrix, Matrix)>, exp: PowE, ln: real -> real)
    : (r: Result<(seq<LayerState>, real, seq<(Matrix, Matrix)>)>)
    requires AllWellShaped(ls) && Accumulates(ls, acc) && LoopLoss(t) && Productive(ls, input)
    ensures r.Ok? ==> AllWellShaped(r.value.0) && Recached(ls, r.value.0) && Accumulates(r.value.0, r.value.2)
  {
    var fwd :- Propagate(ls, input, exp);
    PropagateOk(ls, input, exp);
    PropagateFromShape(ls, 0, input, exp);
    AccumulatesLayout(ls, fwd.0, acc);
    var loss := ComputeLoss(fwd.1, expected, t, ln);
    var delta := Row(ComputeLossDerivative(fwd.1, expected, t));
    var acc' :- GradsFrom(fwd.0, input, |fwd.0|, delta, acc, exp);
    Ok((fwd.0, loss, acc'))
  }

  /** A forward pass after a layout-preserving change preserves the layout. */
  lemma {:induction false} RecachedLayout(a: seq<LayerState>, b: seq<LayerState>, c: seq<LayerState>)
    requires SameLayout(a, b) && Recached(b, c)
    ensures SameLayout(a, c)
  {
  }

  lemma {:induction false} ProductiveRecached(a: seq<LayerState>, b: seq<LayerState>, inputs: seq<seq<real>>)
    requires Recached(a, b) && AllProductive(a, inputs)
    ensures AllProductive(b, inputs)
  {
  }

  /** Samples order[j], order[j+1], ... of one batch; the loss is added to
      the epoch's running total. */
  function BatchFrom(ls: seq<LayerState>, inputs: seq<seq<real>>, labels: seq<seq<real>>, idx: seq<nat>, j: nat,
                     acc: seq<(Matrix, Matrix)>, total: real, t: LossType, exp: PowE, ln: real -> real)
    : (r: Result<(seq<LayerState>, real, seq<(Matrix, Matrix)>)>)
    requires AllWellShaped(ls) && Accumulates(ls, acc) && LoopLoss(t) && AllProductive(ls, inputs)
    requires j <= |idx| && forall k :: 0 <= k < |idx| ==> idx[k] < |inputs| && idx[k] < |labels|
    ensures r.Ok? ==> AllWellShaped(r.value.0) && Recached(ls, r.value.0) && Accumulates(r.value.0, r.value.2)
    decreases |idx| - j, 1
  {
    if j == |idx| then Ok((ls, total, acc)) else SampleThen(ls, inputs, labels, idx, j, acc, total, t, exp, ln)
  }

  /** BatchFrom, one call away, for the methods to state their progress. */
  function BatchRest(ls: seq<LayerState>, inputs: seq<seq<real>>, labels: seq<seq<real>>, idx: seq<nat>, j: nat,
                     acc: seq<(Matrix, Matrix)>, total: real, t: LossType, exp: PowE, ln: real -> real)
    : (r: Result<(seq<LayerState>, real, seq<(Matrix, Matrix)>)>)
    requires AllWellShaped(ls) && Accumulates(ls, acc) && LoopLoss(t) && AllProductive(ls, inputs)
    requires j <= |idx| && forall k :: 0 <= k < |idx| ==> idx[k] < |inputs| && idx[k] < |labels|
  {
    BatchFrom(ls, inputs, labels, idx, j, acc, total, t, exp, ln)
  }

  /** Sample idx[j] is processed, then the rest of the batch. */
  function SampleThen(ls: seq<LayerState>, inputs: seq<seq<real>>, labels: seq<seq<real>>, idx: seq<nat>, j: nat,
                      acc: seq<(Matrix, Matrix)>, total: real, t: LossType, exp: PowE, ln: real -> real)
    : (r: Result<(seq<LayerState>, real, seq<(Matrix, Matrix)>)>)
    requires AllWellShaped(ls) && Accumulates(ls, acc) && LoopLoss(t) && AllProductive(ls, inputs)
    requires j < |idx| && forall k :: 0 <= k < |idx| ==> idx[k] < |inputs| && idx[k] < |labels|
    ensures r.Ok? ==> AllWellShaped(r.value.0) && Recached(ls, r.value.0) && Accumulates(r.value.0, r.value.2)
    decreases |idx| - j, 0
  {
    var s :- SampleGrads(ls, inputs[idx[j]], labels[idx[j]], t, acc, exp, ln);
    ProductiveRecached(ls, s.0, inputs);
    BatchFrom(s.0, inputs, labels, idx, j + 1, s.2, total + s.1, t, exp, ln)
  }

  /** The averaging and update loop after a batch: layer i, i+1, ... takes
      one step with its accumulated gradients times `scale`. */
  function ApplyFrom(ls: seq<LayerState>, acc: seq<(Matrix, Matrix)>, i: nat, scale: real, lr: real)
    : (r: Result<seq<LayerState>>)
    requires AllWellShaped(ls) && Accumulates(ls, acc) && i <= |ls|
    ensures r.Ok? ==> AllWellShaped(r.value) && SameLayout(ls, r.value) && Accumulates(r.value, acc)
    ensures r.Ok? ==> forall j :: 0 <= j < i ==> r.value[j] == ls[j]
    decreases |ls| - i, 1
  {
    if i == |ls| then Ok(ls) else ApplyThen(ls, acc, i, scale, lr)
  }

  /** Layer i takes its step, then the layers after it. */
  function ApplyThen(ls: seq<LayerState>, acc: seq<(Matrix, Matrix)>, i: nat, scale: real, lr: real)
    : (r: Result<seq<LayerState>>)
    requires AllWellShaped(ls) && Accumulates(ls, acc) && i < |ls|
    ensures r.Ok? ==> AllWellShaped(r.value) && SameLayout(ls, r.value) && Accumulates(r.value, acc)
    ensures r.Ok? ==> forall j :: 0 <= j < i ==> r.value[j] == ls[j]
    decreases |ls| - i, 0
  {
    var w :- Map(acc[i].0, x => x * scale);
    // The bias accumulator has one row: this map cannot fail.
    var b := Map(acc[i].1, x => x * scale).value;
    var l :- Stepped(ls[i], w, b, lr);
    ApplyFrom(ls[i := l], acc, i + 1, scale, lr)
  }

  /** One batch of the epoch: the samples order[start..end] accumulate
      gradients from zero, then every layer takes one step with their
      average over the batch's actual length. */
  function BatchStep(ls: seq<LayerState>, inputs: seq<seq<real>>, labels: seq<seq<real>>, batch: seq<nat>,
                     total: real, t: LossType, lr: real, exp: PowE, ln: real -> real)
    : (r: Result<(seq<LayerState>, real)>)
    requires AllWellShaped(ls) && LoopLoss(t) && AllProductive(ls, inputs) && |batch| > 0
    requires forall k :: 0 <= k < |batch| ==> batch[k] < |inputs| && batch[k] < |labels|
    ensures r.Ok? ==> AllWellShaped(r.value.0) && SameLayout(ls, r.value.0) && AllProductive(r.value.0, inputs)
  {
    var s :- BatchFrom(ls, inputs, labels, batch, 0, ZeroGrads(ls), total, t, exp, ln);
    var stepped :- ApplyFrom(s.0, s.2, 0, 1.0 / (|batch| as real), lr);
    AllProductiveLayout(ls, stepped, inputs);
    Ok((stepped, s.1))
  }

  /** The batch of an epoch that starts at b * bs. */
  function BatchOf(order: seq<nat>, bs: nat, b: nat): (batch: seq<nat>)
    requires bs > 0 && BatchStart(bs, b) < |order|
    ensures |batch| == BatchEnd(|order|, bs, b) - BatchStart(bs, b) > 0
    ensures forall k :: 0 <= k < |batch| ==> batch[k] == order[BatchStart(bs, b) + k]
  {
    BatchInRange(|order|, bs, b);
    order[BatchStart(bs, b)..BatchEnd(|order|, bs, b)]
  }

  /** Batches b, b+1, ... of an epoch over the shuffled `order`. */
  function EpochFrom(ls: seq<LayerState>, inputs: seq<seq<real>>, labels: seq<seq<real>>, order: seq<nat>, bs: nat, b: nat,
                     total: real, t: LossType, lr: real, exp: PowE, ln: real -> real)
    : (r: Result<(seq<LayerState>, real)>)
    requires AllWellShaped(ls) && LoopLoss(t) && AllProductive(ls, inputs) && bs > 0
    requires IsPermutation(order, |inputs|) && |labels| == |inputs|
    ensures r.Ok? ==> AllWellShaped(r.value.0) && SameLayout(ls, r.value.0)
    decreases |order| - BatchStart(bs, b), 1
  {
    if BatchStart(bs, b) >= |order| then Ok((ls, total)) else BatchThen(ls, inputs, labels, order, bs, b, total, t, lr, exp, ln)
  }

  /** Batch b runs, then the batches after it. */
  function BatchThen(ls: seq<LayerState>, inputs: seq<seq<real>>, labels: seq<seq<real>>, order: seq<nat>, bs: nat, b: nat,
                     total: real, t: LossType, lr: real, exp: PowE, ln: real -> real)
    : (r: Result<(seq<LayerState>, real)>)
    requires AllWellShaped(ls) && LoopLoss(t) && AllProductive(ls, inputs) && bs > 0
    requires IsPermutation(order, |inputs|) && |labels| == |inputs| && BatchStart(bs, b) < |order|
    ensures r.Ok? ==> AllWellShaped(r.value.0) && SameLayout(ls, r.value.0)
    decreases |order| - BatchStart(bs, b), 0
  {
    var s :- BatchStep(ls, inputs, labels, BatchOf(order, bs, b), total, t, lr, exp, ln);
    MulStrict(b, b + 1, bs);
    EpochFrom(s.0, inputs, labels, order, bs, b + 1, s.1, t, lr, exp, ln)
  }

  lemma {:induction false} AllProductiveLayout(a: seq<LayerState>, b: seq<LayerState>, inputs: seq<seq<real>>)
    requires SameLayout(a, b) && AllProductive(a, inputs)
    ensures AllProductive(b, inputs)
  {
  }

  /** `run_one_epoch`: the epoch's summed loss divided by the number of
      samples. */
  function RunEpoch(ls: seq<LayerState>, inputs: seq<seq<real>>, labels: seq<seq<real>>, order: seq<nat>, bs: nat,
                    t: LossType, lr: real, exp: PowE, ln: real -> real)
    : (r: Result<(seq<LayerState>, real)>)
    requires AllWellShaped(ls) && LoopLoss(t) && AllProductive(ls, inputs) && bs > 0 && |inputs| > 0
    requires IsPermutation(order, |inputs|) && |labels| == |inputs|
    ensures r.Ok? ==> AllWellShaped(r.value.0) && SameLayout(ls, r.value.0)
  {
    var e :- EpochFrom(ls, inputs, labels, order, bs, 0, 0.0, t, lr, exp, ln);
    Ok((e.0, e.1 / (|inputs| as real)))
  }

  // ---------------------------------------------------------------------
  // Evaluation

  /** Samples j, j+1, ... of the zip of inputs and labels: forward pass and
      loss, summed onto total. */
  function EvalFrom(ls: seq<LayerState>, inputs: seq<seq<real>>, labels: seq<seq<real>>, j: nat, total: real,
                    t: LossType, exp: PowE, ln: real -> real)
    : (r: Result<(seq<LayerState>, real)>)
    requires AllWellShaped(ls) && LoopLoss(t) && AllProductive(ls, inputs) && j <= Min(|inputs|, |labels|)
    ensures r.Ok? ==> AllWellShaped(r.value.0) && Recached(ls, r.value.0)
    ensures r.Ok? && t == Mse && total >= 0.0 ==> r.value.1 >= 0.0
    decreases |inputs| - j, 1
  {
    if j == Min(|inputs|, |labels|) then Ok((ls, total)) else EvalThen(ls, inputs, labels, j, total, t, exp, ln)
  }

  /** EvalFrom, one call away, for the methods to state their progress. */
  function EvalRest(ls: seq<LayerState>, inputs: seq<seq<real>>, labels: seq<seq<real>>, j: nat, total: real,
                    t: LossType, exp: PowE, ln: real -> real)
    : (r: Result<(seq<LayerState>, real)>)
    requires AllWellShaped(ls) && LoopLoss(t) && AllProductive(ls, inputs) && j <= Min(|inputs|, |labels|)
  {
    EvalFrom(ls, inputs, labels, j, total, t, exp, ln)
  }

  /** Sample j's loss is added, then the samples after it. */
  function EvalThen(ls: seq<LayerState>, inputs: seq<seq<real>>, labels: seq<seq<real>>, j: nat, total: real,
                    t: LossType, exp: PowE, ln: real -> real)
    : (r: Result<(seq<LayerState>, real)>)
    requires AllWellShaped(ls) && LoopLoss(t) && AllProductive(ls, inputs) && j < Min(|inputs|, |labels|)
    ensures r.Ok? ==> AllWellShaped(r.value.0) && Recached(ls, r.value.0)
    ensures r.Ok? && t == Mse && total >= 0.0 ==> r.value.1 >= 0.0
    decreases |inputs| - j, 0
  {
    var s :- SampleLoss(ls, inputs[j], labels[j], t, exp, ln);
    ProductiveRecached(ls, s.0, inputs);
    EvalFrom(s.0, inputs, labels, j + 1, total + s.1, t, exp, ln)
  }

  /** One sample of an evaluation: forward pass, then its loss. */
  function SampleLoss(ls: seq<LayerState>, input: seq<real>, expected: seq<real>, t: LossType, exp: PowE, ln: real -> real)
    : (r: Result<(seq<LayerState>, real)>)
    requires AllWellShaped(ls) && LoopLoss(t) && Productive(ls, input)
    ensures r.Ok? ==> AllWellShaped(r.value.0) && Recached(ls, r.value.0)
    ensures r.Ok? && t == Mse ==> r.value.1 >= 0.0
  {
    var fwd :- Propagate(ls, input, exp);
    PropagateOk(ls, input, exp);
    PropagateFromShape(ls, 0, input, exp);
    Ok((fwd.0, ComputeLoss(fwd.1, expected, t, ln)))
  }

  /** `compute_eval_loss`: the mean loss over the data, 0 without data. */
  function EvalLoss(ls: seq<LayerState>, inputs: seq<seq<real>>, labels: seq<seq<real>>, t: LossType, exp: PowE, ln: real -> real)
    : (r: Result<(seq<LayerState>, real)>)
    requires AllWellShaped(ls) && LoopLoss(t) && AllProductive(ls, inputs)
    ensures |inputs| == 0 ==> r == Ok((ls, 0.0))
    ensures r.Ok? ==> AllWellShaped(r.value.0) && Recached(ls, r.value.0)
    ensures r.Ok? && t == Mse ==> r.value.1 >= 0.0
  {
    if |inputs| == 0 then Ok((ls, 0.0))
    else
      var e :- EvalFrom(ls, inputs, labels, 0, 0.0, t, exp, ln);
      DivZeroIff(e.1, |inputs| as real);
      Ok((e.0, e.1 / (|inputs| as real)))
  }

  /** Samples j, j+1, ... of the zip: one more correct answer each time the
      output's argmax is the label's. */
  function CorrectFrom(ls: seq<LayerState>, inputs: seq<seq<real>>, labels: seq<seq<real>>, j: nat, count: nat, exp: PowE)
    : (r: Result<(seq<LayerState>, nat)>)
    requires AllWellShaped(ls) && j <= Min(|inputs|, |labels|)
    ensures r.Ok? ==> AllWellShaped(r.value.0) && Recached(ls, r.value.0)
    ensures r.Ok? ==> count <= r.value.1 <= count + (Min(|inputs|, |labels|) - j)
    decreases |inputs| - j, 1
  {
    if j == Min(|inputs|, |labels|) then Ok((ls, count)) else CountThen(ls, inputs, labels, j, count, exp)
  }

  /** Sample j is judged, then the samples after it. */
  function CountThen(ls: seq<LayerState>, inputs: seq<seq<real>>, labels: seq<seq<real>>, j: nat, count: nat, exp: PowE)
    : (r: Result<(seq<LayerState>, nat)>)
    requires AllWellShaped(ls) && j < Min(|inputs|, |labels|)
    ensures r.Ok? ==> AllWellShaped(r.value.0) && Recached(ls, r.value.0)
    ensures r.Ok? ==> count <= r.value.1 <= count + (Min(|inputs|, |labels|) - j)
    decreases |inputs| - j, 0
  {
    var fwd :- Propagate(ls, inputs[j], exp);
    PropagateFromShape(ls, 0, inputs[j], exp);
    var hit := if ArgMax(fwd.1) == ArgMax(labels[j]) then 1 else 0;
    CorrectFrom(fwd.0, inputs, labels, j + 1, count + hit, exp)
  }

  /** `compute_accuracy`: the fraction of zipped samples classified
      correctly, over the number of inputs; 0 without data. */
  function Accuracy(ls: seq<LayerState>, inputs: seq<seq<real>>, labels: seq<seq<real>>, exp: PowE)
    : (r: Result<(seq<LayerState>, real)>)
    requires AllWellShaped(ls)
    ensures |inputs| == 0 ==> r == Ok((ls, 0.0))
    ensures r.Ok? ==> AllWellShaped(r.value.0) && Recached(ls, r.value.0)
    ensures r.Ok? ==> 0.0 <= r.value.1 <= 1.0
  {
    if |inputs| == 0 then Ok((ls, 0.0))
    else
      var c :- CorrectFrom(ls, inputs, labels, 0, 0, exp);
      FractionBounds(c.1, |inputs|);
      Ok((c.0, (c.1 as real) / (|inputs| as real)))
  }

  lemma {:induction false} FractionBounds(k: nat, n: nat)
    requires 0 < n && k <= n
    ensures 0.0 <= (k as real) / (n as real) <= 1.0
  {
    DivMonotone(k as real, n as real, n as real);
    DivZeroIff(k as real, n as real);
  }

  // ---------------------------------------------------------------------
  // The epoch loop

  /** `EpochStats` without the wall-clock `elapsed_ms`. */
  datatype EpochStats = EpochStats(epoch: nat, totalEpochs: nat, trainLoss: real,
                                   valLoss: Option<real>, trainAccuracy: Option<real>, valAccuracy: Option<real>)

  /** Every validation sample yields output when a validation set is given. */
  predicate ValidationProductive(ls: seq<LayerState>, valInputs: Option<seq<seq<real>>>)
  {
    valInputs.Some? ==> AllProductive(ls, valInputs.value)
  }

  /** The statistics of one epoch: training accuracy for cross-entropy runs,
      validation loss and accuracy when both validation slices are given. */
  function Report(ls: seq<LayerState>, inputs: seq<seq<real>>, labels: seq<seq<real>>,
                  valInputs: Option<seq<seq<real>>>, valLabels: Option<seq<seq<real>>>,
                  t: LossType, epoch: nat, epochs: nat, trainLoss: real, exp: PowE, ln: real -> real)
    : (r: Result<(seq<LayerState>, EpochStats)>)
    requires AllWellShaped(ls) && LoopLoss(t) && ValidationProductive(ls, valInputs)
    ensures r.Ok? ==> AllWellShaped(r.value.0) && Recached(ls, r.value.0)
    ensures r.Ok? ==> var st := r.value.1;
      st.epoch == epoch && st.totalEpochs == epochs && st.trainLoss == trainLoss
      && (st.trainAccuracy.Some? <==> t == CrossEntropy)
      && (st.valLoss.Some? <==> valInputs.Some? && valLabels.Some?)
      && (st.valAccuracy.Some? <==> valInputs.Some? && valLabels.Some? && t == CrossEntropy)
      && (st.trainAccuracy.Some? ==> 0.0 <= st.trainAccuracy.value <= 1.0)
      && (st.valAccuracy.Some? ==> 0.0 <= st.valAccuracy.value <= 1.0)
  {
    var train :- if t == CrossEntropy then Accuracy(ls, inputs, labels, exp) else Ok((ls, 0.0));
    var trainAccuracy := if t == CrossEntropy then Some(train.1) else None;
    if valInputs.Some? && valLabels.Some? then
      ProductiveRecached(ls, train.0, valInputs.value);
      var vl :- EvalLoss(train.0, valInputs.value, valLabels.value, t, exp, ln);
      var va :- if t == CrossEntropy then Accuracy(vl.0, valInputs.value, valLabels.value, exp) else Ok((vl.0, 0.0));
      Ok((va.0, EpochStats(epoch, epochs, trainLoss, Some(vl.1), trainAccuracy,
                           if t == CrossEntropy then Some(va.1) else None)))
    else
      Ok((train.0, EpochStats(epoch, epochs, trainLoss, None, trainAccuracy, None)))
  }

  /** `TrainConfig`; the channel and the flag are represented by whether
      they are present. */
  datatype TrainConfig = TrainConfig(epochs: nat, batchSize: nat, lossType: LossType, hasProgress: bool, hasStopFlag: bool)

  /** What the rest of the program does while the loop runs: the shuffle of
      each epoch, the stop flag's value when it is read before and after
      each epoch, and whether each epoch's send reaches a receiver. */
  datatype Env = Env(shuffle: nat -> seq<nat>, stopBefore: nat -> bool, stopAfter: nat -> bool, delivered: nat -> bool)

  /** The returned loss, the number of epochs that ran, and the statistics
      the receiver got, in order. */
  datatype Outcome = Outcome(lastLoss: real, epochsRun: nat, sent: seq<EpochStats>)

  predicate Numbered(sent: seq<EpochStats>, epochs: nat)
  {
    forall j :: 0 <= j < |sent| ==> sent[j].epoch == j + 1 && sent[j].totalEpochs == epochs
  }

  /** Every epoch's shuffle is a permutation of the sample indices. */
  ghost predicate ShufflesOk(env: Env, n: nat)
  {
    forall e: nat :: IsPermutation(env.shuffle(e), n)
  }

  ghost predicate LoopReady(ls: seq<LayerState>, inputs: seq<seq<real>>, labels: seq<seq<real>>,
                      valInputs: Option<seq<seq<real>>>, config: TrainConfig, env: Env)
  {
    AllWellShaped(ls) && LoopLoss(config.lossType) && AllProductive(ls, inputs) && ValidationProductive(ls, valInputs)
    && |inputs| > 0 && |labels| == |inputs| && config.batchSize > 0
    && ShufflesOk(env, |inputs|)
  }

  lemma {:induction false} ReadyLayout(a: seq<LayerState>, b: seq<LayerState>, inputs: seq<seq<real>>, labels: seq<seq<real>>,
                                       valInputs: Option<seq<seq<real>>>, config: TrainConfig, env: Env)
    requires LoopReady(a, inputs, labels, valInputs, config, env) && AllWellShaped(b) && SameLayout(a, b)
    ensures LoopReady(b, inputs, labels, valInputs, config, env)
  {
  }

  lemma {:induction false} ProductiveLayoutVal(a: seq<LayerState>, b: seq<LayerState>, valInputs: Option<seq<seq<real>>>)
    requires SameLayout(a, b) && ValidationProductive(a, valInputs)
    ensures ValidationProductive(b, valInputs)
  {
  }

  /** One epoch of the loop: the pass over the training data, then the
      statistics measured on the updated network. */
  function EpochStep(ls: seq<LayerState>, inputs: seq<seq<real>>, labels: seq<seq<real>>,
                     valInputs: Option<seq<seq<real>>>, valLabels: Option<seq<seq<real>>>,
                     lr: real, config: TrainConfig, env: Env, e: nat, exp: PowE, ln: real -> real)
    : (r: Result<(seq<LayerState>, EpochStats)>)
    requires LoopReady(ls, inputs, labels, valInputs, config, env)
    ensures r.Ok? ==> LoopReady(r.value.0, inputs, labels, valInputs, config, env) && SameLayout(ls, r.value.0)
    ensures r.Ok? ==> r.value.1.epoch == e && r.value.1.totalEpochs == config.epochs
  {
    var ep :- RunEpoch(ls, inputs, labels, env.shuffle(e), config.batchSize, config.lossType, lr, exp, ln);
    ProductiveLayoutVal(ls, ep.0, valInputs);
    var rep :- Report(ep.0, inputs, labels, valInputs, valLabels, config.lossType, e, config.epochs, ep.1, exp, ln);
    RecachedLayout(ls, ep.0, rep.0);
    ReadyLayout(ls, rep.0, inputs, labels, valInputs, config, env);
    Ok(rep)
  }

  /** Epoch e starts: it is within the count and the flag, if any, was not
      seen set at the top of the epoch. */
  predicate Starts(config: TrainConfig, env: Env, e: nat)
  {
    e <= config.epochs && !(config.hasStopFlag && env.stopBefore(e))
  }

  /** The statistics of epoch e reach a receiver. */
  predicate Received(config: TrainConfig, env: Env, e: nat)
  {
    config.hasProgress && env.delivered(e)
  }

  /** After epoch e the loop goes on: the send, if any, reached a receiver
      and the flag, if any, was not seen set afterwards. */
  predicate Continues(config: TrainConfig, env: Env, e: nat)
  {
    !(config.hasProgress && !env.delivered(e)) && !(config.hasStopFlag && env.stopAfter(e))
  }

  /** The number of the last epoch that runs when the loop is at epoch e. */
  function LastEpoch(config: TrainConfig, env: Env, e: nat): (n: nat)
    requires 1 <= e
    ensures e - 1 <= n && (e <= config.epochs ==> n <= config.epochs)
    decreases config.epochs + 1 - e
  {
    if !Starts(config, env, e) then e - 1
    else if !Continues(config, env, e) then e
    else LastEpoch(config, env, e + 1)
  }

  /** How the loop ends: the epochs from e up to the last one all start and
      all but the last go on; the loop stops before the count is reached
      only because the next epoch does not start or the last one does not
      go on. */
  lemma {:induction false} LastEpochControl(config: TrainConfig, env: Env, e: nat)
    requires 1 <= e <= config.epochs + 1
    ensures var n := LastEpoch(config, env, e);
      && (forall k :: e <= k <= n ==> Starts(config, env, k))
      && (forall k :: e <= k < n ==> Continues(config, env, k))
      && (n < config.epochs ==> !Starts(config, env, n + 1) || (n >= e && !Continues(config, env, n)))
    decreases config.epochs + 1 - e
  {
    if Starts(config, env, e) && Continues(config, env, e) {
      LastEpochControl(config, env, e + 1);
    }
  }

  /** What a loop entered at epoch e with `sent` already delivered hands
      back: the epochs e..LastEpoch run; if none does, the loss and the
      statistics are the ones it was given; without a channel nothing more
      is sent; with one, the statistics of each epoch whose send succeeded
      are appended in order, numbered by epoch and naming the configured
      count, only the last epoch's send can have failed, and otherwise the
      last statistics carry the loss the loop returns. */
  ghost predicate LoopResult(ls: seq<LayerState>, config: TrainConfig, env: Env, e: nat, last: real,
                             sent: seq<EpochStats>, r: (seq<LayerState>, Outcome))
    requires 1 <= e
  {
    var o := r.1;
    && SameLayout(ls, r.0) && AllWellShaped(r.0)
    && o.epochsRun == LastEpoch(config, env, e)
    && (o.epochsRun == e - 1 ==> o.lastLoss == last && o.sent == sent)
    && (!config.hasProgress ==> o.sent == sent)
    && (config.hasProgress && Numbered(sent, config.epochs) && |sent| == e - 1 ==>
          Numbered(o.sent, config.epochs) && sent <= o.sent
          && (|o.sent| == o.epochsRun || (|o.sent| + 1 == o.epochsRun && !env.delivered(o.epochsRun)))
          && (|o.sent| == o.epochsRun > |sent| ==> o.sent[|o.sent| - 1].trainLoss == o.lastLoss))
  }

  /** Epochs e, e+1, ..., config.epochs, with `last` the loss of epoch e - 1
      (0 before the first) and `sent` the statistics delivered so far. */
  function LoopFrom(ls: seq<LayerState>, inputs: seq<seq<real>>, labels: seq<seq<real>>,
                    valInputs: Option<seq<seq<real>>>, valLabels: Option<seq<seq<real>>>,
                    lr: real, config: TrainConfig, env: Env, e: nat, last: real, sent: seq<EpochStats>,
                    exp: PowE, ln: real -> real)
    : (r: Result<(seq<LayerState>, Outcome)>)
    requires LoopReady(ls, inputs, labels, valInputs, config, env) && 1 <= e <= config.epochs + 1
    ensures r.Ok? ==> LoopResult(ls, config, env, e, last, sent, r.value)
    decreases config.epochs + 1 - e, 1
  {
    if !Starts(config, env, e) then Ok((ls, Outcome(last, e - 1, sent)))
    else EpochThen(ls, inputs, labels, valInputs, valLabels, lr, config, env, e, sent, exp, ln)
  }

  /** Epoch e runs, its statistics are sent, and the loop goes on unless the
      send failed or the flag is now set. */
  function EpochThen(ls: seq<LayerState>, inputs: seq<seq<real>>, labels: seq<seq<real>>,
                     valInputs: Option<seq<seq<real>>>, valLabels: Option<seq<seq<real>>>,
                     lr: real, config: TrainConfig, env: Env, e: nat, sent: seq<EpochStats>,
                     exp: PowE, ln: real -> real)
    : (r: Result<(seq<LayerState>, Outcome)>)
    requires LoopReady(ls, inputs, labels, valInputs, config, env) && 1 <= e && Starts(config, env, e)
    ensures r.Ok? ==> r.value.1.epochsRun >= e && LoopResult(ls, config, env, e, 0.0, sent, r.value)
    decreases config.epochs + 1 - e, 0
  {
    var step :- EpochStep(ls, inputs, labels, valInputs, valLabels, lr, config, env, e, exp, ln);
    var sent' := if Received(config, env, e) then sent + [step.1] else sent;
    if !Continues(config, env, e) then Ok((step.0, Outcome(step.1.trainLoss, e, sent')))
    else LoopRest(step.0, inputs, labels, valInputs, valLabels, lr, config, env, e + 1, step.1.trainLoss, sent', exp, ln)
  }

  /** LoopFrom, one call away and part of the same recursion: the loop's
      methods state their progress through it, so that comparing two points
      of the loop does not unfold the epochs between them. */
  function LoopRest(ls: seq<LayerState>, inputs: seq<seq<real>>, labels: seq<seq<real>>,
                    valInputs: Option<seq<seq<real>>>, valLabels: Option<seq<seq<real>>>,
                    lr: real, config: TrainConfig, env: Env, e: nat, last: real, sent: seq<EpochStats>,
                    exp: PowE, ln: real -> real)
    : (r: Result<(seq<LayerState>, Outcome)>)
    requires LoopReady(ls, inputs, labels, valInputs, config, env) && 1 <= e <= config.epochs + 1
    decreases config.epochs + 1 - e, 2
  {
    LoopFrom(ls, inputs, labels, valInputs, valLabels, lr, config, env, e, last, sent, exp, ln)
  }

  const EmptyInputs := "train_inputs must not be empty"
  const LengthMismatch := "train_inputs and train_labels must have equal length"
  const ZeroBatch := "batch_size must be at least 1"

  /** `train_loop`: the three argument checks, then epochs 1, 2, ... */
  function TrainLoopSpec(ls: seq<LayerState>, inputs: seq<seq<real>>, labels: seq<seq<real>>,
                         valInputs: Option<seq<seq<real>>>, valLabels: Option<seq<seq<real>>>,
                         lr: real, config: TrainConfig, env: Env, exp: PowE, ln: real -> real)
    : (r: Result<(seq<LayerState>, Outcome)>)
    requires AllWellShaped(ls) && LoopLoss(config.lossType) && AllProductive(ls, inputs) && ValidationProductive(ls, valInputs)
    requires ShufflesOk(env, |inputs|)
    ensures |inputs| == 0 ==> r == Err(EmptyInputs)
    ensures |inputs| > 0 && |labels| != |inputs| ==> r == Err(LengthMismatch)
    ensures |inputs| > 0 && |labels| == |inputs| && config.batchSize == 0 ==> r == Err(ZeroBatch)
    ensures r.Ok? ==> LoopResult(ls, config, env, 1, 0.0, [], r.value) && r.value.1.epochsRun <= config.epochs
  {
    if |inputs| == 0 then Err(EmptyInputs)
    else if |labels| != |inputs| then Err(LengthMismatch)
    else if config.batchSize == 0 then Err(ZeroBatch)
    else LoopFrom(ls, inputs, labels, valInputs, valLabels, lr, config, env, 1, 0.0, [], exp, ln)
  }

  /** Unfolding the backward accumulation one layer: the gradients of
      layer k - 1 and the accumulator sum decide whether the pass fails, and
      otherwise it goes on below with the new delta and accumulators. */
  lemma {:induction false} GradsFromStep(ls: seq<LayerState>, input: seq<real>, k: nat, delta: Matrix, acc: seq<(Matrix, Matrix)>, exp: PowE)
    requires AllWellShaped(ls) && 0 < k <= |ls| && Valid(delta) && Accumulates(ls, acc)
    ensures var g := ComputeGradients(ls[k - 1], delta, LayerInput(ls, input, k - 1), exp);
      && (g.Err? ==> GradsFrom(ls, input, k, delta, acc, exp) == Err(g.error))
      && (g.Ok? ==>
            var next := if k > 1 then DeltaBelow(ls[k - 1], g.value.1) else delta;
            var w := Plus(acc[k - 1].0, g.value.0);
            && (w.Err? ==> GradsFrom(ls, input, k, delta, acc, exp) == Err(w.error))
            && (w.Ok? ==>
                  var acc' := acc[k - 1 := (w.value, Plus(acc[k - 1].1, g.value.1).value)];
                  Valid(next) && Accumulates(ls, acc')
                  && GradsFrom(ls, input, k, delta, acc, exp) == GradsFrom(ls, input, k - 1, next, acc', exp)))
  {
    assert GradsFrom(ls, input, k, delta, acc, exp) == GradThen(ls, input, k - 1, delta, acc, exp);
  }

  /** Unfolding a batch one sample: a failed sample fails the batch, ... */
  lemma {:induction false} BatchFromSampleErr(ls: seq<LayerState>, inputs: seq<seq<real>>, labels: seq<seq<real>>, idx: seq<nat>, j: nat,
                                              acc: seq<(Matrix, Matrix)>, total: real, t: LossType, exp: PowE, ln: real -> real)
    requires AllWellShaped(ls) && Accumulates(ls, acc) && LoopLoss(t) && AllProductive(ls, inputs)
    requires j < |idx| && forall k :: 0 <= k < |idx| ==> idx[k] < |inputs| && idx[k] < |labels|
    requires SampleGrads(ls, inputs[idx[j]], labels[idx[j]], t, acc, exp, ln).Err?
    ensures BatchRest(ls, inputs, labels, idx, j, acc, total, t, exp, ln).Err?
  {
    assert BatchFrom(ls, inputs, labels, idx, j, acc, total, t, exp, ln) == SampleThen(ls, inputs, labels, idx, j, acc, total, t, exp, ln);
  }

  /** ... and a good one leaves `rest`, the remainder of the batch run from
      what the sample left, as the result of the whole. */
  lemma {:induction false} BatchFromSampleOk(ls: seq<LayerState>, inputs: seq<seq<real>>, labels: seq<seq<real>>, idx: seq<nat>, j: nat,
                                             acc: seq<(Matrix, Matrix)>, total: real, t: LossType, exp: PowE, ln: real -> real,
                                             ls': seq<LayerState>, loss: real, acc': seq<(Matrix, Matrix)>, rest: Result<(seq<LayerState>, real, seq<(Matrix, Matrix)>)>)
    requires AllWellShaped(ls) && Accumulates(ls, acc) && LoopLoss(t) && AllProductive(ls, inputs)
    requires j < |idx| && forall k :: 0 <= k < |idx| ==> idx[k] < |inputs| && idx[k] < |labels|
    requires SampleGrads(ls, inputs[idx[j]], labels[idx[j]], t, acc, exp, ln) == Ok((ls', loss, acc'))
    requires AllProductive(ls', inputs)
    requires rest == BatchRest(ls', inputs, labels, idx, j + 1, acc', total + loss, t, exp, ln)
    ensures BatchRest(ls, inputs, labels, idx, j, acc, total, t, exp, ln) == rest
  {
    SampleThenOk(ls, inputs, labels, idx, j, acc, total, t, exp, ln, ls', loss, acc');
  }

  /** The sample step of a batch in isolation: a good sample hands on what
      it left. */
  lemma {:induction false} SampleThenOk(ls: seq<LayerState>, inputs: seq<seq<real>>, labels: seq<seq<real>>, idx: seq<nat>, j: nat,
                                        acc: seq<(Matrix, Matrix)>, total: real, t: LossType, exp: PowE, ln: real -> real,
                                        ls': seq<LayerState>, loss: real, acc': seq<(Matrix, Matrix)>)
    requires AllWellShaped(ls) && Accumulates(ls, acc) && LoopLoss(t) && AllProductive(ls, inputs)
    requires j < |idx| && forall k :: 0 <= k < |idx| ==> idx[k] < |inputs| && idx[k] < |labels|
    requires SampleGrads(ls, inputs[idx[j]], labels[idx[j]], t, acc, exp, ln) == Ok((ls', loss, acc'))
    requires AllProductive(ls', inputs)
    ensures SampleThen(ls, inputs, labels, idx, j, acc, total, t, exp, ln)
      == BatchFrom(ls', inputs, labels, idx, j + 1, acc', total + loss, t, exp, ln)
  {
  }

  /** A batch whose samples went through ends with the averaging loop on
      what they left. */
  lemma {:induction false} BatchStepApply(ls: seq<LayerState>, inputs: seq<seq<real>>, labels: seq<seq<real>>,
                                          batch: seq<nat>, total: real, t: LossType, lr: real, exp: PowE, ln: real -> real)
    requires AllWellShaped(ls) && LoopLoss(t) && AllProductive(ls, inputs) && |batch| > 0
    requires forall k :: 0 <= k < |batch| ==> batch[k] < |inputs| && batch[k] < |labels|
    requires BatchFrom(ls, inputs, labels, batch, 0, ZeroGrads(ls), total, t, exp, ln).Ok?
    ensures var s := BatchFrom(ls, inputs, labels, batch, 0, ZeroGrads(ls), total, t, exp, ln).value;
      var a := ApplyFrom(s.0, s.2, 0, 1.0 / (|batch| as real), lr);
      && (a.Err? ==> BatchStep(ls, inputs, labels, batch, total, t, lr, exp, ln).Err?)
      && (a.Ok? ==> BatchStep(ls, inputs, labels, batch, total, t, lr, exp, ln) == Ok((a.value, s.1)))
  {
  }

  // ---------------------------------------------------------------------
  // The loops of loop_fn.rs, run on a Network

  /** One iteration of the backward loop of a sample, with k layers still
      to go: the gradients of layer i = k - 1 against its input, the delta
      for layer i - 1 through its weights, the gradients added to
      accumulator i. What is left of the pass afterwards is what was left
      of it before. The network is only read. */
  method AccumulateLayer(network: Network, input: seq<real>, k: nat, delta: Matrix, acc: seq<(Matrix, Matrix)>, exp: PowE)
    returns (r: Result<(Matrix, seq<(Matrix, Matrix)>)>)
    requires network.Wellformed() && 0 < k <= |network.layers| && Valid(delta) && Accumulates(network.layers, acc)
    ensures r.Err? ==> GradsFrom(network.layers, input, k, delta, acc, exp) == Err(r.error)
    ensures r.Ok? ==> Valid(r.value.0) && Accumulates(network.layers, r.value.1)
    ensures r.Ok? ==>
      GradsFrom(network.layers, input, k - 1, r.value.0, r.value.1, exp) == GradsFrom(network.layers, input, k, delta, acc, exp)
  {
    GradsFromStep(network.layers, input, k, delta, acc, exp);
    var i := k - 1;
    var layerInput := if i == 0 then Row(input) else network.layers[i - 1].neurons;
    var g := ComputeGradients(network.layers[i], delta, layerInput, exp);
    if g.Err? {
      return Err(g.error);
    }
    var next := delta;
    if i > 0 {
      next := DeltaThrough(network.layers[i], g.value.1);
    }
    var w := Plus(acc[i].0, g.value.0);
    if w.Err? {
      return Err(w.error);
    }
    var b := Plus(acc[i].1, g.value.1);
    r := Ok((next, acc[i := (w.value, b.value)]));
  }

  /** The backward loop of one sample, i = |layers| - 1 down to 0. */
  method AccumulateBackward(network: Network, input: seq<real>, delta: Matrix, acc: seq<(Matrix, Matrix)>, exp: PowE)
    returns (r: Result<seq<(Matrix, Matrix)>>)
    requires network.Wellformed() && Valid(delta) && Accumulates(network.layers, acc)
    ensures r == GradsFrom(network.layers, input, |network.layers|, delta, acc, exp)
  {
    ghost var pass := GradsFrom(network.layers, input, |network.layers|, delta, acc, exp);
    var i := |network.layers|;
    var current := delta;
    var grads := acc;
    while i > 0
      invariant 0 <= i <= |network.layers| && Valid(current) && Accumulates(network.layers, grads)
      invariant GradsFrom(network.layers, input, i, current, grads, exp) == pass
      decreases i
    {
      var step := AccumulateLayer(network, input, i, current, grads, exp);
      if step.Err? {
        return Err(step.error);
      }
      current, grads := step.value.0, step.value.1;
      i := i - 1;
    }
    r := Ok(grads);
  }

  /** The averaging loop after a batch: accumulator i times `scale`, then one
      optimizer step of layer i, for i = 0, 1, ... */
  method ApplyGrads(network: Network, optimizer: Sgd, acc: seq<(Matrix, Matrix)>, scale: real)
    returns (r: Result<()>)
    requires network.Wellformed() && Accumulates(network.layers, acc)
    modifies network
    ensures network.Wellformed()
    ensures r.Ok? <==> ApplyFrom(old(network.layers), acc, 0, scale, optimizer.learningRate).Ok?
    ensures r.Ok? ==> network.layers == ApplyFrom(old(network.layers), acc, 0, scale, optimizer.learningRate).value
  {
    for i := 0 to |network.layers|
      invariant network.Wellformed() && Accumulates(network.layers, acc)
      invariant ApplyFrom(network.layers, acc, i, scale, optimizer.learningRate)
        == ApplyFrom(old(network.layers), acc, 0, scale, optimizer.learningRate)
    {
      assert ApplyFrom(network.layers, acc, i, scale, optimizer.learningRate)
        == ApplyThen(network.layers, acc, i, scale, optimizer.learningRate);
      var w := Map(acc[i].0, x => x * scale);
      if w.Err? {
        return Err(w.error);
      }
      var b := Map(acc[i].1, x => x * scale);
      ghost var ls := network.layers;
      // The averaged gradients have the layer's shapes: the step cannot fail.
      var stepped := StepLayer(network, optimizer, i, w.value, b.value);
      assert stepped.Ok?;
      AccumulatesLayout(ls, network.layers, acc);
    }
    r := Ok(());
  }

  /** One sample of a batch: `network.forward`, the loss added to the
      running total, the derivative as the first delta, the backward loop. */
  method AccumulateSample(network: Network, input: seq<real>, expected: seq<real>, t: LossType,
                          acc: seq<(Matrix, Matrix)>, exp: PowE, ln: real -> real)
    returns (r: Result<(real, seq<(Matrix, Matrix)>)>)
    requires network.Wellformed() && Accumulates(network.layers, acc) && LoopLoss(t) && Productive(network.layers, input)
    modifies network
    ensures network.Wellformed()
    ensures r.Ok? <==> SampleGrads(old(network.layers), input, expected, t, acc, exp, ln).Ok?
    ensures r.Ok? ==> (network.layers, r.value.0, r.value.1) == SampleGrads(old(network.layers), input, expected, t, acc, exp, ln).value
  {
    ghost var ls := network.layers;
    PropagateOk(ls, input, exp);
    var output := network.Forward(input, exp);
    if output.Err? {
      return Err(output.error);
    }
    PropagateFromShape(ls, 0, input, exp);
    AccumulatesLayout(ls, network.layers, acc);
    var loss := ComputeLoss(output.value, expected, t, ln);
    var delta := Row(ComputeLossDerivative(output.value, expected, t));
    var grads := AccumulateBackward(network, input, delta, acc, exp);
    if grads.Err? {
      return Err(grads.error);
    }
    r := Ok((loss, grads.value));
  }

  /** Iteration j of the loop over a batch's samples: sample batch[j]
      goes through, its loss is added to the running total, and what is left
      of the batch afterwards is what was left of it before. */
  method BatchSample(network: Network, inputs: seq<seq<real>>, labels: seq<seq<real>>, batch: seq<nat>, j: nat,
                     acc: seq<(Matrix, Matrix)>, total: real, t: LossType, exp: PowE, ln: real -> real)
    returns (r: Result<(real, seq<(Matrix, Matrix)>)>)
    requires network.Wellformed() && Accumulates(network.layers, acc) && LoopLoss(t) && AllProductive(network.layers, inputs)
    requires j < |batch| && forall k :: 0 <= k < |batch| ==> batch[k] < |inputs| && batch[k] < |labels|
    modifies network
    ensures network.Wellformed()
    ensures r.Err? ==> BatchRest(old(network.layers), inputs, labels, batch, j, acc, total, t, exp, ln).Err?
    ensures r.Ok? ==> Accumulates(network.layers, r.value.1) && AllProductive(network.layers, inputs)
    ensures r.Ok? ==>
      BatchRest(network.layers, inputs, labels, batch, j + 1, r.value.1, r.value.0, t, exp, ln)
      == BatchRest(old(network.layers), inputs, labels, batch, j, acc, total, t, exp, ln)
  {
    ghost var ls := network.layers;
    var s := AccumulateSample(network, inputs[batch[j]], labels[batch[j]], t, acc, exp, ln);
    if s.Err? {
      BatchFromSampleErr(ls, inputs, labels, batch, j, acc, total, t, exp, ln);
      return Err(s.error);
    }
    ProductiveRecached(ls, network.layers, inputs);
    BatchFromSampleOk(ls, inputs, labels, batch, j, acc, total, t, exp, ln, network.layers, s.value.0, s.value.1,
      BatchRest(network.layers, inputs, labels, batch, j + 1, s.value.1, total + s.value.0, t, exp, ln));
    r := Ok((total + s.value.0, s.value.1));
  }

  /** The loop over the samples of a batch, in order, from accumulators
      `acc` and running total `total`. */
  method AccumulateBatch(network: Network, inputs: seq<seq<real>>, labels: seq<seq<real>>, batch: seq<nat>,
                         acc: seq<(Matrix, Matrix)>, total: real, t: LossType, exp: PowE, ln: real -> real)
    returns (r: Result<(real, seq<(Matrix, Matrix)>)>)
    requires network.Wellformed() && Accumulates(network.layers, acc) && LoopLoss(t) && AllProductive(network.layers, inputs)
    requires forall k :: 0 <= k < |batch| ==> batch[k] < |inputs| && batch[k] < |labels|
    modifies network
    ensures network.Wellformed()
    ensures r.Ok? <==> BatchFrom(old(network.layers), inputs, labels, batch, 0, acc, total, t, exp, ln).Ok?
    ensures r.Ok? ==>
      (network.layers, r.value.0, r.value.1) == BatchFrom(old(network.layers), inputs, labels, batch, 0, acc, total, t, exp, ln).value
  {
    ghost var pass := BatchRest(network.layers, inputs, labels, batch, 0, acc, total, t, exp, ln);
    var grads := acc;
    var sum := total;
    for j := 0 to |batch|
      invariant network.Wellformed() && Accumulates(network.layers, grads) && AllProductive(network.layers, inputs)
      invariant BatchRest(network.layers, inputs, labels, batch, j, grads, sum, t, exp, ln) == pass
    {
      var s := BatchSample(network, inputs, labels, batch, j, grads, sum, t, exp, ln);
      if s.Err? {
        return Err(s.error);
      }
      sum, grads := s.value.0, s.value.1;
    }
    r := Ok((sum, grads));
  }

  /** One batch: accumulators zeroed, the samples of the batch, then the
      average applied. */
  method TrainBatch(network: Network, optimizer: Sgd, inputs: seq<seq<real>>, labels: seq<seq<real>>, batch: seq<nat>,
                    total: real, t: LossType, exp: PowE, ln: real -> real)
    returns (r: Result<real>)
    requires network.Wellformed() && LoopLoss(t) && AllProductive(network.layers, inputs) && |batch| > 0
    requires forall k :: 0 <= k < |batch| ==> batch[k] < |inputs| && batch[k] < |labels|
    modifies network
    ensures network.Wellformed()
    ensures r.Ok? <==> BatchStep(old(network.layers), inputs, labels, batch, total, t, optimizer.learningRate, exp, ln).Ok?
    ensures r.Ok? ==>
      (network.layers, r.value) == BatchStep(old(network.layers), inputs, labels, batch, total, t, optimizer.learningRate, exp, ln).value
  {
    ghost var ls0 := network.layers;
    var s := AccumulateBatch(network, inputs, labels, batch, ZeroGrads(network.layers), total, t, exp, ln);
    if s.Err? {
      return Err(s.error);
    }
    BatchStepApply(ls0, inputs, labels, batch, total, t, optimizer.learningRate, exp, ln);
    ghost var ls := network.layers;
    var applied := ApplyGrads(network, optimizer, s.value.1, 1.0 / (|batch| as real));
    if applied.Err? {
      return Err(applied.error);
    }
    r := Ok(s.value.0);
  }

  /** `run_one_epoch` over the shuffled `order`: the batches starting at
      0, bs, 2 bs, ..., then the summed loss over the number of samples. */
  method RunOneEpoch(network: Network, optimizer: Sgd, inputs: seq<seq<real>>, labels: seq<seq<real>>, order: seq<nat>,
                     bs: nat, t: LossType, exp: PowE, ln: real -> real)
    returns (r: Result<real>)
    requires network.Wellformed() && LoopLoss(t) && AllProductive(network.layers, inputs) && bs > 0 && |inputs| > 0
    requires IsPermutation(order, |inputs|) && |labels| == |inputs|
    modifies network
    ensures network.Wellformed()
    ensures r.Ok? <==> RunEpoch(old(network.layers), inputs, labels, order, bs, t, optimizer.learningRate, exp, ln).Ok?
    ensures r.Ok? ==>
      (network.layers, r.value) == RunEpoch(old(network.layers), inputs, labels, order, bs, t, optimizer.learningRate, exp, ln).value
  {
    var b := 0;
    var total := 0.0;
    while BatchStart(bs, b) < |order|
      invariant network.Wellformed() && AllProductive(network.layers, inputs)
      invariant EpochFrom(network.layers, inputs, labels, order, bs, b, total, t, optimizer.learningRate, exp, ln)
        == EpochFrom(old(network.layers), inputs, labels, order, bs, 0, 0.0, t, optimizer.learningRate, exp, ln)
      decreases |order| - BatchStart(bs, b)
    {
      assert EpochFrom(network.layers, inputs, labels, order, bs, b, total, t, optimizer.learningRate, exp, ln)
        == BatchThen(network.layers, inputs, labels, order, bs, b, total, t, optimizer.learningRate, exp, ln);
      ghost var ls := network.layers;
      var sum := TrainBatch(network, optimizer, inputs, labels, BatchOf(order, bs, b), total, t, exp, ln);
      if sum.Err? {
        return Err(sum.error);
      }
      AllProductiveLayout(ls, network.layers, inputs);
      MulStrict(b, b + 1, bs);
      total := sum.value;
      b := b + 1;
    }
    r := Ok(total / (|inputs| as real));
  }

  /** One sample of `compute_eval_loss`: `network.forward`, then the loss
      of its output against the label. */
  method EvalSample(network: Network, input: seq<real>, expected: seq<real>, t: LossType, exp: PowE, ln: real -> real)
    returns (r: Result<real>)
    requires network.Wellformed() && LoopLoss(t) && Productive(network.layers, input)
    modifies network
    ensures network.Wellformed()
    ensures r.Ok? <==> SampleLoss(old(network.layers), input, expected, t, exp, ln).Ok?
    ensures r.Ok? ==> (network.layers, r.value) == SampleLoss(old(network.layers), input, expected, t, exp, ln).value
  {
    ghost var ls := network.layers;
    PropagateOk(ls, input, exp);
    var output := network.Forward(input, exp);
    if output.Err? {
      return Err(output.error);
    }
    PropagateFromShape(ls, 0, input, exp);
    r := Ok(ComputeLoss(output.value, expected, t, ln));
  }

  /** Unfolding the evaluation sum one sample: a failed sample fails it,
      ... */
  lemma {:induction false} EvalFromSampleErr(ls: seq<LayerState>, inputs: seq<seq<real>>, labels: seq<seq<real>>, j: nat, total: real,
                                             t: LossType, exp: PowE, ln: real -> real)
    requires AllWellShaped(ls) && LoopLoss(t) && AllProductive(ls, inputs) && j < Min(|inputs|, |labels|)
    requires SampleLoss(ls, inputs[j], labels[j], t, exp, ln).Err?
    ensures EvalFrom(ls, inputs, labels, j, total, t, exp, ln).Err?
  {
    assert EvalFrom(ls, inputs, labels, j, total, t, exp, ln) == EvalThen(ls, inputs, labels, j, total, t, exp, ln);
  }

  /** ... and otherwise the sum goes on from what the sample left. */
  lemma {:induction false} EvalFromSampleOk(ls: seq<LayerState>, inputs: seq<seq<real>>, labels: seq<seq<real>>, j: nat, total: real,
                                            t: LossType, exp: PowE, ln: real -> real, ls': seq<LayerState>, loss: real)
    requires AllWellShaped(ls) && LoopLoss(t) && AllProductive(ls, inputs) && j < Min(|inputs|, |labels|)
    requires SampleLoss(ls, inputs[j], labels[j], t, exp, ln) == Ok((ls', loss))
    ensures AllWellShaped(ls') && AllProductive(ls', inputs)
    ensures EvalFrom(ls, inputs, labels, j, total, t, exp, ln) == EvalFrom(ls', inputs, labels, j + 1, total + loss, t, exp, ln)
  {
    assert EvalFrom(ls, inputs, labels, j, total, t, exp, ln) == EvalThen(ls, inputs, labels, j, total, t, exp, ln);
    ProductiveRecached(ls, ls', inputs);
  }

  /** `compute_eval_loss`: 0 without data, otherwise the losses of the
      zipped samples summed in order and divided by the number of inputs. */
  method ComputeEvalLoss(network: Network, inputs: seq<seq<real>>, labels: seq<seq<real>>, t: LossType, exp: PowE, ln: real -> real)
    returns (r: Result<real>)
    requires network.Wellformed() && LoopLoss(t) && AllProductive(network.layers, inputs)
    modifies network
    ensures network.Wellformed()
    ensures r.Ok? <==> EvalLoss(old(network.layers), inputs, labels, t, exp, ln).Ok?
    ensures r.Ok? ==> (network.layers, r.value) == EvalLoss(old(network.layers), inputs, labels, t, exp, ln).value
  {
    if |inputs| == 0 {
      return Ok(0.0);
    }
    ghost var pass := EvalRest(network.layers, inputs, labels, 0, 0.0, t, exp, ln);
    var total := 0.0;
    for j := 0 to Min(|inputs|, |labels|)
      invariant network.Wellformed() && AllProductive(network.layers, inputs)
      invariant EvalRest(network.layers, inputs, labels, j, total, t, exp, ln) == pass
    {
      ghost var ls := network.layers;
      var s := EvalSample(network, inputs[j], labels[j], t, exp, ln);
      if s.Err? {
        EvalFromSampleErr(ls, inputs, labels, j, total, t, exp, ln);
        return Err(s.error);
      }
      EvalFromSampleOk(ls, inputs, labels, j, total, t, exp, ln, network.layers, s.value);
      total := total + s.value;
    }
    r := Ok(total / (|inputs| as real));
  }

  /** Iteration j of the count in `compute_accuracy`: sample j's forward
      pass, one more hit when the argmax of the output is the label's. */
  method CountSample(network: Network, inputs: seq<seq<real>>, labels: seq<seq<real>>, j: nat, count: nat, exp: PowE)
    returns (r: Result<nat>)
    requires network.Wellformed() && j < Min(|inputs|, |labels|)
    modifies network
    ensures network.Wellformed()
    ensures r.Err? ==> CorrectFrom(old(network.layers), inputs, labels, j, count, exp).Err?
    ensures r.Ok? ==>
      CorrectFrom(network.layers, inputs, labels, j + 1, r.value, exp) == CorrectFrom(old(network.layers), inputs, labels, j, count, exp)
  {
    ghost var ls := network.layers;
    assert CorrectFrom(ls, inputs, labels, j, count, exp) == CountThen(ls, inputs, labels, j, count, exp);
    var output := network.Forward(inputs[j], exp);
    if output.Err? {
      return Err(output.error);
    }
    PropagateFromShape(ls, 0, inputs[j], exp);
    r := Ok(if ArgMax(output.value) == ArgMax(labels[j]) then count + 1 else count);
  }

  /** `compute_accuracy`: 0 without data, otherwise the number of zipped
      samples whose argmax matches, over the number of inputs. */
  method ComputeAccuracy(network: Network, inputs: seq<seq<real>>, labels: seq<seq<real>>, exp: PowE)
    returns (r: Result<real>)
    requires network.Wellformed()
    modifies network
    ensures network.Wellformed()
    ensures r.Ok? <==> Accuracy(old(network.layers), inputs, labels, exp).Ok?
    ensures r.Ok? ==> (network.layers, r.value) == Accuracy(old(network.layers), inputs, labels, exp).value
  {
    if |inputs| == 0 {
      return Ok(0.0);
    }
    ghost var pass := CorrectFrom(network.layers, inputs, labels, 0, 0, exp);
    var correct: nat := 0;
    for j := 0 to Min(|inputs|, |labels|)
      invariant network.Wellformed()
      invariant CorrectFrom(network.layers, inputs, labels, j, correct, exp) == pass
    {
      var s := CountSample(network, inputs, labels, j, correct, exp);
      if s.Err? {
        return Err(s.error);
      }
      correct := s.value;
    }
    r := Ok((correct as real) / (|inputs| as real));
  }

  /** The statistics of an epoch: training accuracy for cross-entropy
      runs, then validation loss and accuracy when both slices are given. */
  method MeasureEpoch(network: Network, inputs: seq<seq<real>>, labels: seq<seq<real>>,
                      valInputs: Option<seq<seq<real>>>, valLabels: Option<seq<seq<real>>>,
                      t: LossType, epoch: nat, epochs: nat, trainLoss: real, exp: PowE, ln: real -> real)
    returns (r: Result<EpochStats>)
    requires network.Wellformed() && LoopLoss(t) && ValidationProductive(network.layers, valInputs)
    modifies network
    ensures network.Wellformed()
    ensures r.Ok? <==> Report(old(network.layers), inputs, labels, valInputs, valLabels, t, epoch, epochs, trainLoss, exp, ln).Ok?
    ensures r.Ok? ==>
      (network.layers, r.value) == Report(old(network.layers), inputs, labels, valInputs, valLabels, t, epoch, epochs, trainLoss, exp, ln).value
  {
    ghost var ls := network.layers;
    var trainAccuracy := None;
    if t == CrossEntropy {
      var a := ComputeAccuracy(network, inputs, labels, exp);
      if a.Err? {
        return Err(a.error);
      }
      trainAccuracy := Some(a.value);
    }
    if valInputs.Some? && valLabels.Some? {
      ProductiveRecached(ls, network.layers, valInputs.value);
      var vl := ComputeEvalLoss(network, valInputs.value, valLabels.value, t, exp, ln);
      if vl.Err? {
        return Err(vl.error);
      }
      var valAccuracy := None;
      if t == CrossEntropy {
        var a := ComputeAccuracy(network, valInputs.value, valLabels.value, exp);
        if a.Err? {
          return Err(a.error);
        }
        valAccuracy := Some(a.value);
      }
      return Ok(EpochStats(epoch, epochs, trainLoss, Some(vl.value), trainAccuracy, valAccuracy));
    }
    r := Ok(EpochStats(epoch, epochs, trainLoss, None, trainAccuracy, None));
  }

  /** The body of the epoch loop up to the send: `run_one_epoch` on this
      epoch's shuffle, then the statistics. */
  method TrainEpoch(network: Network, optimizer: Sgd, inputs: seq<seq<real>>, labels: seq<seq<real>>,
                    valInputs: Option<seq<seq<real>>>, valLabels: Option<seq<seq<real>>>,
                    config: TrainConfig, env: Env, e: nat, exp: PowE, ln: real -> real)
    returns (r: Result<EpochStats>)
    requires network.Wellformed() && LoopReady(network.layers, inputs, labels, valInputs, config, env)
    modifies network
    ensures network.Wellformed()
    ensures r.Ok? <==> EpochStep(old(network.layers), inputs, labels, valInputs, valLabels, optimizer.learningRate, config, env, e, exp, ln).Ok?
    ensures r.Ok? ==>
      (network.layers, r.value)
      == EpochStep(old(network.layers), inputs, labels, valInputs, valLabels, optimizer.learningRate, config, env, e, exp, ln).value
  {
    ghost var ls := network.layers;
    var loss := RunOneEpoch(network, optimizer, inputs, labels, env.shuffle(e), config.batchSize, config.lossType, exp, ln);
    if loss.Err? {
      return Err(loss.error);
    }
    ProductiveLayoutVal(ls, network.layers, valInputs);
    r := MeasureEpoch(network, inputs, labels, valInputs, valLabels, config.lossType, e, config.epochs, loss.value, exp, ln);
  }

  /** `train_loop`: the argument checks, then for epoch = 1, 2, ...,
      config.epochs: stop if the flag is set, train and measure the epoch,
      send its statistics (stop if nobody receives them), stop if the flag
      is now set. */
  method TrainLoop(network: Network, inputs: seq<seq<real>>, labels: seq<seq<real>>,
                   valInputs: Option<seq<seq<real>>>, valLabels: Option<seq<seq<real>>>,
                   optimizer: Sgd, config: TrainConfig, env: Env, exp: PowE, ln: real -> real)
    returns (r: Result<Outcome>)
    requires network.Wellformed() && LoopLoss(config.lossType) && AllProductive(network.layers, inputs)
    requires ValidationProductive(network.layers, valInputs) && ShufflesOk(env, |inputs|)
    modifies network
    ensures network.Wellformed()
    ensures r.Ok? <==> TrainLoopSpec(old(network.layers), inputs, labels, valInputs, valLabels, optimizer.learningRate, config, env, exp, ln).Ok?
    ensures |inputs| == 0 ==> r == Err(EmptyInputs)
    ensures |inputs| > 0 && |labels| != |inputs| ==> r == Err(LengthMismatch)
    ensures |inputs| > 0 && |labels| == |inputs| && config.batchSize == 0 ==> r == Err(ZeroBatch)
    ensures r.Ok? ==>
      (network.layers, r.value)
      == TrainLoopSpec(old(network.layers), inputs, labels, valInputs, valLabels, optimizer.learningRate, config, env, exp, ln).value
  {
    if |inputs| == 0 {
      return Err(EmptyInputs);
    }
    if |labels| != |inputs| {
      return Err(LengthMismatch);
    }
    if config.batchSize == 0 {
      return Err(ZeroBatch);
    }
    SpecStartsLoop(network.layers, inputs, labels, valInputs, valLabels, optimizer.learningRate, config, env, exp, ln);
    r := RunEpochs(network, inputs, labels, valInputs, valLabels, optimizer, config, env, exp, ln,
                   LoopRest(network.layers, inputs, labels, valInputs, valLabels, optimizer.learningRate, config, env, 1, 0.0, [], exp, ln));
  }

  /** The epoch loop of `train_loop`, entered at epoch 1 with nothing sent. */
  method RunEpochs(network: Network, inputs: seq<seq<real>>, labels: seq<seq<real>>,
                   valInputs: Option<seq<seq<real>>>, valLabels: Option<seq<seq<real>>>,
                   optimizer: Sgd, config: TrainConfig, env: Env, exp: PowE, ln: real -> real,
                   ghost pass: Result<(seq<LayerState>, Outcome)>)
    returns (r: Result<Outcome>)
    requires network.Wellformed() && LoopReady(network.layers, inputs, labels, valInputs, config, env)
    requires pass == LoopRest(network.layers, inputs, labels, valInputs, valLabels, optimizer.learningRate, config, env, 1, 0.0, [], exp, ln)
    modifies network
    ensures network.Wellformed()
    ensures r.Err? ==> pass.Err?
    ensures r.Ok? ==> pass == Ok((network.layers, r.value))
  {
    var last := 0.0;
    var sent := [];
    var epoch := 1;
    while epoch <= config.epochs
      invariant 1 <= epoch <= config.epochs + 1
      invariant network.Wellformed() && LoopReady(network.layers, inputs, labels, valInputs, config, env)
      invariant LoopRest(network.layers, inputs, labels, valInputs, valLabels, optimizer.learningRate, config, env, epoch, last, sent, exp, ln) == pass
      decreases config.epochs + 1 - epoch
    {
      if !Starts(config, env, epoch) {
        LoopRestStops(network.layers, inputs, labels, valInputs, valLabels, optimizer.learningRate, config, env, epoch, last, sent, exp, ln);
        return Ok(Outcome(last, epoch - 1, sent));
      }
      var step := LoopEpoch(network, inputs, labels, valInputs, valLabels, optimizer, config, env, epoch, last, sent, exp, ln);
      if step.Err? {
        return Err(step.error);
      }
      last, sent := step.value.0, step.value.1;
      if !step.value.2 {
        return Ok(Outcome(last, epoch, sent));
      }
      epoch := epoch + 1;
    }
    LoopRestStops(network.layers, inputs, labels, valInputs, valLabels, optimizer.learningRate, config, env, epoch, last, sent, exp, ln);
    r := Ok(Outcome(last, epoch - 1, sent));
  }

  /** Past the argument checks, `train_loop` is the loop entered at epoch 1
      with nothing sent. */
  lemma {:induction false} SpecStartsLoop(ls: seq<LayerState>, inputs: seq<seq<real>>, labels: seq<seq<real>>,
                                          valInputs: Option<seq<seq<real>>>, valLabels: Option<seq<seq<real>>>,
                                          lr: real, config: TrainConfig, env: Env, exp: PowE, ln: real -> real)
    requires LoopReady(ls, inputs, labels, valInputs, config, env)
    ensures TrainLoopSpec(ls, inputs, labels, valInputs, valLabels, lr, config, env, exp, ln)
      == LoopRest(ls, inputs, labels, valInputs, valLabels, lr, config, env, 1, 0.0, [], exp, ln)
  {
  }

  /** A loop at an epoch that does not start hands back what it was given. */
  lemma {:induction false} LoopRestStops(ls: seq<LayerState>, inputs: seq<seq<real>>, labels: seq<seq<real>>,
                                         valInputs: Option<seq<seq<real>>>, valLabels: Option<seq<seq<real>>>,
                                         lr: real, config: TrainConfig, env: Env, e: nat, last: real, sent: seq<EpochStats>,
                                         exp: PowE, ln: real -> real)
    requires LoopReady(ls, inputs, labels, valInputs, config, env) && 1 <= e <= config.epochs + 1
    requires !Starts(config, env, e)
    ensures LoopRest(ls, inputs, labels, valInputs, valLabels, lr, config, env, e, last, sent, exp, ln)
      == Ok((ls, Outcome(last, e - 1, sent)))
  {
  }

  /** One epoch of `train_loop` once it has started: train and measure it,
      send the statistics, and decide whether the loop goes on (the send
      reached a receiver and the flag is not set). The loss and the
      delivered statistics come back with that decision; what is left of the
      loop is what was left of it before. */
  method LoopEpoch(network: Network, inputs: seq<seq<real>>, labels: seq<seq<real>>,
                   valInputs: Option<seq<seq<real>>>, valLabels: Option<seq<seq<real>>>,
                   optimizer: Sgd, config: TrainConfig, env: Env, e: nat, last: real, sent: seq<EpochStats>, exp: PowE, ln: real -> real)
    returns (r: Result<(real, seq<EpochStats>, bool)>)
    requires network.Wellformed() && LoopReady(network.layers, inputs, labels, valInputs, config, env)
    requires 1 <= e <= config.epochs && Starts(config, env, e)
    modifies network
    ensures network.Wellformed()
    ensures r.Ok? ==> LoopReady(network.layers, inputs, labels, valInputs, config, env)
    ensures r.Err? ==>
      LoopRest(old(network.layers), inputs, labels, valInputs, valLabels, optimizer.learningRate, config, env, e, last, sent, exp, ln).Err?
    ensures r.Ok? && !r.value.2 ==>
      LoopRest(old(network.layers), inputs, labels, valInputs, valLabels, optimizer.learningRate, config, env, e, last, sent, exp, ln)
      == Ok((network.layers, Outcome(r.value.0, e, r.value.1)))
    ensures r.Ok? && r.value.2 ==>
      Continues(config, env, e)
      && LoopRest(network.layers, inputs, labels, valInputs, valLabels, optimizer.learningRate, config, env, e + 1, r.value.0, r.value.1, exp, ln)
      == LoopRest(old(network.layers), inputs, labels, valInputs, valLabels, optimizer.learningRate, config, env, e, last, sent, exp, ln)
  {
    ghost var ls := network.layers;
    var stats := TrainEpoch(network, optimizer, inputs, labels, valInputs, valLabels, config, env, e, exp, ln);
    if stats.Err? {
      LoopFromEpochErr(ls, inputs, labels, valInputs, valLabels, optimizer.learningRate, config, env, e, last, sent, exp, ln);
      return Err(stats.error);
    }
    var sent' := if Received(config, env, e) then sent + [stats.value] else sent;
    var goOn := Continues(config, env, e);
    ghost var rest := if !Continues(config, env, e) then Ok((network.layers, Outcome(stats.value.trainLoss, e, sent')))
      else LoopRest(network.layers, inputs, labels, valInputs, valLabels, optimizer.learningRate, config, env, e + 1,
                    stats.value.trainLoss, sent', exp, ln);
    LoopFromEpochOk(ls, inputs, labels, valInputs, valLabels, optimizer.learningRate, config, env, e, last, sent, exp, ln,
                    network.layers, stats.value, rest);
    r := Ok((stats.value.trainLoss, sent', goOn));
  }

  /** Unfolding the epoch loop one epoch: an epoch that fails fails the
      loop, ... */
  lemma {:induction false} LoopFromEpochErr(ls: seq<LayerState>, inputs: seq<seq<real>>, labels: seq<seq<real>>,
                                            valInputs: Option<seq<seq<real>>>, valLabels: Option<seq<seq<real>>>,
                                            lr: real, config: TrainConfig, env: Env, e: nat, last: real, sent: seq<EpochStats>,
                                            exp: PowE, ln: real -> real)
    requires LoopReady(ls, inputs, labels, valInputs, config, env) && 1 <= e <= config.epochs && Starts(config, env, e)
    requires EpochStep(ls, inputs, labels, valInputs, valLabels, lr, config, env, e, exp, ln).Err?
    ensures LoopFrom(ls, inputs, labels, valInputs, valLabels, lr, config, env, e, last, sent, exp, ln).Err?
  {
    assert LoopFrom(ls, inputs, labels, valInputs, valLabels, lr, config, env, e, last, sent, exp, ln)
      == EpochThen(ls, inputs, labels, valInputs, valLabels, lr, config, env, e, sent, exp, ln);
  }

  /** ... and one that goes through leaves `rest`: the outcome if it is the
      last, otherwise the loop from the next epoch. */
  lemma {:induction false} LoopFromEpochOk(ls: seq<LayerState>, inputs: seq<seq<real>>, labels: seq<seq<real>>,
                                           valInputs: Option<seq<seq<real>>>, valLabels: Option<seq<seq<real>>>,
                                           lr: real, config: TrainConfig, env: Env, e: nat, last: real, sent: seq<EpochStats>,
                                           exp: PowE, ln: real -> real,
                                           ls': seq<LayerState>, stats: EpochStats, rest: Result<(seq<LayerState>, Outcome)>)
    requires LoopReady(ls, inputs, labels, valInputs, config, env) && 1 <= e <= config.epochs && Starts(config, env, e)
    requires EpochStep(ls, inputs, labels, valInputs, valLabels, lr, config, env, e, exp, ln) == Ok((ls', stats))
    requires LoopReady(ls', inputs, labels, valInputs, config, env)
    requires var sent' := if Received(config, env, e) then sent + [stats] else sent;
      rest == if !Continues(config, env, e) then Ok((ls', Outcome(stats.trainLoss, e, sent')))
        else LoopRest(ls', inputs, labels, valInputs, valLabels, lr, config, env, e + 1, stats.trainLoss, sent', exp, ln)
    ensures LoopFrom(ls, inputs, labels, valInputs, valLabels, lr, config, env, e, last, sent, exp, ln) == rest
  {
    assert LoopFrom(ls, inputs, labels, valInputs, valLabels, lr, config, env, e, last, sent, exp, ln)
      == EpochThen(ls, inputs, labels, valInputs, valLabels, lr, config, env, e, sent, exp, ln);
  }
}

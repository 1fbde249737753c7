/** examples/mnist.rs: training a classifier of handwritten digits. The
    label bytes become one-hot vectors, accuracy is estimated on a subset
    of the samples, and the epoch is the training loop's with the
    cross-entropy loss, plus a progress dot on every progress_every-th
    batch. Reading the IDX files, printing and the shuffle are outside the
    model: the bytes and the shuffled order are given, and the dots are
    returned as the batch counts after which one is printed. */
module Mnist {
  import opened Base
  import opened Activation
  import opened Dense
  import opened Networks
  import opened Optim
  import opened Trainer
  import opened TrainLoop

  const EmptyArgmax: string := "argmax called on empty slice"
  const LabelOutOfRange: string := "index out of bounds: the one-hot vector has length 10"
  const SampleOutOfRange: string := "index out of bounds: no such sample"
  const NoSamples: string := "NaN: accuracy over no samples"

  /** The number of classes. */
  const Classes: nat := 10

  /** `argmax`: the position of the last maximum, as `max_by` keeps it;
      a panic on an empty slice, where the training loop's gives 0. */
  function ArgMax(v: seq<real>): (r: Result<nat>)
    ensures r.Ok? <==> |v| > 0
    ensures r.Ok? ==> (r.value < |v|
      && (forall j :: 0 <= j < |v| ==> v[j] <= v[r.value])
      && (forall j :: r.value < j < |v| ==> v[j] < v[r.value]))
  {
    if |v| == 0 then Err(EmptyArgmax) else Ok(TrainLoop.ArgMax(v))
  }

  // ---------------------------------------------------------------------
  // Labels

  /** One label byte of `load_labels`: ten zeros with a 1.0 at the label;
      a label of 10 or more indexes past the vector and panics. */
  function OneHot(digit: Byte): (r: Result<seq<real>>)
    ensures r.Ok? <==> digit < Classes
    ensures r.Ok? ==> (|r.value| == Classes && r.value[digit] == 1.0
      && forall j :: 0 <= j < Classes && j != digit ==> r.value[j] == 0.0)
  {
    if digit < Classes then Ok(OneHotVector(Classes, digit)) else Err(LabelOutOfRange)
  }

  /** The label vectors of `load_labels`, one per byte in order. */
  function OneHotLabels(bytes: seq<Byte>): (r: Result<seq<seq<real>>>)
    ensures r.Ok? <==> forall k :: 0 <= k < |bytes| ==> bytes[k] < Classes
    ensures r.Ok? ==> |r.value| == |bytes| && forall k :: 0 <= k < |bytes| ==> Ok(r.value[k]) == OneHot(bytes[k])
  {
    if |bytes| == 0 then Ok([])
    else
      var first :- OneHot(bytes[0]);
      var rest :- OneHotLabels(bytes[1..]);
      assert forall k :: 1 <= k < |bytes| ==> bytes[1..][k - 1] == bytes[k];
      Ok([first] + rest)
  }

  /** The argmax of a label's vector gives the label back. */
  lemma {:induction false} OneHotArgMax(bytes: seq<Byte>, k: nat)
    requires OneHotLabels(bytes).Ok? && k < |bytes|
    ensures ArgMax(OneHotLabels(bytes).value[k]) == Ok(bytes[k] as nat)
  {
    var v := OneHotLabels(bytes).value[k];
    assert forall j :: 0 <= j < |v| && j != bytes[k] ==> v[j] < v[bytes[k]];
  }

  // ---------------------------------------------------------------------
  // Accuracy on a subset

  /** Entries j, j+1, ... of `indices`, each adding to the count of
      correct answers. */
  function SubsetFrom(ls: seq<LayerState>, images: seq<seq<real>>, labels: seq<seq<real>>, indices: seq<nat>,
                      j: nat, correct: nat, exp: PowE)
    : (r: Result<(seq<LayerState>, nat)>)
    requires AllWellShaped(ls) && j <= |indices|
    ensures r.Ok? ==> AllWellShaped(r.value.0) && correct <= r.value.1 <= correct + (|indices| - j)
    decreases |indices| - j, 1
  {
    if j == |indices| then Ok((ls, correct)) else SubsetThen(ls, images, labels, indices, j, correct, exp)
  }

  /** Entry j: the sample's forward pass, and one more correct answer when
      the argmax of the output is the label's; then the entries after it.
      An index past the images or the labels, a failing pass or an empty
      vector stops it, as the source panics. */
  function SubsetThen(ls: seq<LayerState>, images: seq<seq<real>>, labels: seq<seq<real>>, indices: seq<nat>,
                      j: nat, correct: nat, exp: PowE)
    : (r: Result<(seq<LayerState>, nat)>)
    requires AllWellShaped(ls) && j < |indices|
    ensures r.Ok? ==> AllWellShaped(r.value.0) && correct <= r.value.1 <= correct + (|indices| - j)
    decreases |indices| - j, 0
  {
    var idx := indices[j];
    if idx >= |images| then Err(SampleOutOfRange)
    else
      var fwd :- Propagate(ls, images[idx], exp);
      PropagateFromShape(ls, 0, images[idx], exp);
      var predicted :- ArgMax(fwd.1);
      if idx >= |labels| then Err(SampleOutOfRange)
      else
        var truth :- ArgMax(labels[idx]);
        SubsetFrom(fwd.0, images, labels, indices, j + 1, correct + (if predicted == truth then 1 else 0), exp)
  }

  /** `correct as f64 / len as f64 * 100.0`: between 0 and 100 when at
      most all are correct, 100 exactly when all are and 0 exactly when
      none is. */
  function Percent(correct: nat, n: nat): (r: real)
    requires 0 < n
    ensures correct <= n ==> 0.0 <= r <= 100.0
    ensures r == 100.0 <==> correct == n
    ensures r == 0.0 <==> correct == 0
  {
    FractionBounds(Min(correct, n), n);
    DivZeroIff(correct as real, n as real);
    DivOneIff(correct as real, n as real);
    (correct as real) / (n as real) * 100.0
  }

  /** a / n is 1 exactly when a is n. */
  lemma {:induction false} DivOneIff(a: real, n: real)
    requires n > 0.0
    ensures a / n == 1.0 <==> a == n
  {
    assert (a / n) * n == a;
  }

  /** `accuracy_on_subset`: the percentage of the listed samples classified
      correctly, between 0 and 100; over no samples it is 0/0, NaN. */
  function SubsetAccuracy(ls: seq<LayerState>, images: seq<seq<real>>, labels: seq<seq<real>>, indices: seq<nat>, exp: PowE)
    : (r: Result<(seq<LayerState>, real)>)
    requires AllWellShaped(ls)
    ensures |indices| == 0 ==> r == Err(NoSamples)
    ensures r.Ok? ==> AllWellShaped(r.value.0) && 0.0 <= r.value.1 <= 100.0
  {
    if |indices| == 0 then Err(NoSamples)
    else
      var c :- SubsetFrom(ls, images, labels, indices, 0, 0, exp);
      Ok((c.0, Percent(c.1, |indices|)))
  }

  /** Iteration j of the loop of `accuracy_on_subset`. */
  method SubsetSample(network: Network, images: seq<seq<real>>, labels: seq<seq<real>>, indices: seq<nat>,
                      j: nat, correct: nat, exp: PowE)
    returns (r: Result<nat>)
    requires network.Wellformed() && j < |indices|
    modifies network
    ensures network.Wellformed()
    ensures r.Err? ==> SubsetFrom(old(network.layers), images, labels, indices, j, correct, exp).Err?
    ensures r.Ok? ==>
      SubsetFrom(network.layers, images, labels, indices, j + 1, r.value, exp)
      == SubsetFrom(old(network.layers), images, labels, indices, j, correct, exp)
  {
    ghost var ls := network.layers;
    assert SubsetFrom(ls, images, labels, indices, j, correct, exp) == SubsetThen(ls, images, labels, indices, j, correct, exp);
    var idx := indices[j];
    if idx >= |images| {
      return Err(SampleOutOfRange);
    }
    var output := network.Forward(images[idx], exp);
    if output.Err? {
      return Err(output.error);
    }
    PropagateFromShape(ls, 0, images[idx], exp);
    var predicted := ArgMax(output.value);
    if predicted.Err? {
      return Err(predicted.error);
    }
    if idx >= |labels| {
      return Err(SampleOutOfRange);
    }
    var truth := ArgMax(labels[idx]);
    if truth.Err? {
      return Err(truth.error);
    }
    r := Ok(if predicted.value == truth.value then correct + 1 else correct);
  }

  /** The counting loop of `accuracy_on_subset`, proved against
      SubsetAccuracy. */
  method AccuracyOnSubset(network: Network, images: seq<seq<real>>, labels: seq<seq<real>>, indices: seq<nat>, exp: PowE)
    returns (r: Result<real>)
    requires network.Wellformed()
    modifies network
    ensures network.Wellformed()
    ensures r.Ok? <==> SubsetAccuracy(old(network.layers), images, labels, indices, exp).Ok?
    ensures r.Ok? ==> (network.layers, r.value) == SubsetAccuracy(old(network.layers), images, labels, indices, exp).value
  {
    ghost var pass := SubsetFrom(network.layers, images, labels, indices, 0, 0, exp);
    var correct: nat := 0;
    for j := 0 to |indices|
      invariant network.Wellformed()
      invariant SubsetFrom(network.layers, images, labels, indices, j, correct, exp) == pass
    {
      var s := SubsetSample(network, images, labels, indices, j, correct, exp);
      if s.Err? {
        return Err(s.error);
      }
      correct := s.value;
    }
    if |indices| == 0 {
      return Err(NoSamples);
    }
    r := Ok(Percent(correct, |indices|));
  }

  // ---------------------------------------------------------------------
  // The training epoch

  /** The batch counts after which a dot is printed, for the first k
      batches: those divisible by progress_every. */
  function DotBatches(k: nat, every: nat): seq<nat>
    requires every > 0
  {
    if k == 0 then [] else DotBatches(k - 1, every) + DotAfter(k, every)
  }

  /** The end of a batch: the batch counter goes up, and a dot is printed
      when it reaches a multiple of progress_every. */
  method CountBatch(count: nat, dots: seq<nat>, every: nat) returns (count': nat, dots': seq<nat>)
    requires every > 0 && dots == DotBatches(count, every)
    ensures count' == count + 1 && dots' == DotBatches(count', every)
  {
    count' := count + 1;
    dots' := dots;
    if count' % every == 0 {
      dots' := dots' + [count'];
    }
  }

  /** The dot printed after batch count c, if any. */
  function DotAfter(c: nat, every: nat): seq<nat>
    requires every > 0
  {
    if c % every == 0 then [c] else []
  }

  /** A dot follows batch c exactly when c is one of the first k batches
      and a multiple of progress_every. */
  lemma {:induction false} DotsExactly(k: nat, every: nat)
    requires every > 0
    ensures forall c :: c in DotBatches(k, every) <==> 1 <= c <= k && c % every == 0
  {
    if k > 0 {
      DotsExactly(k - 1, every);
    }
  }

  /** The dots come in batch order. */
  lemma {:induction false} DotsOrdered(k: nat, every: nat)
    requires every > 0
    ensures forall i, j :: 0 <= i < j < |DotBatches(k, every)| ==> DotBatches(k, every)[i] < DotBatches(k, every)[j]
  {
    if k > 0 {
      DotsOrdered(k - 1, every);
      DotsBelow(k - 1, every);
    }
  }

  lemma {:induction false} DotsBelow(k: nat, every: nat)
    requires every > 0
    ensures forall i :: 0 <= i < |DotBatches(k, every)| ==> DotBatches(k, every)[i] <= k
  {
    if k > 0 {
      DotsBelow(k - 1, every);
    }
  }

  /** There are k / progress_every dots after k batches. */
  lemma {:induction false} DotsCount(k: nat, every: nat)
    requires every > 0
    ensures |DotBatches(k, every)| == k / every
  {
    if k > 0 {
      DotsCount(k - 1, every);
      DivStep(k, every);
    }
  }

  /** k / d grows by one exactly at the multiples of d. */
  lemma {:induction false} DivStep(k: nat, d: nat)
    requires d > 0 && k > 0
    ensures k / d == (k - 1) / d + (if k % d == 0 then 1 else 0)
  {
    var q := (k - 1) / d;
    var rem := (k - 1) % d;
    assert k - 1 == q * d + rem;
    if rem == d - 1 {
      assert k == (q + 1) * d + 0;
      DivUnique(k, d, q + 1, 0);
    } else {
      DivUnique(k, d, q, rem + 1);
    }
  }

  /** Division is the unique quotient and remainder. */
  lemma {:induction false} DivUnique(k: nat, d: nat, q: nat, rem: nat)
    requires d > 0 && rem < d && k == q * d + rem
    ensures k / d == q && k % d == rem
  {
    var q0 := k / d;
    assert k == q0 * d + k % d;
    if q0 < q {
      MulStrict(q0, q, d);
    } else if q < q0 {
      MulStrict(q, q0, d);
    }
  }

  /** One batch of `train_epoch`: batch b trained, the epoch's
      remaining batches then start at b + 1. */
  method EpochBatch(network: Network, optimizer: Sgd, inputs: seq<seq<real>>, labels: seq<seq<real>>, order: seq<nat>,
                    bs: nat, b: nat, total: real, exp: PowE, ln: real -> real)
    returns (r: Result<real>)
    requires network.Wellformed() && AllProductive(network.layers, inputs) && bs > 0
    requires IsPermutation(order, |inputs|) && |labels| == |inputs| && BatchStart(bs, b) < |order|
    modifies network
    ensures network.Wellformed() && (r.Ok? ==> AllProductive(network.layers, inputs))
    ensures BatchStart(bs, b) < BatchStart(bs, b + 1)
    ensures r.Err? ==> EpochFrom(old(network.layers), inputs, labels, order, bs, b, total, CrossEntropy, optimizer.learningRate, exp, ln).Err?
    ensures r.Ok? ==>
      EpochFrom(network.layers, inputs, labels, order, bs, b + 1, r.value, CrossEntropy, optimizer.learningRate, exp, ln)
      == EpochFrom(old(network.layers), inputs, labels, order, bs, b, total, CrossEntropy, optimizer.learningRate, exp, ln)
  {
    assert EpochFrom(network.layers, inputs, labels, order, bs, b, total, CrossEntropy, optimizer.learningRate, exp, ln)
      == BatchThen(network.layers, inputs, labels, order, bs, b, total, CrossEntropy, optimizer.learningRate, exp, ln);
    ghost var ls := network.layers;
    MulStrict(b, b + 1, bs);
    r := TrainBatch(network, optimizer, inputs, labels, BatchOf(order, bs, b), total, CrossEntropy, exp, ln);
    if r.Ok? {
      AllProductiveLayout(ls, network.layers, inputs);
    }
  }

  /** One iteration of the batch loop: batch b trained, then counted. */
  method EpochLoopBody(network: Network, optimizer: Sgd, inputs: seq<seq<real>>, labels: seq<seq<real>>, order: seq<nat>,
                       bs: nat, progressEvery: nat, b: nat, total: real, dots: seq<nat>, exp: PowE, ln: real -> real)
    returns (r: Result<real>, count': nat, dots': seq<nat>)
    requires network.Wellformed() && AllProductive(network.layers, inputs)
    requires bs > 0 && progressEvery > 0 && b < BatchCount(|order|, bs)
    requires IsPermutation(order, |inputs|) && |labels| == |inputs| && dots == DotBatches(b, progressEvery)
    modifies network
    ensures network.Wellformed() && (r.Ok? ==> AllProductive(network.layers, inputs))
    ensures r.Err? ==> EpochFrom(old(network.layers), inputs, labels, order, bs, b, total, CrossEntropy, optimizer.learningRate, exp, ln).Err?
    ensures r.Ok? ==>
      EpochFrom(network.layers, inputs, labels, order, bs, b + 1, r.value, CrossEntropy, optimizer.learningRate, exp, ln)
      == EpochFrom(old(network.layers), inputs, labels, order, bs, b, total, CrossEntropy, optimizer.learningRate, exp, ln)
    ensures r.Ok? ==> count' == b + 1 && dots' == DotBatches(b + 1, progressEvery)
  {
    BatchInRange(|order|, bs, b);
    r := EpochBatch(network, optimizer, inputs, labels, order, bs, b, total, exp, ln);
    count', dots' := b, dots;
    if r.Ok? {
      count', dots' := CountBatch(b, dots, progressEvery);
    }
  }

  /** The batch loop of `train_epoch`: the batches starting at 0, bs,
      2 bs, ... trained in turn, their losses summed, and the batch counts
      after which a dot is printed. */
  method EpochLoop(network: Network, optimizer: Sgd, inputs: seq<seq<real>>, labels: seq<seq<real>>, order: seq<nat>,
                   bs: nat, progressEvery: nat, exp: PowE, ln: real -> real)
    returns (r: Result<real>, dots: seq<nat>)
    requires network.Wellformed() && AllProductive(network.layers, inputs)
    requires bs > 0 && progressEvery > 0
    requires IsPermutation(order, |inputs|) && |labels| == |inputs|
    modifies network
    ensures network.Wellformed()
    ensures r.Ok? <==> EpochFrom(old(network.layers), inputs, labels, order, bs, 0, 0.0, CrossEntropy, optimizer.learningRate, exp, ln).Ok?
    ensures r.Ok? ==>
      (network.layers, r.value) == EpochFrom(old(network.layers), inputs, labels, order, bs, 0, 0.0, CrossEntropy, optimizer.learningRate, exp, ln).value
    ensures r.Ok? ==> dots == DotBatches(BatchCount(|inputs|, bs), progressEvery)
  {
    var lr := optimizer.learningRate;
    ghost var pass := EpochFrom(network.layers, inputs, labels, order, bs, 0, 0.0, CrossEntropy, lr, exp, ln);
    var total := 0.0;
    var batchCount := 0;
    dots := [];
    var batches := BatchCount(|order|, bs);
    for b := 0 to batches
      invariant network.Wellformed() && AllProductive(network.layers, inputs) && optimizer.learningRate == lr
      invariant EpochFrom(network.layers, inputs, labels, order, bs, b, total, CrossEntropy, lr, exp, ln) == pass
      invariant batchCount == b && dots == DotBatches(b, progressEvery)
    {
      var sum;
      sum, batchCount, dots := EpochLoopBody(network, optimizer, inputs, labels, order, bs, progressEvery, b, total, dots, exp, ln);
      if sum.Err? {
        return Err(sum.error), dots;
      }
      total := sum.value;
    }
    BatchInRange(|order|, bs, batches);
    r := Ok(total);
  }

  /** `train_epoch` over the shuffled `order`: the training loop's epoch
      with the cross-entropy loss, batch b covering positions b * bs up to
      min(b * bs + bs, n) and each step averaging over that batch's length,
      the summed loss over n returned; the dots are printed after the
      batches whose count is a multiple of progress_every. A step of 0 and
      a remainder by 0 panic, so both are at least 1. Only the first n
      labels are read, so a longer label list is allowed and the rest of it
      ignored; a shorter one would be indexed out of bounds. */
  method TrainEpoch(network: Network, optimizer: Sgd, inputs: seq<seq<real>>, labels: seq<seq<real>>, order: seq<nat>,
                    bs: nat, progressEvery: nat, exp: PowE, ln: real -> real)
    returns (r: Result<real>, dots: seq<nat>)
    requires network.Wellformed() && AllProductive(network.layers, inputs) && |inputs| > 0
    requires bs > 0 && progressEvery > 0
    requires IsPermutation(order, |inputs|) && |labels| >= |inputs|
    modifies network
    ensures network.Wellformed()
    ensures r.Ok? <==> RunEpoch(old(network.layers), inputs, labels[..|inputs|], order, bs, CrossEntropy, optimizer.learningRate, exp, ln).Ok?
    ensures r.Ok? ==>
      (network.layers, r.value) == RunEpoch(old(network.layers), inputs, labels[..|inputs|], order, bs, CrossEntropy, optimizer.learningRate, exp, ln).value
    ensures r.Ok? ==> dots == DotBatches(BatchCount(|inputs|, bs), progressEvery)
  {
    var total;
    total, dots := EpochLoop(network, optimizer, inputs, labels[..|inputs|], order, bs, progressEvery, exp, ln);
    if total.Err? {
      return Err(total.error), dots;
    }
    r := Ok(total.value / (|inputs| as real));
  }
}

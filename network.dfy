/** A feed-forward network: an ordered list of dense layers
    (src/network/network.rs). */
module Networks {
  import opened Base
  import opened Matrices
  import opened Activation
  import opened Dense

  predicate AllWellShaped(ls: seq<LayerState>)
  {
    forall k :: 0 <= k < |ls| ==> WellShaped(ls[k])
  }

  /** The rest of a forward pass that has reached layer i carrying `cur`. */
  function PropagateFrom(ls: seq<LayerState>, i: nat, cur: seq<real>, exp: PowE): Result<(seq<LayerState>, seq<real>)>
    requires AllWellShaped(ls) && i <= |ls|
    decreases |ls| - i, 1
  {
    if i == |ls| then Ok((ls, cur)) else FeedThen(ls, i, cur, exp)
  }

  /** Layer i is fed `cur` and replaced by its updated state, and the pass
      goes on from layer i + 1 with the layer's output. */
  function FeedThen(ls: seq<LayerState>, i: nat, cur: seq<real>, exp: PowE): Result<(seq<LayerState>, seq<real>)>
    requires AllWellShaped(ls) && i < |ls|
    decreases |ls| - i, 0
  {
    var step :- Feed(ls[i], cur, exp);
    assert AllWellShaped(ls[i := step.0]);
    PropagateFrom(ls[i := step.0], i + 1, step.1, exp)
  }

  /** `Network::forward` on the layers' values. */
  function Propagate(ls: seq<LayerState>, input: seq<real>, exp: PowE): Result<(seq<LayerState>, seq<real>)>
    requires AllWellShaped(ls)
  {
    PropagateFrom(ls, 0, input, exp)
  }

  /** A pass whose layer i refuses its input fails as a whole. */
  lemma {:induction false} PropagateStepErr(ls: seq<LayerState>, i: nat, cur: seq<real>, exp: PowE)
    requires AllWellShaped(ls) && i < |ls| && Feed(ls[i], cur, exp).Err?
    ensures PropagateFrom(ls, i, cur, exp).Err?
  {
    assert PropagateFrom(ls, i, cur, exp) == FeedThen(ls, i, cur, exp);
  }

  /** Once layer i has been fed, the rest of the pass carries on from the
      updated layers with layer i's output. */
  lemma {:induction false} PropagateStepOk(ls: seq<LayerState>, i: nat, cur: seq<real>, exp: PowE, l: LayerState, out: seq<real>)
    requires AllWellShaped(ls) && i < |ls| && Feed(ls[i], cur, exp) == Ok((l, out))
    ensures AllWellShaped(ls[i := l])
    ensures PropagateFrom(ls, i, cur, exp) == PropagateFrom(ls[i := l], i + 1, out, exp)
  {
    assert PropagateFrom(ls, i, cur, exp) == FeedThen(ls, i, cur, exp);
  }

  /** Feeding keeps every layer's shape and parameters. */
  lemma {:induction false} PropagateFromShape(ls: seq<LayerState>, i: nat, cur: seq<real>, exp: PowE)
    requires AllWellShaped(ls) && i <= |ls| && PropagateFrom(ls, i, cur, exp).Ok?
    ensures AllWellShaped(PropagateFrom(ls, i, cur, exp).value.0)
    ensures |PropagateFrom(ls, i, cur, exp).value.0| == |ls|
    ensures forall k :: 0 <= k < |ls| ==> SameParameters(ls[k], PropagateFrom(ls, i, cur, exp).value.0[k])
    decreases |ls| - i
  {
    if i < |ls| {
      var f := Feed(ls[i], cur, exp).value;
      PropagateStepOk(ls, i, cur, exp, f.0, f.1);
      PropagateFromShape(ls[i := f.0], i + 1, f.1, exp);
    }
  }

  /** From layer i on, each layer takes as many inputs as its predecessor has
      neurons (layer i takes n), and no layer is a Softmax layer of positive
      width. */
  predicate AcceptsFrom(ls: seq<LayerState>, i: nat, n: nat)
  {
    (i < |ls| ==> InputSize(ls[i]) == n)
    && (forall k :: i < k < |ls| ==> InputSize(ls[k]) == ls[k - 1].size)
    && (forall k :: i <= k < |ls| ==> ls[k].activator != Softmax || ls[k].size == 0)
  }

  predicate Accepts(ls: seq<LayerState>, n: nat) { AcceptsFrom(ls, 0, n) }

  /** Width of the output of layers i.. when layer i receives n values. */
  function WidthFrom(ls: seq<LayerState>, i: nat, n: nat): nat
  {
    if i >= |ls| then n else ls[|ls| - 1].size
  }

  lemma {:induction false} PropagateFromOk(ls: seq<LayerState>, i: nat, cur: seq<real>, exp: PowE)
    requires AllWellShaped(ls) && i <= |ls|
    ensures PropagateFrom(ls, i, cur, exp).Ok? <==> AcceptsFrom(ls, i, |cur|)
    ensures PropagateFrom(ls, i, cur, exp).Ok? ==> |PropagateFrom(ls, i, cur, exp).value.1| == WidthFrom(ls, i, |cur|)
    decreases |ls| - i
  {
    if i < |ls| {
      var f := Feed(ls[i], cur, exp);
      if f.Err? {
        PropagateStepErr(ls, i, cur, exp);
      } else {
        PropagateStepOk(ls, i, cur, exp, f.value.0, f.value.1);
        var ls' := ls[i := f.value.0];
        PropagateFromOk(ls', i + 1, f.value.1, exp);
        assert |f.value.1| == ls[i].size;
        assert SameParameters(ls[i], ls'[i]);
        assert forall k :: i + 1 <= k < |ls| ==> ls'[k] == ls[k];
        assert AcceptsFrom(ls', i + 1, |f.value.1|) <==> AcceptsFrom(ls, i + 1, ls[i].size);
        assert AcceptsFrom(ls, i, |cur|) <==> AcceptsFrom(ls, i + 1, ls[i].size);
      }
    }
  }

  /** A forward pass succeeds exactly when the layers chain up from the input
      width and contain no Softmax layer of positive width; its output then
      has the last layer's width (the input's own without layers). */
  lemma {:induction false} PropagateOk(ls: seq<LayerState>, input: seq<real>, exp: PowE)
    requires AllWellShaped(ls)
    ensures Propagate(ls, input, exp).Ok? <==> Accepts(ls, |input|)
    ensures Propagate(ls, input, exp).Ok? ==> |Propagate(ls, input, exp).value.1| == WidthFrom(ls, 0, |input|)
  {
    PropagateFromOk(ls, 0, input, exp);
  }

  /** In particular every network holding a Softmax layer of positive width
      fails its forward pass, whatever the input. */
  lemma {:induction false} SoftmaxNetworkFails(ls: seq<LayerState>, input: seq<real>, exp: PowE, k: nat)
    requires AllWellShaped(ls) && k < |ls| && ls[k].activator == Softmax && ls[k].size > 0
    ensures Propagate(ls, input, exp).Err?
  {
    PropagateOk(ls, input, exp);
  }

  /** The value layer k received during the pass started at layer i. */
  function InputAt(res: seq<LayerState>, i: nat, cur: seq<real>, k: nat): seq<real>
    requires k < |res| && AllWellShaped(res)
  {
    if k <= i then cur else res[k - 1].neurons.data[0]
  }

  /** Layer `after` is what feeding `before` the value x produces. */
  predicate Fed(before: LayerState, x: seq<real>, after: LayerState, exp: PowE)
    requires WellShaped(before) && WellShaped(after)
  {
    Feed(before, x, exp) == Ok((after, after.neurons.data[0]))
  }

  /** The layers before i are left alone. */
  lemma {:induction false} PropagateFromPrefix(ls: seq<LayerState>, i: nat, cur: seq<real>, exp: PowE,
                                               res: seq<LayerState>, out: seq<real>)
    requires AllWellShaped(ls) && i <= |ls| && PropagateFrom(ls, i, cur, exp) == Ok((res, out))
    ensures |res| == |ls| && forall k :: 0 <= k < i ==> res[k] == ls[k]
    decreases |ls| - i
  {
    PropagateFromShape(ls, i, cur, exp);
    if i < |ls| {
      var f := Feed(ls[i], cur, exp).value;
      PropagateStepOk(ls, i, cur, exp, f.0, f.1);
      var ls' := ls[i := f.0];
      PropagateFromPrefix(ls', i + 1, f.1, exp, res, out);
      assert forall k :: 0 <= k < i ==> ls'[k] == ls[k];
    }
  }

  /** The pass returns the last layer's new activations. */
  lemma {:induction false} PropagateFromOutput(ls: seq<LayerState>, i: nat, cur: seq<real>, exp: PowE,
                                               res: seq<LayerState>, out: seq<real>)
    requires AllWellShaped(ls) && i <= |ls| && PropagateFrom(ls, i, cur, exp) == Ok((res, out))
    ensures AllWellShaped(res) && |res| == |ls|
    ensures out == if i == |ls| then cur else res[|ls| - 1].neurons.data[0]
    decreases |ls| - i
  {
    PropagateFromShape(ls, i, cur, exp);
    if i < |ls| {
      var f := Feed(ls[i], cur, exp).value;
      PropagateStepOk(ls, i, cur, exp, f.0, f.1);
      if i + 1 == |ls| {
        assert res == ls[i := f.0] && out == f.1;
      } else {
        PropagateFromOutput(ls[i := f.0], i + 1, f.1, exp, res, out);
      }
    }
  }

  /** Each layer from i on holds what feeding it its input in this pass gives. */
  lemma {:induction false} PropagateFromCaches(ls: seq<LayerState>, i: nat, cur: seq<real>, exp: PowE,
                                               res: seq<LayerState>, out: seq<real>)
    requires AllWellShaped(ls) && i <= |ls| && PropagateFrom(ls, i, cur, exp) == Ok((res, out))
    ensures AllWellShaped(res) && |res| == |ls|
    ensures forall k :: i <= k < |ls| ==> Fed(ls[k], InputAt(res, i, cur, k), res[k], exp)
    decreases |ls| - i
  {
    PropagateFromShape(ls, i, cur, exp);
    if i < |ls| {
      var f := Feed(ls[i], cur, exp).value;
      PropagateStepOk(ls, i, cur, exp, f.0, f.1);
      var ls' := ls[i := f.0];
      PropagateFromCaches(ls', i + 1, f.1, exp, res, out);
      PropagateFromPrefix(ls', i + 1, f.1, exp, res, out);
      assert res[i] == f.0 && f.0.neurons.data == [f.1];
      forall k | i <= k < |ls|
        ensures Fed(ls[k], InputAt(res, i, cur, k), res[k], exp)
      {
        if k > i {
          assert ls'[k] == ls[k];
          assert InputAt(res, i + 1, f.1, k) == InputAt(res, i, cur, k);
        }
      }
    }
  }

  /** After a successful pass every layer holds in its caches exactly what
      feeding it its predecessor's stored activations gives (the first layer
      is fed the input), and the output is the last layer's activations. */
  lemma {:induction false} PropagateCaches(ls: seq<LayerState>, input: seq<real>, exp: PowE, res: seq<LayerState>, out: seq<real>)
    requires AllWellShaped(ls) && Propagate(ls, input, exp) == Ok((res, out))
    ensures AllWellShaped(res) && |res| == |ls|
    ensures forall k :: 0 <= k < |ls| ==>
      Fed(ls[k], if k == 0 then input else res[k - 1].neurons.data[0], res[k], exp)
    ensures out == if |ls| == 0 then input else res[|ls| - 1].neurons.data[0]
  {
    PropagateFromCaches(ls, 0, input, exp, res, out);
    PropagateFromOutput(ls, 0, input, exp, res, out);
    assert forall k :: 0 <= k < |ls| ==> InputAt(res, 0, input, k) == if k == 0 then input else res[k - 1].neurons.data[0];
  }

  /** `Network`. A `Vec<Layer>` owns its layers, outright and without
      aliases, so the network holds their values; each step borrows layer i
      as a `Layer` object, runs that layer's method on it and stores its new
      value back, as `for layer in &mut self.layers` does. */
  class Network {
    var layers: seq<LayerState>

    predicate Wellformed()
      reads this
    {
      AllWellShaped(layers)
    }

    /** `Network::new` from (size, input_size, activation) triples, given the
        random draws of each `Layer::new`. */
    constructor (specs: seq<(nat, nat, ActivationFunction)>, draws: seq<Draw>)
      requires |draws| == |specs|
      requires forall k :: 0 <= k < |specs| ==> DrawFor(draws[k], specs[k].0, specs[k].1)
      ensures Wellformed()
      ensures layers == seq(|specs|, k requires 0 <= k < |specs| => Initial(specs[k].0, specs[k].1, specs[k].2, draws[k]))
    {
      var built: seq<LayerState> := [];
      for i := 0 to |specs|
        invariant |built| == i
        invariant forall k :: 0 <= k < i ==> built[k] == Initial(specs[k].0, specs[k].1, specs[k].2, draws[k])
        invariant AllWellShaped(built)
      {
        var l := new Layer(specs[i].0, specs[i].1, specs[i].2, draws[i]);
        built := built + [l.State()];
      }
      layers := built;
    }

    /** `Network::forward`: feeds the input through every layer in order,
        each layer storing its pre-activations and activations. */
    method Forward(input: seq<real>, exp: PowE) returns (r: Result<seq<real>>)
      requires Wellformed()
      modifies this
      ensures Wellformed()
      ensures r.Ok? <==> Propagate(old(layers), input, exp).Ok?
      ensures r.Ok? ==> (layers, r.value) == Propagate(old(layers), input, exp).value
    {
      var current := input;
      for i := 0 to |layers|
        invariant Wellformed() && |layers| == |old(layers)|
        invariant PropagateFrom(layers, i, current, exp) == Propagate(old(layers), input, exp)
      {
        var layer := new Layer.Holding(layers[i]);
        var out := layer.FeedFrom(current, exp);
        if out.Err? {
          PropagateStepErr(layers, i, current, exp);
          return Err(out.error);
        }
        PropagateStepOk(layers, i, current, exp, layer.State(), out.value);
        layers := layers[i := layer.State()];
        current := out.value;
      }
      r := Ok(current);
    }
  }
}

/** Plain stochastic gradient descent (src/optim/sgd.rs). */
module Optim {
  import opened Base
  import opened Matrices
  import opened Dense

  class Sgd {
    var learningRate: real

    /** `Sgd::new`. */
    constructor (learningRate: real)
      ensures this.learningRate == learningRate
    {
      this.learningRate := learningRate;
    }

    /** `Sgd::step`: one `apply_gradients` with the stored learning rate.
        The optimizer itself is only read. */
    method Step(layer: Layer, wg: Matrix, bg: Matrix) returns (r: Result<()>)
      requires WellShaped(layer.State()) && Valid(wg) && Valid(bg)
      modifies layer
      ensures learningRate == old(learningRate)
      ensures WellShaped(layer.State())
      ensures r.Ok? <==> Stepped(old(layer.State()), wg, bg, learningRate).Ok?
      ensures r.Ok? ==> layer.State() == Stepped(old(layer.State()), wg, bg, learningRate).value
    {
      r := layer.ApplyGradients(wg, bg, learningRate);
    }
  }
}

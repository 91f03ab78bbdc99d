/**
  The two networks of the cWGAN as parameter state, and the three things the
  training loop does with them: a critic update, a generator update and a
  Wasserstein estimate.

  The networks' forward passes, the tape gradient and the RMSprop step are
  external collaborators. They are the function-valued fields of a Backend and
  nothing is assumed about them beyond their types.
 */
module Networks {
  import opened Losses
  import opened Clipping

  /** A batch of vectors, one row per sample (parton jets, reco jets or noise). */
  type Matrix = seq<seq<real>>

  /** The critic's output for a batch: one unconstrained score per sample. */
  type Scores = s: seq<real> | |s| > 0 witness [0.0]

  /** RMSprop's own state: its step counter and one running mean square per weight. */
  datatype OptimizerState = OptimizerState(iterations: nat, meanSquares: Params)

  /** The optimizer state before its first step (keras creates its slots lazily). */
  const FreshOptimizer: OptimizerState := OptimizerState(0, [])

  /** What an optimizer step yields: the new weights and the optimizer's new state. */
  datatype Applied = Applied(params: Params, state: OptimizerState)

  datatype Backend = Backend(
    /** generator([pJets, noise]) evaluated under the given generator weights */
    generate: (Params, Matrix, Matrix) -> Matrix,
    /** critic([pJets, jets]) evaluated under the given critic weights */
    score: (Params, Matrix, Matrix) -> Scores,
    /** tape.gradient: the gradient of a loss, as a function of the trained
        network's weights, taken at the given weights */
    gradient: (Params -> real, Params) -> Params,
    /** apply_gradients(zip(grads, weights)) of RMSprop with a learning rate */
    rmsprop: (Params, Params, OptimizerState, real) -> Applied
  )

  /** The learning rate of both RMSprop optimizers. */
  const LearningRate: real := 0.00005

  /** One batch: its parton-jet conditions (batch[0]) and reco-jet targets (batch[1]). */
  datatype Batch = Batch(pJets: Matrix, rJets: Matrix)

  /** The parameter state of the whole model. */
  datatype Nets = Nets(critic: Params, generator: Params, criticOpt: OptimizerState, generatorOpt: OptimizerState)

  /** Noise as tf.random.uniform draws it: one row of dims values in [0, 1) per sample. */
  predicate NoiseFor(noise: Matrix, pJets: Matrix, dims: nat)
  {
    && |noise| == |pJets|
    && (forall i :: 0 <= i < |noise| ==> |noise[i]| == dims)
    && (forall i, j :: 0 <= i < |noise| && 0 <= j < |noise[i]| ==> 0.0 <= noise[i][j] < 1.0)
  }

  /**
    The critic loss on a batch as a function of the critic's weights only.
    The generated jets are computed once, outside the function, so no
    gradient can reach the generator's weights.
   */
  function CriticObjective(net: Backend, generator: Params, batch: Batch, noise: Matrix): (objective: Params -> real)
  {
    var generated := net.generate(generator, batch.pJets, noise);
    (theta: Params) => CriticLoss(net.score(theta, batch.pJets, batch.rJets), net.score(theta, batch.pJets, generated))
  }

  /** The generator loss as a function of the generator's weights; the critic is frozen. */
  function GeneratorObjective(net: Backend, critic: Params, pJets: Matrix, noise: Matrix): (objective: Params -> real)
  {
    (theta: Params) => GeneratorLoss(net.score(critic, pJets, net.generate(theta, pJets, noise)))
  }

  /** The outcome of one critic update: the new state and the loss it reports. */
  datatype CriticStep = CriticStep(nets: Nets, loss: real)

  /**
    train_critic: one RMSprop step on the critic, then weight clipping.
    The reported loss is the one computed under the tape, before the step.
   */
  function CriticUpdate(net: Backend, s: Nets, batch: Batch, noise: Matrix): (r: CriticStep)
    ensures r.nets.generator == s.generator && r.nets.generatorOpt == s.generatorOpt
    ensures InBox(r.nets.critic, ClipValue)
    ensures SameShape(r.nets.critic, net.rmsprop(s.critic, net.gradient(CriticObjective(net, s.generator, batch, noise), s.critic), s.criticOpt, LearningRate).params)
    ensures r.loss == CriticLoss(net.score(s.critic, batch.pJets, batch.rJets),
                                 net.score(s.critic, batch.pJets, net.generate(s.generator, batch.pJets, noise)))
  {
    var objective := CriticObjective(net, s.generator, batch, noise);
    var applied := net.rmsprop(s.critic, net.gradient(objective, s.critic), s.criticOpt, LearningRate);
    CriticStep(s.(critic := ClipLayers(applied.params, ClipValue), criticOpt := applied.state), objective(s.critic))
  }

  /**
    train_generator: one RMSprop step on the generator, on the conditions
    alone, with no clipping. The critic and its optimizer are untouched.
   */
  function GeneratorUpdate(net: Backend, s: Nets, pJets: Matrix, noise: Matrix): (r: Nets)
    ensures r.critic == s.critic && r.criticOpt == s.criticOpt
    ensures r.generator == net.rmsprop(s.generator, net.gradient(GeneratorObjective(net, s.critic, pJets, noise), s.generator), s.generatorOpt, LearningRate).params
  {
    var applied := net.rmsprop(s.generator, net.gradient(GeneratorObjective(net, s.critic, pJets, noise), s.generator), s.generatorOpt, LearningRate);
    s.(generator := applied.params, generatorOpt := applied.state)
  }

  /** The Wasserstein estimate on one batch: the negated critic loss, no update anywhere. */
  function Estimate(net: Backend, s: Nets, batch: Batch, noise: Matrix): (estimate: real)
    ensures estimate == -CriticUpdate(net, s, batch, noise).loss
  {
    var generated := net.generate(s.generator, batch.pJets, noise);
    -CriticLoss(net.score(s.critic, batch.pJets, batch.rJets), net.score(s.critic, batch.pJets, generated))
  }

  /**
    The estimate is exactly mean(real) - mean(fake), the negation of the loss
    the critic would be trained on at the same weights, batch and noise.
   */
  lemma EstimateIsNegatedCriticObjective(net: Backend, s: Nets, batch: Batch, noise: Matrix)
    ensures Estimate(net, s, batch, noise) == -CriticObjective(net, s.generator, batch, noise)(s.critic)
    ensures Estimate(net, s, batch, noise) ==
              Mean(net.score(s.critic, batch.pJets, batch.rJets)) - Mean(net.score(s.critic, batch.pJets, net.generate(s.generator, batch.pJets, noise)))
  {
  }

  /**
    A critic whose scores on the batch lie in [lo, hi] yields a Wasserstein
    estimate within [lo - hi, hi - lo].
   */
  lemma EstimateBounded(net: Backend, s: Nets, batch: Batch, noise: Matrix, lo: real, hi: real)
    requires var realOutput := net.score(s.critic, batch.pJets, batch.rJets);
      forall i :: 0 <= i < |realOutput| ==> lo <= realOutput[i] <= hi
    requires var fakeOutput := net.score(s.critic, batch.pJets, net.generate(s.generator, batch.pJets, noise));
      forall i :: 0 <= i < |fakeOutput| ==> lo <= fakeOutput[i] <= hi
    ensures lo - hi <= Estimate(net, s, batch, noise) <= hi - lo
  {
    CriticLossBounded(net.score(s.critic, batch.pJets, batch.rJets),
                      net.score(s.critic, batch.pJets, net.generate(s.generator, batch.pJets, noise)), lo, hi);
  }
}

/**
  The cWGAN model object: its two networks' weights and optimizer states,
  updated in place by clip_critic_weights, train_critic, train_generator and
  the window scheduler train_step.
 */
module Model {
  import opened Losses
  import opened Clipping
  import opened Networks
  import opened Schedule

  class CWGAN {
    const numCriticIters: nat
    const batchSize: nat
    const noiseDims: nat
    const clipValue: real := ClipValue
    /** The networks' forward passes, the gradient tape and RMSprop. */
    const net: Backend

    var critic: Params
    var generator: Params
    var criticOptimizer: OptimizerState
    var generatorOptimizer: OptimizerState

    /** The abstract value of the model: all of its mutable state. */
    function State(): Nets
      reads this
    {
      Nets(critic, generator, criticOptimizer, generatorOptimizer)
    }

    /**
      The built networks' initial weights come from the (external) layer
      initialisers; both optimizers start fresh.
     */
    constructor (numCriticIters: nat, batchSize: nat, net: Backend, initialGenerator: Params, initialCritic: Params, noiseDims: nat := 4)
      ensures this.numCriticIters == numCriticIters && this.batchSize == batchSize && this.noiseDims == noiseDims
      ensures this.net == net
      ensures State() == Nets(initialCritic, initialGenerator, FreshOptimizer, FreshOptimizer)
    {
      this.numCriticIters := numCriticIters;
      this.batchSize := batchSize;
      this.noiseDims := noiseDims;
      this.net := net;
      generator := initialGenerator;
      critic := initialCritic;
      criticOptimizer := FreshOptimizer;
      generatorOptimizer := FreshOptimizer;
    }

    /** clip_critic_weights: layer by layer, rebuild the weight list clipped, then set it. */
    method ClipCriticWeights()
      modifies this`critic
      ensures critic == ClipLayers(old(critic), clipValue)
    {
      var l := 0;
      while l < |critic|
        invariant 0 <= l <= |critic| == |old(critic)|
        invariant forall j :: 0 <= j < l ==> critic[j] == ClipLayer(old(critic)[j], clipValue)
        invariant forall j :: l <= j < |critic| ==> critic[j] == old(critic)[j]
      {
        var weights := critic[l];
        var newWeights: seq<Tensor> := [];
        var i := 0;
        while i < |weights|
          invariant 0 <= i <= |weights|
          invariant |newWeights| == i
          invariant forall t :: 0 <= t < i ==> newWeights[t] == ClipTensor(weights[t], clipValue)
        {
          newWeights := newWeights + [ClipTensor(weights[i], clipValue)];
          i := i + 1;
        }
        critic := critic[l := newWeights];
        l := l + 1;
      }
    }

    /**
      train_critic: the generator runs without gradient, the critic loss is
      differentiated with respect to the critic's weights only, RMSprop steps
      the critic, and the critic is clipped. Returns the loss before the step.
     */
    method TrainCritic(pJets: Matrix, rJets: Matrix, noise: Matrix) returns (criticLossVal: real)
      requires NoiseFor(noise, pJets, noiseDims)
      modifies this
      ensures CriticUpdate(net, old(State()), Batch(pJets, rJets), noise) == CriticStep(State(), criticLossVal)
      ensures InBox(critic, clipValue)
      ensures generator == old(generator) && generatorOptimizer == old(generatorOptimizer)
    {
      var generated := net.generate(generator, pJets, noise);
      var realOutput := net.score(critic, pJets, rJets);
      var fakeOutput := net.score(critic, pJets, generated);
      criticLossVal := CriticLoss(realOutput, fakeOutput);
      var criticGrads := net.gradient(CriticObjective(net, generator, Batch(pJets, rJets), noise), critic);
      var applied := net.rmsprop(critic, criticGrads, criticOptimizer, LearningRate);
      critic, criticOptimizer := applied.params, applied.state;
      ClipCriticWeights();
    }

    /**
      train_generator: the critic is frozen, the generator loss is
      differentiated with respect to the generator's weights, RMSprop steps
      the generator. Nothing is clipped.
     */
    method TrainGenerator(pJets: Matrix, noise: Matrix)
      requires NoiseFor(noise, pJets, noiseDims)
      modifies this
      ensures State() == GeneratorUpdate(net, old(State()), pJets, noise)
      ensures critic == old(critic) && criticOptimizer == old(criticOptimizer)
    {
      var generatorGrads := net.gradient(GeneratorObjective(net, critic, pJets, noise), generator);
      var applied := net.rmsprop(generator, generatorGrads, generatorOptimizer, LearningRate);
      generator, generatorOptimizer := applied.params, applied.state;
    }

    /**
      train_step: walk the window with a counter; critic updates while the
      counter is below N, the generator update at N, the estimate at N+1.
     */
    method TrainStep(data: seq<Batch>, noise: seq<Matrix>) returns (wassEstimate: real, criticLosses: seq<real>)
      requires |noise| == |data|
      requires forall k :: 0 <= k < |data| ==> NoiseFor(noise[k], data[k].pJets, noiseDims)
      modifies this
      ensures var w := WindowAfter(net, numCriticIters, old(State()), data, noise, |data|);
        State() == w.nets && wassEstimate == w.wassEstimate && criticLosses == w.criticLosses
    {
      ghost var s0 := State();
      ghost var events: seq<Event> := [];
      var count := 0;
      wassEstimate := 0.0;
      criticLosses := [];
      while count < |data|
        invariant 0 <= count <= |data|
        invariant Window(State(), wassEstimate, criticLosses, events) == WindowAfter(net, numCriticIters, s0, data, noise, count)
      {
        var batch := data[count];
        if count < numCriticIters {
          var criticLossVal := TrainCritic(batch.pJets, batch.rJets, noise[count]);
          criticLosses := criticLosses + [criticLossVal];
          events := events + [CriticStepped(count)];
        }
        if count == numCriticIters {
          TrainGenerator(batch.pJets, noise[count]);
          events := events + [GeneratorStepped(count)];
        }
        if count == numCriticIters + 1 {
          var generated := net.generate(generator, batch.pJets, noise[count]);
          var realOutput := net.score(critic, batch.pJets, batch.rJets);
          var fakeOutput := net.score(critic, batch.pJets, generated);
          wassEstimate := -CriticLoss(realOutput, fakeOutput);
          events := events + [Estimated(count)];
        }
        count := count + 1;
      }
    }
  }
}

/**
  The window scheduler train_step, as a function of the batches it is given.

  A window is walked batch by batch with a counter; with N critic iterations,
  batches 0 .. N-1 each drive a critic update, batch N drives the generator
  update, batch N+1 the Wasserstein estimate, and later batches do nothing.
 */
module Schedule {
  import opened Clipping
  import opened Networks

  /** What the counter selects for a batch. */
  datatype Phase = CriticPhase | GeneratorPhase | EstimatePhase | Ignored

  function PhaseAt(numCriticIters: nat, count: nat): (phase: Phase)
  {
    if count < numCriticIters then CriticPhase
    else if count == numCriticIters then GeneratorPhase
    else if count == numCriticIters + 1 then EstimatePhase
    else Ignored
  }

  /** One thing the scheduler did, tagged with the index of the batch it used. */
  datatype Event = CriticStepped(batch: nat) | GeneratorStepped(batch: nat) | Estimated(batch: nat)

  /**
    Where a window stands: the parameter state, wass_estimate, the recorded
    critic losses and the updates performed so far, in order.
   */
  datatype Window = Window(nets: Nets, wassEstimate: real, criticLosses: seq<real>, events: seq<Event>)

  /** The body of the loop of train_step, for the batch at index count. */
  function ProcessBatch(net: Backend, numCriticIters: nat, w: Window, count: nat, batch: Batch, noise: Matrix): (w': Window)
  {
    match PhaseAt(numCriticIters, count)
    case CriticPhase =>
      var step := CriticUpdate(net, w.nets, batch, noise);
      Window(step.nets, w.wassEstimate, w.criticLosses + [step.loss], w.events + [CriticStepped(count)])
    case GeneratorPhase =>
      w.(nets := GeneratorUpdate(net, w.nets, batch.pJets, noise), events := w.events + [GeneratorStepped(count)])
    case EstimatePhase =>
      w.(wassEstimate := Estimate(net, w.nets, batch, noise), events := w.events + [Estimated(count)])
    case Ignored =>
      w
  }

  /** The window after the first k batches; wass_estimate starts at 0.0 and the losses empty. */
  function WindowAfter(net: Backend, numCriticIters: nat, s0: Nets, data: seq<Batch>, noise: seq<Matrix>, k: nat): (w: Window)
    requires k <= |data| && |noise| == |data|
  {
    if k == 0 then Window(s0, 0.0, [], [])
    else ProcessBatch(net, numCriticIters, WindowAfter(net, numCriticIters, s0, data, noise, k - 1), k - 1, data[k - 1], noise[k - 1])
  }

  /** A reference definition of the critic phase alone: k critic updates on batches 0 .. k-1. */
  function CriticIters(net: Backend, s0: Nets, data: seq<Batch>, noise: seq<Matrix>, k: nat): (w: Window)
    requires k <= |data| && |noise| == |data|
  {
    if k == 0 then Window(s0, 0.0, [], [])
    else
      var w := CriticIters(net, s0, data, noise, k - 1);
      var step := CriticUpdate(net, w.nets, data[k - 1], noise[k - 1]);
      Window(step.nets, 0.0, w.criticLosses + [step.loss], w.events + [CriticStepped(k - 1)])
  }

  /** Critic updates on batches 0, 1, ..., k-1, in that order. */
  function CriticEvents(k: nat): (r: seq<Event>)
    ensures |r| == k
  {
    seq(k, i requires 0 <= i < k => CriticStepped(i))
  }

  function Min(a: nat, b: nat): (m: nat)
  {
    if a < b then a else b
  }

  /**
    The critic phase records one loss per update, keeps wass_estimate at 0.0,
    leaves the generator and its optimizer alone, and (after at least one
    update) leaves the critic in the clipping box.
   */
  lemma {:induction false} CriticItersFacts(net: Backend, s0: Nets, data: seq<Batch>, noise: seq<Matrix>, k: nat)
    requires k <= |data| && |noise| == |data|
    ensures var w := CriticIters(net, s0, data, noise, k);
      && |w.criticLosses| == k
      && w.events == CriticEvents(k)
      && w.wassEstimate == 0.0
      && w.nets.generator == s0.generator
      && w.nets.generatorOpt == s0.generatorOpt
      && (k > 0 || InBox(s0.critic, ClipValue) ==> InBox(w.nets.critic, ClipValue))
  {
    if k > 0 {
      CriticItersFacts(net, s0, data, noise, k - 1);
      var w := CriticIters(net, s0, data, noise, k - 1);
      assert CriticEvents(k) == CriticEvents(k - 1) + [CriticStepped(k - 1)];
    }
  }

  /** The critic phase reads only the batches and noise it uses. */
  lemma {:induction false} CriticItersPrefix(net: Backend, s0: Nets, data: seq<Batch>, noise: seq<Matrix>, j: nat, k: nat)
    requires k <= j <= |data| && |noise| == |data|
    ensures CriticIters(net, s0, data, noise, k) == CriticIters(net, s0, data[..j], noise[..j], k)
  {
    if k > 0 {
      CriticItersPrefix(net, s0, data, noise, j, k - 1);
    }
  }

  /** Up to batch N every batch drives a critic update, exactly as the critic phase does. */
  lemma {:induction false} CriticPhaseWindow(net: Backend, n: nat, s0: Nets, data: seq<Batch>, noise: seq<Matrix>, k: nat)
    requires k <= n && k <= |data| && |noise| == |data|
    ensures WindowAfter(net, n, s0, data, noise, k) == CriticIters(net, s0, data, noise, k)
  {
    if k > 0 {
      CriticPhaseWindow(net, n, s0, data, noise, k - 1);
      CriticItersFacts(net, s0, data, noise, k - 1);
    }
  }

  /** Batches after index N+1 leave the window as it was after batch N+1. */
  lemma {:induction false} IgnoredBatches(net: Backend, n: nat, s0: Nets, data: seq<Batch>, noise: seq<Matrix>, k: nat)
    requires n + 2 <= k <= |data| && |noise| == |data|
    ensures WindowAfter(net, n, s0, data, noise, k) == WindowAfter(net, n, s0, data, noise, n + 2)
  {
    if k > n + 2 {
      IgnoredBatches(net, n, s0, data, noise, k - 1);
    }
  }

  /**
    The closed form of a window after k batches: min(k, N) critic updates in
    batch order, then the generator update on batch N's conditions if k > N,
    then the estimate on batch N+1, under the updated critic and generator,
    if k > N+1. Otherwise wass_estimate stays as the critic phase left it.
   */
  function ClosedForm(net: Backend, n: nat, s0: Nets, data: seq<Batch>, noise: seq<Matrix>, k: nat): (w: Window)
    requires k <= |data| && |noise| == |data|
  {
    var c := CriticIters(net, s0, data, noise, Min(k, n));
    if k <= n then c
    else
      var g := c.(nets := GeneratorUpdate(net, c.nets, data[n].pJets, noise[n]), events := c.events + [GeneratorStepped(n)]);
      if k == n + 1 then g
      else g.(wassEstimate := Estimate(net, g.nets, data[n + 1], noise[n + 1]), events := g.events + [Estimated(n + 1)])
  }

  /** Batch N drives the generator update, under the critic the critic phase produced. */
  lemma GeneratorBatchWindow(net: Backend, n: nat, s0: Nets, data: seq<Batch>, noise: seq<Matrix>)
    requires n < |data| && |noise| == |data|
    ensures WindowAfter(net, n, s0, data, noise, n + 1) == ClosedForm(net, n, s0, data, noise, n + 1)
  {
    CriticPhaseWindow(net, n, s0, data, noise, n);
    assert PhaseAt(n, n) == GeneratorPhase;
  }

  /** Batch N+1 drives the estimate, under the updated critic and generator. */
  lemma EstimateBatchWindow(net: Backend, n: nat, s0: Nets, data: seq<Batch>, noise: seq<Matrix>)
    requires n + 1 < |data| && |noise| == |data|
    ensures WindowAfter(net, n, s0, data, noise, n + 2) == ClosedForm(net, n, s0, data, noise, n + 2)
  {
    GeneratorBatchWindow(net, n, s0, data, noise);
    assert PhaseAt(n, n + 1) == EstimatePhase;
  }

  /** The window after k batches is the closed form. */
  lemma WindowPhases(net: Backend, n: nat, s0: Nets, data: seq<Batch>, noise: seq<Matrix>, k: nat)
    requires k <= |data| && |noise| == |data|
    ensures WindowAfter(net, n, s0, data, noise, k) == ClosedForm(net, n, s0, data, noise, k)
  {
    if k <= n {
      CriticPhaseWindow(net, n, s0, data, noise, k);
    } else if k == n + 1 {
      GeneratorBatchWindow(net, n, s0, data, noise);
    } else {
      EstimateBatchWindow(net, n, s0, data, noise);
      IgnoredBatches(net, n, s0, data, noise, k);
      assert ClosedForm(net, n, s0, data, noise, k) == ClosedForm(net, n, s0, data, noise, n + 2);
    }
  }

  /**
    What train_step returns for a window of L batches: exactly min(L, N) critic
    updates and losses, in batch order; one generator update exactly when
    L > N; an estimate exactly when L > N+1, and 0.0 otherwise.
   */
  lemma WindowCounts(net: Backend, n: nat, s0: Nets, data: seq<Batch>, noise: seq<Matrix>)
    requires |noise| == |data|
    ensures var w := WindowAfter(net, n, s0, data, noise, |data|);
      var L := |data|;
      && |w.criticLosses| == Min(L, n)
      && w.events == CriticEvents(Min(L, n)) + (if L > n then [GeneratorStepped(n)] else []) + (if L > n + 1 then [Estimated(n + 1)] else [])
      && (L <= n + 1 ==> w.wassEstimate == 0.0)
  {
    WindowPhases(net, n, s0, data, noise, |data|);
    CriticItersFacts(net, s0, data, noise, Min(|data|, n));
  }

  /** Until the generator update, the generator's weights and optimizer are the initial ones. */
  lemma ShortWindowKeepsGenerator(net: Backend, n: nat, s0: Nets, data: seq<Batch>, noise: seq<Matrix>)
    requires |noise| == |data| <= n
    ensures WindowAfter(net, n, s0, data, noise, |data|).nets.generator == s0.generator
    ensures WindowAfter(net, n, s0, data, noise, |data|).nets.generatorOpt == s0.generatorOpt
  {
    WindowPhases(net, n, s0, data, noise, |data|);
    CriticItersFacts(net, s0, data, noise, |data|);
  }

  /**
    The generator update of a window sees the critic as the critic phase left
    it, and the generator as it was before the window.
   */
  lemma GeneratorUpdateFollowsCriticPhase(net: Backend, n: nat, s0: Nets, data: seq<Batch>, noise: seq<Matrix>)
    requires |noise| == |data| && |data| > n
    ensures var c := CriticIters(net, s0, data, noise, n);
      && c.nets.generator == s0.generator
      && WindowAfter(net, n, s0, data, noise, |data|).nets == GeneratorUpdate(net, c.nets, data[n].pJets, noise[n])
  {
    WindowPhases(net, n, s0, data, noise, |data|);
    CriticItersFacts(net, s0, data, noise, n);
  }

  /** Batches after index N+1 have no effect on anything train_step returns or changes. */
  lemma LateBatchesIgnored(net: Backend, n: nat, s0: Nets, data: seq<Batch>, noise: seq<Matrix>)
    requires |noise| == |data| > n + 2
    ensures WindowAfter(net, n, s0, data, noise, |data|) == WindowAfter(net, n, s0, data[..n + 2], noise[..n + 2], n + 2)
  {
    var data', noise' := data[..n + 2], noise[..n + 2];
    WindowPhases(net, n, s0, data, noise, |data|);
    WindowPhases(net, n, s0, data', noise', n + 2);
    CriticItersPrefix(net, s0, data, noise, n + 2, n);
    assert Min(|data|, n) == n && Min(n + 2, n) == n;
    assert data'[n] == data[n] && data'[n + 1] == data[n + 1];
    assert noise'[n] == noise[n] && noise'[n + 1] == noise[n + 1];
    assert ClosedForm(net, n, s0, data, noise, |data|) == ClosedForm(net, n, s0, data', noise', n + 2);
  }

  /**
    The clipping box is an invariant of a window: it holds at the end if it
    held at the start, or if at least one critic update ran.
   */
  lemma WindowKeepsBox(net: Backend, n: nat, s0: Nets, data: seq<Batch>, noise: seq<Matrix>)
    requires |noise| == |data|
    requires InBox(s0.critic, ClipValue) || (n > 0 && |data| > 0)
    ensures InBox(WindowAfter(net, n, s0, data, noise, |data|).nets.critic, ClipValue)
  {
    WindowPhases(net, n, s0, data, noise, |data|);
    CriticItersFacts(net, s0, data, noise, Min(|data|, n));
  }

  /** With two critic iterations, four batches give two losses, one generator update and an estimate. */
  lemma TwoCriticItersFourBatches(net: Backend, s0: Nets, data: seq<Batch>, noise: seq<Matrix>)
    requires |data| == |noise| == 4
    ensures var w := WindowAfter(net, 2, s0, data, noise, 4);
      && |w.criticLosses| == 2
      && w.events == [CriticStepped(0), CriticStepped(1), GeneratorStepped(2), Estimated(3)]
      && w.wassEstimate == Estimate(net, w.nets, data[3], noise[3])
  {
    WindowCounts(net, 2, s0, data, noise);
    WindowPhases(net, 2, s0, data, noise, 4);
  }

  /** With two critic iterations, two batches give two losses, no generator update and 0.0. */
  lemma TwoCriticItersTwoBatches(net: Backend, s0: Nets, data: seq<Batch>, noise: seq<Matrix>)
    requires |data| == |noise| == 2
    ensures var w := WindowAfter(net, 2, s0, data, noise, 2);
      && |w.criticLosses| == 2
      && w.events == [CriticStepped(0), CriticStepped(1)]
      && w.nets.generator == s0.generator
      && w.wassEstimate == 0.0
  {
    WindowCounts(net, 2, s0, data, noise);
    ShortWindowKeepsGenerator(net, 2, s0, data, noise);
  }
}

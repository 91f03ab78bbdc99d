# cWGAN training bookkeeping and parton-jet matching, in Dafny

This project models two pieces of the falcon-cWGAN repository and proves properties about them.

1. **The training bookkeeping of the conditional Wasserstein GAN** (`src/cWGAN/model.py`). The networks are not modelled. What is modelled:
   - the two mean-based losses;
   - the weight clipping of the critic into the box `[-0.01, 0.01]`;
   - the update contracts of `train_critic` and `train_generator`;
   - the window scheduler `train_step`. With `N = num_critic_iters`, it runs a critic update on batches `0 .. N-1`, the generator update on batch `N` and the Wasserstein estimate on batch `N+1`, and ignores every later batch.

   The networks' forward passes, the gradient tape and RMSprop are external collaborators. They are the function-valued fields of `Networks.Backend`, and nothing is assumed about them beyond their types. The gradient operator receives the loss *as a function of the trained network's weights only*. So "the generator gets no gradient during a critic update" and "the critic is frozen during a generator update" hold by construction (`Networks.CriticObjective`, `Networks.GeneratorObjective`). The model object is the class `Model.CWGAN`. Its fields are the two networks' weights and the two optimizer states. Its methods update those fields in place, as the source does.

2. **The jet-matching rule** (`src/writeJetMomenta.cc`, the loops inside `main`). For every clustered parton jet with pt > 20 the rule finds two jets: the pf (reconstructed) jet nearest in delta R among those with pt > 30, and, separately, the nearest gen jet. Each search is a linear scan. It starts from the sentinel (10.0, index 0) and takes a new jet only on a strictly smaller delta R. A row (the parton jet, then the pf jet) is written when both minima are below 0.35. `deltaR` is a function parameter, because its definition lives in `helpers.h`, which is not part of this model.

Files: `losses.dfy` (module `Losses`), `clipping.dfy` (`Clipping`), `networks.dfy` (`Networks`), `schedule.dfy` (`Schedule`, the reference semantics of `train_step`), `cwgan.dfy` (`Model`, the class), `jets.dfy` (`JetMatching`).

How the imperative code is tied to its specification:
- `Model.CWGAN.TrainStep` is a loop with three `if`s on `count`. Its postcondition equates the new state, `wass_estimate` and `critic_losses` with `Schedule.WindowAfter`, a per-batch fold over the same dispatch.
- `Schedule.WindowPhases` proves that this fold equals the closed form `Schedule.ClosedForm`: min(L, N) critic updates, then the generator update if L > N, then the estimate if L > N+1.
- `JetMatching.NearestJet` is the scan loop. Its postcondition equates its result with `JetMatching.ScanAfter` and states the declarative meaning (`IsFirstNearest`) outright.
- `JetMatching.MatchEvent` appends rows. Its postcondition equates them with `JetMatching.EventRows`.

Behaviour of the code worth knowing:
- The code does not check for empty batches or shape errors, and it does not raise on NaN. The model has no such error paths.
- `train_step` silently ignores batches after index N+1. This is proved (`Schedule.LateBatchesIgnored`); they are not treated as an error.

## Model

| member | source | states |
|---|---|---|
| `Losses.CriticLoss` | src/cWGAN/model.py:76-84 | critic loss is -(mean(real) - mean(fake)); identical real and fake scores give 0 |
| `Losses.CriticLossAntisymmetric` | src/cWGAN/model.py:81-82 | swapping real and fake scores negates the critic loss |
| `Losses.CriticLossShiftFake` | src/cWGAN/model.py:81-82 | adding k to every fake score raises the critic loss by exactly k |
| `Losses.CriticLossShiftBoth` | src/cWGAN/model.py:81-82 | a common offset of all scores leaves the critic loss unchanged |
| `Losses.SumShift` | src/cWGAN/model.py:81-82 | shifting n scores by k shifts their sum by n*k (reduce_mean's numerator) |
| `Losses.MeanShift` | src/cWGAN/model.py:81-82 | shifting every score by k shifts the mean by exactly k |
| `Losses.SumMonotone` | src/cWGAN/model.py:89 | pointwise larger scores have a larger or equal sum |
| `Losses.SumBounds` | src/cWGAN/model.py:81-82 | a sum of n scores in [lo, hi] lies in [n*lo, n*hi] |
| `Losses.MeanBounds` | src/cWGAN/model.py:81-82 | the mean of scores in [lo, hi] lies in [lo, hi] |
| `Losses.CriticLossBounded` | src/cWGAN/model.py:81-82 | when all real and fake scores lie in [lo, hi], the critic loss lies in [lo - hi, hi - lo] |
| `Losses.GeneratorLoss` | src/cWGAN/model.py:88-91 | generator loss is -mean(fake): at most 0 when every fake score is non-negative, at least 0 when every fake score is non-positive |
| `Losses.SumSign` | src/cWGAN/model.py:89 | a sum of non-negative scores is non-negative, and of non-positive scores non-positive |
| `Losses.GeneratorLossShift` | src/cWGAN/model.py:88-91 | adding k to every fake score changes the generator loss by exactly -k |
| `Losses.GeneratorLossStrictlyDecreasing` | src/cWGAN/model.py:89 | a positive offset of the fake scores strictly lowers the generator loss |
| `Losses.GeneratorLossMonotone` | src/cWGAN/model.py:89 | pointwise higher fake scores never give a higher generator loss |
| `Clipping.Clamp` | src/cWGAN/model.py:99-100 | clip_by_value on one element: inside [-c, c], unchanged when already inside, else the nearer bound |
| `Clipping.ClipLayers` | src/cWGAN/model.py:95-101 | clipped critic: same shape (layers, tensors per layer, elements per tensor), every element in [-c, c], and each element is `Clamp` of the original one |
| `Clipping.ClipFixesExactlyTheBox` | src/cWGAN/model.py:95-101 | clipping leaves the weights unchanged if and only if they already lie in the box |
| `Clipping.ClipIdempotent` | src/cWGAN/model.py:95-101 | clipping twice equals clipping once |
| `Networks.CriticUpdate` | src/cWGAN/model.py:105-125 | a critic update leaves generator weights and generator optimizer unchanged, ends inside the clipping box with the optimizer output's shape, and reports the loss under the pre-step critic and the current generator |
| `Networks.GeneratorUpdate` | src/cWGAN/model.py:129-140 | a generator update leaves the critic and its optimizer unchanged; the generator's weights are RMSprop's output, unclipped |
| `Networks.Estimate` | src/cWGAN/model.py:154-162 | the Wasserstein estimate is the negation of the loss a critic update would report on the same batch, weights and noise; computing it changes no weights |
| `Networks.EstimateBounded` | src/cWGAN/model.py:159-162 | a critic whose scores on the batch lie in [lo, hi] gives a Wasserstein estimate within [lo - hi, hi - lo] |
| `Networks.EstimateIsNegatedCriticObjective` | src/cWGAN/model.py:154-162 | the estimate is mean(real) - mean(fake), the negation of the critic's training objective at the same weights, batch and noise |
| `Schedule.CriticItersFacts` | src/cWGAN/model.py:149-151 | k critic updates record k losses with events on batches 0..k-1 in order, keep the estimate at 0.0, leave the generator alone and (k > 0) end inside the box |
| `Schedule.CriticItersPrefix` | src/cWGAN/model.py:148-151 | the critic phase reads only the batches it uses |
| `Schedule.CriticPhaseWindow` | src/cWGAN/model.py:148-151 | up to batch N the scheduler does exactly the critic phase |
| `Schedule.IgnoredBatches` | src/cWGAN/model.py:148-163 | batches beyond index N+1 leave the window as it was |
| `Schedule.GeneratorBatchWindow` | src/cWGAN/model.py:152-153 | batch N drives one generator update on its conditions only, after the critic phase |
| `Schedule.EstimateBatchWindow` | src/cWGAN/model.py:154-162 | batch N+1 sets wass_estimate under the updated critic and generator |
| `Schedule.WindowPhases` | src/cWGAN/model.py:144-165 | the per-batch loop equals the closed form: critic updates, then the generator update, then the estimate |
| `Schedule.WindowCounts` | src/cWGAN/model.py:144-165 | L batches give exactly min(L, N) critic losses and updates in batch order, one generator update iff L > N, one estimate iff L > N+1, and wass_estimate == 0.0 when L <= N+1 |
| `Schedule.ShortWindowKeepsGenerator` | src/cWGAN/model.py:148-153 | a window of at most N batches never touches the generator |
| `Schedule.GeneratorUpdateFollowsCriticPhase` | src/cWGAN/model.py:148-153 | the generator update sees the critic the critic phase left and the generator from before the window |
| `Schedule.LateBatchesIgnored` | src/cWGAN/model.py:148-165 | a window longer than N+2 batches behaves exactly like its first N+2 batches |
| `Schedule.WindowKeepsBox` | src/cWGAN/model.py:120-123 | the clipping box holds after a window if it held before or if any critic update ran |
| `Schedule.TwoCriticItersFourBatches` | src/cWGAN/model.py:144-165 | N = 2, four batches: two losses, events critic, critic, generator, estimate, and an estimate computed on batch 3 |
| `Schedule.TwoCriticItersTwoBatches` | src/cWGAN/model.py:144-165 | N = 2, two batches: two losses, no generator update, wass_estimate == 0.0 |
| `Model.CWGAN.constructor` | src/cWGAN/model.py:18-29 | hyperparameters stored, noise_dims defaults to 4, clip value 0.01, fresh optimizers |
| `Model.CWGAN.ClipCriticWeights` | src/cWGAN/model.py:95-101 | the in-place loop over layers and tensors leaves exactly the clipped critic and touches nothing else |
| `Model.CWGAN.TrainCritic` | src/cWGAN/model.py:105-125 | state and returned loss are those of a critic update; critic in the box, generator and its optimizer unchanged |
| `Model.CWGAN.TrainGenerator` | src/cWGAN/model.py:129-140 | state is that of a generator update; critic and its optimizer unchanged |
| `Model.CWGAN.TrainStep` | src/cWGAN/model.py:144-165 | new state, wass_estimate and critic_losses are those of the reference window semantics |
| `JetMatching.ScanAfterIsFirstNearest` | src/writeJetMomenta.cc:86-97 | the scan result is at most 10.0 and no larger than any candidate's delta R; if a candidate beats 10.0 it is the lowest-index candidate of minimal delta R, otherwise the sentinel (10.0, 0) |
| `JetMatching.FirstNearestUnique` | src/writeJetMomenta.cc:92-95 | the declarative meaning determines the scan result uniquely |
| `JetMatching.ScanIndexFound` | src/writeJetMomenta.cc:88-97 | once the sentinel is beaten, the index is a candidate whose delta R equals the minimum |
| `JetMatching.NearestJet` | src/writeJetMomenta.cc:86-111 | the pf-jet loop (and the identical gen-jet loop) computes the scan: minimum at most 10.0 and at most every candidate's delta R; sentinel when nothing beats 10.0; otherwise a candidate index of that delta R, the first such |
| `JetMatching.ScanBelowMatchIff` | src/writeJetMomenta.cc:88-113 | the found minimum is below 0.35 iff some candidate with pt > 30 lies within 0.35 |
| `JetMatching.RowFor` | src/writeJetMomenta.cc:113-126 | at most one row per parton jet; a written row holds the parton jet and an event pf jet above 30 in pt within 0.35 of it |
| `JetMatching.RowForMeaning` | src/writeJetMomenta.cc:85-126 | a parton jet yields one row iff pt > 20 and both a pf and a gen candidate lie within 0.35; the row is the parton jet and the first nearest pf candidate |
| `JetMatching.RowForSound` | src/writeJetMomenta.cc:113-126 | a written row holds its parton jet and a pf jet of the event above 30 in pt within 0.35 of it |
| `JetMatching.EventRowsSound` | src/writeJetMomenta.cc:84-126 | every row of an event is a genuine match of one of its parton jets; the rows' parton jets are exactly the matchable parton jets, each once and in event order, so there are as many rows as matchable parton jets |
| `JetMatching.EventRowsComplete` | src/writeJetMomenta.cc:84-126 | every matchable parton jet of an event gets a row |
| `JetMatching.GenJetsOnlyGate` | src/writeJetMomenta.cc:100-126 | gen jets affect the rows only through whether a gen candidate lies within 0.35; genJetIndex never reaches a row |
| `JetMatching.MatchEvent` | src/writeJetMomenta.cc:84-126 | the loop over parton jets appends exactly the rows of the reference definition, in parton-jet order |
| `JetMatching.WriteJetMomenta` | src/writeJetMomenta.cc:65-137 | the event loop appends each event's rows in event order |
| `JetMatching.AllRowsSound` | src/writeJetMomenta.cc:65-137 | every row written for a run of events is a genuine match of a parton jet of one of those events, within that event |
| `JetMatching.AllRowsComplete` | src/writeJetMomenta.cc:65-137 | every matchable parton jet of every event of the run gets a row |

## Left out

- Layer topologies of `build_generator`/`build_critic` and the `cWGAN_mnist` subclass: they declare architecture, not logic. The overwritten `both1` layer is one of these topology details.
- RMSprop internals, `tf.GradientTape` differentiation and the networks' arithmetic are foreign library calls. They are the uninterpreted fields of `Networks.Backend`.
- `tf.random.uniform` noise is randomness. It is an input of the methods, with the shape and range the draw produces (`Networks.NoiseFor`).
- The `training=` flag of a forward pass changes nothing numerically for these dense layers. It is modelled only as "which network's weights the gradient is taken with respect to".
- Empty batches: the critic's output is modelled as non-empty (`Networks.Scores`). The model does not capture `reduce_mean` of an empty tensor being NaN.
- Floating point everywhere: the model works over exact reals. It does not model float rounding, NaN or the `float` narrowing of `minDRPfJet`/`minDRGenJet`.
- `print_network`, `main` and the commented-out prints only produce console output.
- The unused `weight_clipping` constraint stub has no behaviour.
- All of `src/train.py` (run directories, file loading, whitening, keras compile/fit, checkpoints, CSV output) is glue outside the core. Its call to `model.make_model()` names a function that does not exist in `src/cWGAN/model.py`.
- In `src/writeJetMomenta.cc`, these are foreign library calls or I/O:
  - the ROOT file and tree reading and branch binding;
  - the fastjet anti-kt clustering, whose output is taken as each event's given sequence of parton jets;
  - `deltaR`, an uninterpreted function parameter;
  - the stdout and file output and the two header lines. The written rows are an output sequence of `JetMatching.Row`.
- `JetMatching.NearestJet`: one method models both search loops. The source has two textually identical copies, over the pf-jet and the gen-jet branches.
- `Model.CWGAN.constructor`: `num_critic_iters` is a `nat`. Python also accepts a negative value. With such a value `train_step` makes no update at all. At -1 it still computes the estimate on batch 0, because `count == num_critic_iters + 1` holds at count 0; below -1 it does nothing. The model does not capture this degenerate configuration.

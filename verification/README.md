# Cached online pre-training: a Dafny model of the training core

This project models the deterministic core of a memory-augmented transformer
pre-training repository. The modelled code is the LSW transformer's
key/value cache handling, the Minato optimizer, and the trainer's
bookkeeping. The project states and proves properties of that core.

- `py.dfy` (module `Py`): the Python semantics the core relies on.
  - `Option` and `Result`, with raised exceptions modelled as errors.
  - Negative-start slicing.
  - Floor division `//` and ceiling division.
  - `range`.
  - Substring `in`.
- `kv_cache.dfy` (module `KVCache`): `trim_cache` and `cache_to`.
  - A tensor is the sequence of its slices along the sequence axis.
  - A layer's cache is a list of tensors, and a model's cache is one list per layer.
- `param_groups.dfy` (module `ParamGroups`): `get_param_groups`, the split into a decay group and a non-decay group.
- `modeling.dfy` (module `Modeling`):
  - The input check and the hidden-state and cache list assembly of `LSWTModel.forward`.
  - The output selection of `LSWTForCausalLM.forward`.
  - `prepare_inputs_for_generation`.
  - Embeddings, norms, blocks and the head are uninterpreted functions.
- `minato.dfy` (module `Minato`): the Minato optimizer, over `real` numbers.
  - Construction, including hyperparameter validation.
  - The eager element rule.
  - Lazy per-parameter state.
  - Skipping parameters without a gradient, and raising on sparse ones.
  - The whole `step()` over all groups, checked against a per-parameter reference semantics.
- `schedule.dfy` (module `Schedule`):
  - The warmup and cosine-cooldown learning-rate schedule, with `cos` abstract.
  - The epoch count.
- `trainer.dfy` (module `Trainer`):
  - Name dispatch for the optimizer, the loss function and the dataset, in both trainer classes.
  - Accumulation groups and their cache slots.
  - `torch.split` chunking.
  - The per-batch slot handling: each group reads its slot, clears it, and stores the returned cache.
  - DDP gradient-sync timing.
  - The optimizer-step counter and learning rate.
  - Round-robin DDP shard assignment.
  - `forward_pass` on top of the causal LM model.

The forward and backward sub-step of `train_batch_step` is a parameter: a
function from a group's gradient-sync setting, tokens and cache to its loss,
accuracy and new cache. The sync setting is absent for the base trainer and
is `idx == batch_groups - 1` in DDP, so only the last group synchronises.

A trim of 0: the docstring of `trim_cache` says zero means no trim, and
the code agrees. It slices with `-trim:`, and `-0:` is `0:`, so a trim of 0
keeps every position. The model follows the code (`KVCache.TrimTensor`,
`KVCache.CacheToZeroIsIdentity`). A negative trim is modelled with Python's
slice rules: it drops the oldest `-trim` positions.

## Model

| member | source | states |
|---|---|---|
| Py.Suffix | src/model/modeling.py:95 | `s[start:]` is a suffix of `s`; a negative start keeps the last `min(-start, len)` elements, a non-negative one keeps `max(len - start, 0)` |
| Py.FloorDiv | src/training/trainer.py:68 | `a // b` raises ZeroDivisionError exactly when `b == 0`; otherwise the quotient rounds toward negative infinity (bracketing inequalities for both signs of `b`) |
| Py.CeilDiv | src/training/trainer.py:227 | `ceil(a / b)`: the unique `q` with `(q-1)*b < a <= q*b` for positive `b` (mirrored for negative `b`) |
| Py.Range | src/training/trainer.py:424 | `range` raises ValueError exactly on a zero step |
| Py.RangeMembership | src/training/trainer.py:424 | for a positive step, `x in range(start, stop, step)` iff `start <= x < stop` and `x` is congruent to `start` modulo the step |
| Py.RangeAscending | src/training/trainer.py:424 | an ascending `range` lies in `[start, stop)` and is strictly increasing |
| Py.ContainsIffOccurs | src/model/modeling.py:66 | substring `pat in name` holds iff `pat` occurs at some offset of `name` |
| Py.Contains | src/model/modeling.py:66 | substring `pat in s`: true only when `pat` is no longer than `s`; always true for the empty pattern and for `s` itself |
| KVCache.TrimTensor | src/model/modeling.py:95 | a positive trim keeps exactly the newest `min(trim, L)` positions, equal to the original tail; trim 0 keeps everything; a negative trim drops the oldest `-trim` |
| KVCache.TrimCache | src/model/modeling.py:94-96 | `None` returns the layer unchanged; otherwise the tensor count is kept and every tensor is that tensor trimmed (for any sign of the trim); a positive trim keeps each tensor's newest `min(trim, len)` positions |
| KVCache.CacheTo | src/model/modeling.py:120-129 | `None` stays `None`; otherwise layer count, per-layer tensor count and order are kept and every tensor is trimmed |
| KVCache.CacheToZeroIsIdentity | src/model/modeling.py:98-129 | the default trim of 0 returns the cache unchanged, so device round trips lose no positions |
| KVCache.CacheToBounds | src/model/modeling.py:120-129 | a positive trim bounds every cached tensor by the trim size |
| KVCache.TrimTensorTwice | src/model/modeling.py:95 | trimming by `a` then `b` (both positive) equals trimming by `min(a, b)` |
| KVCache.TrimCacheIdempotent | src/model/modeling.py:94-96 | re-trimming a layer by the same non-negative trim changes nothing |
| ParamGroups.GetParamGroups | src/model/modeling.py:59-75 | two groups: the trainable parameters without a non-decay name fragment, then those with one, each in input order; only the second overrides weight decay, with 0.0 |
| ParamGroups.GroupMembership | src/model/modeling.py:62-70 | both directions: a parameter is in the non-decay group iff it requires grad and its name contains `norm`, `bias` or `embedding.weight`; in the decay group iff it requires grad and contains none; frozen ones are in neither |
| ParamGroups.IsNonDecayName | src/model/modeling.py:62-66 | a name is exempt from decay iff one of `norm`, `bias`, `embedding.weight` occurs in it at some offset |
| ParamGroups.GroupsPartitionTrainable | src/model/modeling.py:64-70 | the two groups together hold each trainable parameter exactly as often as the input does (multiset equality) |
| ParamGroups.GroupsKeepOrder | src/model/modeling.py:64-70 | each group is a subsequence of the named parameters, so relative order is kept |
| ParamGroups.FilterMembership | src/model/modeling.py:64-70 | an entry is in a group iff it is in the input and meets the group's condition |
| ParamGroups.FilterIsSubsequence | src/model/modeling.py:64-70 | appending only selected entries in a forward walk yields a subsequence of the walk |
| Modeling.SelectInput | src/model/modeling.py:215-225 | both inputs or neither raise ValueError (distinct errors); otherwise the given input is used |
| Modeling.RunBlocks | src/model/modeling.py:228-238 | after `n` layers: `n+1` hidden states starting at the normalised embeddings, each the block of the previous one with that layer's past and the shared rotary encoding, and `n` caches, each the block's cache trimmed by `max_key_values` |
| Modeling.PastAt | src/model/modeling.py:234 | block `i` gets layer `i` of the past when a past is given, and no past otherwise |
| Modeling.ModelForward | src/model/modeling.py:212-248 | errors exactly for bad inputs or a past shorter than `n_layers`; otherwise `n_layers` trimmed caches, `n_layers+1` hidden states forming the block chain under the rotary encoding computed once from the normalised embeddings and the whole past, the output-normalised last state, and every cached tensor bounded by a positive `max_key_values` |
| Modeling.CausalForward | src/model/modeling.py:321-340 | assertion failures for `return_dict` false or `output_attentions` true; logits from the last state; cache present iff `use_cache`; hidden states present iff `output_hidden_states`, equal to the base list plus the final state |
| Modeling.PrepareInputsForGeneration | src/model/modeling.py:353-365 | IndexError on an empty past; with a past the cache is re-trimmed (absent `max_key_values` means 0) and the ids cut to their last column; embeddings are used iff given and no past |
| Minato.ValidateHyper | src/training/minato.py:12-17 | valid iff `lr >= 0`, `0 <= beta < 1`, `weight_decay >= 0`; the first failing check in that order decides the error |
| Minato.NewMinato | src/training/minato.py:9-21 | construction succeeds iff the constructor's hyperparameters are valid and the parameter list is not empty; a hyperparameter error comes first, then torch's ValueError for an empty list; state starts empty; each group keeps the `lr`, `beta`, `weight_decay` and `maximize` it sets itself, unchecked, and takes the defaults for the rest |
| Minato.ParamGroupsBuildMinato | src/model/modeling.py:59-75 | the two groups `get_param_groups` returns are never an empty list: Minato built on them succeeds iff its hyperparameters are valid, and then the first group uses the default weight decay and the second 0.0 |
| Minato.Ratio | src/training/minato.py:151 | the clamp ratio lies in `[0, 1]`, is 0 iff the momentum is 0, and is 1 once the momentum reaches 1e-15 in magnitude |
| Minato.SignStepFacts | src/training/minato.py:147-152 | the `addcmul` step `-lr * sign(m) * ratio(m)` moves by at most `lr`, is zero for zero momentum, and is exactly `-lr * sign(m)` once the momentum reaches 1e-15 in magnitude |
| Minato.SignStep | src/training/minato.py:145-146 | the `addcmul` step is zero at zero momentum and goes against the momentum: in `[-lr, 0]` for a positive one, in `[0, lr]` for a negative one |
| Minato.UpdateElement | src/training/minato.py:119-152 | momentum is the EMA of the (possibly negated) gradient; the parameter moves at most `lr` from its decayed value; a zero momentum gives pure decay; a momentum of at least 1e-15 gives an exact `lr` sign step |
| Minato.ZeroBetaFollowsGradient | src/training/minato.py:138 | with `beta = 0` the momentum is the gradient, and a large enough gradient steps by `lr` against its sign |
| Minato.ZeroGradientIsPureDecay | src/training/minato.py:135-152 | zero gradient on zero momentum only multiplies the parameter by `1 - lr*wd` |
| Minato.SingleStepExample | src/training/minato.py:135-152 | `g = 1`, `beta = 0.9`, `lr = 0.1`, no decay, from zero momentum: momentum 0.1, parameter minus 0.1 |
| Minato.UpdateTensor | src/training/minato.py:118-152 | the element rule applied position-wise to equal-shaped tensors |
| Minato.ParamAfterStep | src/training/minato.py:49-65 | reference per parameter: no gradient leaves value and state untouched; a dense gradient adds one to the counter (starting from 0 without state) and moves every element and its momentum by the element rule, from a zero momentum when the state is new |
| Minato.InitGroup | src/training/minato.py:49-65 | the collection pass raises exactly when the group has a sparse gradient; it adds zero state only for dense parameters and never changes existing entries |
| Minato.UpdateGroup | src/training/minato.py:118-152 | the update pass agrees with the reference on every collected parameter and leaves other groups' state untouched |
| Minato.StepGroup | src/training/minato.py:42-75 | one group: raises iff a sparse gradient is present; otherwise every parameter and its state follow the reference; other groups' state is untouched |
| Minato.StepGroupMatchesReference | src/training/minato.py:57-65 | lazily created state is what the reference assumes for a missing entry |
| Minato.StepGroups | src/training/minato.py:42-77 | groups from `gi` on: shapes kept; error iff some remaining group has a sparse gradient; earlier groups untouched; without error every remaining parameter follows the reference |
| Minato.Step | src/training/minato.py:36-77 | whole `step()`: keeps the optimizer well formed; raises RuntimeError iff some gradient is sparse; otherwise every parameter and its state equal the reference |
| Minato.StepCountsDenseParams | src/training/minato.py:50-62 | after a successful step, every dense-gradient parameter's counter is one more than before (from 0 when new), and gradient-less parameters keep value and state |
| Minato.RunParamCountsSteps | src/training/minato.py:59-62 | `n` steps with a gradient, starting without state, leave the counter at `n` |
| Minato.ConstantGradientMomentum | src/training/minato.py:138 | from zero, `n` steps of gradient `g` leave momentum `(1 - beta^n) * g` |
| Minato.ConstantGradientSign | src/training/minato.py:138 | that momentum has the gradient's sign after any positive number of steps |
| Minato.ConstantGradientSignStep | src/training/minato.py:135-152 | under a constant gradient whose average has reached 1e-15, the step moves the decayed parameter by exactly `lr` against the gradient's sign |
| Schedule.WarmupRatio | src/training/trainer.py:208 | the warmup ratio is at most 1, and non-negative for a positive warmup |
| Schedule.CooldownProgress | src/training/trainer.py:210-213 | the cooldown progress is at most 1, and non-negative when the cooldown ends after warmup |
| Schedule.CooldownRatio | src/training/trainer.py:214-215 | the half-cosine factor is 1 at progress 0, the floor `lr_cooldown_ratio` at progress 1, and between the floor and 1 for a floor in `[0, 1]` |
| Schedule.GetSchedule | src/training/trainer.py:199-217 | raises ZeroDivisionError exactly for zero warmup steps or a zero-token cooldown span; otherwise at most 1 and at most `step / warmup` |
| Schedule.ScheduleNonNegative | src/training/trainer.py:213-217 | with a floor ratio in `[0, 1]`, the cooldown factor lies between the floor and 1 and the schedule is non-negative |
| Schedule.WarmupIsLinear | src/training/trainer.py:208-217 | during warmup (cooldown ending after warmup) the schedule is exactly `step / warmup` |
| Schedule.CooldownEndsAtFloor | src/training/trainer.py:208-217 | once the tokens seen reach the cooldown total, the schedule equals the floor ratio |
| Schedule.WarmupMonotone | src/training/trainer.py:208 | the schedule never decreases during warmup |
| Schedule.GetTotalEpochs | src/training/trainer.py:219-227 | raises ZeroDivisionError iff an epoch has no tokens; for positive epoch size the count covers the cooldown tokens and one fewer does not |
| Schedule.TotalEpochsIsLeast | src/training/trainer.py:226-227 | any epoch count covering the cooldown tokens is at least the computed one |
| Trainer.LoadOptimizer | src/training/trainer.py:104-134 | accepts exactly Minato, AdamW and LaProp, choosing the named class unwrapped; anything else raises ValueError |
| Trainer.LoadOptimizerDDP | src/training/trainer.py:389-411 | accepts exactly LaProp and Minato, wrapped in the zero-redundancy optimizer; anything else raises ValueError |
| Trainer.DdpOptimizerNamesAreSubset | src/training/trainer.py:389-411 | DDP-accepted names are accepted by the base trainer with the same class; AdamW is the only name the DDP trainer refuses that the base accepts |
| Trainer.LoadLossFunction | src/training/trainer.py:136-150 | accepts exactly MLE and SimCTG; anything else raises ValueError |
| Trainer.LoadDataset | src/training/trainer.py:152-179 | a dataset configuration gets `batch_groups` workers; `pile` reads exactly the shards `0..PILE_SHARDS-1`; `openorca` is accepted; anything else raises ValueError |
| Trainer.LoadDatasetDDP | src/training/trainer.py:417-427 | only `pile` is accepted, with batch `batch_size // world` and shards `range(rank, shards, world)` |
| Trainer.ShardOwner | src/training/trainer.py:424 | shard `x` is in rank `r`'s list iff `0 <= x < shards` and `x % world == r` |
| Trainer.ShardsDisjoint | src/training/trainer.py:424 | two distinct ranks never share a shard |
| Trainer.ShardsCover | src/training/trainer.py:424 | the union of all ranks' lists is exactly `[0, shards)` |
| Trainer.EmptySlots | src/training/trainer.py:100-102 | `max(groups, 0)` slots, all empty |
| Trainer.LoadCache | src/training/trainer.py:100-102 | raises on a zero step size; otherwise one empty slot per `batch_size // batch_size_step` |
| Trainer.LoadCacheDDP | src/training/trainer.py:413-415 | raises when `step * world == 0`; otherwise one empty slot per `batch_size // (step * world)` |
| Trainer.NewTrainer | src/training/trainer.py:61-81 | succeeds iff optimizer, step size, dataset and loss are all valid, with the optimizer error first; slots match the groups and are empty; counter 0 |
| Trainer.NewTrainerDDP | src/training/trainer.py:344-382 | succeeds iff the DDP optimizer, step size, world size, dataset and loss are valid; the slot count equals the recomputed per-rank `batch_groups` |
| Trainer.Split | src/training/trainer.py:300-301 | `torch.split` gives at least one chunk; all chunks but the last hold exactly the split size |
| Trainer.SplitFlattens | src/training/trainer.py:300-301 | concatenating the chunks gives back the batch |
| Trainer.SplitCount | src/training/trainer.py:300-301 | the chunk count is `max(ceil(len / size), 1)` |
| Trainer.EnoughChunks | src/training/trainer.py:455-464 | a full per-rank batch has at least `batch_size // (step * world)` chunks, so indexing a chunk per group never fails |
| Trainer.FullBatchHasEveryChunk | src/training/trainer.py:300-307 | for full per-rank inputs and targets, every group has its chunk in both |
| Trainer.SyncOnlyOnLast | src/training/trainer.py:458-459 | in DDP, the set of groups run with gradient sync on is exactly `{G-1}` once all `G` groups ran, and empty while the loop stopped earlier; without DDP no group runs with sync on |
| Trainer.SyncAt | src/training/trainer.py:458-459 | group `idx` runs with no sync setting iff the trainer is not DDP, and with sync on iff it is DDP and `idx` is the last group |
| Trainer.TrainOptimStep | src/training/trainer.py:281-285 | the counter grows by exactly one; the learning rate becomes `schedule * lr_max`, or stays with ZeroDivisionError when the schedule raises |
| Trainer.LearningRateAtMostMax | src/training/trainer.py:285 | the rate an optimizer step sets never exceeds `lr_max` |
| Trainer.RunGroups | src/training/trainer.py:303-313 | the loop runs the groups in order until one lacks a chunk; finished slots hold their group's returned cache; the failing slot is cleared; later slots are kept; one loss and one accuracy per finished group; each group's sub-step runs under its sync setting (none for the base trainer, `idx == batch_groups - 1` in DDP) |
| Trainer.TrainBatchStep | src/training/trainer.py:295-315 | a batch step: non-positive split size raises and changes nothing; otherwise slots and metrics as for the loop, each sub-step under its sync setting; exactly one optimizer step iff every group ran, none after an IndexError; after all groups the rate is the schedule's, or on its ZeroDivisionError that error with the rate unchanged |
| Trainer.TrainChunks | src/training/trainer.py:303-315 | on split inputs: the loop's slots and metrics, each sub-step under its sync setting; an IndexError on a missing chunk leaves counter and rate alone; otherwise exactly one optimizer step, setting the schedule's rate, or raising ZeroDivisionError with the rate unchanged |
| Trainer.ForwardPass | src/training/trainer.py:234-251 | errors exactly when the past is shorter than the model; the cache is returned iff `cache_length > 0`, and is then bounded by `cache_length`; logits and last state come from the backbone's final state |

## Left out

- Device movement, `.detach()` and `non_blocking` in `cache_to`: memory and autodiff concerns; only slicing and structure are modelled.
- Embeddings, projections, norms, the rotary position encoding, the blocks and the head are uninterpreted functions. The random weight initialisation is not modelled.
- Floating point: the optimizer and the schedule work on exact `real`s. `np.ceil` of a float quotient is exact ceiling division. `np.cos` is abstract, with only `cos(0) = 1`, `cos(pi) = -1` and the range `[-1, 1]` known.
- Parts of the Minato optimizer are not modelled:
  - The capturable branch, which asserts on CUDA tensors and needs a tensor `lr`.
  - Complex-view handling.
  - `__setstate__`.
  - The optional `closure` of `step`, which calls external code.
  - The `state_steps` type check of `minato`, which always passes for state created by `step`.
  - `torch.compile`.
- Minato.StepGroups: on a sparse gradient the contract only says that groups before `gi` are untouched. The exact partial state it computes is not restated: earlier remaining groups are updated, and zero state is created for the dense parameters before the sparse one in its group (see `Minato.InitGroup`).
- Minato.Step: on a sparse gradient the contract states the error but not the partial update described above.
- Parameters are identified by (group index, position) rather than by tensor identity. A tensor listed in two groups is not modelled.
- Minato.NewMinato: the base optimizer's ValueError for a parameter that appears in more than one group is not modelled, because parameters have no identity here; the empty-list ValueError is.
- Several trainer parts are library numerics or autodiff, and only their sequencing is modelled:
  - `autocast`.
  - `GradScaler` scaling, unscaling, stepping and updating.
  - Gradient clipping.
  - Dividing the loss by `batch_groups`.
  - The backward pass.
  - `zero_grad`.
- `sync_and_compute`, `dist.barrier` and the zero-redundancy optimizer's sharding are collective communication and are not modelled. So are `reset_metrics` and `train_epoch`. Metrics are modelled as the lists of recorded losses and accuracies.
- Dataset classes, tokenizer, the accuracy metric object, environment-variable reads (`PILE_SHARDS` is a parameter), progress-bar formatting, printing, `gc.collect` and `empty_cache` are I/O or plumbing.
- The trainer's `Minato(...)` and `AdamW`/`LaProp` calls are modelled only as the name dispatch. The trainer passes `betas`, `eps` and `rho` to an optimizer module (`optimizer.minato`) that is not part of this model. That call does not match the Minato constructor modelled here.
- Trainer.TrainOptimStep: the learning rate is one value. `get_schedule` runs once per parameter group with the same result, and the optimizer always has the two groups of `get_param_groups`.
- Trainer.TrainBatchStep: any split size `<= 0` is modelled as the RuntimeError of `torch.split`. Torch's special case of size 0 on an empty batch is not modelled. `model.train()` and the host/device copies of the batch are left out.
- Modeling.ModelForward: a past with fewer layers than `n_layers` raises IndexError. The blocks that ran before the failing index are not observable and are not modelled. `rope_embedding` is an uninterpreted function of the normalised embeddings and the whole past; its one result is given to every block.
- Minato.ConstantGradientMomentum: it is stated over the `Momentum` recurrence. The model does not prove that the buffer `Minato.RunParam` keeps follows that recurrence over several steps; the element rule `Minato.UpdateElement` states one step of it.
- Modeling.PrepareInputsForGeneration: the attention mask and the other keyword arguments passed through unchanged are not modelled.

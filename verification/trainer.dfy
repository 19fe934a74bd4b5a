/** The bookkeeping of `Trainer` and `TrainerDDP`: construction by name,
    gradient-accumulation groups and their cache slots, the per-batch slot
    protocol, the optimizer-step counter and learning rate, and the DDP
    shard assignment. The forward/backward sub-step is a parameter. */
module Trainer {
  import opened Py
  import opened KVCache
  import opened Schedule
  import opened Modeling

  /** The fields of the training configuration the core reads. The batch
      size, sequence length and schedule fields live in `sched`. */
  datatype TrainConfig = TrainConfig(
    optimizer: string,
    lossObjective: string,
    batchSizeStep: int,
    lengthCache: int,
    lrMax: real,
    sched: ScheduleConfig)

  /** The `dataset` argument: a Hugging Face dataset configuration or a name. */
  datatype DatasetArg = HFConfig | Named(name: string)

  datatype OptimizerKind = MinatoOpt | AdamWOpt | LaPropOpt

  /** Which optimizer class was chosen and whether it is wrapped in
      `ZeroRedundancyOptimizer`. */
  datatype OptimizerChoice = OptimizerChoice(kind: OptimizerKind, zeroRedundancy: bool)

  datatype LossKind = MLE | SimCTG

  /** The data loader chosen, with the arguments the core computes for it. */
  datatype DataSource =
    | HFBatch(numProc: int)
    | Pile(batchSize: int, shards: seq<int>)
    | OpenOrca(batchSize: int)

  datatype DdpInfo = DdpInfo(rank: int, worldSize: int, datasetShards: int)

  datatype TrainerState<T> = TrainerState(
    cfg: TrainConfig,
    ddp: Option<DdpInfo>,
    optimizer: OptimizerChoice,
    batchGroups: int,
    slots: seq<Option<Cache<T>>>,
    dataset: DataSource,
    loss: LossKind,
    lossValues: seq<real>,
    accValues: seq<real>,
    optimizerStep: nat,
    lr: real)

  /** `Trainer._load_optimizer`. */
  function LoadOptimizer(name: string): (r: Result<OptimizerChoice>)
    ensures r.Ok? <==> name == "Minato" || name == "AdamW" || name == "LaProp"
    ensures r.Err? ==> r.error == InvalidOptimizer
    ensures r.Ok? ==> !r.value.zeroRedundancy
    ensures r.Ok? ==> (r.value.kind == MinatoOpt <==> name == "Minato")
    ensures r.Ok? ==> (r.value.kind == AdamWOpt <==> name == "AdamW")
  {
    if name == "Minato" then Ok(OptimizerChoice(MinatoOpt, false))
    else if name == "AdamW" then Ok(OptimizerChoice(AdamWOpt, false))
    else if name == "LaProp" then Ok(OptimizerChoice(LaPropOpt, false))
    else Err(InvalidOptimizer)
  }

  /** `TrainerDDP._load_optimizer`: only LaProp and Minato, each sharded by
      `ZeroRedundancyOptimizer`. */
  function LoadOptimizerDDP(name: string): (r: Result<OptimizerChoice>)
    ensures r.Ok? <==> name == "LaProp" || name == "Minato"
    ensures r.Err? ==> r.error == InvalidOptimizer
    ensures r.Ok? ==> r.value.zeroRedundancy && (r.value.kind == MinatoOpt <==> name == "Minato")
  {
    if name == "LaProp" then Ok(OptimizerChoice(LaPropOpt, true))
    else if name == "Minato" then Ok(OptimizerChoice(MinatoOpt, true))
    else Err(InvalidOptimizer)
  }

  /** Every name the DDP trainer accepts is accepted by the base trainer and
      selects the same optimizer class; AdamW is the one the DDP trainer
      refuses. */
  lemma DdpOptimizerNamesAreSubset(name: string)
    ensures LoadOptimizerDDP(name).Ok? ==>
      LoadOptimizer(name).Ok? && LoadOptimizer(name).value.kind == LoadOptimizerDDP(name).value.kind
    ensures LoadOptimizer(name).Ok? && LoadOptimizerDDP(name).Err? <==> name == "AdamW"
  {
  }

  /** `Trainer._load_loss_function`. */
  function LoadLossFunction(name: string): (r: Result<LossKind>)
    ensures r.Ok? <==> name == "MLE" || name == "SimCTG"
    ensures r.Err? ==> r.error == InvalidLossFunction
    ensures r.Ok? ==> (r.value == SimCTG <==> name == "SimCTG")
  {
    if name == "MLE" then Ok(MLE)
    else if name == "SimCTG" then Ok(SimCTG)
    else Err(InvalidLossFunction)
  }

  /** `Trainer._load_dataset`: a dataset configuration gets one worker per
      accumulation group; the Pile reads every shard `0..PILE_SHARDS-1`. */
  function LoadDataset(arg: DatasetArg, batchSize: int, batchGroups: int, pileShards: int): (r: Result<DataSource>)
    ensures r.Ok? <==> arg.HFConfig? || arg.name == "pile" || arg.name == "openorca"
    ensures r.Err? ==> r.error == InvalidDataset
    ensures arg.HFConfig? ==> r == Ok(HFBatch(batchGroups))
    ensures arg.Named? && arg.name == "pile" ==>
      r.Ok? && r.value.Pile? && r.value.batchSize == batchSize &&
      forall x :: x in r.value.shards <==> 0 <= x < pileShards
    ensures arg.Named? && arg.name == "openorca" ==> r == Ok(OpenOrca(batchSize))
  {
    if arg.HFConfig? then Ok(HFBatch(batchGroups))
    else if arg.name == "pile" then
      AllShardsRange(pileShards);
      Ok(Pile(batchSize, RangeSeq(0, pileShards, 1)))
    else if arg.name == "openorca" then Ok(OpenOrca(batchSize))
    else Err(InvalidDataset)
  }

  lemma AllShardsRange(n: int)
    ensures forall x :: x in RangeSeq(0, n, 1) <==> 0 <= x < n
  {
    forall x
      ensures x in RangeSeq(0, n, 1) <==> 0 <= x < n
    {
      RangeMembership(0, n, 1, x);
    }
  }

  /** `TrainerDDP._load_dataset`: only the Pile, with this rank's share of
      the batch and the round-robin shard list `range(rank, shards, world)`. */
  function LoadDatasetDDP(arg: DatasetArg, batchSize: int, ddp: DdpInfo): (r: Result<DataSource>)
    ensures r.Ok? <==> arg == Named("pile") && ddp.worldSize != 0
    ensures arg != Named("pile") ==> r == Err(InvalidDataset)
    ensures arg == Named("pile") && ddp.worldSize == 0 ==> r == Err(ZeroDivision)
    ensures r.Ok? ==> r.value == Pile(FloorDiv(batchSize, ddp.worldSize).value,
                                      Range(ddp.rank, ddp.datasetShards, ddp.worldSize).value)
  {
    if arg != Named("pile") then Err(InvalidDataset)
    else
      var share :- FloorDiv(batchSize, ddp.worldSize);
      var shards := Range(ddp.rank, ddp.datasetShards, ddp.worldSize).value;
      Ok(Pile(share, shards))
  }

  /** The shard list of one rank. */
  function ShardsOf(rank: int, shards: int, world: int): seq<int>
    requires world > 0
  {
    RangeSeq(rank, shards, world)
  }

  /** Shard `x` goes to rank `x % world`. */
  lemma ShardOwner(rank: int, shards: int, world: int, x: int)
    requires world > 0 && 0 <= rank < world
    ensures x in ShardsOf(rank, shards, world) <==> 0 <= x < shards && x % world == rank
  {
    RangeMembership(rank, shards, world, x);
    if rank <= x {
      var q := (x - rank) / world;
      if (x - rank) % world == 0 {
        DivModUnique(x, world, q, rank);
      }
      if x % world == rank {
        DivModUnique(x - rank, world, x / world, 0);
      }
    } else if x % world == rank {
      assert x == (x / world) * world + rank;
      assert x / world < 0;
      assert x < 0;
    }
  }

  /** Distinct ranks read disjoint shard lists. */
  lemma ShardsDisjoint(r1: int, r2: int, shards: int, world: int, x: int)
    requires world > 0 && 0 <= r1 < world && 0 <= r2 < world && r1 != r2
    ensures !(x in ShardsOf(r1, shards, world) && x in ShardsOf(r2, shards, world))
  {
    ShardOwner(r1, shards, world, x);
    ShardOwner(r2, shards, world, x);
  }

  /** Together the ranks `0..world-1` read every shard `0..shards-1`, and
      nothing else. */
  lemma ShardsCover(shards: int, world: int, x: int)
    requires world > 0
    ensures 0 <= x < shards <==> exists r :: 0 <= r < world && x in ShardsOf(r, shards, world)
  {
    if 0 <= x < shards {
      ShardOwner(x % world, shards, world, x);
    }
    if exists r :: 0 <= r < world && x in ShardsOf(r, shards, world) {
      var r :| 0 <= r < world && x in ShardsOf(r, shards, world);
      ShardOwner(r, shards, world, x);
    }
  }

  /** `[None for _ in range(batch_groups)]`: as many empty slots as groups, or
      none when the count is not positive. */
  function EmptySlots<T>(groups: int): (r: seq<Option<Cache<T>>>)
    ensures |r| == Max(groups, 0)
    ensures forall i :: 0 <= i < |r| ==> r[i].None?
  {
    seq(Max(groups, 0), _ => None)
  }

  /** `Trainer._load_cache`: `batch_size // batch_size_step` slots. */
  function LoadCache<T>(cfg: TrainConfig): (r: Result<seq<Option<Cache<T>>>>)
    ensures r.Ok? <==> cfg.batchSizeStep != 0
    ensures r.Err? ==> r.error == ZeroDivision
    ensures r.Ok? ==> r.value == EmptySlots(FloorDiv(cfg.sched.batchSize, cfg.batchSizeStep).value)
  {
    var groups :- FloorDiv(cfg.sched.batchSize, cfg.batchSizeStep);
    Ok(EmptySlots(groups))
  }

  /** `TrainerDDP._load_cache`: `batch_size // (batch_size_step * world)` slots. */
  function LoadCacheDDP<T>(cfg: TrainConfig, ddp: DdpInfo): (r: Result<seq<Option<Cache<T>>>>)
    ensures r.Ok? <==> cfg.batchSizeStep * ddp.worldSize != 0
    ensures r.Err? ==> r.error == ZeroDivision
    ensures r.Ok? ==>
      r.value == EmptySlots(FloorDiv(cfg.sched.batchSize, cfg.batchSizeStep * ddp.worldSize).value)
  {
    var groups :- FloorDiv(cfg.sched.batchSize, cfg.batchSizeStep * ddp.worldSize);
    Ok(EmptySlots(groups))
  }

  /** One empty slot per accumulation group. */
  ghost predicate SlotsMatchGroups<T>(t: TrainerState<T>) {
    |t.slots| == Max(t.batchGroups, 0)
  }

  /** `Trainer.__init__`: optimizer, `batch_groups`, cache slots, data
      loader, loss, in that order, so the first failing step decides the
      error. The counter starts at 0 and the learning rate at 0.0. */
  function NewTrainer<T>(cfg: TrainConfig, dataset: DatasetArg, pileShards: int): (r: Result<TrainerState<T>>)
    ensures r.Ok? <==>
      && LoadOptimizer(cfg.optimizer).Ok?
      && cfg.batchSizeStep != 0
      && LoadDataset(dataset, cfg.sched.batchSize, 0, 0).Ok?
      && LoadLossFunction(cfg.lossObjective).Ok?
    ensures LoadOptimizer(cfg.optimizer).Err? ==> r == Err(InvalidOptimizer)
    ensures LoadOptimizer(cfg.optimizer).Ok? && cfg.batchSizeStep == 0 ==> r == Err(ZeroDivision)
    ensures r.Ok? ==>
      && SlotsMatchGroups(r.value)
      && r.value.batchGroups == FloorDiv(cfg.sched.batchSize, cfg.batchSizeStep).value
      && (forall i :: 0 <= i < |r.value.slots| ==> r.value.slots[i].None?)
      && r.value.ddp.None?
      && r.value.optimizerStep == 0 && r.value.lr == 0.0
      && r.value.lossValues == [] && r.value.accValues == []
  {
    var opt :- LoadOptimizer(cfg.optimizer);
    var groups :- FloorDiv(cfg.sched.batchSize, cfg.batchSizeStep);
    var slots := LoadCache(cfg).value;
    var data :- LoadDataset(dataset, cfg.sched.batchSize, groups, pileShards);
    var loss :- LoadLossFunction(cfg.lossObjective);
    Ok(TrainerState(cfg, None, opt, groups, slots, data, loss, [], [], 0, 0.0))
  }

  /** `TrainerDDP.__init__`: the base constructor with the DDP overrides,
      then `batch_groups` recomputed per rank. The slot count equals that
      recomputed group count. */
  function NewTrainerDDP<T>(cfg: TrainConfig, dataset: DatasetArg, ddp: DdpInfo): (r: Result<TrainerState<T>>)
    ensures r.Ok? <==>
      && LoadOptimizerDDP(cfg.optimizer).Ok?
      && cfg.batchSizeStep != 0 && ddp.worldSize != 0
      && dataset == Named("pile")
      && LoadLossFunction(cfg.lossObjective).Ok?
    ensures LoadOptimizerDDP(cfg.optimizer).Err? ==> r == Err(InvalidOptimizer)
    ensures r.Ok? ==>
      && SlotsMatchGroups(r.value)
      && r.value.batchGroups == FloorDiv(cfg.sched.batchSize, cfg.batchSizeStep * ddp.worldSize).value
      && (forall i :: 0 <= i < |r.value.slots| ==> r.value.slots[i].None?)
      && r.value.ddp == Some(ddp)
      && r.value.dataset == Pile(FloorDiv(cfg.sched.batchSize, ddp.worldSize).value,
                                 RangeSeq(ddp.rank, ddp.datasetShards, ddp.worldSize))
      && r.value.optimizerStep == 0 && r.value.lr == 0.0
  {
    var opt :- LoadOptimizerDDP(cfg.optimizer);
    var baseGroups :- FloorDiv(cfg.sched.batchSize, cfg.batchSizeStep);
    var slots :- LoadCacheDDP(cfg, ddp);
    var data :- LoadDatasetDDP(dataset, cfg.sched.batchSize, ddp);
    var loss :- LoadLossFunction(cfg.lossObjective);
    var groups := FloorDiv(cfg.sched.batchSize, cfg.batchSizeStep * ddp.worldSize).value;
    Ok(TrainerState(cfg, Some(ddp), opt, groups, slots, data, loss, [], [], 0, 0.0))
  }

  /** `torch.split(x, n)` along the batch axis for `n > 0`: consecutive
      chunks of `n` rows, the last possibly shorter, and one (empty) chunk
      for an empty batch. */
  function Split<X>(rows: seq<X>, n: int): (r: seq<seq<X>>)
    requires n > 0
    decreases |rows|
    ensures |r| >= 1
    ensures forall i :: 0 <= i < |r| - 1 ==> |r[i]| == n
    ensures |r[|r| - 1]| <= n
  {
    if |rows| <= n then [rows] else [rows[..n]] + Split(rows[n..], n)
  }

  function Flatten<X>(chunks: seq<seq<X>>): seq<X> {
    if |chunks| == 0 then [] else chunks[0] + Flatten(chunks[1..])
  }

  /** Splitting loses and reorders nothing. */
  lemma {:induction false} SplitFlattens<X>(rows: seq<X>, n: int)
    requires n > 0
    ensures Flatten(Split(rows, n)) == rows
    decreases |rows|
  {
    if |rows| > n {
      SplitFlattens(rows[n..], n);
      assert Split(rows, n)[1..] == Split(rows[n..], n);
      assert rows[..n] + rows[n..] == rows;
    }
  }

  /** The number of chunks is `max(ceil(len / n), 1)`. */
  lemma {:induction false} SplitCount<X>(rows: seq<X>, n: int)
    requires n > 0
    ensures |Split(rows, n)| == Max(CeilDiv(|rows|, n), 1)
    decreases |rows|
  {
    if |rows| > n {
      SplitCount(rows[n..], n);
      var c := CeilDiv(|rows| - n, n);
      assert (c - 1) * n < |rows| - n <= c * n;
      assert c * n < |rows| <= (c + 1) * n;
      CeilUnique(|rows|, n, c + 1);
    } else if |rows| > 0 {
      CeilUnique(|rows|, n, 1);
    } else {
      CeilUnique(0, n, 0);
    }
  }

  lemma CeilUnique(a: int, n: int, q: int)
    requires n > 0 && (q - 1) * n < a <= q * n
    ensures CeilDiv(a, n) == q
  {
    var c := CeilDiv(a, n);
    if c < q {
      MulMonotone(c, q - 1, n);
    } else if c > q {
      MulMonotone(q, c - 1, n);
    }
  }

  /** With a batch of the configured per-rank size, there are at least as
      many chunks as accumulation groups, so `tokens_xs[idx]` never fails:
      `batch_size // (step * world) <= ceil((batch_size // world) / step)`. */
  lemma EnoughChunks<X>(rows: seq<X>, batchSize: int, step: int, world: int)
    requires step > 0 && world > 0
    requires |rows| == FloorDiv(batchSize, world).value
    ensures FloorDiv(batchSize, step * world).value <= |Split(rows, step)|
  {
    var g := FloorDiv(batchSize, step * world).value;
    SplitCount(rows, step);
    if g > 0 {
      GroupsFitShare(batchSize, step, world, g);
      CeilAtLeast(|rows|, step, g);
    }
  }

  /** `g * step * world <= batch` gives `g * step <= batch // world`. */
  lemma GroupsFitShare(batchSize: int, step: int, world: int, g: int)
    requires step > 0 && world > 0
    requires g == FloorDiv(batchSize, step * world).value
    ensures g * step <= FloorDiv(batchSize, world).value
  {
    assert g * (step * world) <= batchSize;
    assert (g * step) * world == g * (step * world);
    FloorAtLeast(batchSize, world, g * step);
  }

  lemma CeilAtLeast(a: int, step: int, g: int)
    requires step > 0 && g * step <= a
    ensures g <= CeilDiv(a, step)
  {
    var c := CeilDiv(a, step);
    if c < g {
      MulMonotone(c, g - 1, step);
    }
  }

  /** `k * w <= a` implies `k <= a // w`. */
  lemma FloorAtLeast(a: int, w: int, k: int)
    requires w > 0 && k * w <= a
    ensures k <= FloorDiv(a, w).value
  {
    var q := FloorDiv(a, w).value;
    if k > q {
      MulMonotone(q + 1, k, w);
    }
  }

  /** The uninterpreted `train_sub_step`: from this group's tokens and its
      cache, the loss, the accuracy and the new cache. */
  datatype SubStepOut<T> = SubStepOut(loss: real, acc: real, cache: Option<Cache<T>>)

  /** `train_sub_step` run under the model's gradient-synchronisation
      setting (`None` when the loop does not set it), on input and target
      tokens and the group's past cache. */
  type SubStep<!X, !T> = (Option<bool>, seq<X>, seq<X>, Option<Cache<T>>) -> SubStepOut<T>

  /** The gradient-synchronisation setting group `idx`'s sub-step runs
      under: the DDP trainer sets `require_backward_grad_sync` to
      `idx == batch_groups - 1` right before it; the base trainer never
      sets it. */
  function SyncAt<T>(t: TrainerState<T>, idx: nat): (r: Option<bool>)
    ensures r.None? <==> t.ddp.None?
    ensures r == Some(true) <==> t.ddp.Some? && idx + 1 == t.batchGroups
  {
    if t.ddp.Some? then Some(idx == t.batchGroups - 1) else None
  }

  /** The groups among the first `done` whose sub-step ran with gradient
      synchronisation switched on. */
  function SyncedGroups<T>(t: TrainerState<T>, done: nat): set<nat> {
    set i | 0 <= i < done && SyncAt(t, i) == Some(true)
  }

  /** In DDP, when all `batch_groups` groups ran, gradients were synchronised
      in exactly one of them, the last; a batch step that stopped early never
      synchronised. The base trainer never switches it on. */
  lemma SyncOnlyOnLast<T>(t: TrainerState<T>, done: nat)
    requires done <= Max(t.batchGroups, 0)
    ensures t.ddp.Some? && done == t.batchGroups && done > 0 ==> SyncedGroups(t, done) == {done - 1}
    ensures t.ddp.Some? && done < t.batchGroups ==> SyncedGroups(t, done) == {}
    ensures t.ddp.None? ==> SyncedGroups(t, done) == {}
  {
    if t.ddp.Some? && done == t.batchGroups && done > 0 {
      assert done - 1 in SyncedGroups(t, done);
      forall i | i in SyncedGroups(t, done)
        ensures i == done - 1
      {
        assert SyncAt(t, i) == Some(true);
      }
    }
    if t.ddp.Some? && done < t.batchGroups {
      forall i: nat | i < done
        ensures i !in SyncedGroups(t, done)
      {
        assert SyncAt(t, i) == Some(false);
      }
    }
  }

  /** The parts of a trainer a batch step never changes. */
  ghost predicate SameSetup<T>(t: TrainerState<T>, t': TrainerState<T>) {
    && t'.cfg == t.cfg && t'.ddp == t.ddp && t'.optimizer == t.optimizer
    && t'.batchGroups == t.batchGroups && t'.dataset == t.dataset && t'.loss == t.loss
    && |t'.slots| == |t.slots|
  }

  /** `train_optim_step`: the counter is incremented first, then every
      group's learning rate is set to `get_schedule() * lr_max`; a schedule
      that raises leaves the incremented counter and the old rate. */
  function TrainOptimStep<T>(t: TrainerState<T>, cos: real -> real): (r: (TrainerState<T>, Option<Error>))
    ensures r.0 == t.(optimizerStep := t.optimizerStep + 1, lr := r.0.lr)
    ensures r.1.None? <==> GetSchedule(t.cfg.sched, t.optimizerStep + 1, cos).Ok?
    ensures r.1.Some? ==> r.1 == Some(ZeroDivision) && r.0.lr == t.lr
    ensures r.1.None? ==> r.0.lr == GetSchedule(t.cfg.sched, t.optimizerStep + 1, cos).value * t.cfg.lrMax
  {
    var t1 := t.(optimizerStep := t.optimizerStep + 1);
    match GetSchedule(t.cfg.sched, t1.optimizerStep, cos)
    case Err(e) => (t1, Some(e))
    case Ok(s) => (t1.(lr := s * t.cfg.lrMax), None)
  }

  /** After warmup starts, the learning rate set by an optimizer step never
      exceeds `lr_max` (for a non-negative `lr_max`). */
  lemma LearningRateAtMostMax<T>(t: TrainerState<T>, cos: real -> real)
    requires t.cfg.lrMax >= 0.0
    requires TrainOptimStep(t, cos).1.None?
    ensures TrainOptimStep(t, cos).0.lr <= t.cfg.lrMax
  {
    var s := GetSchedule(t.cfg.sched, t.optimizerStep + 1, cos).value;
    assert s <= 1.0;
    assert s * t.cfg.lrMax <= 1.0 * t.cfg.lrMax;
  }

  /** Slots `0..k-1` hold the caches the sub-step returned for their groups,
      and one loss and one accuracy per group were appended, in order. Group
      `i`'s sub-step ran on chunk `i`, on the cache its slot held before the
      batch step, under the synchronisation setting `SyncAt(t, i)`. */
  ghost predicate GroupsDone<X, T>(t: TrainerState<T>, slots: seq<Option<Cache<T>>>,
                                   losses: seq<real>, accs: seq<real>, cx: seq<seq<X>>, cy: seq<seq<X>>,
                                   subStep: SubStep<X, T>, k: nat)
  {
    && |slots| == |t.slots| && k <= |slots| && k <= |cx| && k <= |cy|
    && (forall i :: 0 <= i < k ==> slots[i] == subStep(SyncAt(t, i), cx[i], cy[i], t.slots[i]).cache)
    && |losses| == |t.lossValues| + k && |accs| == |t.accValues| + k
    && losses[..|t.lossValues|] == t.lossValues && accs[..|t.accValues|] == t.accValues
    && (forall i :: 0 <= i < k ==>
          losses[|t.lossValues| + i] == subStep(SyncAt(t, i), cx[i], cy[i], t.slots[i]).loss &&
          accs[|t.accValues| + i] == subStep(SyncAt(t, i), cx[i], cy[i], t.slots[i]).acc)
  }

  /** Slots from `j` on are as they were. */
  ghost predicate SlotsKeptFrom<T>(t: TrainerState<T>, slots: seq<Option<Cache<T>>>, j: nat) {
    |slots| == |t.slots| && forall i :: j <= i < |slots| ==> slots[i] == t.slots[i]
  }

  /** The loop of `train_batch_step` over `range(batch_groups)`. It stops at
      the first group without a chunk, after clearing that group's slot. */
  method RunGroups<X, T>(t: TrainerState<T>, cx: seq<seq<X>>, cy: seq<seq<X>>, subStep: SubStep<X, T>)
    returns (slots: seq<Option<Cache<T>>>, losses: seq<real>, accs: seq<real>, done: nat)
    ensures done == Min(|t.slots|, Min(|cx|, |cy|))
    ensures GroupsDone(t, slots, losses, accs, cx, cy, subStep, done)
    ensures SlotsKeptFrom(t, slots, done + 1)
    ensures done < |t.slots| ==> slots[done].None?
  {
    var n := |t.slots|;
    slots, losses, accs := t.slots, t.lossValues, t.accValues;
    var idx := 0;
    while idx < n
      invariant idx <= n && idx <= Min(|cx|, |cy|)
      invariant GroupsDone(t, slots, losses, accs, cx, cy, subStep, idx)
      invariant SlotsKeptFrom(t, slots, idx)
    {
      var sync := if t.ddp.Some? then Some(idx == t.batchGroups - 1) else None;
      var past := CacheTo(slots[idx], 0);
      CacheToZeroIsIdentity(slots[idx]);
      slots := slots[idx := None];
      if idx >= |cx| || idx >= |cy| {
        return slots, losses, accs, idx;
      }
      var out := subStep(sync, cx[idx], cy[idx], past);
      slots := slots[idx := CacheTo(out.cache, 0)];
      CacheToZeroIsIdentity(out.cache);
      losses, accs := losses + [out.loss], accs + [out.acc];
      idx := idx + 1;
    }
    done := idx;
  }

  /** What `train_batch_step` leaves behind once its inputs and targets are
      split into the chunks `cx` and `cy`: the groups that had a chunk are
      done and the later slots untouched. A missing chunk leaves its slot
      cleared and raises IndexError before the optimizer step; otherwise
      exactly one optimizer step follows the last group. */
  ghost predicate BatchOutcome<X, T>(t: TrainerState<T>, cx: seq<seq<X>>, cy: seq<seq<X>>, subStep: SubStep<X, T>,
                                     cos: real -> real, t': TrainerState<T>, err: Option<Error>)
  {
    var done := Min(|t.slots|, Min(|cx|, |cy|));
    && SameSetup(t, t')
    && GroupsDone(t, t'.slots, t'.lossValues, t'.accValues, cx, cy, subStep, done)
    && SlotsKeptFrom(t, t'.slots, done + 1)
    && (done < |t.slots| ==>
          && t'.slots[done].None?
          && err == Some(IndexOutOfRange)
          && t'.optimizerStep == t.optimizerStep && t'.lr == t.lr)
    && (done == |t.slots| ==>
          && t'.optimizerStep == t.optimizerStep + 1
          && (err.None? <==> GetSchedule(t.cfg.sched, t.optimizerStep + 1, cos).Ok?)
          && (err.Some? ==> err == Some(ZeroDivision) && t'.lr == t.lr)
          && (err.None? ==> t'.lr == GetSchedule(t.cfg.sched, t.optimizerStep + 1, cos).value * t.cfg.lrMax))
  }

  /** `train_batch_step` (both classes). For `idx` in `range(batch_groups)`:
      in DDP switch gradient sync on only for the last group, read slot
      `idx` back (`cache_to` with the default trim), clear it, run the
      sub-step on chunk `idx` of the inputs and targets, write the returned
      cache to slot `idx`, record loss and accuracy; then take one optimizer
      step. A non-positive `batch_size_step` makes the split raise before
      anything happens. */
  method TrainBatchStep<X, T>(t: TrainerState<T>, xs: seq<X>, ys: seq<X>, subStep: SubStep<X, T>, cos: real -> real)
    returns (t': TrainerState<T>, err: Option<Error>)
    requires SlotsMatchGroups(t)
    ensures SameSetup(t, t')
    ensures t.cfg.batchSizeStep <= 0 ==> t' == t && err == Some(InvalidSplitSize)
    ensures t.cfg.batchSizeStep > 0 ==>
      BatchOutcome(t, Split(xs, t.cfg.batchSizeStep), Split(ys, t.cfg.batchSizeStep), subStep, cos, t', err)
  {
    if t.cfg.batchSizeStep <= 0 {
      return t, Some(InvalidSplitSize);
    }
    t', err := TrainChunks(t, Split(xs, t.cfg.batchSizeStep), Split(ys, t.cfg.batchSizeStep), subStep, cos);
  }

  /** The loop and the optimizer step of `train_batch_step` on split inputs. */
  method TrainChunks<X, T>(t: TrainerState<T>, cx: seq<seq<X>>, cy: seq<seq<X>>, subStep: SubStep<X, T>,
                           cos: real -> real)
    returns (t': TrainerState<T>, err: Option<Error>)
    ensures BatchOutcome(t, cx, cy, subStep, cos, t', err)
  {
    var slots, losses, accs, done := RunGroups(t, cx, cy, subStep);
    var t1 := t.(slots := slots, lossValues := losses, accValues := accs);
    if done < |t.slots| {
      StoppedOutcome(t, cx, cy, subStep, cos, t1);
      return t1, Some(IndexOutOfRange);
    }
    var step := TrainOptimStep(t1, cos);
    FinishedOutcome(t, cx, cy, subStep, cos, t1, step);
    t', err := step.0, step.1;
  }

  lemma StoppedOutcome<X, T>(t: TrainerState<T>, cx: seq<seq<X>>, cy: seq<seq<X>>, subStep: SubStep<X, T>,
                             cos: real -> real, t1: TrainerState<T>)
    requires t1 == t.(slots := t1.slots, lossValues := t1.lossValues, accValues := t1.accValues)
    requires Min(|t.slots|, Min(|cx|, |cy|)) < |t.slots|
    requires GroupsDone(t, t1.slots, t1.lossValues, t1.accValues, cx, cy, subStep, Min(|t.slots|, Min(|cx|, |cy|)))
    requires SlotsKeptFrom(t, t1.slots, Min(|t.slots|, Min(|cx|, |cy|)) + 1)
    requires t1.slots[Min(|t.slots|, Min(|cx|, |cy|))].None?
    ensures BatchOutcome(t, cx, cy, subStep, cos, t1, Some(IndexOutOfRange))
  {
  }

  lemma FinishedOutcome<X, T>(t: TrainerState<T>, cx: seq<seq<X>>, cy: seq<seq<X>>, subStep: SubStep<X, T>,
                              cos: real -> real, t1: TrainerState<T>, step: (TrainerState<T>, Option<Error>))
    requires t1 == t.(slots := t1.slots, lossValues := t1.lossValues, accValues := t1.accValues)
    requires Min(|t.slots|, Min(|cx|, |cy|)) == |t.slots|
    requires GroupsDone(t, t1.slots, t1.lossValues, t1.accValues, cx, cy, subStep, |t.slots|)
    requires step == TrainOptimStep(t1, cos)
    ensures BatchOutcome(t, cx, cy, subStep, cos, step.0, step.1)
  {
    assert step.0.slots == t1.slots && step.0.lossValues == t1.lossValues && step.0.accValues == t1.accValues;
  }

  /** A full per-rank batch of inputs and targets has a chunk for every
      accumulation group, so `train_batch_step` runs all of them (its `done`
      equals the slot count) and ends with exactly one optimizer step. */
  lemma FullBatchHasEveryChunk<X>(xs: seq<X>, ys: seq<X>, batchSize: int, step: int, world: int)
    requires step > 0 && world > 0
    requires |xs| == FloorDiv(batchSize, world).value && |ys| == |xs|
    ensures Max(FloorDiv(batchSize, step * world).value, 0) <= |Split(xs, step)|
    ensures Max(FloorDiv(batchSize, step * world).value, 0) <= |Split(ys, step)|
  {
    EnoughChunks(xs, batchSize, step, world);
    EnoughChunks(ys, batchSize, step, world);
  }

  /** `forward_pass`: the causal LM on token ids with `use_cache` set iff
      `cache_length > 0` and `max_key_values = cache_length`; returns the
      logits, the new cache and the last entry of the hidden states (the
      final normalised state). */
  function ForwardPass<I, H, T, R, L>(m: Backbone<I, H, T, R>, head: H -> L, tokens: I,
                                      past: Option<Cache<T>>, cacheLength: int)
    : (r: Result<(L, Option<Cache<T>>, H)>)
    ensures r.Ok? <==> past.None? || |past.value| >= m.nLayers
    ensures r.Ok? ==> (r.value.1.Some? <==> cacheLength > 0)
    ensures r.Ok? && cacheLength > 0 ==>
      |r.value.1.value| == m.nLayers && Bounded(r.value.1.value, cacheLength)
    ensures r.Ok? ==>
      var base := ModelForward(m, Some(tokens), None, past, Some(cacheLength)).value;
      r.value.0 == head(base.lastHiddenState) && r.value.2 == base.lastHiddenState
  {
    var out :- CausalForward(m, head, Some(tokens), None, past, cacheLength > 0, true, false, true, Some(cacheLength));
    var hs := out.hiddenStates.value;
    Ok((out.logits, out.pastKeyValues, hs[|hs| - 1]))
  }
}

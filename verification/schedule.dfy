/** The trainer's learning-rate schedule (`Trainer.get_schedule`) and epoch
    count (`Trainer.get_total_epochs`). Arithmetic is over `real`, an
    idealisation of the source's floating point; `cos` is a parameter of
    which only the facts below are known. */
module Schedule {
  import opened Py

  /** `np.pi`. */
  const PI: real := 3.141592653589793

  /** The schedule's fields of the training configuration. */
  datatype ScheduleConfig = ScheduleConfig(
    lrWarmupSteps: int,
    batchSize: int,
    lengthSequence: int,
    lrCooldownTokens: int,
    lrCooldownRatio: real,
    batchesPerEpoch: int)

  /** The only facts about `np.cos` the schedule relies on. */
  ghost predicate CosFacts(cos: real -> real) {
    && cos(0.0) == 1.0
    && cos(PI) == -1.0
    && forall x :: -1.0 <= cos(x) <= 1.0
  }

  function WarmupTokens(cfg: ScheduleConfig): int {
    cfg.lrWarmupSteps * cfg.batchSize * cfg.lengthSequence
  }

  function TokensSeen(cfg: ScheduleConfig, step: nat): int {
    step * cfg.batchSize * cfg.lengthSequence
  }

  /** `min(step / lr_warmup_steps, 1.0)`. */
  function WarmupRatio(cfg: ScheduleConfig, step: nat): (r: real)
    requires cfg.lrWarmupSteps != 0
    ensures r <= 1.0
    ensures cfg.lrWarmupSteps > 0 ==> 0.0 <= r
  {
    MinReal(step as real / cfg.lrWarmupSteps as real, 1.0)
  }

  /** The cooldown progress `min(max(seen - warmup, 0) / (cooldown - warmup), 1)`. */
  function CooldownProgress(cfg: ScheduleConfig, step: nat): (r: real)
    requires cfg.lrCooldownTokens != WarmupTokens(cfg)
    ensures r <= 1.0
    ensures cfg.lrCooldownTokens > WarmupTokens(cfg) ==> 0.0 <= r
  {
    var excess := MaxReal((TokensSeen(cfg, step) - WarmupTokens(cfg)) as real, 0.0);
    var span := (cfg.lrCooldownTokens - WarmupTokens(cfg)) as real;
    PositiveQuotient(excess, span);
    MinReal(excess / span, 1.0)
  }

  lemma PositiveQuotient(a: real, b: real)
    requires b != 0.0
    ensures a >= 0.0 && b > 0.0 ==> a / b >= 0.0
  {
  }

  /** The half-cosine from 1 down to the floor ratio `lr_cooldown_ratio`. */
  function CooldownRatio(cfg: ScheduleConfig, cos: real -> real, progress: real): (r: real)
    ensures CosFacts(cos) && progress == 0.0 ==> r == 1.0
    ensures CosFacts(cos) && progress == 1.0 ==> r == cfg.lrCooldownRatio
    ensures CosFacts(cos) && 0.0 <= cfg.lrCooldownRatio <= 1.0 ==> cfg.lrCooldownRatio <= r <= 1.0
  {
    CooldownRatioBounds(cfg.lrCooldownRatio, cos, progress);
    (cos(progress * PI) * 0.5 + 0.5) * (1.0 - cfg.lrCooldownRatio) + cfg.lrCooldownRatio
  }

  lemma CooldownRatioBounds(floor: real, cos: real -> real, progress: real)
    ensures CosFacts(cos) && 0.0 <= floor <= 1.0 ==>
      floor <= (cos(progress * PI) * 0.5 + 0.5) * (1.0 - floor) + floor <= 1.0
  {
    if CosFacts(cos) && 0.0 <= floor <= 1.0 {
      CooldownBetweenFloorAndOne(floor, cos(progress * PI));
    }
  }

  /** `get_schedule`: the learning-rate fraction for the current optimizer
      step. Division by a zero warmup step count, or by a cooldown span of
      zero tokens, raises ZeroDivisionError in that order. The result never
      exceeds the warmup ratio, hence never exceeds 1. */
  function GetSchedule(cfg: ScheduleConfig, step: nat, cos: real -> real): (r: Result<real>)
    ensures r.Ok? <==> cfg.lrWarmupSteps != 0 && cfg.lrCooldownTokens != WarmupTokens(cfg)
    ensures r.Err? ==> r.error == ZeroDivision
    ensures r.Ok? ==> r.value <= 1.0 && r.value <= step as real / cfg.lrWarmupSteps as real
  {
    if cfg.lrWarmupSteps == 0 then Err(ZeroDivision)
    else if cfg.lrCooldownTokens == WarmupTokens(cfg) then Err(ZeroDivision)
    else
      var warmup := WarmupRatio(cfg, step);
      Ok(MinReal(warmup, CooldownRatio(cfg, cos, CooldownProgress(cfg, step))))
  }

  /** With a floor ratio in `[0, 1]` the cooldown factor lies between the
      floor and 1, so the schedule is never negative. */
  lemma ScheduleNonNegative(cfg: ScheduleConfig, step: nat, cos: real -> real)
    requires CosFacts(cos)
    requires cfg.lrWarmupSteps > 0 && cfg.lrCooldownTokens != WarmupTokens(cfg)
    requires 0.0 <= cfg.lrCooldownRatio <= 1.0
    ensures 0.0 <= GetSchedule(cfg, step, cos).value
    ensures cfg.lrCooldownRatio <= CooldownRatio(cfg, cos, CooldownProgress(cfg, step)) <= 1.0
  {
    var progress := CooldownProgress(cfg, step);
    var c := cos(progress * PI);
    assert -1.0 <= c <= 1.0;
    CooldownBetweenFloorAndOne(cfg.lrCooldownRatio, c);
    var cool := CooldownRatio(cfg, cos, progress);
    assert cool == (c * 0.5 + 0.5) * (1.0 - cfg.lrCooldownRatio) + cfg.lrCooldownRatio;
    var warm := WarmupRatio(cfg, step);
    assert 0.0 <= warm;
    assert GetSchedule(cfg, step, cos) == Ok(MinReal(warm, cool));
  }

  lemma CooldownBetweenFloorAndOne(floor: real, c: real)
    requires 0.0 <= floor <= 1.0 && -1.0 <= c <= 1.0
    ensures floor <= (c * 0.5 + 0.5) * (1.0 - floor) + floor <= 1.0
  {
    var h := c * 0.5 + 0.5;
    assert 0.0 <= h <= 1.0;
    var f := 1.0 - floor;
    assert h * f <= 1.0 * f by {
      assert (1.0 - h) * f >= 0.0;
    }
  }

  /** During warmup the cooldown has not started, its factor is exactly 1,
      and the schedule is the linear ramp `step / lr_warmup_steps`. */
  lemma WarmupIsLinear(cfg: ScheduleConfig, step: nat, cos: real -> real)
    requires CosFacts(cos)
    requires cfg.lrWarmupSteps > 0 && step <= cfg.lrWarmupSteps
    requires cfg.lrCooldownTokens > WarmupTokens(cfg)
    requires cfg.batchSize * cfg.lengthSequence >= 0
    ensures GetSchedule(cfg, step, cos) == Ok(step as real / cfg.lrWarmupSteps as real)
  {
    TokensBeforeWarmupEnd(cfg, step);
    var excess := MaxReal((TokensSeen(cfg, step) - WarmupTokens(cfg)) as real, 0.0);
    assert excess == 0.0;
    assert CooldownProgress(cfg, step) == 0.0;
    assert 0.0 * PI == 0.0;
    assert CooldownRatio(cfg, cos, 0.0) == 1.0;
    DivideMonotone(step as real, cfg.lrWarmupSteps as real, cfg.lrWarmupSteps as real);
    assert WarmupRatio(cfg, step) == step as real / cfg.lrWarmupSteps as real;
  }

  /** No more tokens than the warmup's are seen before the warmup ends. */
  lemma TokensBeforeWarmupEnd(cfg: ScheduleConfig, step: nat)
    requires step <= cfg.lrWarmupSteps
    requires cfg.batchSize * cfg.lengthSequence >= 0
    ensures TokensSeen(cfg, step) <= WarmupTokens(cfg)
  {
    var bl := cfg.batchSize * cfg.lengthSequence;
    assert TokensSeen(cfg, step) - WarmupTokens(cfg) == (step - cfg.lrWarmupSteps) * bl by {
      assert TokensSeen(cfg, step) == step * bl;
      assert WarmupTokens(cfg) == cfg.lrWarmupSteps * bl;
    }
    NonPositiveTimesNonNegative(step - cfg.lrWarmupSteps, bl);
  }

  lemma NonPositiveTimesNonNegative(a: int, b: int)
    requires a <= 0 && b >= 0
    ensures a * b <= 0
  {
    assert (-a) * b >= 0;
  }

  /** Once the tokens seen reach `lr_cooldown_tokens` (after warmup), the
      schedule rests at the floor ratio. */
  lemma CooldownEndsAtFloor(cfg: ScheduleConfig, step: nat, cos: real -> real)
    requires CosFacts(cos)
    requires cfg.lrWarmupSteps > 0 && step >= cfg.lrWarmupSteps
    requires cfg.lrCooldownTokens > WarmupTokens(cfg) && TokensSeen(cfg, step) >= cfg.lrCooldownTokens
    requires cfg.lrCooldownRatio <= 1.0
    ensures GetSchedule(cfg, step, cos) == Ok(cfg.lrCooldownRatio)
  {
    var seen := TokensSeen(cfg, step);
    var warm := WarmupTokens(cfg);
    assert seen - warm >= cfg.lrCooldownTokens - warm > 0;
    var excess := (seen - warm) as real;
    var span := (cfg.lrCooldownTokens - warm) as real;
    assert MaxReal(excess, 0.0) == excess;
    QuotientAtLeastOne(excess, span);
    assert CooldownProgress(cfg, step) == 1.0;
    assert 1.0 * PI == PI;
    assert CooldownRatio(cfg, cos, 1.0) == cfg.lrCooldownRatio by {
      assert cos(PI) * 0.5 + 0.5 == 0.0;
    }
    QuotientAtLeastOne(step as real, cfg.lrWarmupSteps as real);
    assert WarmupRatio(cfg, step) == 1.0;
  }

  lemma QuotientAtLeastOne(a: real, b: real)
    requires a >= b > 0.0
    ensures a / b >= 1.0
  {
  }

  /** The warmup ramp never decreases: a later step during warmup never gets
      a smaller learning rate. */
  lemma WarmupMonotone(cfg: ScheduleConfig, s1: nat, s2: nat, cos: real -> real)
    requires CosFacts(cos)
    requires cfg.lrWarmupSteps > 0 && s1 <= s2 <= cfg.lrWarmupSteps
    requires cfg.lrCooldownTokens > WarmupTokens(cfg)
    requires cfg.batchSize * cfg.lengthSequence >= 0
    ensures GetSchedule(cfg, s1, cos).value <= GetSchedule(cfg, s2, cos).value
  {
    WarmupIsLinear(cfg, s1, cos);
    WarmupIsLinear(cfg, s2, cos);
    DivideMonotone(s1 as real, s2 as real, cfg.lrWarmupSteps as real);
  }

  lemma DivideMonotone(a: real, b: real, c: real)
    requires a <= b && c > 0.0
    ensures a / c <= b / c
  {
  }

  function TokensPerEpoch(cfg: ScheduleConfig): int {
    cfg.batchSize * cfg.lengthSequence * cfg.batchesPerEpoch
  }

  /** `get_total_epochs`: `ceil(lr_cooldown_tokens / tokens_per_epoch)`,
      raising ZeroDivisionError when an epoch holds no tokens. */
  function GetTotalEpochs(cfg: ScheduleConfig): (r: Result<int>)
    ensures r.Ok? <==> TokensPerEpoch(cfg) != 0
    ensures r.Err? ==> r.error == ZeroDivision
    ensures r.Ok? && TokensPerEpoch(cfg) > 0 ==>
      r.value * TokensPerEpoch(cfg) >= cfg.lrCooldownTokens &&
      (r.value - 1) * TokensPerEpoch(cfg) < cfg.lrCooldownTokens
  {
    var t := TokensPerEpoch(cfg);
    if t == 0 then Err(ZeroDivision) else Ok(CeilDiv(cfg.lrCooldownTokens, t))
  }

  /** With positive epoch size, the epoch count is the least number of
      epochs whose tokens cover the cooldown. */
  lemma TotalEpochsIsLeast(cfg: ScheduleConfig, e: int)
    requires TokensPerEpoch(cfg) > 0
    requires e * TokensPerEpoch(cfg) >= cfg.lrCooldownTokens
    ensures GetTotalEpochs(cfg).value <= e
  {
    var t := TokensPerEpoch(cfg);
    var q := GetTotalEpochs(cfg).value;
    if e < q {
      assert e <= q - 1;
      MulMonotone(e, q - 1, t);
    }
  }

  lemma MulMonotone(a: int, b: int, t: int)
    requires a <= b && t > 0
    ensures a * t <= b * t
  {
    assert b * t - a * t == (b - a) * t;
  }
}

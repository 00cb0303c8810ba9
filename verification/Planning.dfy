/** Plan geometry (`engines/plan.py`, `engines/quality.py`, `engines/volatility.py`). */
module Planning {
  import opened Prelude
  import opened Domain

  datatype QualityProfile = QualityProfile(score: real, riskMultiplier: real)

  function ClassifyQuality(score: real): (q: QualityProfile)
    ensures 0.0 <= q.riskMultiplier <= 1.0
  {
    var bounded := Max(0.0, Min(100.0, score));
    QualityProfile(bounded,
      if bounded >= 80.0 then 1.0 else if bounded >= 65.0 then 0.75 else if bounded >= 50.0 then 0.5 else 0.0)
  }

  function LaneRiskMultiplier(lane: StrategyLane, q: QualityProfile, catalyst: real, speculative: bool): real {
    match lane
    case CoreMomentum => q.riskMultiplier
    case EventMomentum =>
      if catalyst < 0.8 || q.score < 35.0 then 0.0 else Min(0.5, Max(0.25, q.riskMultiplier))
    case Speculative => if speculative && q.score >= 35.0 then 0.25 else 0.0
  }

  function VolatilityGateReason(s: MarketSnapshot, minAtrPct: real): Option<string> {
    if s.atr14.None? || s.atr14Pct.None? then Some("ATR_MISSING")
    else if s.atr14.value <= 0.0 || s.atr14Pct.value < minAtrPct then Some("ATR_TOO_LOW")
    else if s.remainingAtr.None? then Some("ATR_REMAINING_MISSING")
    else if s.remainingAtr.value <= 0.0 then Some("ATR_EXHAUSTED")
    else None
  }

  function TargetAtrBudgetReason(s: MarketSnapshot, target: real, multiplier: real): Option<string> {
    if s.remainingAtr.None? then Some("ATR_REMAINING_MISSING")
    else if Max(0.0, target - s.last) > s.remainingAtr.value * multiplier then Some("TARGET_EXCEEDS_ATR_BUDGET")
    else None
  }

  function Percent(part: real, whole: real): real
    requires whole != 0.0
  {
    part / whole * 100.0
  }

  datatype PlanInput = PlanInput(
    snapshot: MarketSnapshot, scoreTotal: real, quality: QualityProfile, lane: StrategyLane)

  function BuildTradePlan(input: PlanInput, cfg: Settings, planId: Id, now: int): Result<TradePlan> {
    var s := input.snapshot;
    if s.halted then Raised("HALTED")
    else if input.scoreTotal < 65.0 then Raised("SCORE_BELOW_PLAN_THRESHOLD")
    else if VolatilityGateReason(s, cfg.minAtrPct).Some? then Raised(VolatilityGateReason(s, cfg.minAtrPct).value)
    else if s.openingRangeHigh.None? || s.openingRangeLow.None? || s.retestLow.None? then
      Raised("STRUCTURE_DATA_MISSING")
    else
      var entry := s.openingRangeHigh.value;
      var stop := s.retestLow.value;
      var risk := entry - stop;
      var multiplier := LaneRiskMultiplier(
        input.lane, input.quality, if s.catalystVerified then s.catalystStrength else 0.0, cfg.speculativeEnabled);
      if entry <= 0.0 then Raised("INVALID_STRUCTURE")
      else if Percent(entry - s.openingRangeLow.value, entry) < cfg.minOpeningRangePct then
        Raised("OPENING_RANGE_TOO_NARROW")
      else if stop >= entry then Raised("INVALID_STRUCTURE")
      else if Percent(risk, entry) < cfg.minRiskPct then Raised("RISK_TOO_SMALL")
      else if multiplier <= 0.0 then Raised("QUALITY_OR_LANE_BLOCKED")
      else
        var zone := Round4(entry + Min(risk * 0.25, entry * 0.003));
        var tp1 := Round4(entry + risk * 1.5);
        var tp2 := Round4(entry + risk * 2.0);
        var budget := TargetAtrBudgetReason(s, tp1, cfg.atrTargetBudgetMultiplier);
        if budget.Some? then Raised(budget.value)
        else if tp1 <= zone then Raised("TARGET_BELOW_ENTRY")
        else
          Ok(TradePlan(planId, s.symbol, Round4(entry), zone, Round4(stop), tp1, tp2, 0.25, 0.30,
                       now, now + cfg.planTtlSeconds, multiplier, PlanActive, None))
  }

  /** What every issued plan satisfies after its levels were rounded. */
  ghost predicate PlanGeometry(p: TradePlan) {
    && p.stop <= p.entryTrigger <= p.entryZoneHigh < p.tp1 <= p.tp2
    && OnGrid4(p.stop) && OnGrid4(p.entryTrigger) && OnGrid4(p.entryZoneHigh) && OnGrid4(p.tp1) && OnGrid4(p.tp2)
  }

  /** Rounding keeps the levels of an issued plan in order; the stop may meet the
      trigger, never pass it. */
  lemma IssuedPlanGeometry(input: PlanInput, cfg: Settings, planId: Id, now: int)
    requires BuildTradePlan(input, cfg, planId, now).Ok?
    ensures PlanGeometry(BuildTradePlan(input, cfg, planId, now).value)
  {
    hide RoundHalfEven, VolatilityGateReason, TargetAtrBudgetReason, LaneRiskMultiplier, Percent;
    var entry := input.snapshot.openingRangeHigh.value;
    var risk := entry - input.snapshot.retestLow.value;
    var extension := Min(risk * 0.25, entry * 0.003);
    Round4Monotone(input.snapshot.retestLow.value, entry);
    Round4Monotone(entry, entry + extension);
    Round4Monotone(entry + risk * 1.5, entry + risk * 2.0);
    Round4OnGrid(input.snapshot.retestLow.value);
    Round4OnGrid(entry);
    Round4OnGrid(entry + extension);
    Round4OnGrid(entry + risk * 1.5);
    Round4OnGrid(entry + risk * 2.0);
  }

  /** A quality tier never scales the risk budget up, in any lane. */
  lemma IssuedPlanMultiplier(input: PlanInput, cfg: Settings, planId: Id, now: int)
    requires BuildTradePlan(input, cfg, planId, now).Ok?
    requires input.quality.riskMultiplier <= 1.0
    ensures 0.0 < BuildTradePlan(input, cfg, planId, now).value.qualityRiskMultiplier <= 1.0
  {
  }
}

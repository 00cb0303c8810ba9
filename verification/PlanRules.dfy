/** When a plan is issued and what its numbers are, in terms of the structure it is
    built from. */
module PlanRules {
  import opened Prelude
  import opened Domain
  import opened Planning

  /** On the four-decimal grid, and no further from a value than half its spacing. */
  ghost predicate Nearest4(level: real, exact: real) {
    OnGrid4(level) && level - 0.00005 <= exact <= level + 0.00005
  }

  lemma Round4IsNearest(x: real)
    ensures Nearest4(Round4(x), x)
  {
    Round4OnGrid(x);
    Round4Error(x);
    hide Round4;
  }

  /* ---- quality ---- */

  /** The four quality tiers. */
  lemma TierMeaning(score: real)
    ensures var q := ClassifyQuality(score);
            && 0.0 <= q.score <= 100.0 && (0.0 <= score <= 100.0 ==> q.score == score)
            && (score < 0.0 ==> q.score == 0.0) && (score > 100.0 ==> q.score == 100.0)
            && (q.riskMultiplier == 1.0 <==> score >= 80.0)
            && (q.riskMultiplier == 0.75 <==> 65.0 <= score < 80.0)
            && (q.riskMultiplier == 0.5 <==> 50.0 <= score < 65.0)
            && (q.riskMultiplier == 0.0 <==> score < 50.0)
  {
  }

  /** What a lane makes of a profile: momentum takes it as it is; an event needs a strong
      catalyst and some quality and is held between a quarter and a half; speculation is
      a quarter where it is enabled. */
  lemma LaneMeaning(q: QualityProfile, catalyst: real, speculative: bool)
    ensures LaneRiskMultiplier(CoreMomentum, q, catalyst, speculative) == q.riskMultiplier
    ensures var m := LaneRiskMultiplier(EventMomentum, q, catalyst, speculative);
            if catalyst >= 0.8 && q.score >= 35.0 then
              && 0.25 <= m <= 0.5
              && (q.riskMultiplier <= 0.25 ==> m == 0.25) && (0.5 <= q.riskMultiplier ==> m == 0.5)
              && (0.25 <= q.riskMultiplier <= 0.5 ==> m == q.riskMultiplier)
            else m == 0.0
    ensures LaneRiskMultiplier(Speculative, q, catalyst, speculative)
         == if speculative && 35.0 <= q.score then 0.25 else 0.0
  {
  }

  /* ---- issuing ---- */

  /** The day moved enough and has enough range left. */
  predicate Volatile(s: MarketSnapshot, minAtrPct: real) {
    && s.atr14.Some? && s.atr14.value > 0.0
    && s.atr14Pct.Some? && s.atr14Pct.value >= minAtrPct
    && s.remainingAtr.Some? && s.remainingAtr.value > 0.0
  }

  /** A range with a retest inside it, both wide enough in percent of its top. */
  predicate Structured(s: MarketSnapshot, cfg: Settings) {
    && s.openingRangeHigh.Some? && s.openingRangeLow.Some? && s.retestLow.Some?
    && var high := s.openingRangeHigh.value;
    && 0.0 < high && s.retestLow.value < high
    && cfg.minOpeningRangePct * high <= 100.0 * (high - s.openingRangeLow.value)
    && cfg.minRiskPct * high <= 100.0 * (high - s.retestLow.value)
  }

  function Catalyst(s: MarketSnapshot): real {
    if s.catalystVerified then s.catalystStrength else 0.0
  }

  /** The first target is above the entry zone and within what is left of the day's range. */
  ghost predicate TargetFits(s: MarketSnapshot, cfg: Settings)
    requires s.openingRangeHigh.Some? && s.retestLow.Some? && s.remainingAtr.Some?
  {
    var high, risk := s.openingRangeHigh.value, s.openingRangeHigh.value - s.retestLow.value;
    var tp1 := Round4(high + risk * 1.5);
    && Round4(high + Min(risk / 4.0, 0.003 * high)) < tp1
    && 0.0 <= s.remainingAtr.value * cfg.atrTargetBudgetMultiplier
    && tp1 - s.last <= s.remainingAtr.value * cfg.atrTargetBudgetMultiplier
  }

  /** Everything that must hold for a plan to be issued. */
  ghost predicate Plannable(input: PlanInput, cfg: Settings) {
    var s := input.snapshot;
    && !s.halted && input.scoreTotal >= 65.0
    && Volatile(s, cfg.minAtrPct) && Structured(s, cfg)
    && LaneRiskMultiplier(input.lane, input.quality, Catalyst(s), cfg.speculativeEnabled) > 0.0
    && TargetFits(s, cfg)
  }

  lemma PercentAtLeast(part: real, whole: real, pct: real)
    requires whole > 0.0
    ensures Percent(part, whole) < pct <==> 100.0 * part < pct * whole
  {
    var q := part / whole;
    assert q * whole == part;
    if q * 100.0 < pct {
      assert (pct - q * 100.0) * whole > 0.0;
    } else {
      assert (pct - q * 100.0) * whole <= 0.0;
    }
  }

  /** A plan is issued exactly then. */
  lemma PlanIssuedIff(input: PlanInput, cfg: Settings, planId: Id, now: int)
    ensures BuildTradePlan(input, cfg, planId, now).Ok? <==> Plannable(input, cfg)
  {
    hide LaneRiskMultiplier, Percent, Round4;
    var s := input.snapshot;
    if s.openingRangeHigh.Some? && s.openingRangeLow.Some? && s.retestLow.Some? && s.openingRangeHigh.value > 0.0 {
      var high := s.openingRangeHigh.value;
      PercentAtLeast(high - s.openingRangeLow.value, high, cfg.minOpeningRangePct);
      PercentAtLeast(high - s.retestLow.value, high, cfg.minRiskPct);
      assert (high - s.retestLow.value) / 4.0 == (high - s.retestLow.value) * 0.25;
    }
  }

  /** The numbers of an issued plan: entry at the top of the range, stop at the retest
      low, targets at one and a half and two times the risk, an entry zone of a quarter of
      the risk but at most 0.3 percent, all to the nearest grid point; and how long and at
      what budget it lives. */
  lemma IssuedPlanLevels(input: PlanInput, cfg: Settings, planId: Id, now: int)
    requires BuildTradePlan(input, cfg, planId, now).Ok?
    ensures input.snapshot.openingRangeHigh.Some? && input.snapshot.retestLow.Some?
    ensures var plan := BuildTradePlan(input, cfg, planId, now).value;
            var high, low := input.snapshot.openingRangeHigh.value, input.snapshot.retestLow.value;
            && Nearest4(plan.entryTrigger, high) && Nearest4(plan.stop, low)
            && Nearest4(plan.tp1, high + 1.5 * (high - low)) && Nearest4(plan.tp2, high + 2.0 * (high - low))
            && Nearest4(plan.entryZoneHigh, if high - low <= 0.012 * high then high + (high - low) / 4.0
                        else 1.003 * high)
            && plan.maxSpreadPct == 0.25 && plan.maxSlippagePct == 0.3
            && plan.planId == planId && plan.symbol == input.snapshot.symbol
            && plan.createdAt == now && plan.expiresAt == now + cfg.planTtlSeconds
            && plan.status == PlanActive && plan.triggeredAt.None?
            && plan.qualityRiskMultiplier
               == LaneRiskMultiplier(input.lane, input.quality, Catalyst(input.snapshot), cfg.speculativeEnabled)
  {
    hide LaneRiskMultiplier, Percent, Round4, VolatilityGateReason, TargetAtrBudgetReason, Nearest4;
    var high, low := input.snapshot.openingRangeHigh.value, input.snapshot.retestLow.value;
    var risk := high - low;
    Round4IsNearest(high);
    Round4IsNearest(low);
    Round4IsNearest(high + risk * 1.5);
    Round4IsNearest(high + risk * 2.0);
    Round4IsNearest(high + Min(risk * 0.25, high * 0.003));
  }

  /** The first condition a candidate fails names its refusal. */
  lemma PlanRefusalNames(input: PlanInput, cfg: Settings, planId: Id, now: int)
    requires BuildTradePlan(input, cfg, planId, now).Raised?
    ensures var error, s := BuildTradePlan(input, cfg, planId, now).error, input.snapshot;
            if s.halted then error == "HALTED"
            else if input.scoreTotal < 65.0 then error == "SCORE_BELOW_PLAN_THRESHOLD"
            else if !Volatile(s, cfg.minAtrPct) then
              error == if s.atr14.None? || s.atr14Pct.None? then "ATR_MISSING"
                       else if s.atr14.value <= 0.0 || s.atr14Pct.value < cfg.minAtrPct then "ATR_TOO_LOW"
                       else if s.remainingAtr.None? then "ATR_REMAINING_MISSING" else "ATR_EXHAUSTED"
            else if s.openingRangeHigh.None? || s.openingRangeLow.None? || s.retestLow.None? then
              error == "STRUCTURE_DATA_MISSING"
            else if !Structured(s, cfg) then
              var high := s.openingRangeHigh.value;
              error == if high <= 0.0 then "INVALID_STRUCTURE"
                       else if 100.0 * (high - s.openingRangeLow.value) < cfg.minOpeningRangePct * high then
                         "OPENING_RANGE_TOO_NARROW"
                       else if s.retestLow.value >= high then "INVALID_STRUCTURE" else "RISK_TOO_SMALL"
            else if LaneRiskMultiplier(input.lane, input.quality, Catalyst(s), cfg.speculativeEnabled) <= 0.0 then
              error == "QUALITY_OR_LANE_BLOCKED"
            else error in {"TARGET_EXCEEDS_ATR_BUDGET", "TARGET_BELOW_ENTRY"} && !TargetFits(s, cfg)
  {
    hide LaneRiskMultiplier, Percent, Round4;
    var s := input.snapshot;
    if s.openingRangeHigh.Some? && s.openingRangeLow.Some? && s.retestLow.Some? && s.openingRangeHigh.value > 0.0 {
      var high := s.openingRangeHigh.value;
      PercentAtLeast(high - s.openingRangeLow.value, high, cfg.minOpeningRangePct);
      PercentAtLeast(high - s.retestLow.value, high, cfg.minRiskPct);
      assert (high - s.retestLow.value) / 4.0 == (high - s.retestLow.value) * 0.25;
    }
  }
}

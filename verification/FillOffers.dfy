/** What the service offers: the quantity a risk rejection advertises, and the
    capacity a BUY_NOW reserves. */
module FillOffers {
  import opened Prelude
  import opened Domain
  import opened Sizing
  import opened Activation
  import opened Ledger
  import opened FillAccounting

  /** The risk of the earlier shares measured at the stop of this fill. */
  function CarriedOver(c: FillContext, a: FillArgs): real {
    PriorValue(c.existing) - EffectiveStop(c.plan, c.existing, a) * PriorQuantity(c.existing) as real
  }

  function PerShare(c: FillContext, a: FillArgs): real {
    a.price - EffectiveStop(c.plan, c.existing, a)
  }

  lemma CandidateIsLinear(c: FillContext, a: FillArgs)
    requires a.quantity > 0
    ensures CandidateRisk(c.plan, c.existing, a) == Max(0.0, CarriedOver(c, a) + PerShare(c, a) * a.quantity as real)
  {
    var stop := EffectiveStop(c.plan, c.existing, a);
    var n := PriorQuantity(c.existing);
    EntryAverageTotal(c.existing, a.price, a.quantity);
    CostGapSplit(EntryAverage(c.existing, a.price, a.quantity), stop, n + a.quantity);
    CostGapSplit(a.price, stop, a.quantity);
    Distribute(stop, n, a.quantity);
  }

  lemma CarriedOverBound(c: FillContext, a: FillArgs)
    requires Joinable(c) && (c.existing.Some? ==> EffectiveStop(c.plan, c.existing, a) >= c.existing.value.stop.value)
    ensures CarriedOver(c, a) <= ExistingRisk(c.existing)
  {
    if c.existing.Some? {
      var e := c.existing.value;
      var stop := EffectiveStop(c.plan, c.existing, a);
      CostGapSplit(e.averageFill, stop, e.quantity);
      CostGapSplit(e.averageFill, e.stop.value, e.quantity);
      assert (stop - e.stop.value) * e.quantity as real >= 0.0;
      CostGapSplit(stop, e.stop.value, e.quantity);
    } else {
      assert EffectiveStop(c.plan, c.existing, a) * 0.0 == 0.0;
    }
  }

  lemma PositiveFactor(x: real, n: nat)
    requires x * n as real > 0.0
    ensures x > 0.0
  {
  }

  /** The context a risk rejection starts from: the earlier shares are within the
      gate and the new stop does not undercut theirs. */
  ghost predicate Offering(c: FillContext, cfg: Settings, a: FillArgs) {
    && Joinable(c) && cfg.Valid() && a.quantity > 0 && a.price >= 0.0
    && 0.0 <= AllowedRisk(c.wallet, c.plan, cfg)
    && ExistingRisk(c.existing) <= AllowedRisk(c.wallet, c.plan, cfg)
    && (c.existing.Some? ==> EffectiveStop(c.plan, c.existing, a) >= c.existing.value.stop.value)
  }

  function Offered(c: FillContext, cfg: Settings, a: FillArgs): int {
    AllowedQuantity(c.wallet, c.plan, c.reservation, c.existing, cfg, a)
  }

  function WithQuantity(a: FillArgs, quantity: int): FillArgs {
    a.(quantity := quantity)
  }

  lemma OfferedShares(c: FillContext, cfg: Settings, a: FillArgs)
    requires Offering(c, cfg, a)
    requires CandidateRisk(c.plan, c.existing, a) > AllowedRisk(c.wallet, c.plan, cfg) + cfg.tolerance
    ensures PerShare(c, a) > 0.0 && 0 <= Offered(c, cfg, a) < a.quantity
    ensures Offered(c, cfg, a) > 0 ==>
      CandidateRisk(c.plan, c.existing, WithQuantity(a, Offered(c, cfg, a)))
      <= AllowedRisk(c.wallet, c.plan, cfg) + cfg.tolerance
  {
    hide CandidateRisk, AllowedRisk, ExistingRisk, EffectiveStop, PriorValue;
    var n := Offered(c, cfg, a);
    var perShare := PerShare(c, a);
    var room := AllowedRisk(c.wallet, c.plan, cfg) - ExistingRisk(c.existing) + cfg.tolerance;
    CandidateIsLinear(c, a);
    CarriedOverBound(c, a);
    ExistingRiskNonNegative(c.existing);
    assert perShare * a.quantity as real > room;
    PositiveFactor(perShare, a.quantity);
    assert n == (room / perShare).Floor;
    FloorOfQuotient(room, perShare, a.quantity);
    FloorOfQuotient(room, perShare, 0);
    FloorOfQuotient(room, perShare, n);
    if n > 0 {
      SameStop(c, a, n);
      CandidateIsLinear(c, WithQuantity(a, n));
    }
  }

  lemma SameStop(c: FillContext, a: FillArgs, n: int)
    ensures EffectiveStop(c.plan, c.existing, WithQuantity(a, n)) == EffectiveStop(c.plan, c.existing, a)
    ensures CarriedOver(c, WithQuantity(a, n)) == CarriedOver(c, a) && PerShare(c, WithQuantity(a, n)) == PerShare(c, a)
  {
  }

  lemma ExistingRiskNonNegative(existing: Option<PositionState>)
    ensures ExistingRisk(existing) >= 0.0
  {
  }

  /** For the first fill of a plan every larger quantity fails the risk gate. */
  lemma OfferedIsLargest(c: FillContext, cfg: Settings, a: FillArgs, more: int)
    requires Offering(c, cfg, a) && c.existing.None?
    requires CandidateRisk(c.plan, c.existing, a) > AllowedRisk(c.wallet, c.plan, cfg) + cfg.tolerance
    requires more > 0
    ensures more <= Offered(c, cfg, a)
       <==> CandidateRisk(c.plan, c.existing, WithQuantity(a, more))
            <= AllowedRisk(c.wallet, c.plan, cfg) + cfg.tolerance
  {
    hide CandidateRisk, AllowedRisk, EffectiveStop;
    OfferedShares(c, cfg, a);
    var room := AllowedRisk(c.wallet, c.plan, cfg) + cfg.tolerance;
    assert Offered(c, cfg, a) == (room / PerShare(c, a)).Floor;
    FloorOfQuotient(room, PerShare(c, a), more);
    SameStop(c, a, more);
    CandidateIsLinear(c, WithQuantity(a, more));
    assert CarriedOver(c, a) == 0.0 by { NothingCarried(c, a); }
  }

  lemma NothingCarried(c: FillContext, a: FillArgs)
    requires c.existing.None?
    ensures CarriedOver(c, a) == 0.0
  {
    assert EffectiveStop(c.plan, c.existing, a) * 0.0 == 0.0;
  }

  lemma ScaleMonotone(x: real, m: int, n: int)
    requires x >= 0.0 && m <= n
    ensures x * m as real <= x * n as real
  {
  }

  lemma OfferPassesRequestGates(c: FillContext, cfg: Settings, a: FillArgs, n: int)
    requires RequestRejection(c.wallet, c.plan, c.reservation, cfg, a).None? && 0 < n <= a.quantity && a.price >= 0.0
    ensures RequestRejection(c.wallet, c.plan, c.reservation, cfg, WithQuantity(a, n)).None?
  {
    ScaleMonotone(a.price, n, a.quantity);
    var b := WithQuantity(a, n);
    assert b.price * b.quantity as real <= a.price * a.quantity as real;
    assert b.quantity <= c.reservation.quantity;
    assert !(b.price > c.plan.entryZoneHigh * (1.0 + c.plan.maxSlippagePct / 100.0));
  }

  lemma OfferPassesNotional(c: FillContext, a: FillArgs, n: int)
    requires 0 < n <= a.quantity && a.price >= 0.0
    ensures EntryAverage(c.existing, a.price, n) * (PriorQuantity(c.existing) + n) as real
         <= EntryAverage(c.existing, a.price, a.quantity) * (PriorQuantity(c.existing) + a.quantity) as real
  {
    hide EntryAverage, PriorValue;
    ScaleMonotone(a.price, n, a.quantity);
    EntryAverageTotal(c.existing, a.price, n);
    EntryAverageTotal(c.existing, a.price, a.quantity);
  }

  /** The advertised quantity passes every gate the rejected one passed, and the risk gate. */
  lemma OfferPassesGates(c: FillContext, cfg: Settings, a: FillArgs)
    requires Offering(c, cfg, a)
    requires FillRejection(c, cfg, a) == Some("FILL_RISK_EXCEEDS_TOLERANCE")
    requires Offered(c, cfg, a) > 0
    ensures FillRejection(c, cfg, WithQuantity(a, Offered(c, cfg, a))).None?
  {
    hide CandidateRisk, AllowedRisk, EffectiveStop, EntryAverage, ExistingRisk, MaxNotional, MinPlanStop,
         RequestRejection, AllowedQuantity;
    var n := Offered(c, cfg, a);
    RiskRejectionComesLast(c, cfg, a);
    OfferedShares(c, cfg, a);
    OfferPassesRequestGates(c, cfg, a, n);
    OfferPassesNotional(c, a, n);
  }

  lemma RiskRejectionComesLast(c: FillContext, cfg: Settings, a: FillArgs)
    requires FillRejection(c, cfg, a) == Some("FILL_RISK_EXCEEDS_TOLERANCE") && a.quantity > 0
    ensures RequestRejection(c.wallet, c.plan, c.reservation, cfg, a).None?
    ensures CandidateRisk(c.plan, c.existing, a) > AllowedRisk(c.wallet, c.plan, cfg) + cfg.tolerance
    ensures PositionRejection(c.wallet, c.plan, c.existing, c.openCount, cfg, a) == Some("FILL_RISK_EXCEEDS_TOLERANCE")
  {
    hide CandidateRisk, AllowedRisk, EffectiveStop, EntryAverage, ExistingRisk, MaxNotional, MinPlanStop;
    assert "FILL_RISK_EXCEEDS_TOLERANCE"[5] == 'R';
    assert "FILL_EXCEEDS_CASH_AVAILABLE"[5] == 'E';
  }

  function DailyCap(w: WalletState, cfg: Settings): real {
    w.capitalBase * cfg.maxDailyLossPct / 100.0
  }

  /** A reservation never claims more cash than is free, nor more risk than the
      day has left, by more than half a cent. */
  lemma ReserveWithinCaps(l: Ledger, cfg: Settings, planId: Id, plan: TradePlan, ctx: MarketContext, now: int)
    requires l.rows.wallet.Some? && cfg.Valid() && plan.qualityRiskMultiplier <= 1.0
    requires var d := Activate(plan, ctx.snapshot, l.rows.wallet.value, None, GateOf(cfg, ctx), now);
             d.Ok? && d.value.0 == BuyNow
    ensures var w := EvaluateAndReserve(l, cfg, planId, plan, ctx, now).value.rows.wallet.value;
            && w.reservedCash <= w.cashAvailable + 0.005
            && w.openRisk + w.dailyRealizedLoss <= DailyCap(w, cfg) + 0.005
  {
    hide Activate, RiskBudget, Amount, EvaluateAndReserve, RemainingDaily, Feasible, Sizable, GateOpen, DailyCap;
    var w := l.rows.wallet.value;
    var q := Activate(plan, ctx.snapshot, w, None, GateOf(cfg, ctx), now).value.1;
    BuyNowIff(plan, ctx.snapshot, w, None, GateOf(cfg, ctx), now);
    BudgetWithinDay(w, plan, LimitsOf(cfg));
    CappedAmounts(w, plan, LimitsOf(cfg), q);
    ReservedTotals(l, cfg, planId, plan, ctx, now);
    RemainingOfDay(w, cfg);
  }

  lemma RemainingOfDay(w: WalletState, cfg: Settings)
    ensures RemainingDaily(w, LimitsOf(cfg)) == DailyCap(w, cfg) - w.dailyRealizedLoss - w.openRisk
  {
  }

  lemma ReservedTotals(l: Ledger, cfg: Settings, planId: Id, plan: TradePlan, ctx: MarketContext, now: int)
    requires l.rows.wallet.Some?
    requires var d := Activate(plan, ctx.snapshot, l.rows.wallet.value, None, GateOf(cfg, ctx), now);
             d.Ok? && d.value.0 == BuyNow
    ensures var q := Activate(plan, ctx.snapshot, l.rows.wallet.value, None, GateOf(cfg, ctx), now).value.1;
            var w := EvaluateAndReserve(l, cfg, planId, plan, ctx, now).value.rows.wallet.value;
            && w.reservedCash == l.rows.wallet.value.reservedCash + Amount(q, plan.entryZoneHigh)
            && w.openRisk == l.rows.wallet.value.openRisk + Amount(q, plan.RiskPerShare())
            && w.cashAvailable == l.rows.wallet.value.cashAvailable
            && w.dailyRealizedLoss == l.rows.wallet.value.dailyRealizedLoss
            && DailyCap(w, cfg) == DailyCap(l.rows.wallet.value, cfg)
  {
    hide Activate, Amount;
  }

  lemma CappedAmounts(w: WalletState, plan: TradePlan, limits: Limits, quantity: nat)
    requires Sizable(w, plan, None, limits) && Feasible(w, plan, None, limits, quantity) && quantity > 0
    requires RiskBudget(w, plan, limits) <= RemainingDaily(w, limits)
    ensures w.reservedCash + Amount(quantity, plan.entryZoneHigh) <= w.cashAvailable + 0.005
    ensures Amount(quantity, plan.RiskPerShare()) <= RemainingDaily(w, limits) + 0.005
  {
    hide RiskBudget, RemainingDaily, NotionalLimit, Amount;
    var cash := quantity as real * plan.entryZoneHigh;
    var risk := quantity as real * plan.RiskPerShare();
    assert cash <= FreeCash(w) && risk <= RiskBudget(w, plan, limits);
    ProductPositive(quantity as real, plan.entryZoneHigh);
    AmountError(quantity, plan.entryZoneHigh);
    AmountError(quantity, plan.RiskPerShare());
  }

  lemma AmountError(quantity: nat, price: real)
    ensures Amount(quantity, price) <= quantity as real * price + 0.005
  {
    Round2Error(quantity as real * price);
  }

  lemma ProductPositive(x: real, y: real)
    requires x > 0.0 && y > 0.0
    ensures x * y > 0.0
  {
  }

  lemma BudgetWithinDay(w: WalletState, plan: TradePlan, limits: Limits)
    requires Sizable(w, plan, None, limits) && limits.tradeRiskPct > 0.0 && plan.qualityRiskMultiplier <= 1.0
    ensures RiskBudget(w, plan, limits) <= RemainingDaily(w, limits)
  {
    hide BaseBudget, RemainingDaily, RiskBudget;
    BaseWithinDay(w, limits);
    ScaledDown(BaseBudget(w, limits), plan.qualityRiskMultiplier);
    ScaledBudget(w, plan, limits);
  }

  lemma ScaledBudget(w: WalletState, plan: TradePlan, limits: Limits)
    ensures RiskBudget(w, plan, limits) == BaseBudget(w, limits) * plan.qualityRiskMultiplier
  {
    hide BaseBudget;
  }

  lemma BaseWithinDay(w: WalletState, limits: Limits)
    requires w.capitalBase > 0.0 && RemainingDaily(w, limits) > 0.0 && limits.tradeRiskPct > 0.0
    ensures 0.0 <= BaseBudget(w, limits) <= RemainingDaily(w, limits)
  {
    ProductPositive(w.capitalBase, limits.tradeRiskPct);
  }

  lemma ScaledDown(x: real, factor: real)
    requires x >= 0.0 && factor <= 1.0
    ensures x * factor <= x
  {
    assert x * (1.0 - factor) >= 0.0;
  }
}

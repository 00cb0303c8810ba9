/** Per-position limits, and what a risk rejection advertises. */
module Limits {
  import opened Prelude
  import opened Domain
  import opened Sizing
  import opened Ledger
  import opened RowSoundness
  import opened Lifecycle
  import opened FillAccounting

  /** The seeded capital stays, and the wallet version never goes back. */
  ghost predicate WalletAges(rows: Rows, rows': Rows) {
    rows.wallet.Some? ==>
      && rows'.wallet.Some?
      && rows'.wallet.value.capitalBase == rows.wallet.value.capitalBase
      && rows'.wallet.value.version >= rows.wallet.value.version
  }

  /** Each stop change may loosen a stop by one tolerance, so the risk of `shares`
      shares may exceed the gate by that much per wallet version. */
  function Ceiling(w: WalletState, plan: TradePlan, cfg: Settings, shares: nat): real {
    AllowedRisk(w, plan, cfg) + cfg.tolerance + Loosening(cfg.tolerance, shares, w.version)
  }

  function Loosening(tolerance: real, shares: nat, version: nat): real {
    tolerance * shares as real * version as real
  }

  ghost predicate WithinLimits(p: PositionState, w: WalletState, plan: TradePlan, cfg: Settings) {
    && p.stop.Some?
    && p.averageFill * p.quantity as real <= MaxNotional(w, cfg) + cfg.tolerance
    && RiskAt(p.averageFill, p.stop.value, p.quantity) <= Ceiling(w, plan, cfg, p.quantity)
  }

  /** Every position opened by fills obeys its plan's risk and notional limits. */
  ghost predicate Limited(rows: Rows, cfg: Settings) {
    forall id :: id in rows.positions && rows.positions[id].planId in rows.plans ==>
      rows.wallet.Some? && WithinLimits(rows.positions[id], rows.wallet.value, rows.plans[rows.positions[id].planId],
                                        cfg)
  }

  lemma AllowedRiskFrame(w: WalletState, w': WalletState, p: TradePlan, q: TradePlan, cfg: Settings)
    requires w'.capitalBase == w.capitalBase && q.qualityRiskMultiplier == p.qualityRiskMultiplier
    ensures AllowedRisk(w', q, cfg) == AllowedRisk(w, p, cfg)
  {
  }

  lemma LooseningGrows(tolerance: real, shares: nat, version: nat, version': nat)
    requires tolerance >= 0.0 && version <= version'
    ensures 0.0 <= Loosening(tolerance, shares, version) <= Loosening(tolerance, shares, version')
    ensures version < version' ==>
      Loosening(tolerance, shares, version) + tolerance * shares as real <= Loosening(tolerance, shares, version')
  {
    var t := tolerance * shares as real;
    assert t >= 0.0;
    assert t * (version' - version) as real >= 0.0;
    assert t * version' as real == t * version as real + t * (version' - version) as real;
    if version < version' {
      AtLeastOnce(t, version' - version);
    }
  }

  lemma AtLeastOnce(t: real, n: nat)
    requires t >= 0.0 && n >= 1
    ensures t * n as real >= t
  {
    assert t * (n as real - 1.0) >= 0.0;
  }

  lemma CeilingGrows(w: WalletState, w': WalletState, p: TradePlan, q: TradePlan, cfg: Settings, shares: nat)
    requires cfg.tolerance >= 0.0 && w'.capitalBase == w.capitalBase && w.version <= w'.version
    requires q.qualityRiskMultiplier == p.qualityRiskMultiplier
    ensures Ceiling(w, p, cfg, shares) <= Ceiling(w', q, cfg, shares)
    ensures w.version < w'.version
            ==> Ceiling(w, p, cfg, shares) + cfg.tolerance * shares as real <= Ceiling(w', q, cfg, shares)
  {
    hide AllowedRisk, Loosening;
    AllowedRiskFrame(w, w', p, q, cfg);
    LooseningGrows(cfg.tolerance, shares, w.version, w'.version);
  }

  /** The limit-relevant part of a row is untouched. */
  ghost predicate SameExposure(p: PositionState, q: PositionState) {
    q.planId == p.planId && q.averageFill == p.averageFill && q.quantity == p.quantity && q.stop == p.stop
  }

  lemma LimitKept(p: PositionState, q: PositionState, w: WalletState, w': WalletState, plan: TradePlan,
                  plan': TradePlan, cfg: Settings)
    requires WithinLimits(p, w, plan, cfg) && SameExposure(p, q) && cfg.tolerance >= 0.0
    requires w'.capitalBase == w.capitalBase && w.version <= w'.version
    requires plan'.qualityRiskMultiplier == plan.qualityRiskMultiplier
    ensures WithinLimits(q, w', plan', cfg)
  {
    hide RiskAt, Ceiling;
    CeilingGrows(w, w', plan, plan', cfg, p.quantity);
  }

  /** Steps that touch neither averages, quantities nor stops. */
  lemma LimitedFrame(rows: Rows, rows': Rows, cfg: Settings)
    requires Limited(rows, cfg) && cfg.tolerance >= 0.0 && PlansAge(rows, rows') && WalletAges(rows, rows')
    requires forall id :: id in rows'.positions && rows'.positions[id].planId in rows'.plans ==>
               && id in rows.positions && rows.positions[id].planId in rows.plans
               && SameExposure(rows.positions[id], rows'.positions[id])
    ensures Limited(rows', cfg)
  {
    hide WithinLimits;
    forall id | id in rows'.positions && rows'.positions[id].planId in rows'.plans
      ensures rows'.wallet.Some? && WithinLimits(rows'.positions[id], rows'.wallet.value,
                                                 rows'.plans[rows'.positions[id].planId], cfg)
    {
      var planId := rows.positions[id].planId;
      LimitKept(rows.positions[id], rows'.positions[id], rows.wallet.value, rows'.wallet.value,
                rows.plans[planId], rows'.plans[planId], cfg);
    }
  }

  lemma RiskLoosened(average: real, stop: real, looser: real, shares: nat, tolerance: real)
    requires looser >= stop - tolerance && tolerance >= 0.0
    ensures RiskAt(average, looser, shares) <= RiskAt(average, stop, shares) + tolerance * shares as real
  {
    var n := shares as real;
    assert (average - looser) * n == (average - stop) * n + (stop - looser) * n;
    assert (stop - looser) * n <= tolerance * n;
  }

  lemma ProtectLimited(l: Ledger, cfg: Settings, positionId: Id, stop: real, ref: Option<string>, now: int)
    requires Limited(l.rows, cfg) && Sound(l.rows) && cfg.Valid()
             && ProtectPosition(l, cfg, positionId, stop, ref, now).Ok?
    ensures Limited(ProtectPosition(l, cfg, positionId, stop, ref, now).value.rows, cfg)
  {
    hide RiskAt, WithinLimits;
    var rows := ProtectPosition(l, cfg, positionId, stop, ref, now).value.rows;
    var p := l.rows.positions[positionId];
    forall id | id in rows.positions && rows.positions[id].planId in rows.plans
      ensures WithinLimits(rows.positions[id], rows.wallet.value, rows.plans[rows.positions[id].planId], cfg)
    {
      var plan := rows.plans[rows.positions[id].planId];
      if id == positionId {
        LoosenedLimit(p, rows.positions[id], l.rows.wallet.value, rows.wallet.value, plan, cfg);
      } else {
        LimitKept(rows.positions[id], rows.positions[id], l.rows.wallet.value, rows.wallet.value, plan, plan, cfg);
      }
    }
  }

  /** A stop change loosens no stop by more than the tolerance. */
  lemma ProtectStops(l: Ledger, cfg: Settings, positionId: Id, stop: real, ref: Option<string>, now: int)
    requires cfg.tolerance >= 0.0 && ProtectPosition(l, cfg, positionId, stop, ref, now).Ok?
    ensures StopsHold(l.rows, ProtectPosition(l, cfg, positionId, stop, ref, now).value.rows, cfg.tolerance)
  {
    hide RiskAt, MinPlanStop;
  }

  lemma LoosenedLimit(p: PositionState, q: PositionState, w: WalletState, w': WalletState, plan: TradePlan,
                      cfg: Settings)
    requires WithinLimits(p, w, plan, cfg) && cfg.tolerance >= 0.0
    requires q.averageFill == p.averageFill && q.quantity == p.quantity
    requires q.stop.Some? && q.stop.value >= p.stop.value - cfg.tolerance
    requires w'.capitalBase == w.capitalBase && w.version < w'.version
    ensures WithinLimits(q, w', plan, cfg)
  {
    hide RiskAt, Ceiling;
    RiskLoosened(p.averageFill, p.stop.value, q.stop.value, p.quantity, cfg.tolerance);
    CeilingGrows(w, w', plan, plan, cfg, p.quantity);
  }

  /** A fill passes both gates on the whole position, sold shares included. */
  lemma BookFillLimited(l: Ledger, c: FillContext, cfg: Settings, a: FillArgs, positionId: Id, now: int)
    requires Fillable(l.rows, c, a, positionId) && Limited(l.rows, cfg) && cfg.Valid()
    requires FillRejection(c, cfg, a).None? && BookFill(l, c, cfg, a, positionId, now).Ok?
    ensures Limited(BookFill(l, c, cfg, a, positionId, now).value.rows, cfg)
  {
    hide RiskAt, WithinLimits, ProposedWallet, FilledPosition, EffectiveStop, PositionRejection, BookFill;
    var rows := BookFill(l, c, cfg, a, positionId, now).value.rows;
    var p := FilledPosition(c, a, positionId, now);
    FillableJoins(l.rows, c, a, positionId);
    FilledPositionRow(c, a, positionId, now);
    BookFillWrites(l, c, cfg, a, positionId, now);
    FilledWithinLimits(c, cfg, a, positionId, now, rows.wallet.value, rows.plans[a.planId]);
    forall id | id in rows.positions && rows.positions[id].planId in rows.plans
      ensures WithinLimits(rows.positions[id], rows.wallet.value, rows.plans[rows.positions[id].planId], cfg)
    {
      if id != p.positionId {
        var planId := rows.positions[id].planId;
        LimitKept(rows.positions[id], rows.positions[id], l.rows.wallet.value, rows.wallet.value,
                  l.rows.plans[planId], rows.plans[planId], cfg);
      }
    }
  }

  /** Neither does a fill. */
  lemma BookFillStops(l: Ledger, c: FillContext, cfg: Settings, a: FillArgs, positionId: Id, now: int)
    requires Fillable(l.rows, c, a, positionId) && cfg.tolerance >= 0.0
    requires FillRejection(c, cfg, a).None? && BookFill(l, c, cfg, a, positionId, now).Ok?
    ensures StopsHold(l.rows, BookFill(l, c, cfg, a, positionId, now).value.rows, cfg.tolerance)
  {
    hide RiskAt, ProposedWallet, FilledPosition, EffectiveStop, PositionRejection, BookFill;
    FillableJoins(l.rows, c, a, positionId);
    FilledPositionRow(c, a, positionId, now);
    BookFillWrites(l, c, cfg, a, positionId, now);
    if c.existing.Some? {
      StopNotLoosened(c, cfg, a);
    }
  }

  lemma StopNotLoosened(c: FillContext, cfg: Settings, a: FillArgs)
    requires Joinable(c) && c.existing.Some? && a.quantity > 0
    requires PositionRejection(c.wallet, c.plan, c.existing, c.openCount, cfg, a).None? && cfg.tolerance >= 0.0
    ensures EffectiveStop(c.plan, c.existing, a) >= c.existing.value.stop.value - cfg.tolerance
  {
    hide CandidateRisk, AllowedRisk, MaxNotional, EntryAverage;
  }

  /** The frame of an accepted fill. */
  lemma BookFillWrites(l: Ledger, c: FillContext, cfg: Settings, a: FillArgs, positionId: Id, now: int)
    requires ContextReady(l.rows, c, a.planId) && 0 < a.quantity <= c.reservation.quantity
    requires BookFill(l, c, cfg, a, positionId, now).Ok?
    ensures var rows := BookFill(l, c, cfg, a, positionId, now).value.rows;
            var p := FilledPosition(c, a, positionId, now);
            && rows.positions == l.rows.positions[p.positionId := p]
            && rows.plans.Keys == l.rows.plans.Keys
            && (forall id :: id in rows.plans && id != a.planId ==> rows.plans[id] == l.rows.plans[id])
            && SameLevels(rows.plans[a.planId], c.plan)
            && rows.wallet.Some? && rows.wallet.value.capitalBase == c.wallet.capitalBase
            && rows.wallet.value.version == c.wallet.version + 1
  {
    hide RiskAt, FilledPosition, EffectiveStop;
  }

  lemma FilledWithinLimits(c: FillContext, cfg: Settings, a: FillArgs, positionId: Id, now: int, w: WalletState,
                           plan: TradePlan)
    requires 0 < a.quantity <= c.reservation.quantity && Joinable(c) && cfg.tolerance >= 0.0
    requires PositionRejection(c.wallet, c.plan, c.existing, c.openCount, cfg, a).None?
    requires w.capitalBase == c.wallet.capitalBase && plan.qualityRiskMultiplier == c.plan.qualityRiskMultiplier
    ensures WithinLimits(FilledPosition(c, a, positionId, now), w, plan, cfg)
  {
    hide RiskAt, AllowedRisk, MaxNotional, Loosening;
    var p := FilledPosition(c, a, positionId, now);
    AllowedRiskFrame(c.wallet, w, c.plan, plan, cfg);
    assert MaxNotional(w, cfg) == MaxNotional(c.wallet, cfg) by { MaxNotionalFrame(c.wallet, w, cfg); }
    LooseningGrows(cfg.tolerance, p.quantity, w.version, w.version);
    if c.existing.None? {
      EntryAverageTotal(c.existing, a.price, a.quantity);
      AverageOfFirst(a.price, a.quantity);
    }
    assert p.averageFill == EntryAverage(c.existing, a.price, a.quantity);
    assert p.quantity == PriorQuantity(c.existing) + a.quantity;
  }

  lemma MaxNotionalFrame(w: WalletState, w': WalletState, cfg: Settings)
    requires w'.capitalBase == w.capitalBase
    ensures MaxNotional(w', cfg) == MaxNotional(w, cfg)
  {
  }

  lemma AverageOfFirst(price: real, quantity: int)
    requires quantity > 0
    ensures EntryAverage(None, price, quantity) == price
  {
  }
}

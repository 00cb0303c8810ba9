/** When a fill is booked and what it writes, in terms of the call and the rows before
    it, sweep included. */
module FillRules {
  import opened Prelude
  import opened Domain
  import opened Sizing
  import opened Ledger
  import opened Rebuilding
  import opened RowSoundness
  import opened FillAccounting
  import opened FillOffers
  import opened Runs
  import opened MoneyRuns
  import opened LimitRuns
  import opened PlanRules
  import opened EntryRuns
  import opened PlanLife
  import opened SweepRules

  /* ---- the gates ---- */

  /** What the shares of the position will have cost, those of this call included. */
  function TotalCost(existing: Option<PositionState>, a: FillArgs): real {
    (if existing.Some? then existing.value.averageFill * existing.value.quantity as real else 0.0)
    + a.price * a.quantity as real
  }

  function TotalShares(existing: Option<PositionState>, a: FillArgs): int {
    (if existing.Some? then existing.value.quantity else 0) + a.quantity
  }

  /** The stop the position will have: the one just placed, else its own, else the plan's. */
  function NewStop(plan: TradePlan, existing: Option<PositionState>, a: FillArgs): real {
    match a.stopPrice
    case Some(placed) => placed
    case None => if existing.Some? && existing.value.stop.Some? then existing.value.stop.value else plan.stop
  }

  predicate PriceFits(plan: TradePlan, price: real) {
    plan.entryTrigger <= price && 100.0 * price <= plan.entryZoneHigh * (100.0 + plan.maxSlippagePct)
  }

  /** A placed stop is not under the position's own, nor further under the plan's than
      the configured percentage. */
  predicate StopFits(plan: TradePlan, existing: Option<PositionState>, cfg: Settings, a: FillArgs) {
    && (a.stopPlaced <==> a.stopPrice.Some?)
    && (a.stopPrice.Some? ==>
          && (existing.Some? && existing.value.stop.Some?
              ==> existing.value.stop.value - cfg.tolerance <= a.stopPrice.value)
          && plan.stop * (100.0 - cfg.stopTolerancePct) <= 100.0 * (a.stopPrice.value + cfg.tolerance))
  }

  predicate MoneyFits(w: WalletState, r: Reservation, cfg: Settings, a: FillArgs) {
    var cost := a.price * a.quantity as real;
    cost <= w.cashAvailable + cfg.tolerance && cost <= r.reservedCash + cfg.tolerance
  }

  /** Cost and risk of the whole position, sold shares included, are within the limits. */
  ghost predicate LimitsFit(w: WalletState, plan: TradePlan, existing: Option<PositionState>, cfg: Settings,
                            a: FillArgs) {
    var cost := TotalCost(existing, a);
    && cost <= w.capitalBase * cfg.maxPositionNotionalPct / 100.0 + cfg.tolerance
    && Max(0.0, cost - NewStop(plan, existing, a) * TotalShares(existing, a) as real)
       <= w.capitalBase * cfg.maxTradeRiskPct / 100.0 * plan.qualityRiskMultiplier * (1.0 + cfg.fillRiskTolerance)
          + cfg.tolerance
  }

  ghost predicate FillFits(c: FillContext, cfg: Settings, a: FillArgs) {
    && 1 <= a.quantity <= c.reservation.quantity
    && PriceFits(c.plan, a.price) && StopFits(c.plan, c.existing, cfg, a)
    && MoneyFits(c.wallet, c.reservation, cfg, a)
    && (c.existing.Some? || c.openCount < cfg.maxConcurrentPositions)
    && LimitsFit(c.wallet, c.plan, c.existing, cfg, a)
  }

  lemma SlippageMeaning(zone: real, pct: real, price: real)
    ensures price <= zone * (1.0 + pct / 100.0) <==> 100.0 * price <= zone * (100.0 + pct)
  {
    assert 100.0 * (zone * (1.0 + pct / 100.0)) == zone * (100.0 + pct);
  }

  lemma FloorMeaning(plan: TradePlan, cfg: Settings, stop: real)
    ensures stop < MinPlanStop(plan, cfg) - cfg.tolerance
       <==> 100.0 * (stop + cfg.tolerance) < plan.stop * (100.0 - cfg.stopTolerancePct)
  {
    assert 100.0 * MinPlanStop(plan, cfg) == plan.stop * (100.0 - cfg.stopTolerancePct);
  }

  lemma CostMeaning(c: FillContext, cfg: Settings, a: FillArgs)
    requires a.quantity > 0 && (a.stopPlaced <==> a.stopPrice.Some?)
    ensures EntryAverage(c.existing, a.price, a.quantity) * (PriorQuantity(c.existing) + a.quantity) as real
         == TotalCost(c.existing, a)
    ensures CandidateRisk(c.plan, c.existing, a)
         == Max(0.0, TotalCost(c.existing, a) - NewStop(c.plan, c.existing, a) * TotalShares(c.existing, a) as real)
  {
    EntryAverageTotal(c.existing, a.price, a.quantity);
    CandidateIsLinear(c, a);
    var stop := NewStop(c.plan, c.existing, a);
    assert EffectiveStop(c.plan, c.existing, a) == stop;
    Distribute(stop, PriorQuantity(c.existing), a.quantity);
    CostGapSplit(a.price, stop, a.quantity);
    hide CandidateRisk, EntryAverage;
  }

  /** The first gate a call fails names its refusal: first those that need only the plan,
      the reservation and the call. */
  lemma RequestNames(c: FillContext, cfg: Settings, a: FillArgs)
    ensures var r := RequestRejection(c.wallet, c.plan, c.reservation, cfg, a);
            if !(1 <= a.quantity <= c.reservation.quantity) then r == Some("QUANTITY_EXCEEDS_RESERVATION")
            else if !PriceFits(c.plan, a.price) then r == Some("FILL_OUTSIDE_PLAN")
            else if a.stopPlaced && a.stopPrice.None? then r == Some("STOP_ORDER_PRICE_REQUIRED")
            else if !a.stopPlaced && a.stopPrice.Some? then r == Some("STOP_ORDER_PRICE_WITHOUT_PLACEMENT")
            else if c.wallet.cashAvailable + cfg.tolerance < a.price * a.quantity as real then
              r == Some("FILL_EXCEEDS_CASH_AVAILABLE")
            else if !MoneyFits(c.wallet, c.reservation, cfg, a) then r == Some("FILL_EXCEEDS_RESERVATION_CASH")
            else r == None
  {
    SlippageMeaning(c.plan.entryZoneHigh, c.plan.maxSlippagePct, a.price);
  }

  /** Then those that look at the position the fill would join. */
  lemma PositionNames(c: FillContext, cfg: Settings, a: FillArgs)
    requires a.quantity > 0 && (a.stopPlaced <==> a.stopPrice.Some?)
    ensures var r := PositionRejection(c.wallet, c.plan, c.existing, c.openCount, cfg, a);
            if c.existing.None? && cfg.maxConcurrentPositions <= c.openCount then
              r == Some("MAX_CONCURRENT_POSITIONS_REACHED")
            else if !StopFits(c.plan, c.existing, cfg, a) then
              r == Some(if c.existing.Some? && c.existing.value.stop.Some?
                           && a.stopPrice.value < c.existing.value.stop.value - cfg.tolerance
                        then "STOP_LOOSER_THAN_CURRENT" else "STOP_LOOSER_THAN_PLAN")
            else if c.wallet.capitalBase * cfg.maxPositionNotionalPct / 100.0 + cfg.tolerance
                    < TotalCost(c.existing, a) then
              r == Some("POSITION_NOTIONAL_LIMIT_EXCEEDED")
            else if !LimitsFit(c.wallet, c.plan, c.existing, cfg, a) then r == Some("FILL_RISK_EXCEEDS_TOLERANCE")
            else r == None
  {
    StopMeaning(c.plan, c.existing, cfg, a);
    CostMeaning(c, cfg, a);
    LimitMeaning(c.wallet, c.plan, cfg);
    hide CandidateRisk, EntryAverage, MinPlanStop, TotalCost, NewStop, EffectiveStop, AllowedRisk, MaxNotional,
         StopFits, TotalShares, PriorQuantity;
  }

  lemma StopMeaning(plan: TradePlan, existing: Option<PositionState>, cfg: Settings, a: FillArgs)
    requires a.stopPlaced <==> a.stopPrice.Some?
    ensures StopFits(plan, existing, cfg, a)
       <==> || a.stopPrice.None?
            || (!(existing.Some? && existing.value.stop.Some?
                  && a.stopPrice.value < existing.value.stop.value - cfg.tolerance)
                && !(a.stopPrice.value < MinPlanStop(plan, cfg) - cfg.tolerance))
  {
    if a.stopPrice.Some? {
      FloorMeaning(plan, cfg, a.stopPrice.value);
    }
    hide MinPlanStop;
  }

  lemma LimitMeaning(w: WalletState, plan: TradePlan, cfg: Settings)
    ensures AllowedRisk(w, plan, cfg)
         == w.capitalBase * cfg.maxTradeRiskPct / 100.0 * plan.qualityRiskMultiplier * (1.0 + cfg.fillRiskTolerance)
    ensures MaxNotional(w, cfg) == w.capitalBase * cfg.maxPositionNotionalPct / 100.0
  {
  }

  /** The gates let through exactly the calls that fit. */
  lemma FillGatesIff(c: FillContext, cfg: Settings, a: FillArgs)
    ensures FillRejection(c, cfg, a).None? <==> FillFits(c, cfg, a)
  {
    hide RequestRejection, PositionRejection, LimitsFit, StopFits;
    StopNeedsFlag(c.plan, c.existing, cfg, a);
    RequestNames(c, cfg, a);
    if a.quantity > 0 && (a.stopPlaced <==> a.stopPrice.Some?) {
      PositionNames(c, cfg, a);
      NotionalIsLimit(c, cfg, a);
    }
  }

  lemma StopNeedsFlag(plan: TradePlan, existing: Option<PositionState>, cfg: Settings, a: FillArgs)
    ensures StopFits(plan, existing, cfg, a) ==> (a.stopPlaced <==> a.stopPrice.Some?)
  {
  }

  lemma NotionalIsLimit(c: FillContext, cfg: Settings, a: FillArgs)
    ensures LimitsFit(c.wallet, c.plan, c.existing, cfg, a) ==>
              TotalCost(c.existing, a) <= c.wallet.capitalBase * cfg.maxPositionNotionalPct / 100.0 + cfg.tolerance
  {
    hide TotalCost, NewStop;
  }

  /** And so does the first thing missing from the rows the sweep left. */
  lemma MissingNames(rows: Rows, planId: Id, now: int)
    ensures var r := ContextRejection(rows, planId, now);
            if rows.wallet.None? || planId !in rows.plans then r == Some("FILL_CONFIRMATION_CONTEXT_MISSING")
            else if rows.plans[planId].status == PlanFilled then r == Some("PLAN_ALREADY_FILLED")
            else if planId !in rows.reservations then r == Some("FILL_CONFIRMATION_CONTEXT_MISSING")
            else if rows.plans[planId].status != PlanReserved then r == Some("PLAN_NOT_RESERVED")
            else if rows.reservations[planId].expiresAt < now then r == Some("RESERVATION_EXPIRED")
            else r == None
  {
  }

  /* ---- the whole call ---- */

  /** The open row of a plan, if it has one. */
  ghost predicate JoinedRow(rows: Rows, planId: Id, existing: Option<PositionState>) {
    match existing
    case Some(p) => exists id :: id in OpenRows(rows) && rows.positions[id] == p && p.planId == planId
    case None => forall id :: id in OpenRows(rows) ==> rows.positions[id].planId != planId
  }

  /** Everything that must hold of the rows before the call for it to book a fill. */
  ghost predicate MayFill(rows: Rows, cfg: Settings, a: FillArgs, clock: FillClock) {
    && a.planId in rows.plans && a.planId in rows.reservations && rows.wallet.Some?
    && var plan, r := rows.plans[a.planId], rows.reservations[a.planId];
    && clock.swept <= plan.expiresAt && clock.swept <= r.expiresAt && clock.checked <= r.expiresAt
    && exists existing :: JoinedRow(rows, a.planId, existing)
         && FillFits(FillContext(rows.wallet.value, plan, r, existing, |OpenRows(rows)|), cfg, a)
  }

  lemma JoinedIsFound(rows: Rows, planId: Id, existing: Option<PositionState>)
    requires Sound(rows) && JoinedRow(rows, planId, existing)
    ensures var found := OpenPositionOf(rows, planId);
            existing == if found.Some? then Some(rows.positions[found.value]) else None
  {
    OpenRowsAre(rows);
    if PlanHasOpen(rows, planId) {
      OpenPositionFound(rows, planId);
    }
  }

  lemma FoundIsJoined(rows: Rows, planId: Id)
    requires Sound(rows)
    ensures var found := OpenPositionOf(rows, planId);
            JoinedRow(rows, planId, if found.Some? then Some(rows.positions[found.value]) else None)
  {
    OpenRowsAre(rows);
    if PlanHasOpen(rows, planId) {
      OpenPositionFound(rows, planId);
      assert OpenPositionOf(rows, planId).value in OpenRows(rows);
    }
  }

  /** Reserved cash, open risk and version do not matter to the gates. */
  lemma FitsIgnoreTotals(c: FillContext, w: WalletState, cfg: Settings, a: FillArgs)
    requires w.cashAvailable == c.wallet.cashAvailable && w.capitalBase == c.wallet.capitalBase
    ensures FillFits(c.(wallet := w), cfg, a) <==> FillFits(c, cfg, a)
  {
    hide TotalCost, NewStop, Max;
  }

  lemma SweptContext(l: Ledger, cfg: Settings, a: FillArgs, clock: FillClock, listing: Listing)
    requires Sound(l.rows) && Complete(l, listing, clock.swept)
    ensures var rows := Sweep(l, listing, clock.swept).rows;
            && (ContextRejection(rows, a.planId, clock.checked).None? <==>
                  && a.planId in l.rows.plans && a.planId in l.rows.reservations && l.rows.wallet.Some?
                  && clock.swept <= l.rows.plans[a.planId].expiresAt
                  && clock.swept <= l.rows.reservations[a.planId].expiresAt
                  && clock.checked <= l.rows.reservations[a.planId].expiresAt)
            && (ContextRejection(rows, a.planId, clock.checked).None? ==>
                  && Untouched(l.rows, rows, a.planId) && rows.positions == l.rows.positions && SameCash(l.rows, rows))
  {
    SweepMeaning(l, listing, clock.swept);
    SweepCash(l, listing, clock.swept);
    SweepSound(l, listing, clock.swept);
    hide Sweep, Bought;
  }

  lemma GatesOfCall(l: Ledger, cfg: Settings, a: FillArgs, clock: FillClock, listing: Listing)
    requires Sound(l.rows) && Complete(l, listing, clock.swept)
    ensures var rows := Sweep(l, listing, clock.swept).rows;
            MayFill(l.rows, cfg, a, clock) <==>
              && ContextRejection(rows, a.planId, clock.checked).None?
              && FillRejection(ContextOf(rows, a.planId), cfg, a).None?
  {
    hide Sweep, FillFits, OpenPositionOf, OpenPositions, JoinedRow, Sound, FillRejection;
    SweptContext(l, cfg, a, clock, listing);
    var rows := Sweep(l, listing, clock.swept).rows;
    SweepSound(l, listing, clock.swept);
    if ContextRejection(rows, a.planId, clock.checked).None? {
      var c := ContextOf(rows, a.planId);
      FillGatesIff(c, cfg, a);
      FoundIsJoined(rows, a.planId);
      OpenRowsAre(rows);
      SamePositions(l.rows, rows, a.planId);
      FitsIgnoreTotals(c, l.rows.wallet.value, cfg, a);
      if MayFill(l.rows, cfg, a, clock) {
        var existing :| JoinedRow(l.rows, a.planId, existing)
          && FillFits(FillContext(l.rows.wallet.value, l.rows.plans[a.planId], l.rows.reservations[a.planId], existing,
                                  |OpenRows(l.rows)|), cfg, a);
        JoinedIsFound(rows, a.planId, existing);
        assert c.existing == existing;
      }
    }
  }

  lemma SamePositions(rows: Rows, rows': Rows, planId: Id)
    requires rows'.positions == rows.positions
    ensures OpenRows(rows') == OpenRows(rows)
    ensures forall existing :: JoinedRow(rows', planId, existing) == JoinedRow(rows, planId, existing)
  {
    assert OpenRows(rows') == OpenRows(rows);
  }

  /** In exact arithmetic, over every run whose fills join no partly exited position, the
      call books the fill exactly when the rows before it allow it. */
  lemma FillIff(cfg: Settings, cs: seq<Command>, seeded: real, a: FillArgs, clock: FillClock, listing: Listing,
                positionId: Id)
    requires cfg.Valid() && cfg.tolerance == 0.0 && SteadyRun(cfg, cs, seeded) && WholeRun(cfg, cs)
    requires var l, c := Run(cfg, cs).ledger, Fill(a, clock, listing, positionId);
             Admissible(cfg, l, c) && FillsWhole(l, c) && Complete(l, listing, clock.swept)
    ensures var l := Run(cfg, cs).ledger;
            ConfirmFill(l, cfg, a, clock, listing, positionId).Ok? <==> MayFill(l.rows, cfg, a, clock)
  {
    hide Perform, ApplyAll, Sound, Sweep, MayFill, FillRejection, BookFill;
    var l := Run(cfg, cs).ledger;
    SteadyIsAdmissible(cfg, cs, seeded);
    RunSound(cfg, cs);
    GatesOfCall(l, cfg, a, clock, listing);
    if MayFill(l.rows, cfg, a, clock) {
      GatedFillIsBooked(cfg, cs, seeded, a, clock, listing, positionId);
    }
  }

  /* ---- what a fill writes ---- */

  /** Targets one and a half and two times the distance from the average to the stop. */
  ghost predicate Targeted(p: PositionState, average: real, stop: real) {
    && p.tp1.Some? && Nearest4(p.tp1.value, average + 1.5 * (average - stop))
    && p.tp2.Some? && Nearest4(p.tp2.value, average + 2.0 * (average - stop))
  }

  lemma TargetsMeaning(p: PositionState, stop: real)
    ensures Targeted(WithTargets(p, stop), p.averageFill, stop)
  {
    Round4IsNearest(p.averageFill + (p.averageFill - stop) * 1.5);
    Round4IsNearest(p.averageFill + (p.averageFill - stop) * 2.0);
    hide Round4, Nearest4;
  }

  /** A first fill opens a row; a later one averages into it. A placed stop order covers
      every remaining share; without one the shares covered before stay covered, and no
      others. A row is PROTECTED when all its shares are covered. */
  lemma FilledRow(c: FillContext, a: FillArgs, positionId: Id, now: int)
    requires a.quantity > 0 && (a.stopPlaced <==> a.stopPrice.Some?)
    ensures var p, stop := FilledPosition(c, a, positionId, now), NewStop(c.plan, c.existing, a);
            && p.quantity == TotalShares(c.existing, a)
            && p.averageFill * p.quantity as real == TotalCost(c.existing, a)
            && p.stop == Some(stop) && Targeted(p, p.averageFill, stop)
            && p.reconciliationState == Reconciled && p.lastReconciledAt == Some(now)
               && p.closedAt == WasClosed(c.existing)
            && (a.stopPlaced ==> p.brokerStopPrice == a.stopPrice && p.brokerOrderRef == a.brokerOrderRef
                                 && p.protectedQuantity == p.remainingQuantity && p.protection == Protected)
            && match c.existing
               case Some(e) =>
                 && p.positionId == e.positionId && p.planId == e.planId && p.symbol == e.symbol
                 && p.remainingQuantity == e.remainingQuantity + a.quantity && p.openedAt == e.openedAt
                 && p.timeStopAt == e.timeStopAt && p.realizedPnl == e.realizedPnl
                 && p.managed == e.managed && p.source == e.source
                 && (!a.stopPlaced ==>
                       && p.protectedQuantity == e.protectedQuantity
                       && p.brokerStopPrice == e.brokerStopPrice && p.brokerOrderRef == e.brokerOrderRef
                       && (p.protection == Protected <==> e.protectedQuantity == p.remainingQuantity))
               case None =>
                 && p.positionId == positionId && p.planId == a.planId && p.symbol == c.plan.symbol
                 && p.averageFill == a.price && p.remainingQuantity == a.quantity && p.openedAt == now
                 && p.timeStopAt == Some(now + 60 * a.timeStopMinutes) && p.realizedPnl == 0.0
                 && p.managed && p.source == "FILL_ACK"
                 && (!a.stopPlaced ==>
                       && p.protectedQuantity == 0 && p.protection == Unprotected
                       && p.brokerStopPrice.None? && p.brokerOrderRef.None?)
  {
    EntryAverageTotal(c.existing, a.price, a.quantity);
    TargetsMeaning(Averaged(c, a, positionId, now), EffectiveStop(c.plan, c.existing, a));
    hide Round4, Nearest4, EntryAverage, Targeted;
  }

  function WasClosed(existing: Option<PositionState>): Option<int> {
    if existing.Some? then existing.value.closedAt else None
  }

  /** What is left of a reservation, priced to the cent. */
  ghost predicate LeftOver(r: Reservation, r0: Reservation, plan: TradePlan, left: nat) {
    && r.planId == r0.planId && r.quantity == left && r.expiresAt == r0.expiresAt
    && ToTheCent(r.reservedCash, left, plan.entryZoneHigh)
    && ToTheCent(r.reservedRisk, left, plan.entryTrigger - plan.stop)
  }

  lemma ConsumedMeaning(plan: TradePlan, r: Reservation, quantity: int)
    requires 0 < quantity <= r.quantity
    ensures LeftOver(Consumed(plan, r, quantity), r, plan, r.quantity - quantity)
  {
    var left := r.quantity - quantity;
    AmountMeaning(left, plan.entryZoneHigh);
    AmountMeaning(left, plan.RiskPerShare());
    hide Amount, ToTheCent;
  }

  /** The rest of what a booked fill writes: the reservation left over, and the plan
      FILLED once nothing is left of it. */
  lemma FillWrites(l: Ledger, c: FillContext, cfg: Settings, a: FillArgs, positionId: Id, now: int)
    requires ContextReady(l.rows, c, a.planId) && 0 < a.quantity <= c.reservation.quantity
    requires BookFill(l, c, cfg, a, positionId, now).Ok?
    ensures var rows := BookFill(l, c, cfg, a, positionId, now).value.rows;
            var p, left := FilledPosition(c, a, positionId, now), c.reservation.quantity - a.quantity;
            && rows.positions == l.rows.positions[p.positionId := p]
            && rows.plans == l.rows.plans[a.planId := c.plan.(status := if left == 0 then PlanFilled else PlanReserved)]
            && rows.reservations.Keys == (if left == 0 then l.rows.reservations.Keys - {a.planId}
                                          else l.rows.reservations.Keys)
            && (forall id :: id in rows.reservations && id != a.planId ==>
                  rows.reservations[id] == l.rows.reservations[id])
            && (left > 0 ==> LeftOver(rows.reservations[a.planId], c.reservation, c.plan, left))
  {
    ConsumedMeaning(c.plan, c.reservation, a.quantity);
    hide ProposedWallet, SnappedWallet, FilledPosition, EffectiveStop, LeftOver, AccountingBroken;
  }

  /** What some shares can lose between an average and a stop under it. */
  function Exposure(average: real, stop: real, shares: nat): real {
    if stop < average then (average - stop) * shares as real else 0.0
  }

  lemma RiskIsExposure(average: real, stop: real, shares: nat)
    ensures RiskAt(average, stop, shares) == Exposure(average, stop, shares)
  {
    UnitRisk(average, stop, shares);
    hide RiskAt;
  }

  /** The totals a fill moves to: the price paid leaves the cash, the used part of the
      reservation leaves reserved cash, and open risk changes by the reservation and by the
      whole position, sold shares included. */
  ghost predicate Moves(c: FillContext, a: FillArgs, left: Reservation, p: PositionState, stop: real, w: WalletState) {
    && w.cashAvailable == c.wallet.cashAvailable - a.price * a.quantity as real
    && w.reservedCash == c.wallet.reservedCash - c.reservation.reservedCash + left.reservedCash
    && w.openRisk == c.wallet.openRisk - c.reservation.reservedRisk + left.reservedRisk
                     - (match c.existing
                        case Some(e) => if e.stop.Some? then Exposure(e.averageFill, e.stop.value, e.quantity) else 0.0
                        case None => 0.0)
                     + Exposure(p.averageFill, stop, p.quantity)
  }

  lemma ProposedMoves(c: FillContext, a: FillArgs, p: PositionState, stop: real)
    requires 0 < a.quantity <= c.reservation.quantity
    ensures Moves(c, a, Consumed(c.plan, c.reservation, a.quantity), p, stop, ProposedWallet(c, a, p, stop))
  {
    RiskIsExposure(p.averageFill, stop, p.quantity);
    if c.existing.Some? && c.existing.value.stop.Some? {
      RiskIsExposure(c.existing.value.averageFill, c.existing.value.stop.value, c.existing.value.quantity);
    }
    hide RiskAt, Exposure, Consumed;
  }

  /** A fill that passed its gates is refused exactly when one of the totals would fall
      under zero by more than the tolerance; otherwise the totals move there, remainders
      under the tolerance counting as nothing. */
  lemma FillPays(l: Ledger, c: FillContext, cfg: Settings, a: FillArgs, positionId: Id, now: int)
    returns (w: WalletState)
    requires ContextReady(l.rows, c, a.planId) && 0 < a.quantity <= c.reservation.quantity
    requires a.stopPlaced <==> a.stopPrice.Some?
    ensures Moves(c, a, Consumed(c.plan, c.reservation, a.quantity), FilledPosition(c, a, positionId, now),
                  NewStop(c.plan, c.existing, a), w)
    ensures BookFill(l, c, cfg, a, positionId, now).Raised?
       <==> w.cashAvailable < -cfg.tolerance || w.reservedCash < -cfg.tolerance || w.openRisk < -cfg.tolerance
    ensures BookFill(l, c, cfg, a, positionId, now).Ok? ==>
              var booked := BookFill(l, c, cfg, a, positionId, now).value.rows.wallet;
              && booked.Some?
              && Moved(w.cashAvailable, booked.value.cashAvailable, cfg)
              && Moved(w.reservedCash, booked.value.reservedCash, cfg)
              && Moved(w.openRisk, booked.value.openRisk, cfg)
              && booked.value.capitalBase == c.wallet.capitalBase
              && booked.value.dailyRealizedLoss == c.wallet.dailyRealizedLoss
              && booked.value.version == c.wallet.version + 1 && booked.value.asOf == Some(now)
  {
    var stop := NewStop(c.plan, c.existing, a);
    assert EffectiveStop(c.plan, c.existing, a) == stop;
    hide FilledPosition, EffectiveStop, NewStop, Moves;
    w := ProposedWallet(c, a, FilledPosition(c, a, positionId, now), stop);
    ProposedMoves(c, a, FilledPosition(c, a, positionId, now), stop);
    ProposedFrame(c, a, FilledPosition(c, a, positionId, now), stop);
    hide ProposedWallet, Consumed;
  }

  lemma ProposedFrame(c: FillContext, a: FillArgs, p: PositionState, stop: real)
    requires 0 < a.quantity <= c.reservation.quantity
    ensures var w := ProposedWallet(c, a, p, stop);
            && w.capitalBase == c.wallet.capitalBase && w.dailyRealizedLoss == c.wallet.dailyRealizedLoss
            && w.version == c.wallet.version
  {
    hide RiskAt, Consumed;
  }

  /** Less than the tolerance counts as nothing. */
  predicate Moved(exact: real, booked: real, cfg: Settings) {
    if -cfg.tolerance < exact < cfg.tolerance then booked == 0.0 else booked == exact
  }
}

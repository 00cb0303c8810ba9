/** The structural invariant of the rows, and its preservation by every step. */
module RowSoundness {
  import opened Prelude
  import opened Domain
  import opened Sizing
  import opened Tables
  import opened Planning
  import opened Activation
  import opened Ledger

  /** A plan is RESERVED exactly while it has a reservation, and nothing is ever cancelled. */
  ghost predicate PlanRows(rows: Rows) {
    && (forall id :: id in rows.reservations <==> id in rows.plans && rows.plans[id].status == PlanReserved)
    && (forall id :: id in rows.plans ==>
          rows.plans[id].status != PlanCancelled && rows.plans[id].entryTrigger >= 0.0
              && rows.plans[id].qualityRiskMultiplier > 0.0)
  }

  /** A reservation is priced from its plan, whose stop lies below its trigger. */
  ghost predicate Priced(r: Reservation, p: TradePlan) {
    && r.quantity > 0 && p.RiskPerShare() > 0.0 && p.entryZoneHigh > 0.0
    && r.reservedCash == Amount(r.quantity, p.entryZoneHigh)
    && r.reservedRisk == Amount(r.quantity, p.RiskPerShare())
  }

  ghost predicate ReservationRows(rows: Rows) {
    forall id :: id in rows.reservations ==> id in rows.plans && Priced(rows.reservations[id], rows.plans[id])
  }

  ghost predicate PositionRow(p: PositionState) {
    && 0 < p.quantity && p.remainingQuantity <= p.quantity
    && (p.closedAt.None? <==> p.remainingQuantity > 0)
  }

  ghost predicate PositionRows(rows: Rows) {
    && (forall id :: id in rows.positions ==> PositionRow(rows.positions[id]))
    && (forall id :: id in rows.positions && rows.positions[id].planId in rows.plans ==> rows.positions[id].stop.Some?)
  }

  /** Each plan has at most one open position. */
  ghost predicate OnePerPlan(rows: Rows) {
    forall i, j :: (i in rows.positions && j in rows.positions && rows.positions[i].Open() && rows.positions[j].Open()
                    && rows.positions[i].planId == rows.positions[j].planId) ==> i == j
  }

  ghost predicate WalletFirst(rows: Rows) {
    && (rows.wallet.None? ==> rows.reservations == map[] && rows.positions == map[])
    && (rows.wallet.Some? ==> rows.wallet.value.capitalBase > 0.0)
  }

  ghost predicate Sound(rows: Rows) {
    PlanRows(rows) && ReservationRows(rows) && PositionRows(rows) && OnePerPlan(rows) && WalletFirst(rows)
  }

  /** A plan identifier no row mentions. */
  ghost predicate FreshPlan(rows: Rows, planId: Id) {
    && planId !in rows.plans
    && forall id :: id in rows.positions ==> rows.positions[id].planId != planId
  }

  ghost predicate FreshImport(rows: Rows, ids: ImportIds) {
    ids.positionId !in rows.positions && FreshPlan(rows, ids.planId)
  }

  lemma SeedSound(l: Ledger, capital: real, cash: real, now: int)
    requires Sound(l.rows) && SeedWallet(l, capital, cash, now).Ok?
    ensures Sound(SeedWallet(l, capital, cash, now).value.rows)
  {
  }

  lemma ReconcileWalletSound(l: Ledger, capital: real, cash: real, dailyLoss: real, now: int)
    requires Sound(l.rows) && ReconcileWallet(l, capital, cash, dailyLoss, now).Ok?
    ensures Sound(ReconcileWallet(l, capital, cash, dailyLoss, now).value.rows)
  {
  }

  lemma ImportSound(l: Ledger, a: ImportArgs, ids: ImportIds, now: int)
    requires Sound(l.rows) && FreshImport(l.rows, ids) && ImportPosition(l, a, ids, now).Ok?
    ensures Sound(ImportPosition(l, a, ids, now).value.rows)
  {
  }

  /** Reconciliation touches two fields of an open row. */
  lemma ReconcileRow(p: PositionState, holdings: seq<Holding>, held: real, now: int)
    ensures var q := Reconcile(p, holdings, held, now);
            && q == p.(reconciliationState := q.reconciliationState, lastReconciledAt := q.lastReconciledAt)
            && (PositionRow(q) <==> PositionRow(p)) && (q.Open() <==> p.Open())
  {
  }

  lemma ReconcileHoldingsSound(l: Ledger, holdings: seq<Holding>, order: seq<Id>, notes: seq<Event>, now: int)
    requires Sound(l.rows) && ReconcileHoldings(l, holdings, order, notes, now).Ok?
    ensures Sound(ReconcileHoldings(l, holdings, order, notes, now).value.rows)
  {
    hide Reconcile, PositionRow;
    var before := l.rows.positions;
    var after := ReconciledPositions(before, holdings, now);
    forall id | id in before
      ensures after[id].planId == before[id].planId && after[id].stop == before[id].stop
              && (PositionRow(after[id]) <==> PositionRow(before[id])) && (after[id].Open() <==> before[id].Open())
    {
      ReconcileRow(before[id], holdings, Sum(before, SharesIn(before[id].Ticker())), now);
    }
  }

  lemma BuiltPlanRow(input: PlanInput, cfg: Settings, planId: Id, now: int)
    requires BuildTradePlan(input, cfg, planId, now).Ok?
    ensures var plan := BuildTradePlan(input, cfg, planId, now).value;
            plan.status == PlanActive && plan.entryTrigger >= 0.0 && plan.qualityRiskMultiplier > 0.0
  {
    PositivePrice(input.snapshot.openingRangeHigh.value);
    hide Round4, VolatilityGateReason, TargetAtrBudgetReason, LaneRiskMultiplier, Percent, Min, Max;
  }

  lemma PositivePrice(x: real)
    ensures x > 0.0 ==> Round4(x) >= 0.0
  {
  }

  lemma IssueSound(l: Ledger, input: PlanInput, cfg: Settings, planId: Id, now: int)
    requires Sound(l.rows) && FreshPlan(l.rows, planId) && IssuePlan(l, input, cfg, planId, now).Ok?
    ensures Sound(IssuePlan(l, input, cfg, planId, now).value.rows)
  {
    BuiltPlanRow(input, cfg, planId, now);
    hide BuildTradePlan;
  }

  lemma TriggerSound(l: Ledger, cfg: Settings, planId: Id, at: int)
    requires Sound(l.rows)
    ensures Sound(RecordTrigger(l, cfg, planId, at).rows)
  {
  }

  lemma ReleaseSound(l: Ledger, planId: Id, reason: ReleaseReason, now: int)
    requires Sound(l.rows)
    ensures Sound(Release(l, planId, reason, now).rows)
    ensures planId !in Release(l, planId, reason, now).rows.reservations
  {
  }

  lemma SweepPlanSound(l: Ledger, planId: Id, now: int)
    requires Sound(l.rows)
    ensures Sound(SweepPlan(l, planId, now).rows)
  {
    ReleaseSound(l, planId, ReleasedPlanExpired, now);
  }

  lemma {:induction false} SweepPlansSound(l: Ledger, order: seq<Id>, now: int)
    requires Sound(l.rows)
    ensures Sound(SweepPlans(l, order, now).rows)
    decreases |order|
  {
    if order != [] {
      SweepPlansSound(l, order[..|order| - 1], now);
      SweepPlanSound(SweepPlans(l, order[..|order| - 1], now), order[|order| - 1], now);
    }
  }

  lemma {:induction false} SweepReservationsSound(l: Ledger, order: seq<Id>, now: int)
    requires Sound(l.rows)
    ensures Sound(SweepReservations(l, order, now).rows)
    decreases |order|
  {
    if order != [] {
      SweepReservationsSound(l, order[..|order| - 1], now);
      ReleaseSound(SweepReservations(l, order[..|order| - 1], now), order[|order| - 1], ReservationExpired, now);
    }
  }

  lemma SweepSound(l: Ledger, listing: Listing, now: int)
    requires Sound(l.rows)
    ensures Sound(Sweep(l, listing, now).rows)
  {
    SweepPlansSound(l, listing.plans, now);
    SweepReservationsSound(SweepPlans(l, listing.plans, now), listing.reservations, now);
  }

  /** A plan copy whose levels are those of the stored row. */
  ghost predicate SameLevels(p: TradePlan, q: TradePlan) {
    p == q.(status := p.status)
  }

  lemma ReserveSound(l: Ledger, cfg: Settings, planId: Id, plan: TradePlan, quantity: nat, now: int)
    requires Sound(l.rows) && l.rows.wallet.Some? && planId in l.rows.plans && plan.qualityRiskMultiplier > 0.0
    requires planId !in l.rows.reservations && SameLevels(plan, l.rows.plans[planId])
    requires quantity > 0 && plan.RiskPerShare() > 0.0 && plan.entryZoneHigh > 0.0
    ensures Sound(Reserve(l, cfg, planId, plan, quantity, now).rows)
  {
    var rows := Reserve(l, cfg, planId, plan, quantity, now).rows;
    assert Priced(rows.reservations[planId], rows.plans[planId]);
    forall id | id in rows.reservations ensures id in rows.plans && Priced(rows.reservations[id], rows.plans[id]) {
      if id != planId {
        assert Priced(l.rows.reservations[id], l.rows.plans[id]);
      }
    }
  }

  lemma ActivationSound(l: Ledger, cfg: Settings, planId: Id, ctx: MarketContext, now: int)
    requires Sound(l.rows) && ActivateWithContext(l, cfg, planId, ctx, now).Ok?
    ensures Sound(ActivateWithContext(l, cfg, planId, ctx, now).value.rows)
  {
    if planId in l.rows.plans {
      var plan := l.rows.plans[planId];
      if plan.status == PlanExpired || now > plan.expiresAt {
        ReleaseSound(l, planId, ReleasedPlanExpired, now);
      } else if l.rows.wallet.None? || plan.status == PlanFilled {
      } else if |OpenPositions(l.rows)| >= cfg.maxConcurrentPositions && !PlanHasOpen(l.rows, planId) {
        ReleaseSound(l, planId, MaxConcurrentReached, now);
      } else if planId in l.rows.reservations && now <= l.rows.reservations[planId].expiresAt {
      } else {
        ReleaseSound(l, planId, ReservationExpired, now);
        EvaluateAndReserveSound(Release(l, planId, ReservationExpired, now), cfg, planId, plan, ctx, now);
      }
    }
  }

  lemma EvaluateAndReserveSound(l: Ledger, cfg: Settings, planId: Id, plan: TradePlan, ctx: MarketContext, now: int)
    requires Sound(l.rows) && l.rows.wallet.Some? && planId in l.rows.plans && plan.qualityRiskMultiplier > 0.0
    requires planId !in l.rows.reservations && SameLevels(plan, l.rows.plans[planId])
    requires EvaluateAndReserve(l, cfg, planId, plan, ctx, now).Ok?
    ensures Sound(EvaluateAndReserve(l, cfg, planId, plan, ctx, now).value.rows)
  {
    BuyNowIff(plan, ctx.snapshot, l.rows.wallet.value, None, GateOf(cfg, ctx), now);
    var d := Activate(plan, ctx.snapshot, l.rows.wallet.value, None, GateOf(cfg, ctx), now).value;
    if d.0 == BuyNow {
      ReserveSound(Commit(l, l.rows, [Event(PlanEvaluated, OfRow(planId), NO_ROWS)]), cfg, planId, plan, d.1, now);
    }
  }

  /** What the gates leave true of the rows a fill reads. */
  ghost predicate ContextReady(rows: Rows, c: FillContext, planId: Id) {
    && planId in rows.plans && planId in rows.reservations && rows.wallet.Some?
    && c == ContextOf(rows, planId)
  }

  lemma OpenPositionFound(rows: Rows, planId: Id)
    requires PlanHasOpen(rows, planId)
    ensures var found := OpenPositionOf(rows, planId);
            found.Some? && found.value in rows.positions && rows.positions[found.value].Open()
            && rows.positions[found.value].planId == planId
  {
  }

  /** A plan and its reservation after some of the reserved shares were filled. */
  lemma ConsumedSound(rows: Rows, planId: Id, quantity: int, rows': Rows)
    requires Sound(rows) && planId in rows.plans && planId in rows.reservations
    requires 0 < quantity <= rows.reservations[planId].quantity
    requires var r := Consumed(rows.plans[planId], rows.reservations[planId], quantity);
             var status := if r.quantity == 0 then PlanFilled else PlanReserved;
             && rows'.plans == rows.plans[planId := rows.plans[planId].(status := status)]
             && rows'.reservations
                == if r.quantity == 0 then rows.reservations - {planId} else rows.reservations[planId := r]
    ensures PlanRows(rows') && ReservationRows(rows')
  {
    var r := Consumed(rows.plans[planId], rows.reservations[planId], quantity);
    assert Priced(rows.reservations[planId], rows.plans[planId]);
    forall id | id in rows'.reservations ensures id in rows'.plans && Priced(rows'.reservations[id], rows'.plans[id]) {
      if id == planId {
        assert rows'.reservations[id] == r;
      } else {
        assert Priced(rows.reservations[id], rows.plans[id]);
      }
    }
  }

  /** Opening or growing the plan's only open position. */
  lemma PositionWriteSound(rows: Rows, rows': Rows, p: PositionState)
    requires Sound(rows) && PositionRow(p) && p.Open() && p.stop.Some?
    requires rows'.plans.Keys == rows.plans.Keys && rows'.positions == rows.positions[p.positionId := p]
    requires p.positionId !in rows.positions ==> !PlanHasOpen(rows, p.planId)
    requires p.positionId in rows.positions ==>
               rows.positions[p.positionId].Open() && rows.positions[p.positionId].planId == p.planId
    ensures PositionRows(rows') && OnePerPlan(rows')
  {
  }

  lemma FilledPositionRow(c: FillContext, a: FillArgs, positionId: Id, now: int)
    requires 0 < a.quantity
    requires c.existing.Some? ==> PositionRow(c.existing.value) && c.existing.value.Open()
    ensures var p := FilledPosition(c, a, positionId, now);
            && PositionRow(p) && p.Open() && p.stop == Some(EffectiveStop(c.plan, c.existing, a))
            && p.positionId == (if c.existing.Some? then c.existing.value.positionId else positionId)
            && p.planId == (if c.existing.Some? then c.existing.value.planId else a.planId)
  {
  }

  lemma BookFillSound(l: Ledger, c: FillContext, cfg: Settings, a: FillArgs, positionId: Id, now: int)
    requires Sound(l.rows) && ContextReady(l.rows, c, a.planId)
    requires forall id :: id in l.rows.positions ==> l.rows.positions[id].positionId == id
    requires 0 < a.quantity <= c.reservation.quantity && positionId !in l.rows.positions
    requires BookFill(l, c, cfg, a, positionId, now).Ok?
    ensures Sound(BookFill(l, c, cfg, a, positionId, now).value.rows)
  {
    var rows := BookFill(l, c, cfg, a, positionId, now).value.rows;
    if PlanHasOpen(l.rows, a.planId) {
      OpenPositionFound(l.rows, a.planId);
    }
    FilledPositionRow(c, a, positionId, now);
    ConsumedSound(l.rows, a.planId, a.quantity, rows);
    PositionWriteSound(l.rows, rows, FilledPosition(c, a, positionId, now));
  }

  lemma ProtectSound(l: Ledger, cfg: Settings, positionId: Id, stop: real, ref: Option<string>, now: int)
    requires Sound(l.rows) && ProtectPosition(l, cfg, positionId, stop, ref, now).Ok?
    ensures Sound(ProtectPosition(l, cfg, positionId, stop, ref, now).value.rows)
  {
  }

  lemma ExitSound(l: Ledger, positionId: Id, price: real, quantity: int, now: int)
    requires Sound(l.rows) && ConfirmExit(l, positionId, price, quantity, now).Ok?
    ensures Sound(ConfirmExit(l, positionId, price, quantity, now).value.rows)
  {
  }
}

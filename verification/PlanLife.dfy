/** How long plans live and what FILLED means, over every run. */
module PlanLife {
  import opened Prelude
  import opened Domain
  import opened Sizing
  import opened Tables
  import opened Planning
  import opened Activation
  import opened Ledger
  import opened Rebuilding
  import opened ReplayAgreement
  import opened RowSoundness
  import opened FillAccounting
  import opened Runs

  /** Some position of this plan bought shares. */
  ghost predicate Bought(rows: Rows, planId: Id) {
    exists id :: id in rows.positions && rows.positions[id].planId == planId && rows.positions[id].quantity > 0
  }

  /** No plan appears or changes its times, positions only grow, and a plan becomes
      FILLED only with shares bought. */
  ghost predicate Lives(rows: Rows, rows': Rows) {
    && (forall id :: id in rows'.plans ==>
          && id in rows.plans
          && rows'.plans[id].createdAt == rows.plans[id].createdAt
          && rows'.plans[id].expiresAt == rows.plans[id].expiresAt
          && rows'.plans[id].triggeredAt == rows.plans[id].triggeredAt
          && (rows'.plans[id].status == PlanFilled ==> rows.plans[id].status == PlanFilled || Bought(rows', id)))
    && (forall id :: id in rows.positions ==>
          && id in rows'.positions && rows'.positions[id].planId == rows.positions[id].planId
          && rows'.positions[id].quantity >= rows.positions[id].quantity)
  }

  lemma LivesTransitive(a: Rows, b: Rows, c: Rows)
    requires Lives(a, b) && Lives(b, c)
    ensures Lives(a, c)
  {
    forall id | id in c.plans && c.plans[id].status == PlanFilled
      ensures id in a.plans && (a.plans[id].status == PlanFilled || Bought(c, id))
    {
      if b.plans[id].status == PlanFilled && a.plans[id].status != PlanFilled {
        var p :| p in b.positions && b.positions[p].planId == id && b.positions[p].quantity > 0;
        assert p in c.positions;
      }
    }
  }

  lemma ReleaseLives(l: Ledger, planId: Id, reason: ReleaseReason, now: int)
    ensures Lives(l.rows, Release(l, planId, reason, now).rows)
  {
    var rows := Release(l, planId, reason, now).rows;
    if PartlyFilled(l.rows, planId) {
      var id :| id in l.rows.positions && l.rows.positions[id].planId == planId && l.rows.positions[id].quantity > 0;
      assert id in rows.positions;
    }
  }

  lemma SweepPlanLives(l: Ledger, planId: Id, now: int)
    ensures Lives(l.rows, SweepPlan(l, planId, now).rows)
  {
    ReleaseLives(l, planId, ReleasedPlanExpired, now);
  }

  lemma {:induction false} SweepPlansLive(l: Ledger, order: seq<Id>, now: int)
    ensures Lives(l.rows, SweepPlans(l, order, now).rows)
    decreases |order|
  {
    hide Lives, SweepPlan;
    if order != [] {
      var l1 := SweepPlans(l, order[..|order| - 1], now);
      SweepPlansLive(l, order[..|order| - 1], now);
      SweepPlanLives(l1, order[|order| - 1], now);
      LivesTransitive(l.rows, l1.rows, SweepPlans(l, order, now).rows);
    } else {
      SameLives(l.rows);
    }
  }

  lemma SameLives(rows: Rows)
    ensures Lives(rows, rows)
  {
  }

  lemma {:induction false} SweepReservationsLive(l: Ledger, order: seq<Id>, now: int)
    ensures Lives(l.rows, SweepReservations(l, order, now).rows)
    decreases |order|
  {
    hide Lives, Release;
    if order != [] {
      var l1 := SweepReservations(l, order[..|order| - 1], now);
      SweepReservationsLive(l, order[..|order| - 1], now);
      ReleaseLives(l1, order[|order| - 1], ReservationExpired, now);
      SameLives(l1.rows);
      LivesTransitive(l.rows, l1.rows, SweepReservations(l, order, now).rows);
    } else {
      SameLives(l.rows);
    }
  }

  lemma SweepLives(l: Ledger, listing: Listing, now: int)
    ensures Lives(l.rows, Sweep(l, listing, now).rows)
  {
    hide Lives, SweepPlans, SweepReservations;
    SweepPlansLive(l, listing.plans, now);
    SweepReservationsLive(SweepPlans(l, listing.plans, now), listing.reservations, now);
    LivesTransitive(l.rows, SweepPlans(l, listing.plans, now).rows, Sweep(l, listing, now).rows);
  }

  lemma EvaluationLives(l: Ledger, l1: Ledger, cfg: Settings, planId: Id, ctx: MarketContext, now: int)
    requires Lives(l.rows, l1.rows) && planId in l.rows.plans && l1.rows.wallet.Some?
    requires EvaluateAndReserve(l1, cfg, planId, l.rows.plans[planId], ctx, now).Ok?
    requires l1.rows.positions == l.rows.positions
    ensures Lives(l.rows, EvaluateAndReserve(l1, cfg, planId, l.rows.plans[planId], ctx, now).value.rows)
  {
    hide Activate, ReservationFor, ReservedWallet;
    var rows := EvaluateAndReserve(l1, cfg, planId, l.rows.plans[planId], ctx, now).value.rows;
    assert forall id :: Bought(l1.rows, id) <==> Bought(rows, id) by {
      assert rows.positions == l1.rows.positions;
    }
  }

  lemma ActivationLives(l: Ledger, cfg: Settings, planId: Id, ctx: MarketContext, now: int)
    requires ActivateWithContext(l, cfg, planId, ctx, now).Ok?
    ensures Lives(l.rows, ActivateWithContext(l, cfg, planId, ctx, now).value.rows)
  {
    hide OpenPositions, PlanHasOpen, EvaluateAndReserve, Release, Lives;
    ReleaseLives(l, planId, ReleasedPlanExpired, now);
    ReleaseLives(l, planId, MaxConcurrentReached, now);
    ReleaseLives(l, planId, ReservationExpired, now);
    SameLives(l.rows);
    if planId in l.rows.plans {
      var l1, plan := Release(l, planId, ReservationExpired, now), l.rows.plans[planId];
      ExpiredLives(l, Release(l, planId, ReleasedPlanExpired, now), planId);
      ReleaseKeepsPositions(l, planId, ReservationExpired, now);
      if l1.rows.wallet.Some? && EvaluateAndReserve(l1, cfg, planId, plan, ctx, now).Ok? {
        EvaluationLives(l, l1, cfg, planId, ctx, now);
      }
    }
  }

  lemma ReleaseKeepsPositions(l: Ledger, planId: Id, reason: ReleaseReason, now: int)
    ensures Release(l, planId, reason, now).rows.positions == l.rows.positions
    ensures Release(l, planId, reason, now).rows.wallet.Some? <==> l.rows.wallet.Some?
  {
  }

  lemma ExpiredLives(l: Ledger, l1: Ledger, planId: Id)
    requires Lives(l.rows, l1.rows) && planId in l.rows.plans
    ensures Lives(l.rows, l1.rows.(plans := l1.rows.plans[planId := l.rows.plans[planId].(status := PlanExpired)]))
  {
    var rows := l1.rows.(plans := l1.rows.plans[planId := l.rows.plans[planId].(status := PlanExpired)]);
    assert forall id :: Bought(l1.rows, id) <==> Bought(rows, id) by {
      assert rows.positions == l1.rows.positions;
    }
  }

  lemma BookedLives(l: Ledger, c: FillContext, cfg: Settings, a: FillArgs, positionId: Id, now: int)
    requires Fillable(l.rows, c, a, positionId) && BookFill(l, c, cfg, a, positionId, now).Ok?
    ensures Lives(l.rows, BookFill(l, c, cfg, a, positionId, now).value.rows)
  {
    hide RiskAt, EffectiveStop, ProposedWallet, FilledPosition, Amount, Snap, Sound;
    var rows := BookFill(l, c, cfg, a, positionId, now).value.rows;
    var p := FilledPosition(c, a, positionId, now);
    FilledBelongs(l.rows, c, a, positionId, now);
    assert rows.positions == l.rows.positions[p.positionId := p];
    assert rows.positions[p.positionId].planId == a.planId && rows.positions[p.positionId].quantity > 0;
  }

  lemma FilledBelongs(rows: Rows, c: FillContext, a: FillArgs, positionId: Id, now: int)
    requires Fillable(rows, c, a, positionId)
    ensures var p := FilledPosition(c, a, positionId, now);
            && p.planId == a.planId && p.quantity > 0
            && (if p.positionId in rows.positions then rows.positions[p.positionId].planId == a.planId
                                                       && p.quantity > rows.positions[p.positionId].quantity
                else p.positionId == positionId)
  {
    FillableJoins(rows, c, a, positionId);
    hide EffectiveStop, EntryAverage, Round4, Sound;
  }

  lemma ConfirmFillLives(l: Ledger, cfg: Settings, a: FillArgs, clock: FillClock, listing: Listing, positionId: Id)
    requires Sound(l.rows) && Agrees(l) && positionId !in l.rows.positions
    requires ConfirmFill(l, cfg, a, clock, listing, positionId).Ok?
    ensures Lives(l.rows, ConfirmFill(l, cfg, a, clock, listing, positionId).value.rows)
  {
    hide BookFill, ApplyAll, FillRejection, Lives, Sweep, Sound;
    var swept := Sweep(l, listing, clock.swept);
    ConfirmFillSound(l, cfg, a, clock, listing, positionId);
    SweepLives(l, listing, clock.swept);
    BookedLives(swept, ContextOf(swept.rows, a.planId), cfg, a, positionId, clock.booked);
    LivesTransitive(l.rows, swept.rows, ConfirmFill(l, cfg, a, clock, listing, positionId).value.rows);
  }

  lemma StepLives(cfg: Settings, w: World, c: Command)
    requires Sound(w.ledger.rows) && Agrees(w.ledger) && Admissible(cfg, w.ledger, c) && Enabled(cfg, w, c)
    requires !c.Trigger? && !c.BuildPlan?
    ensures Lives(w.ledger.rows, Perform(cfg, w.ledger, c).value.rows)
  {
    hide Sum, ImportPosition, ProtectPosition, ConfirmExit, ReconcileHoldings, ConfirmFill, ActivateWithContext,
         Sweep, Release, Sound, ApplyAll, Lives;
    SameLives(w.ledger.rows);
    var l := w.ledger;
    match c
    case SweepExpired(listing, now) => SweepLives(l, listing, now);
    case ActivateBegin(_, listing, now) => SweepLives(l, listing, now);
    case ActivateEnd(planId, ctx, now) => ActivationLives(l, cfg, planId, ctx, now);
    case ReleaseReservation(planId, reason, now) => ReleaseLives(l, planId, reason, now);
    case Fill(a, clock, listing, positionId) => ConfirmFillLives(l, cfg, a, clock, listing, positionId);
    case ReconcileHoldingsCmd(holdings, order, notes, now) => HoldingsLive(l, holdings, order, notes, now);
    case Protect(positionId, stop, ref, now) => ProtectLives(l, cfg, positionId, stop, ref, now);
    case Import(a, ids, now) => ImportLives(l, a, ids, now);
    case Exit(positionId, price, quantity, now) => ExitLives(l, positionId, price, quantity, now);
    case Seed(capital, cash, now) => WalletOnlyLives(l.rows, SeedWallet(l, capital, cash, now).value.rows);
    case ReconcileWalletCmd(capital, cash, dailyLoss, now) =>
      WalletOnlyLives(l.rows, ReconcileWallet(l, capital, cash, dailyLoss, now).value.rows);
    case Observe(event) =>
  }

  lemma WalletOnlyLives(rows: Rows, rows': Rows)
    requires rows'.plans == rows.plans && rows'.positions == rows.positions
    ensures Lives(rows, rows')
  {
  }

  lemma ImportLives(l: Ledger, a: ImportArgs, ids: ImportIds, now: int)
    requires ids.positionId !in l.rows.positions && ImportPosition(l, a, ids, now).Ok?
    ensures Lives(l.rows, ImportPosition(l, a, ids, now).value.rows)
  {
    hide ImportedPosition, ImportedWallet;
  }

  lemma ExitLives(l: Ledger, positionId: Id, price: real, quantity: int, now: int)
    requires ConfirmExit(l, positionId, price, quantity, now).Ok?
    ensures Lives(l.rows, ConfirmExit(l, positionId, price, quantity, now).value.rows)
  {
    hide ExitedWallet, ExitPnl;
  }

  lemma ProtectLives(l: Ledger, cfg: Settings, positionId: Id, stop: real, ref: Option<string>, now: int)
    requires ProtectPosition(l, cfg, positionId, stop, ref, now).Ok?
    ensures Lives(l.rows, ProtectPosition(l, cfg, positionId, stop, ref, now).value.rows)
  {
    ProtectedIsSame(l, positionId, stop, ref);
    hide ProtectedPosition, RiskAt, MinStop;
  }

  lemma HoldingsLive(l: Ledger, holdings: seq<Holding>, order: seq<Id>, notes: seq<Event>, now: int)
    requires ReconcileHoldings(l, holdings, order, notes, now).Ok?
    ensures Lives(l.rows, ReconcileHoldings(l, holdings, order, notes, now).value.rows)
  {
    hide Sum, Reconcile;
    var before := l.rows.positions;
    forall id | id in before
      ensures var q := Reconcile(before[id], holdings, Sum(before, SharesIn(before[id].Ticker())), now);
              q.planId == before[id].planId && q.quantity == before[id].quantity
    {
      ReconcileRow(before[id], holdings, Sum(before, SharesIn(before[id].Ticker())), now);
    }
  }

  lemma ProtectedIsSame(l: Ledger, positionId: Id, stop: real, ref: Option<string>)
    requires positionId in l.rows.positions
    ensures var p := l.rows.positions[positionId];
            ProtectedPosition(p, stop, ref).planId == p.planId && ProtectedPosition(p, stop, ref).quantity == p.quantity
  {
  }

  /* ---- how long plans live ---- */

  /** A plan lives for its configured time, and after a trigger at least until the retest
      window and five more minutes have passed. */
  ghost predicate TimedBy(p: TradePlan, cfg: Settings) {
    var issued := p.createdAt + cfg.planTtlSeconds;
    if p.triggeredAt.None? then p.expiresAt == issued
    else
      var triggered := p.triggeredAt.value + 60 * (cfg.retestWindowMinutes + 5);
      p.expiresAt == if issued >= triggered then issued else triggered
  }

  ghost predicate Timed(rows: Rows, cfg: Settings) {
    forall id :: id in rows.plans ==> TimedBy(rows.plans[id], cfg)
  }

  lemma TriggerTimed(l: Ledger, cfg: Settings, planId: Id, at: int)
    requires Timed(l.rows, cfg)
    ensures Timed(RecordTrigger(l, cfg, planId, at).rows, cfg)
  {
  }

  lemma IssueTimed(l: Ledger, input: PlanInput, cfg: Settings, planId: Id, now: int)
    requires Timed(l.rows, cfg) && IssuePlan(l, input, cfg, planId, now).Ok?
    ensures Timed(IssuePlan(l, input, cfg, planId, now).value.rows, cfg)
  {
    IssuedTimes(input, cfg, planId, now);
    hide BuildTradePlan;
  }

  lemma IssuedTimes(input: PlanInput, cfg: Settings, planId: Id, now: int)
    requires BuildTradePlan(input, cfg, planId, now).Ok?
    ensures var plan := BuildTradePlan(input, cfg, planId, now).value;
            TimedBy(plan, cfg) && plan.status == PlanActive
  {
    hide Round4, Percent, LaneRiskMultiplier, VolatilityGateReason, TargetAtrBudgetReason;
  }

  /** In every reachable world every plan expires when its issue and its trigger say. */
  lemma {:induction false} RunTimed(cfg: Settings, cs: seq<Command>)
    requires AdmissibleRun(cfg, cs)
    ensures Timed(Run(cfg, cs).ledger.rows, cfg)
    decreases |cs|
  {
    if cs != [] {
      hide Perform, ApplyAll, Sound, TimedBy;
      var before, c := cs[..|cs| - 1], cs[|cs| - 1];
      RunAgrees(cfg, before);
      RunSound(cfg, before);
      RunTimed(cfg, before);
      var w := Run(cfg, before);
      if Enabled(cfg, w, c) {
        if c.Trigger? {
          PerformTrigger(cfg, w.ledger, c);
          TriggerTimed(w.ledger, cfg, c.planId, c.at);
        } else if c.BuildPlan? {
          PerformIssue(cfg, w.ledger, c);
          IssueTimed(w.ledger, c.input, cfg, c.planId, c.now);
        } else {
          StepLives(cfg, w, c);
          LivesTimed(w.ledger.rows, Run(cfg, cs).ledger.rows, cfg);
        }
      }
    }
  }

  lemma LivesTimed(rows: Rows, rows': Rows, cfg: Settings)
    requires Lives(rows, rows') && Timed(rows, cfg)
    ensures Timed(rows', cfg)
  {
    forall id | id in rows'.plans ensures TimedBy(rows'.plans[id], cfg) {
      assert TimedBy(rows.plans[id], cfg);
    }
  }

  /* ---- what FILLED means ---- */

  ghost predicate FilledBought(rows: Rows) {
    forall id :: id in rows.plans && rows.plans[id].status == PlanFilled ==> Bought(rows, id)
  }

  lemma LivesFilled(rows: Rows, rows': Rows)
    requires Lives(rows, rows') && FilledBought(rows)
    ensures FilledBought(rows')
  {
    forall id | id in rows'.plans && rows'.plans[id].status == PlanFilled ensures Bought(rows', id) {
      if rows.plans[id].status == PlanFilled {
        var p :| p in rows.positions && rows.positions[p].planId == id && rows.positions[p].quantity > 0;
        assert p in rows'.positions;
      }
    }
  }

  lemma QuietFilled(rows: Rows, rows': Rows)
    requires FilledBought(rows) && rows'.positions == rows.positions
    requires forall id :: id in rows'.plans && rows'.plans[id].status == PlanFilled ==>
               id in rows.plans && rows.plans[id].status == PlanFilled
    ensures FilledBought(rows')
  {
    forall id | id in rows'.plans && rows'.plans[id].status == PlanFilled ensures Bought(rows', id) {
      var p :| p in rows.positions && rows.positions[p].planId == id && rows.positions[p].quantity > 0;
      assert p in rows'.positions;
    }
  }

  lemma NewPlanRows(cfg: Settings, l: Ledger, c: Command)
    requires (c.Trigger? || c.BuildPlan?) && Perform(cfg, l, c).Ok?
    ensures var rows := Perform(cfg, l, c).value.rows;
            && rows.positions == l.rows.positions
            && forall id :: id in rows.plans && rows.plans[id].status == PlanFilled ==>
                 id in l.rows.plans && l.rows.plans[id].status == PlanFilled
  {
    if c.BuildPlan? {
      IssuedTimes(c.input, cfg, c.planId, c.now);
    }
    hide BuildTradePlan, TimedBy;
  }

  /** In every reachable world a FILLED plan has bought shares. */
  lemma {:induction false} RunFilled(cfg: Settings, cs: seq<Command>)
    requires AdmissibleRun(cfg, cs)
    ensures FilledBought(Run(cfg, cs).ledger.rows)
    decreases |cs|
  {
    if cs != [] {
      hide Perform, ApplyAll, Sound, FilledBought, Lives;
      var before, c := cs[..|cs| - 1], cs[|cs| - 1];
      RunAgrees(cfg, before);
      RunSound(cfg, before);
      RunFilled(cfg, before);
      var w := Run(cfg, before);
      if Enabled(cfg, w, c) {
        if c.Trigger? || c.BuildPlan? {
          NewPlanRows(cfg, w.ledger, c);
          QuietFilled(w.ledger.rows, Run(cfg, cs).ledger.rows);
        } else {
          StepLives(cfg, w, c);
          LivesFilled(w.ledger.rows, Run(cfg, cs).ledger.rows);
        }
      }
    } else {
      NothingFilled();
    }
  }

  lemma NothingFilled()
    ensures FilledBought(START.ledger.rows)
  {
  }

  /* ---- releases ---- */

  /** A release gives back exactly the reservation, and its plan is FILLED when the
      reservation ran out on a plan that already bought shares, and ACTIVE otherwise. */
  lemma ReleaseMeaning(l: Ledger, planId: Id, reason: ReleaseReason, now: int)
    requires Sound(l.rows)
    ensures var l' := Release(l, planId, reason, now);
            if planId !in l.rows.reservations then l' == l
            else
              && planId in l.rows.plans && l.rows.plans[planId].status == PlanReserved
              && l'.rows.reservations.Keys == l.rows.reservations.Keys - {planId}
              && (forall id :: id in l'.rows.reservations ==> l'.rows.reservations[id] == l.rows.reservations[id])
              && l'.rows.positions == l.rows.positions && l'.rows.plans.Keys == l.rows.plans.Keys
              && (forall id :: id in l.rows.plans && id != planId ==> l'.rows.plans[id] == l.rows.plans[id])
              && l'.rows.plans[planId] == l.rows.plans[planId].(
                   status := if reason == ReservationExpired && Bought(l.rows, planId) then PlanFilled else PlanActive)
  {
  }

  /** Whatever the rows, a release changes no plan that is not RESERVED. */
  lemma ReleaseSparesOthers(l: Ledger, planId: Id, reason: ReleaseReason, now: int, id: Id)
    requires id in l.rows.plans && (id != planId || l.rows.plans[id].status != PlanReserved)
    ensures id in Release(l, planId, reason, now).rows.plans
    ensures Release(l, planId, reason, now).rows.plans[id] == l.rows.plans[id]
  {
  }
}

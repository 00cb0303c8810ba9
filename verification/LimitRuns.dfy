/** Risk limits, stops and open positions over every run that seeds the wallet once. */
module LimitRuns {
  import opened Prelude
  import opened Domain
  import opened Sizing
  import opened Tables
  import opened Planning
  import opened Activation
  import opened Ledger
  import opened Rebuilding
  import opened ReplayAgreement
  import opened RowSoundness
  import opened Lifecycle
  import opened Accounting
  import opened FillAccounting
  import opened Limits
  import opened FillOffers
  import opened Runs
  import opened MoneyRuns

  lemma ConfirmFillLimited(l: Ledger, cfg: Settings, a: FillArgs, clock: FillClock, listing: Listing, positionId: Id)
    requires cfg.Valid() && Sound(l.rows) && Agrees(l) && Limited(l.rows, cfg)
    requires positionId !in l.rows.positions
    requires ConfirmFill(l, cfg, a, clock, listing, positionId).Ok?
    ensures Limited(ConfirmFill(l, cfg, a, clock, listing, positionId).value.rows, cfg)
  {
    hide BookFill, ApplyAll, PositionRejection, WithinLimits;
    var swept := Sweep(l, listing, clock.swept);
    var c := ContextOf(swept.rows, a.planId);
    ConfirmFillSound(l, cfg, a, clock, listing, positionId);
    SweepKeepsPositions(l, listing, clock.swept);
    SweepAges(l, listing, clock.swept);
    SweepAgesWallet(l, listing, clock.swept);
    SweepKeepsPlanDomain(l, listing, clock.swept);
    LimitedFrame(l.rows, swept.rows, cfg);
    BookFillLimited(swept, c, cfg, a, positionId, clock.booked);
  }

  lemma SweepKeepsPlanDomain(l: Ledger, listing: Listing, now: int)
    ensures Sweep(l, listing, now).rows.plans.Keys == l.rows.plans.Keys
  {
    SweepPlansKeepDomain(l, listing.plans, now);
    SweepReservationsKeepDomain(SweepPlans(l, listing.plans, now), listing.reservations, now);
  }

  lemma StepLimited(cfg: Settings, w: World, c: Command, seeded: real)
    requires cfg.Valid() && Sound(w.ledger.rows) && Agrees(w.ledger) && PendingLive(w) && Limited(w.ledger.rows, cfg)
    requires Admissible(cfg, w.ledger, c) && Steady(w.ledger, c, seeded) && Enabled(cfg, w, c)
    ensures Limited(Perform(cfg, w.ledger, c).value.rows, cfg)
  {
    hide WithinLimits, ApplyAll;
    var l := w.ledger;
    if c.Fill? {
      ConfirmFillLimited(l, cfg, c.fill, c.clock, c.listing, c.positionId);
    } else if c.Protect? {
      ProtectLimited(l, cfg, c.positionId, c.stop, c.brokerOrderRef, c.now);
    } else {
      StepAges(cfg, w, c);
      StepWallet(cfg, w, c, seeded);
      StepExposures(cfg, w, c);
      LimitedFrame(l.rows, Perform(cfg, l, c).value.rows, cfg);
    }
  }

  /* ---- what fills and stop changes alone may touch ---- */

  /** No row disappears, none moves in what limits and stops look at, and no new row belongs to a plan. */
  ghost predicate ExposureKept(rows: Rows, rows': Rows) {
    && (forall id :: id in rows'.positions && rows'.positions[id].planId in rows'.plans ==>
          && id in rows.positions && rows.positions[id].planId in rows.plans
          && SameExposure(rows.positions[id], rows'.positions[id]))
    && (forall id :: id in rows.positions ==>
          id in rows'.positions && SameExposure(rows.positions[id], rows'.positions[id]))
  }

  lemma SameRowsKeepExposure(rows: Rows, rows': Rows)
    requires rows'.positions == rows.positions && rows'.plans.Keys == rows.plans.Keys
    ensures ExposureKept(rows, rows')
  {
  }

  lemma HoldingsKeepExposure(l: Ledger, holdings: seq<Holding>, order: seq<Id>, notes: seq<Event>, now: int)
    requires ReconcileHoldings(l, holdings, order, notes, now).Ok?
    ensures ExposureKept(l.rows, ReconcileHoldings(l, holdings, order, notes, now).value.rows)
  {
    hide Sum, Reconcile;
    var before := l.rows.positions;
    forall id | id in before
      ensures SameExposure(before[id], Reconcile(before[id], holdings, Sum(before, SharesIn(before[id].Ticker())), now))
    {
      ReconcileRow(before[id], holdings, Sum(before, SharesIn(before[id].Ticker())), now);
    }
  }

  lemma ImportKeepsExposure(l: Ledger, a: ImportArgs, ids: ImportIds, now: int)
    requires FreshImport(l.rows, ids) && ImportPosition(l, a, ids, now).Ok?
    ensures ExposureKept(l.rows, ImportPosition(l, a, ids, now).value.rows)
  {
    hide RiskAt, Target;
  }

  lemma IssueKeepsExposure(l: Ledger, input: PlanInput, cfg: Settings, planId: Id, now: int)
    requires FreshPlan(l.rows, planId) && IssuePlan(l, input, cfg, planId, now).Ok?
    ensures ExposureKept(l.rows, IssuePlan(l, input, cfg, planId, now).value.rows)
  {
    hide BuildTradePlan;
  }

  lemma SweepKeepsExposure(l: Ledger, listing: Listing, now: int)
    ensures ExposureKept(l.rows, Sweep(l, listing, now).rows)
  {
    hide Sweep;
    SweepKeepsPositions(l, listing, now);
    SweepKeepsPlanDomain(l, listing, now);
    SameRowsKeepExposure(l.rows, Sweep(l, listing, now).rows);
  }

  lemma ActivationKeepsExposure(l: Ledger, cfg: Settings, planId: Id, ctx: MarketContext, now: int)
    requires ActivateWithContext(l, cfg, planId, ctx, now).Ok?
    ensures ExposureKept(l.rows, ActivateWithContext(l, cfg, planId, ctx, now).value.rows)
  {
    hide ActivateWithContext;
    ActivationKeepsPositions(l, cfg, planId, ctx, now);
    ActivationKeepsDomain(l, cfg, planId, ctx, now);
    SameRowsKeepExposure(l.rows, ActivateWithContext(l, cfg, planId, ctx, now).value.rows);
  }

  lemma ReleaseKeepsExposure(l: Ledger, planId: Id, reason: ReleaseReason, now: int)
    ensures ExposureKept(l.rows, Release(l, planId, reason, now).rows)
  {
    SameRowsKeepExposure(l.rows, Release(l, planId, reason, now).rows);
  }

  lemma ExitKeepsExposure(l: Ledger, positionId: Id, price: real, quantity: int, now: int)
    requires ConfirmExit(l, positionId, price, quantity, now).Ok?
    ensures ExposureKept(l.rows, ConfirmExit(l, positionId, price, quantity, now).value.rows)
  {
    hide RiskAt, ExitPnl, Proceeds, ExitedWallet;
  }

  /** Only fills and stop changes touch what limits and stops look at. */
  lemma StepExposures(cfg: Settings, w: World, c: Command)
    requires Admissible(cfg, w.ledger, c) && Enabled(cfg, w, c) && !c.Fill? && !c.Protect?
    ensures ExposureKept(w.ledger.rows, Perform(cfg, w.ledger, c).value.rows)
  {
    hide ExposureKept, Sum, Sweep, Release, ActivateWithContext, ConfirmExit, ImportPosition, IssuePlan,
         ReconcileHoldings;
    var l := w.ledger;
    match c
    case Import(a, ids, now) => ImportKeepsExposure(l, a, ids, now);
    case ReconcileHoldingsCmd(holdings, order, notes, now) => HoldingsKeepExposure(l, holdings, order, notes, now);
    case BuildPlan(input, planId, now) => IssueKeepsExposure(l, input, cfg, planId, now);
    case SweepExpired(listing, now) => SweepKeepsExposure(l, listing, now);
    case ActivateBegin(_, listing, now) => SweepKeepsExposure(l, listing, now);
    case ActivateEnd(planId, ctx, now) => ActivationKeepsExposure(l, cfg, planId, ctx, now);
    case ReleaseReservation(planId, reason, now) => ReleaseKeepsExposure(l, planId, reason, now);
    case Exit(positionId, price, quantity, now) => ExitKeepsExposure(l, positionId, price, quantity, now);
    case Seed(capital, cash, now) => SameRowsKeepExposure(l.rows, SeedWallet(l, capital, cash, now).value.rows);
    case ReconcileWalletCmd(capital, cash, dailyLoss, now) =>
      SameRowsKeepExposure(l.rows, ReconcileWallet(l, capital, cash, dailyLoss, now).value.rows);
    case Trigger(planId, at) => SameRowsKeepExposure(l.rows, RecordTrigger(l, cfg, planId, at).rows);
    case Observe(event) => SameRowsKeepExposure(l.rows, l.rows);
    case _ =>
  }

  lemma ActivationKeepsDomain(l: Ledger, cfg: Settings, planId: Id, ctx: MarketContext, now: int)
    requires ActivateWithContext(l, cfg, planId, ctx, now).Ok?
    ensures ActivateWithContext(l, cfg, planId, ctx, now).value.rows.plans.Keys == l.rows.plans.Keys
  {
    hide Activate, Amount;
  }

  /** In every reachable world each fill-created position keeps its notional and
      risk limits, up to the tolerances the gates and stop changes allow. */
  lemma {:induction false} RunLimited(cfg: Settings, cs: seq<Command>, seeded: real)
    requires cfg.Valid() && SteadyRun(cfg, cs, seeded)
    ensures Limited(Run(cfg, cs).ledger.rows, cfg)
    decreases |cs|
  {
    if cs != [] {
      hide Perform, ApplyAll, WithinLimits;
      var before, c := cs[..|cs| - 1], cs[|cs| - 1];
      SteadyIsAdmissible(cfg, before, seeded);
      RunAgrees(cfg, before);
      RunSound(cfg, before);
      RunLimited(cfg, before, seeded);
      if Enabled(cfg, Run(cfg, before), c) {
        StepLimited(cfg, Run(cfg, before), c, seeded);
      }
    }
  }

  lemma ConfirmFillStops(l: Ledger, cfg: Settings, a: FillArgs, clock: FillClock, listing: Listing, positionId: Id)
    requires cfg.tolerance >= 0.0 && Sound(l.rows) && Agrees(l) && positionId !in l.rows.positions
    requires ConfirmFill(l, cfg, a, clock, listing, positionId).Ok?
    ensures StopsHold(l.rows, ConfirmFill(l, cfg, a, clock, listing, positionId).value.rows, cfg.tolerance)
  {
    hide BookFill, ApplyAll, FillRejection, Sweep;
    var swept := Sweep(l, listing, clock.swept);
    ConfirmFillSound(l, cfg, a, clock, listing, positionId);
    SweepKeepsPositions(l, listing, clock.swept);
    BookFillStops(swept, ContextOf(swept.rows, a.planId), cfg, a, positionId, clock.booked);
  }

  lemma KeptStops(rows: Rows, rows': Rows, tolerance: real)
    requires ExposureKept(rows, rows') && tolerance >= 0.0
    ensures StopsHold(rows, rows', tolerance)
  {
  }

  /** From one world of any run to the next, re-seeds and reconciliations included,
      no stop falls by more than the tolerance. */
  lemma RunStopsHold(cfg: Settings, cs: seq<Command>, c: Command)
    requires cfg.tolerance >= 0.0 && AdmissibleRun(cfg, cs + [c])
    ensures StopsHold(Run(cfg, cs).ledger.rows, Run(cfg, cs + [c]).ledger.rows, cfg.tolerance)
  {
    hide Perform, ApplyAll, ExposureKept;
    assert (cs + [c])[..|cs + [c]| - 1] == cs;
    RunAgrees(cfg, cs);
    RunSound(cfg, cs);
    if Enabled(cfg, Run(cfg, cs), c) {
      StepStops(cfg, Run(cfg, cs), c);
    }
  }

  lemma StepStops(cfg: Settings, w: World, c: Command)
    requires cfg.tolerance >= 0.0 && Sound(w.ledger.rows) && Agrees(w.ledger) && Admissible(cfg, w.ledger, c)
             && Enabled(cfg, w, c)
    ensures StopsHold(w.ledger.rows, Perform(cfg, w.ledger, c).value.rows, cfg.tolerance)
  {
    hide StopsHold, ExposureKept, ApplyAll, Sound, ConfirmFill, ProtectPosition;
    var l := w.ledger;
    if c.Fill? {
      ConfirmFillStops(l, cfg, c.fill, c.clock, c.listing, c.positionId);
    } else if c.Protect? {
      ProtectStops(l, cfg, c.positionId, c.stop, c.brokerOrderRef, c.now);
    } else {
      StepExposures(cfg, w, c);
      KeptStops(l.rows, Perform(cfg, l, c).value.rows, cfg.tolerance);
    }
  }

  /** With a zero tolerance the limits are the gates themselves. */
  lemma ExactLimits(cfg: Settings, cs: seq<Command>, seeded: real, id: Id)
    requires cfg.Valid() && cfg.tolerance == 0.0 && SteadyRun(cfg, cs, seeded)
    requires var rows := Run(cfg, cs).ledger.rows; id in rows.positions && rows.positions[id].planId in rows.plans
    ensures var rows := Run(cfg, cs).ledger.rows;
            var p := rows.positions[id];
            && rows.wallet.Some? && p.stop.Some?
            && p.averageFill * p.quantity as real <= MaxNotional(rows.wallet.value, cfg)
            && (p.averageFill - p.stop.value) * p.quantity as real
               <= AllowedRisk(rows.wallet.value, rows.plans[p.planId], cfg)
  {
    hide AllowedRisk, MaxNotional, RiskAt, Loosening, Perform;
    RunLimited(cfg, cs, seeded);
    var rows := Run(cfg, cs).ledger.rows;
    var p := rows.positions[id];
    assert WithinLimits(p, rows.wallet.value, rows.plans[p.planId], cfg);
    NoLoosening(p.quantity, rows.wallet.value.version);
    AtMostRisk(p.averageFill, p.stop.value, p.quantity);
  }

  lemma AtMostRisk(average: real, stop: real, shares: nat)
    ensures (average - stop) * shares as real <= RiskAt(average, stop, shares)
  {
  }

  lemma NoLoosening(shares: nat, version: nat)
    ensures Loosening(0.0, shares, version) == 0.0
  {
    assert 0.0 * shares as real == 0.0;
  }

  /* ---- how many positions are open ---- */

  ghost predicate NoImports(cs: seq<Command>) {
    forall i :: 0 <= i < |cs| ==> !cs[i].Import?
  }

  lemma FillOpens(rows: Rows, rows': Rows, p: PositionState)
    requires rows'.positions == rows.positions[p.positionId := p]
    ensures OpenPositions(rows') <= OpenPositions(rows) + {p.positionId}
    ensures |OpenPositions(rows')| <= |OpenPositions(rows) + {p.positionId}|
  {
    Subset(OpenPositions(rows'), OpenPositions(rows) + {p.positionId});
  }

  lemma {:induction false} Subset(a: set<Id>, b: set<Id>)
    requires a <= b
    ensures |a| <= |b|
  {
    assert b == a + (b - a);
  }

  /** A fill opens a position only while there is room, and otherwise joins an open one. */
  lemma BookFillOpens(l: Ledger, c: FillContext, cfg: Settings, a: FillArgs, positionId: Id, now: int)
    requires Fillable(l.rows, c, a, positionId) && c.openCount == |OpenPositions(l.rows)| <= cfg.maxConcurrentPositions
    requires FillRejection(c, cfg, a).None? && BookFill(l, c, cfg, a, positionId, now).Ok?
    ensures |OpenPositions(BookFill(l, c, cfg, a, positionId, now).value.rows)| <= cfg.maxConcurrentPositions
  {
    RoomForNew(c, cfg, a);
    hide BookFill, FilledPosition, OpenPositions, FillRejection;
    var rows := BookFill(l, c, cfg, a, positionId, now).value.rows;
    var p := FilledPosition(c, a, positionId, now);
    FillableJoins(l.rows, c, a, positionId);
    FilledPositionRow(c, a, positionId, now);
    BookFillWrites(l, c, cfg, a, positionId, now);
    FillOpens(l.rows, rows, p);
    if c.existing.Some? {
      OpenAlready(l.rows, p.positionId);
    }
  }

  lemma RoomForNew(c: FillContext, cfg: Settings, a: FillArgs)
    requires FillRejection(c, cfg, a).None? && a.quantity > 0
    ensures c.existing.None? ==> c.openCount < cfg.maxConcurrentPositions
  {
    hide CandidateRisk, AllowedRisk, EntryAverage, EffectiveStop, MaxNotional, MinPlanStop;
  }

  lemma OpenAlready(rows: Rows, id: Id)
    requires id in rows.positions && rows.positions[id].Open()
    ensures OpenPositions(rows) + {id} == OpenPositions(rows)
  {
  }

  lemma ConfirmFillOpens(l: Ledger, cfg: Settings, a: FillArgs, clock: FillClock, listing: Listing, positionId: Id)
    requires Sound(l.rows) && Agrees(l) && |OpenPositions(l.rows)| <= cfg.maxConcurrentPositions
    requires positionId !in l.rows.positions
    requires ConfirmFill(l, cfg, a, clock, listing, positionId).Ok?
    ensures |OpenPositions(ConfirmFill(l, cfg, a, clock, listing, positionId).value.rows)| <= cfg.maxConcurrentPositions
  {
    hide BookFill, ApplyAll, FillRejection, Sweep, OpenPositionOf;
    var swept := Sweep(l, listing, clock.swept);
    ConfirmFillSound(l, cfg, a, clock, listing, positionId);
    SweepKeepsPositions(l, listing, clock.swept);
    assert OpenPositions(swept.rows) == OpenPositions(l.rows);
    hide OpenPositions;
    BookFillOpens(swept, ContextOf(swept.rows, a.planId), cfg, a, positionId, clock.booked);
  }

  lemma StepOpens(cfg: Settings, w: World, c: Command)
    requires Sound(w.ledger.rows) && Agrees(w.ledger) && Admissible(cfg, w.ledger, c) && Enabled(cfg, w, c)
    requires !c.Import? && |OpenPositions(w.ledger.rows)| <= cfg.maxConcurrentPositions
    ensures |OpenPositions(Perform(cfg, w.ledger, c).value.rows)| <= cfg.maxConcurrentPositions
  {
    hide ApplyAll, ConfirmFill;
    var l := w.ledger;
    if c.Fill? {
      ConfirmFillOpens(l, cfg, c.fill, c.clock, c.listing, c.positionId);
    } else {
      OpenSubset(cfg, w, c);
      Subset(OpenPositions(Perform(cfg, l, c).value.rows), OpenPositions(l.rows));
    }
  }

  lemma OpenSubset(cfg: Settings, w: World, c: Command)
    requires Sound(w.ledger.rows) && Enabled(cfg, w, c) && !c.Import? && !c.Fill?
    ensures OpenPositions(Perform(cfg, w.ledger, c).value.rows) <= OpenPositions(w.ledger.rows)
  {
    var l := w.ledger;
    match c
    case SweepExpired(listing, now) => SweepKeepsPositions(l, listing, now);
    case ActivateBegin(_, listing, now) => SweepKeepsPositions(l, listing, now);
    case ActivateEnd(planId, ctx, now) => ActivationKeepsPositions(l, cfg, planId, ctx, now);
    case ReconcileHoldingsCmd(holdings, order, notes, now) =>
      var before := l.rows.positions;
      forall id | id in before
        ensures Reconcile(before[id], holdings, Sum(before, SharesIn(before[id].Ticker())), now).Open()
                <==> before[id].Open()
      {
        ReconcileRow(before[id], holdings, Sum(before, SharesIn(before[id].Ticker())), now);
      }
    case _ =>
  }

  /** Without imports a run never holds more open positions than the limit. */
  lemma {:induction false} RunOpens(cfg: Settings, cs: seq<Command>)
    requires AdmissibleRun(cfg, cs) && NoImports(cs)
    ensures |OpenPositions(Run(cfg, cs).ledger.rows)| <= cfg.maxConcurrentPositions
    decreases |cs|
  {
    if cs == [] {
      assert OpenPositions(NO_STATE) == {};
    } else {
      hide Perform, ApplyAll;
      var before, c := cs[..|cs| - 1], cs[|cs| - 1];
      RunAgrees(cfg, before);
      RunSound(cfg, before);
      RunOpens(cfg, before);
      if Enabled(cfg, Run(cfg, before), c) {
        StepOpens(cfg, Run(cfg, before), c);
      }
    }
  }

  /* ---- what the service promises about its own errors ---- */

  /** A fill that passes the gates and joins no partly exited position is booked: its
      accounting guard cannot fire while open risk is short by at most one tolerance,
      which in exact arithmetic it is in every world of a whole run. */
  lemma GatedFillIsBooked(cfg: Settings, cs: seq<Command>, seeded: real, a: FillArgs, clock: FillClock,
                          listing: Listing, positionId: Id)
    requires cfg.Valid() && SteadyRun(cfg, cs, seeded)
    requires var l := Run(cfg, cs).ledger;
             var c := Fill(a, clock, listing, positionId);
             var swept := Sweep(l, listing, clock.swept);
             && Admissible(cfg, l, c) && FillsWhole(l, c)
             && ContextRejection(swept.rows, a.planId, clock.checked).None?
             && FillRejection(ContextOf(swept.rows, a.planId), cfg, a).None?
             && ((cfg.tolerance == 0.0 && WholeRun(cfg, cs)) || RiskDrift(swept.rows) >= -cfg.tolerance)
    ensures ConfirmFill(Run(cfg, cs).ledger, cfg, a, clock, listing, positionId).Ok?
  {
    hide ApplyAll, Perform, ReservedHeld, CapitalHeld, RiskCovered, RiskBacked, Proposed, PositionRejection,
         FilledPosition, WholeRun;
    var l := Run(cfg, cs).ledger;
    var swept := Sweep(l, listing, clock.swept);
    var c := ContextOf(swept.rows, a.planId);
    SteadyIsAdmissible(cfg, cs, seeded);
    RunAgrees(cfg, cs);
    RunBooks(cfg, cs, seeded);
    SweepAgesWallet(l, listing, clock.swept);
    SweepBalanced(l, listing, clock.swept, seeded, cfg.tolerance);
    SweptFillable(l, cfg, a, clock, listing, positionId);
    FillableJoins(swept.rows, c, a, positionId);
    SweepKeepsPositions(l, listing, clock.swept);
    StoplessFrame(l.rows, swept.rows);
    if RiskDrift(swept.rows) < -cfg.tolerance {
      ExactlyCovered(cfg, cs, seeded, listing, clock.swept);
    }
    FillGuardIdle(swept.rows, c, cfg, a, positionId, clock.booked);
    assert !AccountingBroken(Proposed(c, a, positionId, clock.booked), cfg.tolerance);
    BookedUnlessBroken(swept, c, cfg, a, positionId, clock.booked);
  }

  lemma BookedUnlessBroken(l: Ledger, c: FillContext, cfg: Settings, a: FillArgs, positionId: Id, now: int)
    requires 0 < a.quantity <= c.reservation.quantity
    ensures BookFill(l, c, cfg, a, positionId, now).Ok?
            <==> !AccountingBroken(Proposed(c, a, positionId, now), cfg.tolerance)
  {
    hide RiskAt, FilledPosition, EffectiveStop, ProposedWallet;
  }

  lemma SweptFillable(l: Ledger, cfg: Settings, a: FillArgs, clock: FillClock, listing: Listing, positionId: Id)
    requires Sound(l.rows) && Agrees(l) && positionId !in l.rows.positions
    requires var swept := Sweep(l, listing, clock.swept);
             && ContextRejection(swept.rows, a.planId, clock.checked).None?
             && 0 < a.quantity <= swept.rows.reservations[a.planId].quantity
    ensures var swept := Sweep(l, listing, clock.swept);
            Fillable(swept.rows, ContextOf(swept.rows, a.planId), a, positionId)
  {
    hide ApplyAll;
    SweepSound(l, listing, clock.swept);
    SweepAgrees(l, listing, clock.swept);
    SweepKeepsPositions(l, listing, clock.swept);
  }

  /** In exact arithmetic a FILL_RISK_EXCEEDS_TOLERANCE rejection is an offer: the
      quantity it names comes from a positive risk per share and is smaller than the one
      requested; and if it is positive, the run is whole and the fill joins no partly
      exited position, the same fill for that quantity is booked. */
  lemma RejectedFillIsAnOffer(cfg: Settings, cs: seq<Command>, seeded: real, a: FillArgs, clock: FillClock,
                              listing: Listing, positionId: Id)
    requires cfg.Valid() && cfg.tolerance == 0.0 && SteadyRun(cfg, cs, seeded)
    requires var l := Run(cfg, cs).ledger;
             var swept := Sweep(l, listing, clock.swept);
             && Admissible(cfg, l, Fill(a, clock, listing, positionId))
             && ContextRejection(swept.rows, a.planId, clock.checked).None?
             && FillRejection(ContextOf(swept.rows, a.planId), cfg, a) == Some("FILL_RISK_EXCEEDS_TOLERANCE")
    ensures var l := Run(cfg, cs).ledger;
            var c := ContextOf(Sweep(l, listing, clock.swept).rows, a.planId);
            var n := Offered(c, cfg, a);
            && PerShare(c, a) > 0.0 && 0 <= n < a.quantity
            && (n > 0 && WholeRun(cfg, cs) && FillsWhole(l, Fill(a, clock, listing, positionId)) ==>
                  ConfirmFill(l, cfg, WithQuantity(a, n), clock, listing, positionId).Ok?)
  {
    hide ApplyAll, Perform, AllowedRisk, WithinLimits, CandidateRisk, ExistingRisk, EffectiveStop, WholeRun;
    var l := Run(cfg, cs).ledger;
    var swept := Sweep(l, listing, clock.swept);
    var c := ContextOf(swept.rows, a.planId);
    SteadyIsAdmissible(cfg, cs, seeded);
    RunAgrees(cfg, cs);
    RunSound(cfg, cs);
    QuantityGatePassed(c, cfg, a);
    RiskRejectionComesLast(c, cfg, a);
    SweptFillable(l, cfg, a, clock, listing, positionId);
    SweptOffering(cfg, cs, seeded, a, clock, listing, positionId);
    OfferedShares(c, cfg, a);
    if Offered(c, cfg, a) > 0 && WholeRun(cfg, cs) && FillsWhole(l, Fill(a, clock, listing, positionId)) {
      OfferPassesGates(c, cfg, a);
      GatedFillIsBooked(cfg, cs, seeded, WithQuantity(a, Offered(c, cfg, a)), clock, listing, positionId);
    }
  }

  lemma QuantityGatePassed(c: FillContext, cfg: Settings, a: FillArgs)
    requires FillRejection(c, cfg, a) == Some("FILL_RISK_EXCEEDS_TOLERANCE")
    ensures 0 < a.quantity <= c.reservation.quantity && a.price >= c.plan.entryTrigger
  {
    assert "FILL_RISK_EXCEEDS_TOLERANCE"[0] == 'F' && "FILL_RISK_EXCEEDS_TOLERANCE"[5] == 'R';
    assert "QUANTITY_EXCEEDS_RESERVATION"[0] == 'Q' && "FILL_OUTSIDE_PLAN"[5] == 'O';
  }

  lemma SweptOffering(cfg: Settings, cs: seq<Command>, seeded: real, a: FillArgs, clock: FillClock, listing: Listing,
                      positionId: Id)
    requires cfg.Valid() && cfg.tolerance == 0.0 && SteadyRun(cfg, cs, seeded)
    requires Sound(Run(cfg, cs).ledger.rows)
    requires ContextRejection(Sweep(Run(cfg, cs).ledger, listing, clock.swept).rows, a.planId, clock.checked).None?
    requires var swept := Sweep(Run(cfg, cs).ledger, listing, clock.swept);
             var c := ContextOf(swept.rows, a.planId);
             && Fillable(swept.rows, c, a, positionId)
             && FillRejection(c, cfg, a) == Some("FILL_RISK_EXCEEDS_TOLERANCE")
    ensures Offering(ContextOf(Sweep(Run(cfg, cs).ledger, listing, clock.swept).rows, a.planId), cfg, a)
  {
    hide ApplyAll, Perform, AllowedRisk, MaxNotional;
    var l := Run(cfg, cs).ledger;
    var swept := Sweep(l, listing, clock.swept);
    var c := ContextOf(swept.rows, a.planId);
    RunLimited(cfg, cs, seeded);
    SweepKeepsPositions(l, listing, clock.swept);
    SweepAges(l, listing, clock.swept);
    SweepSound(l, listing, clock.swept);
    SweepAgesWallet(l, listing, clock.swept);
    SweepKeepsPlanDomain(l, listing, clock.swept);
    LimitedFrame(l.rows, swept.rows, cfg);
    FillableJoins(swept.rows, c, a, positionId);
    QuantityGatePassed(c, cfg, a);
    assert Priced(c.reservation, c.plan);
    AllowedRiskPositive(c.wallet, c.plan, cfg);
    if c.existing.Some? {
      assert WithinLimits(c.existing.value, c.wallet, c.plan, cfg);
      NoLoosening(c.existing.value.quantity, c.wallet.version);
      RejectedStopHolds(c, cfg, a);
    }
  }

  lemma AllowedRiskPositive(w: WalletState, plan: TradePlan, cfg: Settings)
    requires cfg.Valid() && w.capitalBase > 0.0 && plan.qualityRiskMultiplier > 0.0
    ensures AllowedRisk(w, plan, cfg) > 0.0
  {
    var x := w.capitalBase * cfg.maxTradeRiskPct;
    ProductPositive(w.capitalBase, cfg.maxTradeRiskPct);
    ProductPositive(x / 100.0, plan.qualityRiskMultiplier);
    ProductPositive(x / 100.0 * plan.qualityRiskMultiplier, 1.0 + cfg.fillRiskTolerance);
  }

  lemma RejectedStopHolds(c: FillContext, cfg: Settings, a: FillArgs)
    requires cfg.tolerance == 0.0 && Joinable(c) && c.existing.Some?
    requires FillRejection(c, cfg, a) == Some("FILL_RISK_EXCEEDS_TOLERANCE") && a.quantity > 0
    ensures EffectiveStop(c.plan, c.existing, a) >= c.existing.value.stop.value
  {
    hide CandidateRisk, AllowedRisk, EntryAverage, MaxNotional, MinPlanStop;
    RiskRejectionComesLast(c, cfg, a);
    assert "FILL_RISK_EXCEEDS_TOLERANCE"[0] == 'F' && "STOP_LOOSER_THAN_CURRENT"[0] == 'S';
  }

  /* ---- what a reservation may claim ---- */

  /** Quality profiles never scale a risk budget up. */
  ghost predicate ProfiledRun(cs: seq<Command>) {
    forall i :: 0 <= i < |cs| && cs[i].BuildPlan? ==> cs[i].input.quality.riskMultiplier <= 1.0
  }

  ghost predicate Unamplified(rows: Rows) {
    forall id :: id in rows.plans ==> rows.plans[id].qualityRiskMultiplier <= 1.0
  }

  lemma FillKeepsPlanDomain(l: Ledger, cfg: Settings, a: FillArgs, clock: FillClock, listing: Listing, positionId: Id)
    requires ConfirmFill(l, cfg, a, clock, listing, positionId).Ok?
    ensures ConfirmFill(l, cfg, a, clock, listing, positionId).value.rows.plans.Keys == l.rows.plans.Keys
  {
    hide FilledPosition, RiskAt, EffectiveStop, ProposedWallet, PositionRejection, Sweep;
    SweepKeepsPlanDomain(l, listing, clock.swept);
  }

  lemma StepPlanDomain(cfg: Settings, w: World, c: Command)
    requires Enabled(cfg, w, c) && !c.BuildPlan?
    ensures Perform(cfg, w.ledger, c).value.rows.plans.Keys == w.ledger.rows.plans.Keys
  {
    hide RiskAt, Sum, ImportedPosition, ImportedWallet, ProtectedPosition, ExitedPosition, ExitedWallet,
         ReconciledPositions, ConfirmFill, ActivateWithContext, Sweep;
    var l := w.ledger;
    match c
    case SweepExpired(listing, now) => SweepKeepsPlanDomain(l, listing, now);
    case ActivateBegin(_, listing, now) => SweepKeepsPlanDomain(l, listing, now);
    case ActivateEnd(planId, ctx, now) => ActivationKeepsDomain(l, cfg, planId, ctx, now);
    case Fill(a, clock, listing, positionId) => FillKeepsPlanDomain(l, cfg, a, clock, listing, positionId);
    case _ =>
  }

  lemma IssueUnamplified(l: Ledger, input: PlanInput, cfg: Settings, planId: Id, now: int)
    requires Unamplified(l.rows) && input.quality.riskMultiplier <= 1.0 && IssuePlan(l, input, cfg, planId, now).Ok?
    ensures Unamplified(IssuePlan(l, input, cfg, planId, now).value.rows)
  {
    IssuedPlanMultiplier(input, cfg, planId, now);
    hide BuildTradePlan;
  }

  lemma AgedUnamplified(rows: Rows, rows': Rows)
    requires Unamplified(rows) && PlansAge(rows, rows') && rows'.plans.Keys == rows.plans.Keys
    ensures Unamplified(rows')
  {
    forall id | id in rows'.plans ensures rows'.plans[id].qualityRiskMultiplier <= 1.0 {
      assert id in rows.plans && PlanAges(rows.plans[id], rows'.plans[id]);
    }
  }

  lemma {:induction false} RunUnamplified(cfg: Settings, cs: seq<Command>)
    requires AdmissibleRun(cfg, cs) && ProfiledRun(cs)
    ensures Unamplified(Run(cfg, cs).ledger.rows)
    decreases |cs|
  {
    if cs != [] {
      hide Perform, ApplyAll, PlansAge, Unamplified;
      var before, c := cs[..|cs| - 1], cs[|cs| - 1];
      RunUnamplified(cfg, before);
      RunAges(cfg, before, c);
      assert before + [c] == cs;
      var w := Run(cfg, before);
      if Enabled(cfg, w, c) {
        if c.BuildPlan? {
          IssueUnamplified(w.ledger, c.input, cfg, c.planId, c.now);
          PerformIssue(cfg, w.ledger, c);
        } else {
          StepPlanDomain(cfg, w, c);
          AgedUnamplified(w.ledger.rows, Run(cfg, cs).ledger.rows);
        }
      }
    } else {
      assert Unamplified(START.ledger.rows);
    }
  }

  /** The second half of an activation makes a reservation. */
  ghost predicate Reserves(l: Ledger, cfg: Settings, planId: Id, ctx: MarketContext, now: int) {
    var r := ActivateWithContext(l, cfg, planId, ctx, now);
    && r.Ok? && planId in r.value.rows.reservations
    && (planId in l.rows.reservations ==> now > l.rows.reservations[planId].expiresAt)
  }

  lemma ReservingIsOk(l: Ledger, cfg: Settings, planId: Id, ctx: MarketContext, now: int)
    requires Reserves(l, cfg, planId, ctx, now)
    ensures ActivateWithContext(l, cfg, planId, ctx, now).Ok?
  {
  }

  /** In every reachable world, an activation that reserves leaves reserved cash within
      the cash and open risk within the daily cap, up to the half cent of its rounding. */
  lemma RunReservesWithinCaps(cfg: Settings, cs: seq<Command>, planId: Id, ctx: MarketContext, now: int)
    requires cfg.Valid() && AdmissibleRun(cfg, cs) && ProfiledRun(cs)
    requires Reserves(Run(cfg, cs).ledger, cfg, planId, ctx, now)
    ensures var rows := ActivateWithContext(Run(cfg, cs).ledger, cfg, planId, ctx, now).value.rows;
            && rows.wallet.Some?
            && rows.wallet.value.reservedCash <= rows.wallet.value.cashAvailable + 0.005
            && rows.wallet.value.openRisk + rows.wallet.value.dailyRealizedLoss
               <= DailyCap(rows.wallet.value, cfg) + 0.005
  {
    hide Perform, Sound, ActivateWithContext, Unamplified, Reserves, DailyCap;
    var l := Run(cfg, cs).ledger;
    RunUnamplified(cfg, cs);
    RunSound(cfg, cs);
    StepReserves(l, cfg, planId, ctx, now);
    var freed := Release(l, planId, ReservationExpired, now);
    ReserveWithinCaps(freed, cfg, planId, l.rows.plans[planId], ctx, now);
  }

  /** An activation reserves only on a BUY_NOW after the expired reservation is gone. */
  lemma StepReserves(l: Ledger, cfg: Settings, planId: Id, ctx: MarketContext, now: int)
    requires Sound(l.rows) && Unamplified(l.rows) && Reserves(l, cfg, planId, ctx, now)
    ensures planId in l.rows.plans && l.rows.plans[planId].qualityRiskMultiplier <= 1.0
    ensures var freed, plan := Release(l, planId, ReservationExpired, now), l.rows.plans[planId];
            && freed.rows.wallet.Some?
            && ActivateWithContext(l, cfg, planId, ctx, now) == EvaluateAndReserve(freed, cfg, planId, plan, ctx, now)
            && var d := Activate(plan, ctx.snapshot, freed.rows.wallet.value, None, GateOf(cfg, ctx), now);
            d.Ok? && d.value.0 == BuyNow
  {
    hide Activate, Amount, GateOf;
    ReleaseSound(l, planId, ReservationExpired, now);
    ReleaseSound(l, planId, MaxConcurrentReached, now);
    ReleaseSound(l, planId, ReleasedPlanExpired, now);
  }
}

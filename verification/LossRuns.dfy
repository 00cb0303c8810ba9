/** The daily loss of the wallet: what the exits since its last reset actually lost. */
module LossRuns {
  import opened Domain
  import opened Sizing
  import opened Tables
  import opened Planning
  import opened Activation
  import opened Ledger
  import opened Runs
  import opened MoneyRuns
  import opened LimitRuns

  /** What selling some shares of a row at a price loses; a gain loses nothing. */
  function LossOf(p: PositionState, price: real, quantity: int): real {
    if price < p.averageFill && quantity > 0 then (p.averageFill - price) * quantity as real else 0.0
  }

  /** Losses taken since the wallet was last put in place, read from the commands that
      took effect and the rows they met. */
  ghost function LossTaken(cfg: Settings, cs: seq<Command>): real
    decreases |cs|
  {
    if cs == [] then 0.0
    else
      var before, c := cs[..|cs| - 1], cs[|cs| - 1];
      var w := Run(cfg, before);
      if !Enabled(cfg, w, c) then LossTaken(cfg, before)
      else match c
        case Seed(_, _, _) => 0.0
        case ReconcileWalletCmd(_, _, dailyLoss, _) => dailyLoss
        case Exit(positionId, price, quantity, _) =>
          LossTaken(cfg, before)
          + (if positionId in w.ledger.rows.positions then LossOf(w.ledger.rows.positions[positionId], price, quantity)
             else 0.0)
        case _ => LossTaken(cfg, before)
  }

  ghost predicate SameLoss(rows: Rows, rows': Rows) {
    rows'.wallet.Some? ==> rows.wallet.Some?
                           && rows'.wallet.value.dailyRealizedLoss == rows.wallet.value.dailyRealizedLoss
  }

  lemma {:induction false} SweepPlansSameLoss(l: Ledger, order: seq<Id>, now: int)
    ensures SameLoss(l.rows, SweepPlans(l, order, now).rows)
    decreases |order|
  {
    if order != [] {
      SweepPlansSameLoss(l, order[..|order| - 1], now);
    }
  }

  lemma {:induction false} SweepReservationsSameLoss(l: Ledger, order: seq<Id>, now: int)
    ensures SameLoss(l.rows, SweepReservations(l, order, now).rows)
    decreases |order|
  {
    if order != [] {
      SweepReservationsSameLoss(l, order[..|order| - 1], now);
    }
  }

  lemma SweepSameLoss(l: Ledger, listing: Listing, now: int)
    ensures SameLoss(l.rows, Sweep(l, listing, now).rows)
  {
    SweepPlansSameLoss(l, listing.plans, now);
    SweepReservationsSameLoss(SweepPlans(l, listing.plans, now), listing.reservations, now);
  }

  lemma FillSameLoss(l: Ledger, cfg: Settings, a: FillArgs, clock: FillClock, listing: Listing, positionId: Id)
    requires ConfirmFill(l, cfg, a, clock, listing, positionId).Ok?
    ensures SameLoss(l.rows, ConfirmFill(l, cfg, a, clock, listing, positionId).value.rows)
  {
    hide FilledPosition, FillRejection, RiskAt, EffectiveStop, Sweep;
    SweepSameLoss(l, listing, clock.swept);
  }

  lemma ActivationSameLoss(l: Ledger, cfg: Settings, planId: Id, ctx: MarketContext, now: int)
    requires ActivateWithContext(l, cfg, planId, ctx, now).Ok?
    ensures SameLoss(l.rows, ActivateWithContext(l, cfg, planId, ctx, now).value.rows)
  {
    hide Activate, Amount;
  }

  lemma StepSameLoss(cfg: Settings, w: World, c: Command)
    requires Enabled(cfg, w, c) && !Resets(c) && !c.Exit?
    ensures SameLoss(w.ledger.rows, Perform(cfg, w.ledger, c).value.rows)
  {
    hide RiskAt, Sum, ImportedPosition, ProtectedPosition, ReconciledPositions, BuildTradePlan, ConfirmFill,
         ActivateWithContext, Sweep;
    var l := w.ledger;
    match c
    case SweepExpired(listing, now) => SweepSameLoss(l, listing, now);
    case ActivateBegin(_, listing, now) => SweepSameLoss(l, listing, now);
    case ActivateEnd(planId, ctx, now) => ActivationSameLoss(l, cfg, planId, ctx, now);
    case Fill(a, clock, listing, positionId) => FillSameLoss(l, cfg, a, clock, listing, positionId);
    case _ =>
  }

  /** An exit books exactly what it loses. */
  lemma ExitBooksLoss(l: Ledger, positionId: Id, price: real, quantity: int, now: int)
    requires ConfirmExit(l, positionId, price, quantity, now).Ok?
    ensures var rows := ConfirmExit(l, positionId, price, quantity, now).value.rows;
            && positionId in l.rows.positions && l.rows.wallet.Some? && rows.wallet.Some?
            && rows.wallet.value.dailyRealizedLoss
               == l.rows.wallet.value.dailyRealizedLoss + LossOf(l.rows.positions[positionId], price, quantity)
  {
    hide RiskAt, ExitedPosition;
    var p := l.rows.positions[positionId];
    SignOfProduct(price - p.averageFill, quantity);
    assert (p.averageFill - price) * quantity as real == -((price - p.averageFill) * quantity as real);
  }

  lemma SignOfProduct(x: real, n: int)
    requires n > 0
    ensures x * n as real < 0.0 <==> x < 0.0
  {
  }

  /** Over every run, re-seeds and reconciliations included, the wallet's daily loss is
      its value at the last reset plus what the exits since then lost. */
  lemma {:induction false} RunDailyLoss(cfg: Settings, cs: seq<Command>)
    ensures var rows := Run(cfg, cs).ledger.rows;
            rows.wallet.Some? ==> rows.wallet.value.dailyRealizedLoss == LossTaken(cfg, cs)
    decreases |cs|
  {
    if cs != [] {
      hide Perform, LossOf;
      var before, c := cs[..|cs| - 1], cs[|cs| - 1];
      var w := Run(cfg, before);
      RunDailyLoss(cfg, before);
      if Enabled(cfg, w, c) {
        if c.Exit? {
          PerformExit(cfg, w.ledger, c);
          ExitBooksLoss(w.ledger, c.positionId, c.price, c.quantity, c.now);
        } else if Resets(c) {
          ResetLoss(cfg, w.ledger, c);
        } else {
          StepSameLoss(cfg, w, c);
        }
      }
    }
  }

  lemma ResetLoss(cfg: Settings, l: Ledger, c: Command)
    requires Resets(c) && Perform(cfg, l, c).Ok?
    ensures Perform(cfg, l, c).value.rows.wallet.Some?
    ensures Perform(cfg, l, c).value.rows.wallet.value.dailyRealizedLoss
         == if c.ReconcileWalletCmd? then c.dailyLoss else 0.0
  {
    hide Sum, StoppedRisk;
  }

  /** Losses only add up between resets. */
  lemma LossesGrow(cfg: Settings, cs: seq<Command>, c: Command)
    requires !Resets(c)
    ensures LossTaken(cfg, cs) <= LossTaken(cfg, cs + [c])
  {
    hide Perform;
    assert (cs + [c])[..|cs|] == cs;
    if c.Exit? && c.positionId in Run(cfg, cs).ledger.rows.positions {
      LossNonNegative(Run(cfg, cs).ledger.rows.positions[c.positionId], c.price, c.quantity);
    }
  }

  lemma LossNonNegative(p: PositionState, price: real, quantity: int)
    ensures LossOf(p, price, quantity) >= 0.0
  {
  }

  /** The daily cap speaks of losses taken: an activation that reserves leaves open risk
      and the losses of the day together within the cap, up to half a cent. */
  lemma ReservesWithinLossCap(cfg: Settings, cs: seq<Command>, planId: Id, ctx: MarketContext, now: int)
    requires cfg.Valid() && AdmissibleRun(cfg, cs) && ProfiledRun(cs)
    requires Reserves(Run(cfg, cs).ledger, cfg, planId, ctx, now)
    ensures var rows := ActivateWithContext(Run(cfg, cs).ledger, cfg, planId, ctx, now).value.rows;
            && rows.wallet.Some?
            && rows.wallet.value.openRisk + LossTaken(cfg, cs)
               <= rows.wallet.value.capitalBase * cfg.maxDailyLossPct / 100.0 + 0.005
  {
    hide Perform, ActivateWithContext, LossTaken, Reserves;
    RunReservesWithinCaps(cfg, cs, planId, ctx, now);
    RunDailyLoss(cfg, cs);
    ReservingIsOk(Run(cfg, cs).ledger, cfg, planId, ctx, now);
    ActivationSameLoss(Run(cfg, cs).ledger, cfg, planId, ctx, now);
  }}

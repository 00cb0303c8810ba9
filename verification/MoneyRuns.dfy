/** The money laws over every run that seeds the wallet once. */
module MoneyRuns {
  import opened Domain
  import opened Sizing
  import opened Tables
  import opened Planning
  import opened Activation
  import opened Ledger
  import opened Rebuilding
  import opened ReplayAgreement
  import opened RowSoundness
  import opened Accounting
  import opened FillAccounting
  import opened Limits
  import opened Runs

  /** The wallet is seeded once, with `seeded` in cash, and never reset. */
  ghost predicate Steady(l: Ledger, c: Command, seeded: real) {
    match c
    case Seed(_, cash, _) => l.rows.wallet.None? && cash == seeded
    case ReconcileWalletCmd(_, _, _, _) => false
    case _ => true
  }

  /** No fill joins an open position some of whose shares were already sold. */
  ghost predicate FillsWhole(l: Ledger, c: Command) {
    c.Fill? ==>
      forall id :: id in l.rows.positions && l.rows.positions[id].planId == c.fill.planId ==>
        l.rows.positions[id].Open() ==> Whole(l.rows.positions[id])
  }

  ghost predicate SteadyRun(cfg: Settings, cs: seq<Command>, seeded: real)
    decreases |cs|
  {
    cs == [] || (SteadyRun(cfg, cs[..|cs| - 1], seeded)
                 && Admissible(cfg, Run(cfg, cs[..|cs| - 1]).ledger, cs[|cs| - 1])
                 && Steady(Run(cfg, cs[..|cs| - 1]).ledger, cs[|cs| - 1], seeded))
  }

  /** No exit sells from a position whose stop is zero. */
  ghost predicate ExitsStopped(l: Ledger, c: Command) {
    c.Exit? && c.positionId in l.rows.positions ==> !ZeroStop(l.rows.positions[c.positionId])
  }

  /** Every fill of the run joins whole positions only. */
  ghost predicate WholeRun(cfg: Settings, cs: seq<Command>)
    decreases |cs|
  {
    cs == [] || (WholeRun(cfg, cs[..|cs| - 1]) && FillsWhole(Run(cfg, cs[..|cs| - 1]).ledger, cs[|cs| - 1]))
  }

  /** No exit of the run is from a zero stop. */
  ghost predicate StoppedRun(cfg: Settings, cs: seq<Command>)
    decreases |cs|
  {
    cs == [] || (StoppedRun(cfg, cs[..|cs| - 1]) && ExitsStopped(Run(cfg, cs[..|cs| - 1]).ledger, cs[|cs| - 1]))
  }

  /** Commands that put a new wallet in place of the old one. */
  predicate Resets(c: Command) {
    c.Seed? || c.ReconcileWalletCmd?
  }

  /** The wallet is reset only while nothing is reserved. */
  ghost predicate ClearRun(cfg: Settings, cs: seq<Command>)
    decreases |cs|
  {
    cs == [] || (ClearRun(cfg, cs[..|cs| - 1])
                 && (Resets(cs[|cs| - 1]) ==> Run(cfg, cs[..|cs| - 1]).ledger.rows.reservations == map[]))
  }

  lemma {:induction false} SteadyIsAdmissible(cfg: Settings, cs: seq<Command>, seeded: real)
    requires SteadyRun(cfg, cs, seeded)
    ensures AdmissibleRun(cfg, cs)
    decreases |cs|
  {
    if cs != [] {
      SteadyIsAdmissible(cfg, cs[..|cs| - 1], seeded);
    }
  }

  /* ---- frames ---- */

  lemma {:induction false} SweepPlansAgesWallet(l: Ledger, order: seq<Id>, now: int)
    ensures WalletAges(l.rows, SweepPlans(l, order, now).rows)
    ensures l.rows.wallet.None? ==> SweepPlans(l, order, now).rows.wallet.None?
    decreases |order|
  {
    if order != [] {
      SweepPlansAgesWallet(l, order[..|order| - 1], now);
    }
  }

  lemma {:induction false} SweepReservationsAgesWallet(l: Ledger, order: seq<Id>, now: int)
    ensures WalletAges(l.rows, SweepReservations(l, order, now).rows)
    ensures l.rows.wallet.None? ==> SweepReservations(l, order, now).rows.wallet.None?
    decreases |order|
  {
    if order != [] {
      SweepReservationsAgesWallet(l, order[..|order| - 1], now);
    }
  }

  lemma SweepAgesWallet(l: Ledger, listing: Listing, now: int)
    ensures WalletAges(l.rows, Sweep(l, listing, now).rows)
    ensures l.rows.wallet.None? ==> Sweep(l, listing, now).rows.wallet.None?
  {
    SweepPlansAgesWallet(l, listing.plans, now);
    SweepReservationsAgesWallet(SweepPlans(l, listing.plans, now), listing.reservations, now);
  }

  lemma StepWallet(cfg: Settings, w: World, c: Command, seeded: real)
    requires Steady(w.ledger, c, seeded) && Enabled(cfg, w, c)
    ensures WalletAges(w.ledger.rows, Perform(cfg, w.ledger, c).value.rows)
    ensures w.ledger.rows.wallet.None? && !c.Seed? ==> Perform(cfg, w.ledger, c).value.rows.wallet.None?
  {
    var l := w.ledger;
    match c
    case SweepExpired(listing, now) => SweepAgesWallet(l, listing, now);
    case ActivateBegin(_, listing, now) => SweepAgesWallet(l, listing, now);
    case Fill(a, clock, listing, positionId) =>
      SweepAgesWallet(l, listing, clock.swept);
      FillAgesWallet(l, cfg, a, clock, listing, positionId);
    case ActivateEnd(planId, ctx, now) => ActivationAgesWallet(l, cfg, planId, ctx, now);
    case _ =>
  }

  lemma FillAgesWallet(l: Ledger, cfg: Settings, a: FillArgs, clock: FillClock, listing: Listing, positionId: Id)
    requires ConfirmFill(l, cfg, a, clock, listing, positionId).Ok?
    ensures WalletAges(Sweep(l, listing, clock.swept).rows,
                       ConfirmFill(l, cfg, a, clock, listing, positionId).value.rows)
    ensures Sweep(l, listing, clock.swept).rows.wallet.Some?
  {
    hide FilledPosition, FillRejection, RiskAt, EffectiveStop;
  }

  lemma ActivationAgesWallet(l: Ledger, cfg: Settings, planId: Id, ctx: MarketContext, now: int)
    requires ActivateWithContext(l, cfg, planId, ctx, now).Ok?
    ensures WalletAges(l.rows, ActivateWithContext(l, cfg, planId, ctx, now).value.rows)
    ensures l.rows.wallet.None? ==> ActivateWithContext(l, cfg, planId, ctx, now).value.rows.wallet.None?
  {
    hide Activate, Amount;
  }

  /* ---- the books ---- */

  /** What a command other than a reset keeps: reserved cash always, capital and the
      cover of the risk if its fill joins a whole position, and the last law if it does
      not sell from a zero stop either. */
  ghost predicate LawsKept(l: Ledger, c: Command, rows: Rows, seeded: real, tolerance: real) {
    && StoplessPositive(rows)
    && (ReservedHeld(l.rows) ==> ReservedHeld(rows))
    && (FillsWhole(l, c) && CapitalHeld(l.rows, seeded, tolerance) ==> CapitalHeld(rows, seeded, tolerance))
    && (FillsWhole(l, c) && RiskCovered(l.rows, tolerance) ==> RiskCovered(rows, tolerance))
    && (FillsWhole(l, c) && ExitsStopped(l, c) && RiskBacked(l.rows) ==> RiskBacked(rows))
  }

  lemma ConfirmFillBalanced(l: Ledger, cfg: Settings, a: FillArgs, clock: FillClock, listing: Listing, positionId: Id,
                            seeded: real)
    requires cfg.Valid() && Sound(l.rows) && Agrees(l) && StoplessPositive(l.rows) && positionId !in l.rows.positions
    requires ConfirmFill(l, cfg, a, clock, listing, positionId).Ok?
    ensures LawsKept(l, Fill(a, clock, listing, positionId),
                     ConfirmFill(l, cfg, a, clock, listing, positionId).value.rows,
                     seeded, cfg.tolerance)
  {
    hide BookFill, ApplyAll, PositionRejection, ReservedHeld, CapitalHeld, RiskCovered, RiskBacked;
    var swept := Sweep(l, listing, clock.swept);
    var c := ContextOf(swept.rows, a.planId);
    ConfirmFillSound(l, cfg, a, clock, listing, positionId);
    SweepBalanced(l, listing, clock.swept, seeded, cfg.tolerance);
    SweepKeepsPositions(l, listing, clock.swept);
    FillableJoins(swept.rows, c, a, positionId);
    BookFillBalanced(swept, c, cfg, a, positionId, clock.booked, seeded);
  }

  /** Commands that write no position. */
  predicate KeepsPositions(c: Command) {
    || c.BuildPlan? || c.SweepExpired? || c.Trigger? || c.ActivateBegin? || c.ActivateEnd? || c.ReleaseReservation?
       || c.Observe?
  }

  lemma QuietBooks(cfg: Settings, w: World, c: Command, seeded: real)
    requires cfg.Valid() && Sound(w.ledger.rows) && StoplessPositive(w.ledger.rows) && Enabled(cfg, w, c)
             && KeepsPositions(c)
    ensures BooksKept(w.ledger.rows, Perform(cfg, w.ledger, c).value.rows, seeded, cfg.tolerance)
  {
    hide ReservedHeld, CapitalHeld, RiskCovered, RiskBacked, Sound, BuildTradePlan, Sweep, Release,
         ActivateWithContext;
    var l := w.ledger;
    match c
    case BuildPlan(input, planId, now) =>
      BooksFrame(l.rows, IssuePlan(l, input, cfg, planId, now).value.rows, seeded, cfg.tolerance);
    case SweepExpired(listing, now) => SweepBalanced(l, listing, now, seeded, cfg.tolerance);
    case Trigger(planId, at) => BooksFrame(l.rows, RecordTrigger(l, cfg, planId, at).rows, seeded, cfg.tolerance);
    case ActivateBegin(_, listing, now) => SweepBalanced(l, listing, now, seeded, cfg.tolerance);
    case ActivateEnd(planId, ctx, now) => ActivationBalanced(l, cfg, planId, ctx, now, seeded);
    case ReleaseReservation(planId, reason, now) => ReleaseBalanced(l, planId, reason, now, seeded, cfg.tolerance);
    case Observe(event) =>
  }

  lemma QuietPositions(cfg: Settings, w: World, c: Command)
    requires Enabled(cfg, w, c) && KeepsPositions(c)
    ensures Perform(cfg, w.ledger, c).value.rows.positions == w.ledger.rows.positions
  {
    hide BuildTradePlan, Sweep, ActivateWithContext;
    var l := w.ledger;
    match c
    case SweepExpired(listing, now) => SweepKeepsPositions(l, listing, now);
    case ActivateBegin(_, listing, now) => SweepKeepsPositions(l, listing, now);
    case ActivateEnd(planId, ctx, now) => ActivationKeepsPositions(l, cfg, planId, ctx, now);
    case _ =>
  }

  lemma StepBooks(cfg: Settings, w: World, c: Command, seeded: real)
    requires cfg.Valid() && Sound(w.ledger.rows) && Agrees(w.ledger) && StoplessPositive(w.ledger.rows)
    requires Admissible(cfg, w.ledger, c) && Enabled(cfg, w, c) && !Resets(c)
    ensures LawsKept(w.ledger, c, Perform(cfg, w.ledger, c).value.rows, seeded, cfg.tolerance)
  {
    hide ReservedHeld, CapitalHeld, RiskCovered, RiskBacked, Sound, ApplyAll, Sum, ConfirmFill, ProtectPosition,
         ReconcileHoldings;
    var l := w.ledger;
    var t := cfg.tolerance;
    if KeepsPositions(c) {
      hide Perform;
      QuietBooks(cfg, w, c, seeded);
      QuietPositions(cfg, w, c);
    } else {
      match c
      case Import(a, ids, now) =>
        ImportBalanced(l, a, ids, now, seeded, t);
        ImportStopless(l, a, ids, now);
      case ReconcileHoldingsCmd(holdings, order, notes, now) =>
        ReconcileHoldingsBalanced(l, holdings, order, notes, now, seeded, t);
        ReconcileStopless(l, holdings, order, notes, now);
      case Fill(a, clock, listing, positionId) => ConfirmFillBalanced(l, cfg, a, clock, listing, positionId, seeded);
      case Protect(positionId, stop, ref, now) => ProtectBalanced(l, cfg, positionId, stop, ref, now, seeded);
      case Exit(positionId, price, quantity, now) => ExitBalanced(l, positionId, price, quantity, now, seeded, t);
    }
  }

  lemma ImportStopless(l: Ledger, a: ImportArgs, ids: ImportIds, now: int)
    requires StoplessPositive(l.rows) && ImportPosition(l, a, ids, now).Ok?
    ensures StoplessPositive(ImportPosition(l, a, ids, now).value.rows)
  {
    hide RiskAt, Target;
  }

  lemma ReconcileStopless(l: Ledger, holdings: seq<Holding>, order: seq<Id>, notes: seq<Event>, now: int)
    requires StoplessPositive(l.rows) && ReconcileHoldings(l, holdings, order, notes, now).Ok?
    ensures StoplessPositive(ReconcileHoldings(l, holdings, order, notes, now).value.rows)
  {
    hide Sum;
  }

  lemma ActivationKeepsPositions(l: Ledger, cfg: Settings, planId: Id, ctx: MarketContext, now: int)
    requires ActivateWithContext(l, cfg, planId, ctx, now).Ok?
    ensures ActivateWithContext(l, cfg, planId, ctx, now).value.rows.positions == l.rows.positions
  {
    hide Activate, Amount;
  }

  /* ---- over every run ---- */

  /** Whatever was reset, only imports create rows without a stop. */
  lemma {:induction false} RunStopless(cfg: Settings, cs: seq<Command>)
    requires cfg.Valid() && AdmissibleRun(cfg, cs)
    ensures StoplessPositive(Run(cfg, cs).ledger.rows)
    decreases |cs|
  {
    if cs != [] {
      hide Perform, ApplyAll, StoplessPositive;
      var before, c := cs[..|cs| - 1], cs[|cs| - 1];
      RunAgrees(cfg, before);
      RunSound(cfg, before);
      RunStopless(cfg, before);
      if Enabled(cfg, Run(cfg, before), c) {
        if Resets(c) {
          ResetKeepsRows(cfg, Run(cfg, before).ledger, c);
          StoplessFrame(Run(cfg, before).ledger.rows, Perform(cfg, Run(cfg, before).ledger, c).value.rows);
        } else {
          StepBooks(cfg, Run(cfg, before), c, 0.0);
        }
      }
    }
  }

  lemma ResetKeepsRows(cfg: Settings, l: Ledger, c: Command)
    requires Resets(c) && Perform(cfg, l, c).Ok?
    ensures var rows := Perform(cfg, l, c).value.rows;
            && rows.positions == l.rows.positions && rows.reservations == l.rows.reservations
            && rows.wallet.Some? && rows.wallet.value.reservedCash == 0.0
  {
    hide Sum, StoppedRisk;
  }

  /** Over every run that resets the wallet only while nothing is reserved, reserved
      cash is exactly the sum over the reservations. */
  lemma {:induction false} RunReserved(cfg: Settings, cs: seq<Command>)
    requires cfg.Valid() && AdmissibleRun(cfg, cs) && ClearRun(cfg, cs)
    ensures Run(cfg, cs).ledger.rows.wallet.Some? ==> ReservedHeld(Run(cfg, cs).ledger.rows)
    decreases |cs|
  {
    if cs != [] {
      hide Perform, ApplyAll, StoplessPositive, Sound;
      var before, c := cs[..|cs| - 1], cs[|cs| - 1];
      RunAgrees(cfg, before);
      RunSound(cfg, before);
      RunStopless(cfg, before);
      RunReserved(cfg, before);
      if Enabled(cfg, Run(cfg, before), c) {
        if Resets(c) {
          ResetKeepsRows(cfg, Run(cfg, before).ledger, c);
        } else {
          StepBooks(cfg, Run(cfg, before), c, 0.0);
          StepWallet(cfg, Run(cfg, before), c, 0.0);
        }
      }
    }
  }

  lemma {:induction false} SteadyIsClear(cfg: Settings, cs: seq<Command>, seeded: real)
    requires SteadyRun(cfg, cs, seeded)
    ensures ClearRun(cfg, cs)
    decreases |cs|
  {
    if cs != [] {
      hide Perform, ApplyAll;
      var before := cs[..|cs| - 1];
      SteadyIsClear(cfg, before, seeded);
      SteadyIsAdmissible(cfg, before, seeded);
      RunAgrees(cfg, before);
      RunSound(cfg, before);
    }
  }

  /** Over every run with one seed: reserved cash is exactly the sum over reservations.
      If no fill joins a partly exited position, cash plus cost basis minus realized
      profit stays at the seeded cash, and open risk covers the sum over reservations
      and positions, both up to one tolerance per wallet version. If no exit is from a
      zero stop either, open risk never exceeds that sum. */
  lemma {:induction false} RunBooks(cfg: Settings, cs: seq<Command>, seeded: real)
    requires cfg.Valid() && SteadyRun(cfg, cs, seeded)
    ensures Sound(Run(cfg, cs).ledger.rows) && StoplessPositive(Run(cfg, cs).ledger.rows)
    ensures var rows := Run(cfg, cs).ledger.rows;
            rows.wallet.Some? ==>
              && ReservedHeld(rows)
              && (WholeRun(cfg, cs) ==> CapitalHeld(rows, seeded, cfg.tolerance) && RiskCovered(rows, cfg.tolerance))
              && (WholeRun(cfg, cs) && StoppedRun(cfg, cs) ==> RiskBacked(rows))
    decreases |cs|
  {
    hide Perform, ApplyAll, ReservedHeld, CapitalHeld, RiskCovered, RiskBacked, StoplessPositive, Sound;
    SteadyIsAdmissible(cfg, cs, seeded);
    SteadyIsClear(cfg, cs, seeded);
    RunSound(cfg, cs);
    RunStopless(cfg, cs);
    RunReserved(cfg, cs);
    if cs != [] {
      var before, c := cs[..|cs| - 1], cs[|cs| - 1];
      RunAgrees(cfg, before);
      RunBooks(cfg, before, seeded);
      if Enabled(cfg, Run(cfg, before), c) {
        if c.Seed? {
          SeedStep(cfg, Run(cfg, before), c, seeded);
        } else {
          StepBooks(cfg, Run(cfg, before), c, seeded);
          StepWallet(cfg, Run(cfg, before), c, seeded);
        }
      }
    }
  }

  lemma SeedStep(cfg: Settings, w: World, c: Command, seeded: real)
    requires cfg.Valid() && Sound(w.ledger.rows) && c.Seed? && Steady(w.ledger, c, seeded) && Enabled(cfg, w, c)
    ensures Balanced(Perform(cfg, w.ledger, c).value.rows, seeded, cfg.tolerance)
  {
    SeedBalanced(w.ledger, c.capital, c.cash, c.now, cfg.tolerance);
  }

  /** With a zero tolerance the totals are exact in every reachable world, under the
      same conditions. */
  lemma ExactBooks(cfg: Settings, cs: seq<Command>, seeded: real)
    requires cfg.Valid() && cfg.tolerance == 0.0 && SteadyRun(cfg, cs, seeded)
    requires Run(cfg, cs).ledger.rows.wallet.Some?
    ensures var rows := Run(cfg, cs).ledger.rows;
            var w := rows.wallet.value;
            && w.reservedCash == Sum(rows.reservations, HeldCash)
            && (WholeRun(cfg, cs) ==>
                  && w.cashAvailable + Sum(rows.positions, CostBasis) - Sum(rows.positions, Realized) == seeded
                  && w.openRisk >= Sum(rows.reservations, HeldRisk) + Sum(rows.positions, CarriedRisk))
            && (WholeRun(cfg, cs) && StoppedRun(cfg, cs) ==>
                  w.openRisk == Sum(rows.reservations, HeldRisk) + Sum(rows.positions, CarriedRisk))
  {
    RunBooks(cfg, cs, seeded);
    NoSlack(Run(cfg, cs).ledger.rows.wallet.value.version);
  }

  /** In exact arithmetic open risk covers the rows, also after any part of a sweep. */
  lemma ExactlyCovered(cfg: Settings, cs: seq<Command>, seeded: real, listing: Listing, now: int)
    requires cfg.Valid() && cfg.tolerance == 0.0 && SteadyRun(cfg, cs, seeded) && WholeRun(cfg, cs)
    ensures var rows := Run(cfg, cs).ledger.rows; rows.wallet.Some? ==> RiskDrift(rows) >= 0.0
    ensures var rows := Sweep(Run(cfg, cs).ledger, listing, now).rows; rows.wallet.Some? ==> RiskDrift(rows) >= 0.0
  {
    hide Perform, Sweep, Sound, StoplessPositive, RiskDrift, ReservedHeld, CapitalHeld, RiskBacked;
    var l := Run(cfg, cs).ledger;
    RunBooks(cfg, cs, seeded);
    SweepBalanced(l, listing, now, seeded, 0.0);
    SweepAgesWallet(l, listing, now);
    var rows := Sweep(l, listing, now).rows;
    if l.rows.wallet.Some? {
      NoSlack(l.rows.wallet.value.version);
    }
    if rows.wallet.Some? {
      NoSlack(rows.wallet.value.version);
    }
  }
}

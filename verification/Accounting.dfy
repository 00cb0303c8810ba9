/** The wallet totals against the rows: reserved cash, open risk, and cash itself. */
module Accounting {
  import opened Prelude
  import opened Domain
  import opened Sizing
  import opened Tables
  import opened Activation
  import opened Ledger
  import opened RowSoundness

  function HeldCash(r: Reservation): real { r.reservedCash }

  function HeldRisk(r: Reservation): real { r.reservedRisk }

  /** The risk a position still books: a stopless import keeps its whole notional
      for ever, any other position what its remaining shares can lose. */
  function CarriedRisk(p: PositionState): real {
    if p.stop.None? then p.averageFill * p.quantity as real
    else RiskAt(p.averageFill, p.stop.value, p.remainingQuantity)
  }

  function CostBasis(p: PositionState): real { p.averageFill * p.remainingQuantity as real }

  function Realized(p: PositionState): real { p.realizedPnl }

  ghost function TotalRisk(rows: Rows): real {
    Sum(rows.reservations, HeldRisk) + Sum(rows.positions, CarriedRisk)
  }

  /** How far the booked open risk is from the sum over the rows. */
  ghost function RiskDrift(rows: Rows): real
    requires rows.wallet.Some?
  {
    rows.wallet.value.openRisk - TotalRisk(rows)
  }

  /** Cash, plus what is invested, minus what trading has realized. */
  ghost function Capital(rows: Rows): real
    requires rows.wallet.Some?
  {
    rows.wallet.value.cashAvailable + Sum(rows.positions, CostBasis) - Sum(rows.positions, Realized)
  }

  /** What the snaps to zero may have lost by a given wallet version. */
  function Slack(tolerance: real, version: nat): real {
    tolerance * version as real
  }

  lemma SlackStep(tolerance: real, version: nat)
    requires tolerance >= 0.0
    ensures Slack(tolerance, version + 1) == Slack(tolerance, version) + tolerance
    ensures Slack(tolerance, version) >= 0.0
  {
  }

  /* ---- the four laws ---- */

  /** Reserved cash is the sum over the reservations. */
  ghost predicate ReservedHeld(rows: Rows) {
    rows.wallet.Some? && rows.wallet.value.reservedCash == Sum(rows.reservations, HeldCash)
  }

  /** Cash, cost basis and realized profit account for the seeded cash. */
  ghost predicate CapitalHeld(rows: Rows, seeded: real, tolerance: real) {
    rows.wallet.Some? && Abs(Capital(rows) - seeded) <= Slack(tolerance, rows.wallet.value.version)
  }

  /** Open risk covers what the rows carry. */
  ghost predicate RiskCovered(rows: Rows, tolerance: real) {
    rows.wallet.Some? && -Slack(tolerance, rows.wallet.value.version) <= RiskDrift(rows)
  }

  /** Open risk is not above what the rows carry. */
  ghost predicate RiskBacked(rows: Rows) {
    rows.wallet.Some? && RiskDrift(rows) <= 0.0
  }

  /** The books balance against the seeded cash. With a zero tolerance the laws are
      equalities. */
  ghost predicate Balanced(rows: Rows, seeded: real, tolerance: real) {
    ReservedHeld(rows) && CapitalHeld(rows, seeded, tolerance) && RiskCovered(rows, tolerance) && RiskBacked(rows)
  }

  /** A step keeps each law that held, whether or not the others did. */
  ghost predicate BooksKept(rows: Rows, rows': Rows, seeded: real, tolerance: real) {
    && (ReservedHeld(rows) ==> ReservedHeld(rows'))
    && (CapitalHeld(rows, seeded, tolerance) ==> CapitalHeld(rows', seeded, tolerance))
    && (RiskCovered(rows, tolerance) ==> RiskCovered(rows', tolerance))
    && (RiskBacked(rows) ==> RiskBacked(rows'))
  }

  /** A fill joins a position none of whose shares were exited. */
  ghost predicate Whole(p: PositionState) {
    p.remainingQuantity == p.quantity
  }

  /* ---- arithmetic of risk ---- */

  lemma RiskAtSplit(average: real, stop: real, m: nat, n: nat)
    ensures RiskAt(average, stop, m + n) == RiskAt(average, stop, m) + RiskAt(average, stop, n)
    ensures RiskAt(average, stop, m) >= 0.0
  {
    var u := average - stop;
    assert u * (m + n) as real == u * m as real + u * n as real;
    if u >= 0.0 {
      assert u * m as real >= 0.0 && u * n as real >= 0.0;
    } else {
      assert u * m as real <= 0.0 && u * n as real <= 0.0;
    }
  }

  lemma AmountNonNegative(quantity: nat, price: real)
    requires price > 0.0
    ensures Amount(quantity, price) >= 0.0 && Cents(Amount(quantity, price))
    ensures quantity == 0 ==> Amount(quantity, price) == 0.0
  {
    var x := quantity as real * price;
    assert x >= 0.0;
    RoundInteger(0);
    RoundMonotone(0.0, x * 100.0);
    Round2IsCents(x);
  }

  lemma ReservationTotals(rows: Rows)
    requires Sound(rows)
    ensures Sum(rows.reservations, HeldCash) >= 0.0 && Sum(rows.reservations, HeldRisk) >= 0.0
    ensures Cents(Sum(rows.reservations, HeldCash))
  {
    PricedTotals(rows.reservations, rows.plans);
  }

  lemma {:induction false} PricedTotals(rs: map<Id, Reservation>, plans: map<Id, TradePlan>)
    requires forall id :: id in rs ==> id in plans && Priced(rs[id], plans[id])
    ensures Sum(rs, HeldCash) >= 0.0 && Sum(rs, HeldRisk) >= 0.0 && Cents(Sum(rs, HeldCash))
    decreases rs.Keys
  {
    if rs.Keys == {} {
      assert (0.0 * 100.0).Floor == 0;
    } else {
      var k := Pick(rs.Keys);
      AmountNonNegative(rs[k].quantity, plans[k].entryZoneHigh);
      AmountNonNegative(rs[k].quantity, plans[k].RiskPerShare());
      PricedTotals(rs - {k}, plans);
      CentsAdd(rs[k].reservedCash, Sum(rs - {k}, HeldCash));
    }
  }

  lemma CarriedNonNegative(p: PositionState)
    requires PositionRow(p) && (p.stop.None? ==> p.averageFill >= 0.0)
    ensures CarriedRisk(p) >= 0.0
  {
    if p.stop.Some? {
      RiskAtSplit(p.averageFill, p.stop.value, p.remainingQuantity, 0);
    } else {
      assert p.averageFill * p.quantity as real >= 0.0;
    }
  }

  /** A stopless row paid a positive price. */
  ghost predicate StoplessPositive(rows: Rows) {
    forall id :: id in rows.positions && rows.positions[id].stop.None? ==> rows.positions[id].averageFill >= 0.0
  }

  lemma TotalRiskNonNegative(rows: Rows)
    requires Sound(rows) && StoplessPositive(rows)
    ensures TotalRisk(rows) >= 0.0 && Sum(rows.positions, CarriedRisk) >= 0.0
  {
    ReservationTotals(rows);
    forall id | id in rows.positions ensures CarriedRisk(rows.positions[id]) >= 0.0 {
      CarriedNonNegative(rows.positions[id]);
    }
    SumNonNegative(rows.positions, CarriedRisk);
  }

  /** Clamping or snapping a drifted total to zero moves it toward, never past, the true one. */
  lemma SnapDrift(x: real, truth: real, slack: real, tolerance: real)
    requires truth >= 0.0 && tolerance >= 0.0
    ensures -slack <= x - truth ==> -slack - tolerance <= Snap(x, tolerance) - truth && -slack <= Max(0.0, x) - truth
    ensures x <= truth ==> Snap(x, tolerance) <= truth && Max(0.0, x) <= truth
  {
  }

  /* ---- the steps ---- */

  lemma SeedBalanced(l: Ledger, capital: real, cash: real, now: int, tolerance: real)
    requires l.rows.reservations == map[] && l.rows.positions == map[] && tolerance >= 0.0
    requires SeedWallet(l, capital, cash, now).Ok?
    ensures Balanced(SeedWallet(l, capital, cash, now).value.rows, cash, tolerance)
  {
    SlackStep(tolerance, 1);
  }

  lemma ImportedFigures(a: ImportArgs, ids: ImportIds, now: int)
    requires a.quantity > 0
    ensures var p := ImportedPosition(a, ids, now);
            && CarriedRisk(p) == ImportRisk(a) && Realized(p) == 0.0
            && CostBasis(p) == a.averageFill * a.quantity as real
  {
  }

  lemma ImportBalanced(l: Ledger, a: ImportArgs, ids: ImportIds, now: int, seeded: real, tolerance: real)
    requires tolerance >= 0.0
    requires ids.positionId !in l.rows.positions && ImportPosition(l, a, ids, now).Ok?
    ensures BooksKept(l.rows, ImportPosition(l, a, ids, now).value.rows, seeded, tolerance)
  {
    hide CarriedRisk, CostBasis, Realized, ImportRisk, Slack, ImportedPosition;
    var p := ImportedPosition(a, ids, now);
    ImportedFigures(a, ids, now);
    var rows := ImportPosition(l, a, ids, now).value.rows;
    SlackStep(tolerance, l.rows.wallet.value.version);
    SumWrite(l.rows.positions, CarriedRisk, ids.positionId, p);
    SumWrite(l.rows.positions, CostBasis, ids.positionId, p);
    SumWrite(l.rows.positions, Realized, ids.positionId, p);
    assert RiskDrift(rows) == RiskDrift(l.rows);
    assert Capital(rows) == Capital(l.rows);
  }

  lemma ReconcileFigures(p: PositionState, holdings: seq<Holding>, held: real, now: int)
    ensures var q := Reconcile(p, holdings, held, now);
            CarriedRisk(q) == CarriedRisk(p) && CostBasis(q) == CostBasis(p) && Realized(q) == Realized(p)
  {
  }

  lemma ReconcileHoldingsBalanced(l: Ledger, holdings: seq<Holding>, order: seq<Id>, notes: seq<Event>, now: int,
                                  seeded: real, tolerance: real)
    requires ReconcileHoldings(l, holdings, order, notes, now).Ok?
    ensures BooksKept(l.rows, ReconcileHoldings(l, holdings, order, notes, now).value.rows, seeded, tolerance)
  {
    var before := l.rows.positions;
    var after := ReconciledPositions(before, holdings, now);
    forall id | id in before
      ensures CarriedRisk(after[id]) == CarriedRisk(before[id]) && CostBasis(after[id]) == CostBasis(before[id])
              && Realized(after[id]) == Realized(before[id])
    {
      ReconcileFigures(before[id], holdings, Sum(before, SharesIn(before[id].Ticker())), now);
    }
    SumPointwise(before, after, CarriedRisk);
    SumPointwise(before, after, CostBasis);
    SumPointwise(before, after, Realized);
  }

  /** Releasing returns exactly the reserved amounts: no clamp is ever reached with a zero tolerance. */
  lemma ReleaseBalanced(l: Ledger, planId: Id, reason: ReleaseReason, now: int, seeded: real, tolerance: real)
    requires Sound(l.rows) && StoplessPositive(l.rows) && tolerance >= 0.0
    ensures BooksKept(l.rows, Release(l, planId, reason, now).rows, seeded, tolerance)
  {
    if Releasable(l.rows, planId) {
      var rows := Release(l, planId, reason, now).rows;
      var w := l.rows.wallet.value;
      ReleaseSound(l, planId, reason, now);
      SlackStep(tolerance, w.version);
      SumRemove(l.rows.reservations, HeldCash, planId);
      SumRemove(l.rows.reservations, HeldRisk, planId);
      ReservationTotals(rows);
      TotalRiskNonNegative(rows);
      SnapDrift(w.openRisk - l.rows.reservations[planId].reservedRisk, TotalRisk(rows), Slack(tolerance, w.version),
                tolerance);
    }
  }

  lemma SweepPlanBalanced(l: Ledger, planId: Id, now: int, seeded: real, tolerance: real)
    requires Sound(l.rows) && StoplessPositive(l.rows) && tolerance >= 0.0
    ensures BooksKept(l.rows, SweepPlan(l, planId, now).rows, seeded, tolerance)
  {
    ReleaseBalanced(l, planId, ReleasedPlanExpired, now, seeded, tolerance);
  }

  lemma SweepKeepsPositions(l: Ledger, listing: Listing, now: int)
    ensures Sweep(l, listing, now).rows.positions == l.rows.positions
  {
    SweepPlansKeepPositions(l, listing.plans, now);
    SweepReservationsKeepPositions(SweepPlans(l, listing.plans, now), listing.reservations, now);
  }

  lemma {:induction false} SweepPlansKeepPositions(l: Ledger, order: seq<Id>, now: int)
    ensures SweepPlans(l, order, now).rows.positions == l.rows.positions
    decreases |order|
  {
    if order != [] {
      SweepPlansKeepPositions(l, order[..|order| - 1], now);
    }
  }

  lemma {:induction false} SweepReservationsKeepPositions(l: Ledger, order: seq<Id>, now: int)
    ensures SweepReservations(l, order, now).rows.positions == l.rows.positions
    decreases |order|
  {
    if order != [] {
      SweepReservationsKeepPositions(l, order[..|order| - 1], now);
    }
  }

  lemma {:induction false} SweepPlansBalanced(l: Ledger, order: seq<Id>, now: int, seeded: real, tolerance: real)
    requires Sound(l.rows) && StoplessPositive(l.rows) && tolerance >= 0.0
    ensures BooksKept(l.rows, SweepPlans(l, order, now).rows, seeded, tolerance)
    decreases |order|
  {
    if order != [] {
      var before := order[..|order| - 1];
      SweepPlansBalanced(l, before, now, seeded, tolerance);
      SweepPlansSound(l, before, now);
      SweepPlansKeepPositions(l, before, now);
      SweepPlanBalanced(SweepPlans(l, before, now), order[|order| - 1], now, seeded, tolerance);
    }
  }

  lemma {:induction false} SweepReservationsBalanced(l: Ledger, order: seq<Id>, now: int, seeded: real, tolerance: real)
    requires Sound(l.rows) && StoplessPositive(l.rows) && tolerance >= 0.0
    ensures BooksKept(l.rows, SweepReservations(l, order, now).rows, seeded, tolerance)
    decreases |order|
  {
    if order != [] {
      var before := order[..|order| - 1];
      SweepReservationsBalanced(l, before, now, seeded, tolerance);
      SweepReservationsSound(l, before, now);
      SweepReservationsKeepPositions(l, before, now);
      ReleaseBalanced(SweepReservations(l, before, now), order[|order| - 1], ReservationExpired, now, seeded,
                      tolerance);
    }
  }

  lemma SweepBalanced(l: Ledger, listing: Listing, now: int, seeded: real, tolerance: real)
    requires Sound(l.rows) && StoplessPositive(l.rows) && tolerance >= 0.0
    ensures BooksKept(l.rows, Sweep(l, listing, now).rows, seeded, tolerance)
  {
    SweepPlansBalanced(l, listing.plans, now, seeded, tolerance);
    SweepPlansSound(l, listing.plans, now);
    SweepPlansKeepPositions(l, listing.plans, now);
    SweepReservationsBalanced(SweepPlans(l, listing.plans, now), listing.reservations, now, seeded, tolerance);
  }

  lemma ReserveBalanced(l: Ledger, cfg: Settings, planId: Id, plan: TradePlan, quantity: nat, now: int, seeded: real)
    requires cfg.tolerance >= 0.0 && l.rows.wallet.Some? && planId !in l.rows.reservations
    ensures BooksKept(l.rows, Reserve(l, cfg, planId, plan, quantity, now).rows, seeded, cfg.tolerance)
  {
    var r := ReservationFor(planId, plan, cfg, quantity, now);
    SlackStep(cfg.tolerance, l.rows.wallet.value.version);
    SumWrite(l.rows.reservations, HeldCash, planId, r);
    SumWrite(l.rows.reservations, HeldRisk, planId, r);
  }

  /** The tail of an activation: an evaluation, and a reservation on BUY_NOW. */
  lemma EvaluationBalanced(l: Ledger, cfg: Settings, planId: Id, plan: TradePlan, ctx: MarketContext, now: int,
                           seeded: real)
    requires cfg.tolerance >= 0.0 && l.rows.wallet.Some? && planId !in l.rows.reservations
    requires EvaluateAndReserve(l, cfg, planId, plan, ctx, now).Ok?
    ensures BooksKept(l.rows, EvaluateAndReserve(l, cfg, planId, plan, ctx, now).value.rows, seeded, cfg.tolerance)
  {
    hide Activate, ReservedHeld, CapitalHeld, RiskCovered, RiskBacked, Reserve;
    var d := Activate(plan, ctx.snapshot, l.rows.wallet.value, None, GateOf(cfg, ctx), now);
    var noted := Commit(l, l.rows, [Event(PlanEvaluated, OfRow(planId), NO_ROWS)]);
    ReserveBalanced(noted, cfg, planId, plan, d.value.1, now, seeded);
  }

  lemma ActivationBalanced(l: Ledger, cfg: Settings, planId: Id, ctx: MarketContext, now: int, seeded: real)
    requires Sound(l.rows) && StoplessPositive(l.rows) && cfg.tolerance >= 0.0
    requires ActivateWithContext(l, cfg, planId, ctx, now).Ok?
    ensures BooksKept(l.rows, ActivateWithContext(l, cfg, planId, ctx, now).value.rows, seeded, cfg.tolerance)
  {
    hide EvaluateAndReserve, Sum, HeldCash, HeldRisk, CarriedRisk, CostBasis, Slack, ReleasedWallet, ReleasedStatus;
    ReleaseBalanced(l, planId, ReleasedPlanExpired, now, seeded, cfg.tolerance);
    ReleaseBalanced(l, planId, MaxConcurrentReached, now, seeded, cfg.tolerance);
    ReleaseBalanced(l, planId, ReservationExpired, now, seeded, cfg.tolerance);
    ReleaseSound(l, planId, ReservationExpired, now);
    if planId in l.rows.plans {
      var l1, plan := Release(l, planId, ReservationExpired, now), l.rows.plans[planId];
      if l1.rows.wallet.Some? && EvaluateAndReserve(l1, cfg, planId, plan, ctx, now).Ok? {
        EvaluationBalanced(l1, cfg, planId, plan, ctx, now, seeded);
      }
    }
  }
}

/** The clamps and guards of the wallet arithmetic over runs: which of them can act,
    and how far. */
module GuardRuns {
  import opened Prelude
  import opened Domain
  import opened Tables
  import opened Ledger
  import opened RowSoundness
  import opened Accounting
  import opened FillAccounting
  import opened Runs
  import opened MoneyRuns

  lemma {:induction false} SumBounds<T>(m: map<int, T>, f: T -> real, k: int)
    requires k in m && forall j :: j in m ==> f(m[j]) >= 0.0
    ensures f(m[k]) <= Sum(m, f)
  {
    SumRemove(m, f, k);
    SumNonNegative(m - {k}, f);
  }

  /** No single reservation or position books more than the totals hold. */
  lemma RowsWithinTotals(rows: Rows)
    requires Sound(rows) && StoplessPositive(rows)
    ensures forall id :: id in rows.reservations ==>
              rows.reservations[id].reservedCash <= Sum(rows.reservations, HeldCash)
              && rows.reservations[id].reservedRisk <= TotalRisk(rows)
    ensures forall id :: id in rows.positions ==> CarriedRisk(rows.positions[id]) <= TotalRisk(rows)
  {
    hide CarriedRisk, PositionRow;
    ReservationTotals(rows);
    TotalRiskNonNegative(rows);
    forall id | id in rows.reservations
      ensures HeldCash(rows.reservations[id]) >= 0.0 && HeldRisk(rows.reservations[id]) >= 0.0
    {
      AmountNonNegative(rows.reservations[id].quantity, rows.plans[id].entryZoneHigh);
      AmountNonNegative(rows.reservations[id].quantity, rows.plans[id].RiskPerShare());
    }
    forall id | id in rows.positions ensures CarriedRisk(rows.positions[id]) >= 0.0 {
      CarriedNonNegative(rows.positions[id]);
    }
    forall id | id in rows.reservations
      ensures rows.reservations[id].reservedCash <= Sum(rows.reservations, HeldCash)
              && rows.reservations[id].reservedRisk <= TotalRisk(rows)
    {
      SumBounds(rows.reservations, HeldCash, id);
      SumBounds(rows.reservations, HeldRisk, id);
    }
    forall id | id in rows.positions ensures CarriedRisk(rows.positions[id]) <= TotalRisk(rows) {
      SumBounds(rows.positions, CarriedRisk, id);
    }
  }

  /** No release takes more cash than is reserved. */
  ghost predicate ReleasesCovered(rows: Rows) {
    rows.wallet.Some? && forall id :: id in rows.reservations ==>
      rows.wallet.value.reservedCash >= rows.reservations[id].reservedCash
  }

  /** No release and no exit takes more risk than is open, up to a shortfall. */
  ghost predicate RiskWithin(rows: Rows, shortfall: real)
    requires rows.wallet.Some?
  {
    var w := rows.wallet.value;
    && (forall id :: id in rows.reservations ==> w.openRisk + shortfall >= rows.reservations[id].reservedRisk)
    && (forall id, quantity: nat :: id in rows.positions && quantity <= rows.positions[id].remainingQuantity ==>
          w.openRisk + shortfall >= RiskAt(rows.positions[id].averageFill, StopOrAverage(rows.positions[id]), quantity))
  }

  /** In a reachable world, and after any part of a sweep of it, the totals hold what a
      release or an exit takes from them: the reserved cash always, the open risk up to
      what snaps have lost, which in exact arithmetic is nothing, as long as no fill
      joined a partly exited position. */
  lemma ClampsIdle(cfg: Settings, cs: seq<Command>, seeded: real, listing: Listing, now: int)
    requires cfg.Valid() && SteadyRun(cfg, cs, seeded)
    requires Run(cfg, cs).ledger.rows.wallet.Some?
    ensures var rows := Sweep(Run(cfg, cs).ledger, listing, now).rows;
            && ReleasesCovered(rows)
            && (WholeRun(cfg, cs) ==> RiskWithin(rows, Slack(cfg.tolerance, rows.wallet.value.version)))
  {
    hide Perform, ReservedHeld, RiskCovered, CapitalHeld, RiskBacked, Sweep, Sound, StoplessPositive, WholeRun,
         SteadyRun, RiskWithin, ReleasesCovered;
    var l := Run(cfg, cs).ledger;
    RunBooks(cfg, cs, seeded);
    SweepBalanced(l, listing, now, seeded, cfg.tolerance);
    SweepKeepsPositions(l, listing, now);
    SweepSound(l, listing, now);
    var rows := Sweep(l, listing, now).rows;
    StoplessFrame(l.rows, rows);
    ReservedCovers(rows);
    if WholeRun(cfg, cs) {
      CoveredRisk(rows, cfg.tolerance);
    }
  }

  lemma ReservedCovers(rows: Rows)
    requires Sound(rows) && StoplessPositive(rows) && ReservedHeld(rows)
    ensures ReleasesCovered(rows)
  {
    hide Sound, StoplessPositive, CarriedRisk, TotalRisk;
    RowsWithinTotals(rows);
  }

  lemma CoveredRisk(rows: Rows, tolerance: real)
    requires Sound(rows) && StoplessPositive(rows) && RiskCovered(rows, tolerance)
    ensures rows.wallet.Some? && RiskWithin(rows, Slack(tolerance, rows.wallet.value.version))
  {
    hide Sound, StoplessPositive, CarriedRisk, RiskAt, Slack, TotalRisk;
    RowsWithinTotals(rows);
    TotalRiskNonNegative(rows);
    var shortfall := Slack(tolerance, rows.wallet.value.version);
    assert rows.wallet.value.openRisk + shortfall >= TotalRisk(rows);
    forall id, quantity: nat | id in rows.positions && quantity <= rows.positions[id].remainingQuantity
      ensures rows.wallet.value.openRisk + shortfall
           >= RiskAt(rows.positions[id].averageFill, StopOrAverage(rows.positions[id]), quantity)
    {
      ExitWithinCarried(rows, id, quantity);
    }
  }

  lemma ExitWithinCarried(rows: Rows, id: Id, quantity: nat)
    requires Sound(rows) && id in rows.positions && quantity <= rows.positions[id].remainingQuantity
    ensures var p := rows.positions[id];
            RiskAt(p.averageFill, StopOrAverage(p), quantity) <= Max(0.0, CarriedRisk(p))
  {
    var p := rows.positions[id];
    if p.stop.Some? {
      RiskAtSplit(p.averageFill, p.stop.value, quantity, p.remainingQuantity - quantity);
      RiskAtSplit(p.averageFill, p.stop.value, p.remainingQuantity - quantity, 0);
    }
  }

  /** In every world of any run whose open risk is short by at most one tolerance, a
      stop order is refused exactly for a missing row, an undefined reference stop or a
      stop below the floor: its accounting guard never fires. By ExactlyCovered every
      world of a run in exact arithmetic is such a world. */
  lemma ProtectRefusedIff(cfg: Settings, cs: seq<Command>, positionId: Id, stop: real, ref: Option<string>, now: int)
    requires cfg.Valid() && AdmissibleRun(cfg, cs)
    requires var rows := Run(cfg, cs).ledger.rows; rows.wallet.Some? ==> RiskDrift(rows) >= -cfg.tolerance
    ensures var l := Run(cfg, cs).ledger;
            ProtectPosition(l, cfg, positionId, stop, ref, now).Raised?
            <==> || positionId !in l.rows.positions || l.rows.wallet.None?
                 || var reference := ReferenceStop(l.rows, l.rows.positions[positionId]);
                    || reference.None?
                    || stop < MinStop(l.rows, cfg, l.rows.positions[positionId], reference.value) - cfg.tolerance
  {
    hide Perform, Sound, StoplessPositive, CarriedRisk, RiskAt, MinStop, ProtectedPosition, TotalRisk;
    var l := Run(cfg, cs).ledger;
    if positionId in l.rows.positions && l.rows.wallet.Some? {
      var p := l.rows.positions[positionId];
      RunSound(cfg, cs);
      RunStopless(cfg, cs);
      RowsWithinTotals(l.rows);
      if ReferenceStop(l.rows, p).Some? {
        ReferenceIsCarried(l.rows, positionId);
        RiskNonNegative(p.averageFill, stop, p.remainingQuantity);
      }
    }
  }

  lemma RiskNonNegative(average: real, stop: real, shares: nat)
    ensures RiskAt(average, stop, shares) >= 0.0
  {
    RiskAtSplit(average, stop, shares, 0);
  }

  lemma ReferenceIsCarried(rows: Rows, id: Id)
    requires Sound(rows) && id in rows.positions && ReferenceStop(rows, rows.positions[id]).Some?
    ensures var p := rows.positions[id];
            RiskAt(p.averageFill, ReferenceStop(rows, p).value, p.remainingQuantity) == CarriedRisk(p)
  {
    hide RiskAt;
  }
}

/** Fills, stop changes and exits against the books. */
module FillAccounting {
  import opened Prelude
  import opened Domain
  import opened Tables
  import opened Ledger
  import opened RowSoundness
  import opened Accounting

  function Spent(a: FillArgs): real {
    a.price * a.quantity as real
  }

  /** Shares of the joined position that were already sold. */
  function Exited(c: FillContext): nat
    requires c.existing.Some? ==> c.existing.value.remainingQuantity <= c.existing.value.quantity
  {
    if c.existing.Some? then c.existing.value.quantity - c.existing.value.remainingQuantity else 0
  }

  function StopOf(c: FillContext): real {
    if c.existing.Some? && c.existing.value.stop.Some? then c.existing.value.stop.value else 0.0
  }

  function AverageOf(c: FillContext): real {
    if c.existing.Some? then c.existing.value.averageFill else 0.0
  }

  /** The risk a fill books beyond what the rows carry: it re-prices sold shares. */
  function RiskGap(c: FillContext, a: FillArgs): real
    requires a.quantity > 0
    requires c.existing.Some? ==> c.existing.value.remainingQuantity <= c.existing.value.quantity
  {
    RiskAt(EntryAverage(c.existing, a.price, a.quantity), EffectiveStop(c.plan, c.existing, a), Exited(c))
    - RiskAt(AverageOf(c), StopOf(c), Exited(c))
  }

  /** The cost a fill moves off the sold shares by averaging over all of them. */
  function CostGap(c: FillContext, a: FillArgs): real
    requires a.quantity > 0
    requires c.existing.Some? ==> c.existing.value.remainingQuantity <= c.existing.value.quantity
  {
    (EntryAverage(c.existing, a.price, a.quantity) - AverageOf(c)) * Exited(c) as real
  }

  lemma EntryAverageTotal(existing: Option<PositionState>, price: real, quantity: int)
    requires quantity > 0
    ensures EntryAverage(existing, price, quantity) * (PriorQuantity(existing) + quantity) as real
         == PriorValue(existing) + price * quantity as real
  {
  }

  lemma Distribute(x: real, m: int, n: int)
    ensures x * (m + n) as real == x * m as real + x * n as real
    ensures x * (m - n) as real == x * m as real - x * n as real
  {
  }

  /** Moving from `rem` of `rem + x` shares at one level to `rem + q` of
      `rem + x + q` at another. */
  lemma SoldShares(average': real, stop': real, average: real, stop: real, rem: nat, x: nat, q: nat)
    ensures RiskAt(average', stop', rem + q) - RiskAt(average, stop, rem)
         == RiskAt(average', stop', rem + x + q) - RiskAt(average, stop, rem + x)
            - (RiskAt(average', stop', x) - RiskAt(average, stop, x))
    ensures average' * (rem + q) as real - average * rem as real
         == average' * (rem + x + q) as real - average * (rem + x) as real - (average' - average) * x as real
  {
    RiskAtSplit(average', stop', rem + q, x);
    RiskAtSplit(average, stop, rem, x);
    Distribute(average', rem + q, x);
    Distribute(average, rem, x);
    CostGapSplit(average', average, x);
  }

  lemma CostGapSplit(x: real, y: real, n: int)
    ensures (x - y) * n as real == x * n as real - y * n as real
  {
  }

  function CarriedBefore(existing: Option<PositionState>): real {
    if existing.Some? then CarriedRisk(existing.value) else 0.0
  }

  function CostBefore(existing: Option<PositionState>): real {
    if existing.Some? then CostBasis(existing.value) else 0.0
  }

  function RealizedBefore(existing: Option<PositionState>): real {
    if existing.Some? then Realized(existing.value) else 0.0
  }

  ghost predicate Joinable(c: FillContext) {
    c.existing.Some? ==> PositionRow(c.existing.value) && c.existing.value.Open() && c.existing.value.stop.Some?
  }

  /** What one fill adds to the row figures, whatever was sold before. */
  lemma FilledFigures(c: FillContext, a: FillArgs, positionId: Id, now: int)
    requires a.quantity > 0 && Joinable(c)
    ensures var p := FilledPosition(c, a, positionId, now);
            && CarriedRisk(p) - CarriedBefore(c.existing)
                 == RiskAt(p.averageFill, EffectiveStop(c.plan, c.existing, a), p.quantity) - ExistingRisk(c.existing)
                    - RiskGap(c, a)
            && CostBasis(p) - CostBefore(c.existing) == Spent(a) - CostGap(c, a)
            && Realized(p) == RealizedBefore(c.existing)
  {
    if c.existing.Some? {
      JoinedFigures(c, a, positionId, now);
    } else {
      OpenedFigures(c, a, positionId, now);
    }
  }

  lemma OpenedFigures(c: FillContext, a: FillArgs, positionId: Id, now: int)
    requires a.quantity > 0 && c.existing.None?
    ensures var p := FilledPosition(c, a, positionId, now);
            && CarriedRisk(p) == RiskAt(p.averageFill, EffectiveStop(c.plan, c.existing, a), p.quantity)
            && CostBasis(p) == Spent(a) && Realized(p) == 0.0
    ensures RiskGap(c, a) == 0.0 && CostGap(c, a) == 0.0 && ExistingRisk(c.existing) == 0.0
  {
  }

  /** A row `p` grown from `e`, `x` of whose shares were sold, by `q` shares costing `total`. */
  lemma GrownFigures(p: PositionState, e: PositionState, stop: real, x: nat, q: nat, total: real)
    requires p.stop == Some(stop) && e.stop.Some? && e.quantity == e.remainingQuantity + x
    requires p.remainingQuantity == e.remainingQuantity + q && p.quantity == e.quantity + q
    requires p.averageFill * (e.quantity + q) as real == e.averageFill * e.quantity as real + total
    ensures CarriedRisk(p) - CarriedRisk(e)
         == RiskAt(p.averageFill, stop, p.quantity) - RiskAt(e.averageFill, e.stop.value, e.quantity)
            - (RiskAt(p.averageFill, stop, x) - RiskAt(e.averageFill, e.stop.value, x))
    ensures CostBasis(p) - CostBasis(e) == total - (p.averageFill - e.averageFill) * x as real
  {
    SoldShares(p.averageFill, stop, e.averageFill, e.stop.value, e.remainingQuantity, x, q);
  }

  lemma JoinedShape(c: FillContext, a: FillArgs, positionId: Id, now: int)
    requires a.quantity > 0 && Joinable(c) && c.existing.Some?
    ensures var p := FilledPosition(c, a, positionId, now);
            var e := c.existing.value;
            && p.stop == Some(EffectiveStop(c.plan, c.existing, a))
            && p.averageFill == EntryAverage(c.existing, a.price, a.quantity)
            && p.remainingQuantity == e.remainingQuantity + a.quantity && p.quantity == e.quantity + a.quantity
            && Realized(p) == Realized(e)
  {
  }

  lemma JoinedFigures(c: FillContext, a: FillArgs, positionId: Id, now: int)
    requires a.quantity > 0 && Joinable(c) && c.existing.Some?
    ensures var p := FilledPosition(c, a, positionId, now);
            && CarriedRisk(p) - CarriedRisk(c.existing.value)
                 == RiskAt(p.averageFill, EffectiveStop(c.plan, c.existing, a), p.quantity) - ExistingRisk(c.existing)
                    - RiskGap(c, a)
            && CostBasis(p) - CostBasis(c.existing.value) == Spent(a) - CostGap(c, a)
            && Realized(p) == Realized(c.existing.value)
  {
    hide RiskAt, EntryAverage, CarriedRisk, CostBasis, FilledPosition, EffectiveStop;
    EntryAverageTotal(c.existing, a.price, a.quantity);
    JoinedShape(c, a, positionId, now);
    GrownFigures(FilledPosition(c, a, positionId, now), c.existing.value, EffectiveStop(c.plan, c.existing, a),
                 Exited(c), a.quantity, Spent(a));
  }

  /** The rows a fill writes, apart from the wallet and the plan. */
  ghost function FilledRows(rows: Rows, c: FillContext, a: FillArgs, positionId: Id, now: int): Rows
    requires 0 < a.quantity <= c.reservation.quantity
  {
    var p := FilledPosition(c, a, positionId, now);
    var r := Consumed(c.plan, c.reservation, a.quantity);
    rows.(reservations := if r.quantity == 0 then rows.reservations - {a.planId} else rows.reservations[a.planId := r],
          positions := rows.positions[p.positionId := p])
  }

  lemma ReservationShrinks(rows: Rows, planId: Id, quantity: int)
    requires Sound(rows) && planId in rows.plans && planId in rows.reservations
    requires 0 < quantity <= rows.reservations[planId].quantity
    ensures var r0 := rows.reservations[planId];
            var r := Consumed(rows.plans[planId], r0, quantity);
            var after := if r.quantity == 0 then rows.reservations - {planId} else rows.reservations[planId := r];
            && Sum(after, HeldCash) == Sum(rows.reservations, HeldCash) - r0.reservedCash + r.reservedCash
            && Sum(after, HeldRisk) == Sum(rows.reservations, HeldRisk) - r0.reservedRisk + r.reservedRisk
  {
    var r := Consumed(rows.plans[planId], rows.reservations[planId], quantity);
    assert Priced(rows.reservations[planId], rows.plans[planId]);
    AmountNonNegative(r.quantity, rows.plans[planId].entryZoneHigh);
    AmountNonNegative(r.quantity, rows.plans[planId].RiskPerShare());
    SumRemove(rows.reservations, HeldCash, planId);
    SumRemove(rows.reservations, HeldRisk, planId);
    SumWrite(rows.reservations, HeldCash, planId, r);
    SumWrite(rows.reservations, HeldRisk, planId, r);
  }

  /** A context whose rows are sound, for a fresh position identifier. */
  ghost predicate Fillable(rows: Rows, c: FillContext, a: FillArgs, positionId: Id) {
    && Sound(rows) && ContextReady(rows, c, a.planId) && positionId !in rows.positions
    && (forall id :: id in rows.positions ==> rows.positions[id].positionId == id)
    && 0 < a.quantity <= c.reservation.quantity
  }

  lemma FillableJoins(rows: Rows, c: FillContext, a: FillArgs, positionId: Id)
    requires Fillable(rows, c, a, positionId)
    ensures Joinable(c)
    ensures c.existing.Some? ==> c.existing.value.positionId in rows.positions
                                 && rows.positions[c.existing.value.positionId] == c.existing.value
                                 && c.existing.value.planId == a.planId
    ensures c.existing.Some? <==> PlanHasOpen(rows, a.planId)
  {
    if PlanHasOpen(rows, a.planId) {
      OpenPositionFound(rows, a.planId);
    }
  }

  lemma PositionTotals(rows: Rows, c: FillContext, a: FillArgs, positionId: Id, now: int)
    requires Fillable(rows, c, a, positionId)
    ensures Joinable(c)
    ensures var p := FilledPosition(c, a, positionId, now);
            var filled := rows.positions[p.positionId := p];
            && Sum(filled, CarriedRisk) == Sum(rows.positions, CarriedRisk) - CarriedBefore(c.existing) + CarriedRisk(p)
            && Sum(filled, CostBasis) == Sum(rows.positions, CostBasis) - CostBefore(c.existing) + CostBasis(p)
            && Sum(filled, Realized) == Sum(rows.positions, Realized) - RealizedBefore(c.existing) + Realized(p)
  {
    var p := FilledPosition(c, a, positionId, now);
    FillableJoins(rows, c, a, positionId);
    SumWrite(rows.positions, CarriedRisk, p.positionId, p);
    SumWrite(rows.positions, CostBasis, p.positionId, p);
    SumWrite(rows.positions, Realized, p.positionId, p);
  }

  ghost function Proposed(c: FillContext, a: FillArgs, positionId: Id, now: int): WalletState
    requires 0 < a.quantity <= c.reservation.quantity
  {
    ProposedWallet(c, a, FilledPosition(c, a, positionId, now), EffectiveStop(c.plan, c.existing, a))
  }

  /** The totals after a fill, before the wallet is snapped. */
  lemma BookedCash(rows: Rows, c: FillContext, a: FillArgs, positionId: Id, now: int)
    requires Fillable(rows, c, a, positionId) && c.wallet.reservedCash == Sum(rows.reservations, HeldCash)
    ensures Proposed(c, a, positionId, now).reservedCash
            == Sum(FilledRows(rows, c, a, positionId, now).reservations, HeldCash)
  {
    ReservationShrinks(rows, a.planId, a.quantity);
  }

  lemma BookedRisk(rows: Rows, c: FillContext, a: FillArgs, positionId: Id, now: int)
    requires Fillable(rows, c, a, positionId)
    ensures Joinable(c)
    ensures Proposed(c, a, positionId, now).openRisk - TotalRisk(FilledRows(rows, c, a, positionId, now))
         == RiskDrift(rows) + RiskGap(c, a)
  {
    FillableJoins(rows, c, a, positionId);
    PositionTotals(rows, c, a, positionId, now);
    FilledFigures(c, a, positionId, now);
    ReservationShrinks(rows, a.planId, a.quantity);
    var p := FilledPosition(c, a, positionId, now);
    var booked := RiskAt(p.averageFill, EffectiveStop(c.plan, c.existing, a), p.quantity);
    var r := Consumed(c.plan, c.reservation, a.quantity);
    assert Proposed(c, a, positionId, now).openRisk
        == c.wallet.openRisk - c.reservation.reservedRisk + r.reservedRisk - ExistingRisk(c.existing) + booked;
  }

  lemma ProposedCash(c: FillContext, a: FillArgs, positionId: Id, now: int)
    requires 0 < a.quantity <= c.reservation.quantity
    ensures Proposed(c, a, positionId, now).cashAvailable == c.wallet.cashAvailable - Spent(a)
  {
  }

  lemma BookedCapital(rows: Rows, c: FillContext, a: FillArgs, positionId: Id, now: int)
    requires Fillable(rows, c, a, positionId)
    ensures Joinable(c)
    ensures Proposed(c, a, positionId, now).cashAvailable
              + Sum(FilledRows(rows, c, a, positionId, now).positions, CostBasis)
              - Sum(FilledRows(rows, c, a, positionId, now).positions, Realized)
         == Capital(rows) - CostGap(c, a)
  {
    FillableJoins(rows, c, a, positionId);
    PositionTotals(rows, c, a, positionId, now);
    FilledFigures(c, a, positionId, now);
    ProposedCash(c, a, positionId, now);
    CapitalArithmetic(rows, c, FilledPosition(c, a, positionId, now), Spent(a), CostGap(c, a));
  }

  lemma CapitalArithmetic(rows: Rows, c: FillContext, p: PositionState, spent: real, gap: real)
    requires rows.wallet.Some?
    requires var filled := rows.positions[p.positionId := p];
             && Sum(filled, CostBasis) == Sum(rows.positions, CostBasis) - CostBefore(c.existing) + CostBasis(p)
             && Sum(filled, Realized) == Sum(rows.positions, Realized) - RealizedBefore(c.existing) + Realized(p)
    requires CostBasis(p) - CostBefore(c.existing) == spent - gap && Realized(p) == RealizedBefore(c.existing)
    ensures rows.wallet.value.cashAvailable - spent
              + Sum(rows.positions[p.positionId := p], CostBasis) - Sum(rows.positions[p.positionId := p], Realized)
         == Capital(rows) - gap
  {
  }

  /** A fill that joins a position joins one none of whose shares were sold. */
  ghost predicate JoinsWhole(c: FillContext) {
    c.existing.Some? ==> Whole(c.existing.value)
  }

  lemma WholeHasNoGap(c: FillContext, a: FillArgs)
    requires a.quantity > 0 && Joinable(c) && JoinsWhole(c)
    ensures RiskGap(c, a) == 0.0 && CostGap(c, a) == 0.0
  {
    assert Exited(c) == 0;
  }

  /** The accounting guard of `confirm_fill` cannot fire: not at all with a zero
      tolerance, and otherwise not before the snaps have lost more than one tolerance. */
  lemma FillGuardIdle(rows: Rows, c: FillContext, cfg: Settings, a: FillArgs, positionId: Id, now: int)
    requires Fillable(rows, c, a, positionId) && JoinsWhole(c) && StoplessPositive(rows) && cfg.Valid()
    requires ReservedHeld(rows) && RiskDrift(rows) >= -cfg.tolerance
    requires RequestRejection(c.wallet, c.plan, c.reservation, cfg, a).None?
    ensures !AccountingBroken(Proposed(c, a, positionId, now), cfg.tolerance)
  {
    hide RiskAt, EntryAverage, CarriedRisk, CostBasis, FilledPosition, EffectiveStop, ProposedWallet, Proposed,
         FilledRows, TotalRisk, RiskDrift, Capital, Slack, RiskGap, CostGap, StoplessPositive, RequestRejection;
    AffordableFill(c, cfg, a);
    FilledRowsPositive(rows, c, a, positionId, now);
    BookedCash(rows, c, a, positionId, now);
    BookedRisk(rows, c, a, positionId, now);
    ProposedCash(c, a, positionId, now);
    WholeHasNoGap(c, a);
  }

  lemma AffordableFill(c: FillContext, cfg: Settings, a: FillArgs)
    requires RequestRejection(c.wallet, c.plan, c.reservation, cfg, a).None?
    ensures Spent(a) <= c.wallet.cashAvailable + cfg.tolerance && a.quantity > 0
  {
  }

  lemma FilledRowsPositive(rows: Rows, c: FillContext, a: FillArgs, positionId: Id, now: int)
    requires Fillable(rows, c, a, positionId) && StoplessPositive(rows)
    ensures Joinable(c)
    ensures var filled := FilledRows(rows, c, a, positionId, now);
            && TotalRisk(filled) >= 0.0 && Sum(filled.reservations, HeldCash) >= 0.0
            && Cents(Sum(filled.reservations, HeldCash)) && StoplessPositive(filled)
  {
    hide RiskAt, EntryAverage, CarriedRisk, CostBasis, EffectiveStop;
    var filled := FilledRows(rows, c, a, positionId, now);
    var r := Consumed(c.plan, c.reservation, a.quantity);
    var plan := c.plan.(status := if r.quantity == 0 then PlanFilled else PlanReserved);
    var after := filled.(plans := rows.plans[a.planId := plan]);
    FillableJoins(rows, c, a, positionId);
    FilledPositionRow(c, a, positionId, now);
    ConsumedSound(rows, a.planId, a.quantity, after);
    PositionWriteSound(rows, after, FilledPosition(c, a, positionId, now));
    ReservationTotals(after);
    TotalRiskNonNegative(after);
  }

  /** Snapping a wallet whose totals were right up to the old slack. */
  lemma SnappedBooks(rows: Rows, w: WalletState, seeded: real, cfg: Settings, now: int)
    requires cfg.Valid() && TotalRisk(rows) >= 0.0 && Cents(Sum(rows.reservations, HeldCash))
    ensures BooksKept(rows.(wallet := Some(w)), rows.(wallet := Some(SnappedWallet(w, cfg.tolerance, now))), seeded,
                      cfg.tolerance)
  {
    hide Slack, CarriedRisk, CostBasis;
    SlackStep(cfg.tolerance, w.version);
    SnapDrift(w.openRisk, TotalRisk(rows), Slack(cfg.tolerance, w.version), cfg.tolerance);
    if w.reservedCash == Sum(rows.reservations, HeldCash) && Abs(w.reservedCash) < cfg.tolerance {
      CentsBelowOne(w.reservedCash);
    }
  }

  /** The laws look at the wallet, the reservations and the positions only. */
  lemma BooksFrame(rows: Rows, rows': Rows, seeded: real, tolerance: real)
    requires rows'.wallet == rows.wallet && rows'.reservations == rows.reservations && rows'.positions == rows.positions
    ensures BooksKept(rows, rows', seeded, tolerance)
  {
  }

  lemma BookFillRows(l: Ledger, c: FillContext, cfg: Settings, a: FillArgs, positionId: Id, now: int)
    requires 0 < a.quantity <= c.reservation.quantity && BookFill(l, c, cfg, a, positionId, now).Ok?
    ensures var rows := BookFill(l, c, cfg, a, positionId, now).value.rows;
            && rows.wallet == Some(SnappedWallet(Proposed(c, a, positionId, now), cfg.tolerance, now))
            && rows.reservations == FilledRows(l.rows, c, a, positionId, now).reservations
            && rows.positions == FilledRows(l.rows, c, a, positionId, now).positions
  {
    hide RiskAt, EntryAverage, FilledPosition, EffectiveStop, ProposedWallet;
  }

  /** The books between the writes of a fill and the snaps: reserved cash is moved
      exactly, and so is the rest if the fill joins no partly exited position. */
  lemma ProposedBooks(rows: Rows, c: FillContext, cfg: Settings, a: FillArgs, positionId: Id, now: int, seeded: real)
    requires Fillable(rows, c, a, positionId)
    ensures var filled := FilledRows(rows, c, a, positionId, now).(wallet := Some(Proposed(c, a, positionId, now)));
            && (ReservedHeld(rows) ==> ReservedHeld(filled))
            && (JoinsWhole(c) ==> BooksKept(rows, filled, seeded, cfg.tolerance))
  {
    hide RiskAt, EntryAverage, CarriedRisk, CostBasis, FilledPosition, EffectiveStop, ProposedWallet, Slack;
    FillableJoins(rows, c, a, positionId);
    if ReservedHeld(rows) {
      BookedCash(rows, c, a, positionId, now);
    }
    BookedRisk(rows, c, a, positionId, now);
    BookedCapital(rows, c, a, positionId, now);
    ProposedVersion(c, a, positionId, now);
    if JoinsWhole(c) {
      WholeHasNoGap(c, a);
    }
  }

  /** An accepted fill keeps reserved cash right, and every law if it joins no partly
      exited position, averaged or not. */
  lemma BookFillBalanced(l: Ledger, c: FillContext, cfg: Settings, a: FillArgs, positionId: Id, now: int, seeded: real)
    requires Fillable(l.rows, c, a, positionId) && StoplessPositive(l.rows) && cfg.Valid()
    requires BookFill(l, c, cfg, a, positionId, now).Ok?
    ensures var rows := BookFill(l, c, cfg, a, positionId, now).value.rows;
            && (ReservedHeld(l.rows) ==> ReservedHeld(rows)) && StoplessPositive(rows)
            && (JoinsWhole(c) ==> BooksKept(l.rows, rows, seeded, cfg.tolerance))
  {
    hide FilledRows, Proposed, BookFill, ReservedHeld, CapitalHeld, RiskCovered, RiskBacked, TotalRisk,
         StoplessPositive, Fillable;
    FillableQuantity(l.rows, c, a, positionId);
    var filled := FilledRows(l.rows, c, a, positionId, now);
    var snapped := filled.(wallet := Some(SnappedWallet(Proposed(c, a, positionId, now), cfg.tolerance, now)));
    var rows := BookFill(l, c, cfg, a, positionId, now).value.rows;
    ProposedBooks(l.rows, c, cfg, a, positionId, now, seeded);
    FilledRowsPositive(l.rows, c, a, positionId, now);
    SnappedBooks(filled, Proposed(c, a, positionId, now), seeded, cfg, now);
    BookFillRows(l, c, cfg, a, positionId, now);
    BooksFrame(snapped, rows, seeded, cfg.tolerance);
    StoplessFrame(filled, rows);
  }

  lemma FillableQuantity(rows: Rows, c: FillContext, a: FillArgs, positionId: Id)
    requires Fillable(rows, c, a, positionId)
    ensures 0 < a.quantity <= c.reservation.quantity
  {
  }

  lemma StoplessFrame(rows: Rows, rows': Rows)
    requires StoplessPositive(rows) && rows'.positions == rows.positions
    ensures StoplessPositive(rows')
  {
  }

  lemma ProposedVersion(c: FillContext, a: FillArgs, positionId: Id, now: int)
    requires 0 < a.quantity <= c.reservation.quantity
    ensures Proposed(c, a, positionId, now).version == c.wallet.version
  {
  }

  lemma EntryAverageKept(existing: PositionState, price: real, quantity: int)
    requires quantity > 0
    ensures existing.quantity > 0 ==>
      (EntryAverage(Some(existing), price, quantity) == existing.averageFill <==> price == existing.averageFill)
  {
    var average := EntryAverage(Some(existing), price, quantity);
    EntryAverageTotal(Some(existing), price, quantity);
    Distribute(existing.averageFill, existing.quantity, quantity);
    CostGapSplit(price, existing.averageFill, quantity);
    if average == existing.averageFill {
      assert existing.averageFill * quantity as real == price * quantity as real;
    }
    if price == existing.averageFill {
      assert average * (existing.quantity + quantity) as real
             == existing.averageFill * (existing.quantity + quantity) as real;
    }
  }

  lemma ScaledDifference(x: real, y: real, n: nat)
    ensures (x - y) * n as real == 0.0 <==> n == 0 || x == y
  {
  }

  /** Exactly when a fill on a partly exited position still balances, in exact
      arithmetic: it pays the old average and leaves the unit risk as it was. */
  lemma PartlyExitedFillIff(c: FillContext, a: FillArgs)
    requires a.quantity > 0 && Joinable(c) && c.existing.Some?
    ensures var e := c.existing.value;
      CostGap(c, a) == 0.0 && RiskGap(c, a) == 0.0
      <==> Whole(e) || (a.price == e.averageFill
             && Max(0.0, e.averageFill - EffectiveStop(c.plan, c.existing, a))
                == Max(0.0, e.averageFill - e.stop.value))
  {
    var e := c.existing.value;
    var average := EntryAverage(c.existing, a.price, a.quantity);
    EntryAverageKept(e, a.price, a.quantity);
    ScaledDifference(average, e.averageFill, Exited(c));
    UnitRisk(average, EffectiveStop(c.plan, c.existing, a), Exited(c));
    UnitRisk(e.averageFill, e.stop.value, Exited(c));
    ScaledDifference(Max(0.0, average - EffectiveStop(c.plan, c.existing, a)), Max(0.0, e.averageFill - e.stop.value),
                     Exited(c));
    CostGapSplit(Max(0.0, average - EffectiveStop(c.plan, c.existing, a)), Max(0.0, e.averageFill - e.stop.value),
                 Exited(c));
  }

  /** With a zero tolerance: an accepted fill keeps the books exactly when it joins
      no partly exited position, or pays that position's average at an unchanged
      unit risk. */
  lemma BookFillBalancedIff(l: Ledger, c: FillContext, cfg: Settings, a: FillArgs, positionId: Id, now: int,
                            seeded: real)
    requires Fillable(l.rows, c, a, positionId) && cfg.Valid() && cfg.tolerance == 0.0
    requires Balanced(l.rows, seeded, 0.0) && BookFill(l, c, cfg, a, positionId, now).Ok?
    ensures Joinable(c)
    ensures Balanced(BookFill(l, c, cfg, a, positionId, now).value.rows, seeded, 0.0)
       <==> (c.existing.Some? ==>
               var e := c.existing.value;
               Whole(e) || (a.price == e.averageFill
                 && Max(0.0, e.averageFill - EffectiveStop(c.plan, c.existing, a))
                    == Max(0.0, e.averageFill - e.stop.value)))
  {
    hide RiskAt, EntryAverage, CarriedRisk, CostBasis, FilledPosition, EffectiveStop, ProposedWallet, Slack, BookFill;
    FillableJoins(l.rows, c, a, positionId);
    BookedCash(l.rows, c, a, positionId, now);
    BookedRisk(l.rows, c, a, positionId, now);
    BookedCapital(l.rows, c, a, positionId, now);
    BookFillRows(l, c, cfg, a, positionId, now);
    var rows := BookFill(l, c, cfg, a, positionId, now).value.rows;
    NoSlack(c.wallet.version);
    NoSlack(rows.wallet.value.version);
    assert RiskDrift(rows) == RiskGap(c, a) && Capital(rows) == seeded - CostGap(c, a);
    if c.existing.Some? {
      PartlyExitedFillIff(c, a);
    } else {
      WholeHasNoGap(c, a);
    }
  }

  lemma NoSlack(version: nat)
    ensures Slack(0.0, version) == 0.0
  {
  }

  lemma UnitRisk(average: real, stop: real, n: nat)
    ensures RiskAt(average, stop, n) == Max(0.0, average - stop) * n as real
  {
    RiskAtSplit(average, stop, n, 0);
  }

  /* ---- stop changes and exits ---- */

  lemma ProtectBalanced(l: Ledger, cfg: Settings, positionId: Id, stop: real, ref: Option<string>, now: int,
                        seeded: real)
    requires Sound(l.rows) && StoplessPositive(l.rows) && cfg.Valid()
             && ProtectPosition(l, cfg, positionId, stop, ref, now).Ok?
    ensures BooksKept(l.rows, ProtectPosition(l, cfg, positionId, stop, ref, now).value.rows, seeded, cfg.tolerance)
    ensures StoplessPositive(ProtectPosition(l, cfg, positionId, stop, ref, now).value.rows)
  {
    hide RiskAt, CarriedRisk, CostBasis, Slack;
    var rows := ProtectPosition(l, cfg, positionId, stop, ref, now).value.rows;
    var p := l.rows.positions[positionId];
    var q := rows.positions[positionId];
    var w := l.rows.wallet.value;
    ProtectSound(l, cfg, positionId, stop, ref, now);
    SlackStep(cfg.tolerance, w.version);
    SumWrite(l.rows.positions, CarriedRisk, positionId, q);
    SumWrite(l.rows.positions, CostBasis, positionId, q);
    SumWrite(l.rows.positions, Realized, positionId, q);
    TotalRiskNonNegative(rows);
    assert p.stop.Some?;
    ProtectFigures(p, stop, ref);
    SnapDrift(w.openRisk - CarriedRisk(p) + CarriedRisk(q), TotalRisk(rows), Slack(cfg.tolerance, w.version),
              cfg.tolerance);
  }

  lemma ProtectFigures(p: PositionState, stop: real, ref: Option<string>)
    requires p.stop.Some?
    ensures var q := ProtectedPosition(p, stop, ref);
            && CarriedRisk(p) == RiskAt(p.averageFill, p.stop.value, p.remainingQuantity)
            && CarriedRisk(q) == RiskAt(p.averageFill, stop, p.remainingQuantity)
            && CostBasis(q) == CostBasis(p) && Realized(q) == Realized(p)
  {
  }

  /** `position.stop or position.average_fill` takes a stop of zero for none. */
  predicate ZeroStop(p: PositionState) {
    p.stop == Some(0.0) && p.averageFill > 0.0
  }

  /** What an exit removes from the row figures, and what it gives back of the risk. */
  lemma ExitFigures(p: PositionState, price: real, quantity: int, now: int)
    requires PositionRow(p) && 0 < quantity <= p.remainingQuantity
    ensures var q := ExitedPosition(p, price, quantity, now);
            && (ZeroStop(p) ==>
                  CarriedRisk(q) < CarriedRisk(p) && RiskAt(p.averageFill, StopOrAverage(p), quantity) == 0.0)
            && (!ZeroStop(p) ==> CarriedRisk(q) == CarriedRisk(p) - RiskAt(p.averageFill, StopOrAverage(p), quantity))
            && price * quantity as real + CostBasis(q) - Realized(q) == CostBasis(p) - Realized(p)
  {
    var left := p.remainingQuantity - quantity;
    Distribute(p.averageFill, left, quantity);
    CostGapSplit(price, p.averageFill, quantity);
    if p.stop.Some? {
      RiskAtSplit(p.averageFill, p.stop.value, left, quantity);
      UnitRisk(p.averageFill, p.stop.value, quantity);
      UnitRisk(p.averageFill, p.averageFill, quantity);
    }
  }

  lemma ExitedRows(l: Ledger, positionId: Id, price: real, quantity: int, now: int)
    requires Sound(l.rows) && StoplessPositive(l.rows) && ConfirmExit(l, positionId, price, quantity, now).Ok?
    ensures var rows := ConfirmExit(l, positionId, price, quantity, now).value.rows;
            var p, q := l.rows.positions[positionId], rows.positions[positionId];
            && TotalRisk(rows) == TotalRisk(l.rows) - CarriedRisk(p) + CarriedRisk(q)
            && Capital(rows) == Capital(l.rows) && rows.reservations == l.rows.reservations
            && rows.wallet == Some(ExitedWallet(l.rows.wallet.value, p, price, quantity, now))
            && q == ExitedPosition(p, price, quantity, now)
            && TotalRisk(rows) >= 0.0 && StoplessPositive(rows)
  {
    hide RiskAt, CarriedRisk, CostBasis;
    var rows := ConfirmExit(l, positionId, price, quantity, now).value.rows;
    ExitSound(l, positionId, price, quantity, now);
    ExitFigures(l.rows.positions[positionId], price, quantity, now);
    SumWrite(l.rows.positions, CarriedRisk, positionId, rows.positions[positionId]);
    SumWrite(l.rows.positions, CostBasis, positionId, rows.positions[positionId]);
    SumWrite(l.rows.positions, Realized, positionId, rows.positions[positionId]);
    TotalRiskNonNegative(rows);
  }

  /** An exit keeps reserved cash, capital and the cover of the risk, and keeps open
      risk from running above the rows unless the stop of the position is zero. */
  lemma ExitBalanced(l: Ledger, positionId: Id, price: real, quantity: int, now: int, seeded: real, tolerance: real)
    requires Sound(l.rows) && StoplessPositive(l.rows) && tolerance >= 0.0
             && ConfirmExit(l, positionId, price, quantity, now).Ok?
    ensures var rows := ConfirmExit(l, positionId, price, quantity, now).value.rows;
            && StoplessPositive(rows)
            && (ReservedHeld(l.rows) ==> ReservedHeld(rows))
            && (CapitalHeld(l.rows, seeded, tolerance) ==> CapitalHeld(rows, seeded, tolerance))
            && (RiskCovered(l.rows, tolerance) ==> RiskCovered(rows, tolerance))
            && (!ZeroStop(l.rows.positions[positionId]) ==> BooksKept(l.rows, rows, seeded, tolerance))
  {
    hide RiskAt, CarriedRisk, CostBasis, Slack, TotalRisk, Capital, ExitedPosition, StopOrAverage, ZeroStop, ExitPnl,
         Proceeds;
    var rows := ConfirmExit(l, positionId, price, quantity, now).value.rows;
    var p, w := l.rows.positions[positionId], l.rows.wallet.value;
    ExitedRows(l, positionId, price, quantity, now);
    ExitFigures(p, price, quantity, now);
    SlackStep(tolerance, w.version);
    SnapDrift(w.openRisk - RiskAt(p.averageFill, StopOrAverage(p), quantity), TotalRisk(rows),
              Slack(tolerance, w.version), tolerance);
  }

  /** In exact arithmetic an exit breaks one law, in one case: it leaves open risk above
      the rows exactly when the position's stop is zero and its average positive, since
      from a zero stop no risk comes back. */
  lemma ExitBalancedIff(l: Ledger, positionId: Id, price: real, quantity: int, now: int, seeded: real)
    requires Sound(l.rows) && StoplessPositive(l.rows) && Balanced(l.rows, seeded, 0.0)
    requires ConfirmExit(l, positionId, price, quantity, now).Ok?
    ensures var p, rows := l.rows.positions[positionId], ConfirmExit(l, positionId, price, quantity, now).value.rows;
            && ReservedHeld(rows) && CapitalHeld(rows, seeded, 0.0) && RiskCovered(rows, 0.0)
            && (RiskBacked(rows) <==> !(p.stop == Some(0.0) && p.averageFill > 0.0))
  {
    var p := l.rows.positions[positionId];
    ExitBalanced(l, positionId, price, quantity, now, seeded, 0.0);
    if ZeroStop(p) {
      hide RiskAt, CarriedRisk, CostBasis, Slack, TotalRisk, Capital, ExitedPosition, StopOrAverage, ZeroStop,
           ExitPnl, Proceeds;
      var rows := ConfirmExit(l, positionId, price, quantity, now).value.rows;
      ExitedRows(l, positionId, price, quantity, now);
      ExitFigures(p, price, quantity, now);
      NoSlack(rows.wallet.value.version);
      NoSlack(l.rows.wallet.value.version);
      TotalRiskNonNegative(l.rows);
      assert RiskDrift(rows) > 0.0;
    }
  }
}

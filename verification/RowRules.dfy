/** When the remaining service steps go through and what they write: seeding and
    reconciling the wallet, imports, holdings, stop orders and exits. */
module RowRules {
  import opened Prelude
  import opened Domain
  import opened Tables
  import opened Ledger
  import opened Accounting
  import opened Runs
  import opened GuardRuns
  import opened PlanRules
  import opened EntryRuns
  import opened FillRules

  /* ---- the wallet ---- */

  /** A wallet is seeded with capital, and with cash of at most twice the capital. */
  lemma SeedMeaning(l: Ledger, capital: real, cash: real, now: int)
    ensures var r := SeedWallet(l, capital, cash, now);
            && (r.Ok? <==> 0.0 < capital && 0.0 <= cash <= 2.0 * capital)
            && (r.Ok? ==>
                  && r.value.rows == l.rows.(wallet := r.value.rows.wallet) && r.value.rows.wallet.Some?
                  && r.value.rows.wallet.value == WalletState(capital, cash, 0.0, 0.0, 0.0, 1, Some(now)))
  {
  }

  /** The shares still held times what each can fall to its stop. */
  function HeldRisk(p: PositionState): real {
    if p.closedAt.None? && p.remainingQuantity > 0 && p.stop.Some? && p.stop.value < p.averageFill
    then (p.averageFill - p.stop.value) * p.remainingQuantity as real else 0.0
  }

  lemma StoppedIsHeld(p: PositionState)
    ensures StoppedRisk(p) == HeldRisk(p)
  {
    if p.stop.Some? {
      var u := p.averageFill - p.stop.value;
      if u > 0.0 {
        assert u * p.remainingQuantity as real >= 0.0;
      } else {
        assert u * p.remainingQuantity as real <= 0.0;
      }
    }
  }

  /** A wallet reconciliation recomputes open risk, to the cent, as what the open rows can
      lose to their stops, forgets reservations, and needs a stop on every open row. */
  lemma ReconcileWalletMeaning(l: Ledger, capital: real, cash: real, dailyLoss: real, now: int)
    ensures var r := ReconcileWallet(l, capital, cash, dailyLoss, now);
            && (r.Ok? <==> 0.0 < capital && 0.0 <= cash && 0.0 <= dailyLoss
                           && forall id :: id in OpenRows(l.rows) ==> l.rows.positions[id].stop.Some?)
            && (r.Ok? ==>
                  && r.value.rows == l.rows.(wallet := r.value.rows.wallet) && r.value.rows.wallet.Some?
                  && var w := r.value.rows.wallet.value;
                  && w == WalletState(capital, cash, dailyLoss, w.openRisk, 0.0, 1, Some(now))
                  && NearestCent(w.openRisk, Sum(l.rows.positions, HeldRisk)))
  {
    forall id | id in l.rows.positions ensures StoppedRisk(l.rows.positions[id]) == HeldRisk(l.rows.positions[id]) {
      StoppedIsHeld(l.rows.positions[id]);
    }
    SameSum(l.rows.positions, StoppedRisk, HeldRisk);
    Round2IsNearest(Sum(l.rows.positions, StoppedRisk));
    hide StoppedRisk, HeldRisk, Round2, NearestCent, Sum;
    assert forall id :: id in OpenRows(l.rows) <==> id in l.rows.positions && l.rows.positions[id].Open();
  }

  lemma {:induction false} SameSum<T>(m: map<int, T>, f: T -> real, g: T -> real)
    requires forall k :: k in m ==> f(m[k]) == g(m[k])
    ensures Sum(m, f) == Sum(m, g)
    decreases m.Keys
  {
    if m.Keys != {} {
      var k := Pick(m.Keys);
      SumRemove(m, f, k);
      SumRemove(m, g, k);
      SameSum(m - {k}, f, g);
    }
  }

  /* ---- imports ---- */

  ghost predicate MayImport(rows: Rows, a: ImportArgs) {
    && rows.wallet.Some? && a.quantity > 0 && a.averageFill > 0.0 && (a.stop.Some? ==> a.stop.value > 0.0)
    && forall id :: id in OpenRows(rows) ==> Upper(rows.positions[id].symbol) != Upper(a.symbol)
  }

  /** The row of an import is managed, reconciled and, with a stop, protected; its targets
      stand at one and a half and two times the distance to a stop below the price, and are
      absent otherwise. */
  ghost predicate ImportedRow(p: PositionState, a: ImportArgs, ids: ImportIds, now: int) {
    var since := if a.openedAt.Some? then a.openedAt.value else now;
    && p.positionId == ids.positionId && p.planId == ids.planId && p.symbol == Upper(a.symbol)
    && p.quantity == a.quantity == p.remainingQuantity && p.averageFill == a.averageFill && p.stop == a.stop
    && p.openedAt == since && p.timeStopAt == Some(since + 60 * a.timeStopMinutes)
    && p.realizedPnl == 0.0 && p.managed && p.source == "MANUAL_IMPORT" && p.closedAt.None?
    && p.reconciliationState == Reconciled && p.lastReconciledAt == Some(now) && p.brokerStopPrice == a.stop
    && (if a.stop.Some? then p.protection == Protected && p.protectedQuantity == a.quantity
                             && p.brokerOrderRef == a.brokerOrderRef
        else p.protection == Unprotected && p.protectedQuantity == 0 && p.brokerOrderRef.None?)
    && (if a.stop.Some? && a.stop.value < a.averageFill then Targeted(p, a.averageFill, a.stop.value)
        else p.tp1.None? && p.tp2.None?)
  }

  lemma ImportedRowIs(a: ImportArgs, ids: ImportIds, now: int)
    requires a.quantity > 0
    ensures ImportedRow(ImportedPosition(a, ids, now), a, ids, now)
  {
    if a.stop.Some? {
      Round4IsNearest(a.averageFill + (a.averageFill - a.stop.value) * 1.5);
      Round4IsNearest(a.averageFill + (a.averageFill - a.stop.value) * 2.0);
    }
    hide Round4, Nearest4, Upper;
  }

  lemma HeldMeaning(rows: Rows, symbol: string)
    ensures SymbolHeld(rows, symbol)
            <==> exists id :: id in OpenRows(rows) && Upper(rows.positions[id].symbol) == symbol
  {
    hide Upper;
    if SymbolHeld(rows, symbol) {
      var id :| id in rows.positions && rows.positions[id].Ticker() == symbol && rows.positions[id].Open();
      assert id in OpenRows(rows);
    }
  }

  /** An import goes through exactly for a priced lot of a symbol not held yet. */
  lemma ImportIff(l: Ledger, a: ImportArgs, ids: ImportIds, now: int)
    ensures ImportPosition(l, a, ids, now).Ok? <==> MayImport(l.rows, a)
  {
    HeldMeaning(l.rows, Upper(a.symbol));
    hide Upper, SymbolHeld, OpenRows, BookImport;
  }

  /** Its row is written, its cost leaves the cash, and its risk, or all of it without a
      stop, is booked. */
  lemma ImportWrites(l: Ledger, a: ImportArgs, ids: ImportIds, now: int)
    requires ImportPosition(l, a, ids, now).Ok?
    ensures var rows := ImportPosition(l, a, ids, now).value.rows;
            && rows.wallet.Some? && l.rows.wallet.Some? && ids.positionId in rows.positions
            && var p, w, w0 := rows.positions[ids.positionId], rows.wallet.value, l.rows.wallet.value;
            && rows == l.rows.(wallet := rows.wallet, positions := l.rows.positions[ids.positionId := p])
            && ImportedRow(p, a, ids, now)
            && w == w0.(cashAvailable := w0.cashAvailable - a.averageFill * a.quantity as real,
                        openRisk := w0.openRisk + LotRisk(a), version := w0.version + 1, asOf := Some(now))
  {
    ImportedRowIs(a, ids, now);
    LotRiskIs(a);
    BookedImport(l, a, ids, now);
    hide ImportedRow, ImportedPosition, ImportRisk, LotRisk, SymbolHeld, BookImport;
  }

  lemma BookedImport(l: Ledger, a: ImportArgs, ids: ImportIds, now: int)
    requires l.rows.wallet.Some? && a.quantity > 0
    ensures var w0 := l.rows.wallet.value;
            BookImport(l, a, ids, now).rows
            == l.rows.(wallet := Some(w0.(cashAvailable := w0.cashAvailable - a.averageFill * a.quantity as real,
                                          openRisk := w0.openRisk + ImportRisk(a),
                                          version := w0.version + 1, asOf := Some(now))),
                       positions := l.rows.positions[ids.positionId := ImportedPosition(a, ids, now)])
  {
    hide ImportedPosition, ImportRisk;
  }

  function LotRisk(a: ImportArgs): real {
    var n := a.quantity as real;
    match a.stop
    case None => a.averageFill * n
    case Some(stop) => if stop < a.averageFill then (a.averageFill - stop) * n else 0.0
  }

  lemma LotRiskIs(a: ImportArgs)
    requires a.quantity > 0
    ensures ImportRisk(a) == LotRisk(a)
  {
    if a.stop.Some? {
      var u := a.averageFill - a.stop.value;
      if u > 0.0 {
        assert u * a.quantity as real >= 0.0;
      } else {
        assert u * a.quantity as real <= 0.0;
      }
    }
  }

  /* ---- holdings ---- */

  /** What the broker is said to hold of a symbol. */
  ghost predicate Declares(holdings: seq<Holding>, symbol: string, quantity: int) {
    exists h :: h in holdings && Strip(Upper(h.symbol)) == symbol && h.quantity == quantity
  }

  /** Every line names a symbol and a positive quantity, and no symbol twice. */
  ghost predicate ProperHoldings(holdings: seq<Holding>) {
    && (forall h :: h in holdings ==> Strip(Upper(h.symbol)) != "" && h.quantity > 0)
    && forall i, j :: 0 <= i < j < |holdings| ==> Strip(Upper(holdings[i].symbol)) != Strip(Upper(holdings[j].symbol))
  }

  lemma {:induction false} HoldingsErrorMeaning(holdings: seq<Holding>, declared: set<string>)
    ensures HoldingsError(holdings, declared).None?
       <==> ProperHoldings(holdings) && forall h :: h in holdings ==> Strip(Upper(h.symbol)) !in declared
    decreases |holdings|
  {
    hide Upper, Strip;
    if holdings != [] {
      var first, rest := holdings[0], holdings[1..];
      HoldingsErrorMeaning(rest, declared + {first.Ticker()});
      assert forall h :: h in holdings <==> h == first || h in rest;
      if ProperHoldings(rest) && forall h :: h in rest ==> Strip(Upper(h.symbol)) != first.Ticker() {
        forall i, j | 0 <= i < j < |holdings|
          ensures i > 0 || first.quantity <= 0 || Strip(Upper(holdings[i].symbol)) != Strip(Upper(holdings[j].symbol))
        {
          assert holdings[j] == rest[j - 1];
          assert rest[j - 1] in rest;
        }
        assert ProperHoldings(holdings) <==> first.Ticker() != "" && first.quantity > 0 by {
          ProperCons(holdings);
        }
      } else if ProperHoldings(holdings) {
        ProperTail(holdings);
      }
    }
  }

  lemma ProperCons(holdings: seq<Holding>)
    requires holdings != [] && ProperHoldings(holdings[1..])
    requires forall h :: h in holdings[1..] ==> Strip(Upper(h.symbol)) != holdings[0].Ticker()
    ensures ProperHoldings(holdings) <==> holdings[0].Ticker() != "" && holdings[0].quantity > 0
  {
    hide Upper, Strip;
    var rest := holdings[1..];
    assert forall h :: h in holdings <==> h == holdings[0] || h in rest;
    forall i, j | 0 <= i < j < |holdings|
      ensures Strip(Upper(holdings[i].symbol)) != Strip(Upper(holdings[j].symbol))
    {
      assert holdings[j] == rest[j - 1] && rest[j - 1] in rest;
      if i > 0 {
        assert holdings[i] == rest[i - 1];
      }
    }
  }

  lemma ProperTail(holdings: seq<Holding>)
    requires holdings != [] && ProperHoldings(holdings)
    ensures ProperHoldings(holdings[1..])
    ensures forall h :: h in holdings[1..] ==> Strip(Upper(h.symbol)) != holdings[0].Ticker()
  {
    hide Upper, Strip;
    var rest := holdings[1..];
    forall h | h in rest ensures Strip(Upper(h.symbol)) != holdings[0].Ticker() {
      var j :| 0 <= j < |rest| && rest[j] == h;
      assert holdings[j + 1] == h;
    }
  }

  lemma {:induction false} DeclaredMeaning(holdings: seq<Holding>, symbol: string)
    requires ProperHoldings(holdings)
    ensures Declared(holdings, symbol).Some? ==> Declares(holdings, symbol, Declared(holdings, symbol).value)
    ensures forall n :: Declares(holdings, symbol, n) ==> Declared(holdings, symbol) == Some(n)
    decreases |holdings|
  {
    hide Upper, Strip;
    if holdings != [] {
      var first, rest := holdings[0], holdings[1..];
      ProperTail(holdings);
      DeclaredMeaning(rest, symbol);
      assert forall h :: h in holdings <==> h == first || h in rest;
    }
  }

  /** Shares of a symbol held by the open rows together. */
  function HeldOf(symbol: string): PositionState -> real {
    (p: PositionState) =>
      if p.closedAt.None? && p.remainingQuantity > 0 && Upper(p.symbol) == symbol then p.remainingQuantity as real
        else 0.0
  }

  /** A holdings reconciliation takes every proper list and marks each open row: RECONCILED,
      with the time, if the broker holds exactly what the rows of its symbol hold together;
      MISSING if the broker was not said to hold the symbol; UNRECONCILED otherwise. It
      changes nothing else. */
  lemma HoldingsMeaning(l: Ledger, holdings: seq<Holding>, order: seq<Id>, notes: seq<Event>, now: int)
    ensures ReconcileHoldings(l, holdings, order, notes, now).Ok? <==> ProperHoldings(holdings)
    ensures ProperHoldings(holdings) ==>
      var rows := ReconcileHoldings(l, holdings, order, notes, now).value.rows;
      && rows == l.rows.(positions := rows.positions) && rows.positions.Keys == l.rows.positions.Keys
      && forall id :: id in l.rows.positions ==>
           var p, q := l.rows.positions[id], rows.positions[id];
           var symbol := Upper(p.symbol);
           if id !in OpenRows(l.rows) then q == p
           else if Matches(l.rows, holdings, symbol) then
             q == p.(reconciliationState := Reconciled, lastReconciledAt := Some(now))
           else if exists n :: Declares(holdings, symbol, n) then q == p.(reconciliationState := Unreconciled)
           else q == p.(reconciliationState := MissingAtBroker)
  {
    HoldingsErrorMeaning(holdings, {});
    if ProperHoldings(holdings) {
      forall id | id in l.rows.positions
        ensures var p := l.rows.positions[id];
                var q := Reconcile(p, holdings, Sum(l.rows.positions, SharesIn(p.Ticker())), now);
                var symbol := Upper(p.symbol);
                if id !in OpenRows(l.rows) then q == p
                else if Matches(l.rows, holdings, symbol) then
                  q == p.(reconciliationState := Reconciled, lastReconciledAt := Some(now))
                else if exists n :: Declares(holdings, symbol, n) then q == p.(reconciliationState := Unreconciled)
                else q == p.(reconciliationState := MissingAtBroker)
      {
        MarkMeaning(l.rows, holdings, id, now);
      }
    }
    hide Reconcile, Sum, SharesIn, Matches, Declares, ProperHoldings, Upper, OpenRows;
  }

  /** The broker holds what the rows hold. */
  ghost predicate Matches(rows: Rows, holdings: seq<Holding>, symbol: string) {
    exists n :: Declares(holdings, symbol, n) && n as real == Sum(rows.positions, HeldOf(symbol))
  }

  lemma MarkMeaning(rows: Rows, holdings: seq<Holding>, id: Id, now: int)
    requires ProperHoldings(holdings) && id in rows.positions
    ensures var p := rows.positions[id];
            var q := Reconcile(p, holdings, Sum(rows.positions, SharesIn(p.Ticker())), now);
            var symbol := Upper(p.symbol);
            if id !in OpenRows(rows) then q == p
            else if Matches(rows, holdings, symbol) then
              q == p.(reconciliationState := Reconciled, lastReconciledAt := Some(now))
            else if exists n :: Declares(holdings, symbol, n) then q == p.(reconciliationState := Unreconciled)
            else q == p.(reconciliationState := MissingAtBroker)
  {
    hide ProperHoldings, Declares, Upper, Declared;
    var symbol := Upper(rows.positions[id].symbol);
    DeclaredMeaning(holdings, symbol);
    SameSum(rows.positions, SharesIn(symbol), HeldOf(symbol));
  }

  /* ---- stop orders ---- */

  /** The stop a new order is held against: the row's own, else its plan's. */
  ghost predicate HeldAgainst(rows: Rows, p: PositionState, stop: real) {
    p.stop == Some(stop) || (p.stop.None? && p.planId in rows.plans && rows.plans[p.planId].stop == stop)
  }

  /** A stop order is taken when it is not under the stop it is held against, nor further
      under the plan's than the configured percentage. */
  ghost predicate MayProtect(rows: Rows, cfg: Settings, positionId: Id, stop: real) {
    && positionId in rows.positions && rows.wallet.Some?
    && var p := rows.positions[positionId];
    && (exists held :: HeldAgainst(rows, p, held) && held - cfg.tolerance <= stop)
    && (p.planId in rows.plans ==>
          rows.plans[p.planId].stop * (100.0 - cfg.stopTolerancePct) <= 100.0 * (stop + cfg.tolerance))
  }

  lemma MinStopMeaning(rows: Rows, cfg: Settings, p: PositionState, stop: real)
    requires ReferenceStop(rows, p).Some?
    ensures stop < MinStop(rows, cfg, p, ReferenceStop(rows, p).value) - cfg.tolerance
       <==> || stop < ReferenceStop(rows, p).value - cfg.tolerance
            || (p.planId in rows.plans
                && 100.0 * (stop + cfg.tolerance) < rows.plans[p.planId].stop * (100.0 - cfg.stopTolerancePct))
  {
    if p.planId in rows.plans {
      FloorMeaning(rows.plans[p.planId], cfg, stop);
    }
    hide MinPlanStop;
  }

  lemma HeldAgainstIs(rows: Rows, p: PositionState)
    ensures forall stop :: HeldAgainst(rows, p, stop) <==> ReferenceStop(rows, p) == Some(stop)
  {
  }

  /** Over every run, while open risk is short by at most one tolerance, a stop order is
      taken exactly when the rows allow it. */
  lemma ProtectIff(cfg: Settings, cs: seq<Command>, positionId: Id, stop: real, ref: Option<string>, now: int)
    requires cfg.Valid() && AdmissibleRun(cfg, cs)
    requires var rows := Run(cfg, cs).ledger.rows; rows.wallet.Some? ==> RiskDrift(rows) >= -cfg.tolerance
    ensures var l := Run(cfg, cs).ledger;
            ProtectPosition(l, cfg, positionId, stop, ref, now).Ok? <==> MayProtect(l.rows, cfg, positionId, stop)
  {
    hide Perform, MinStop, ReferenceStop, ProtectPosition, RiskDrift, HeldAgainst;
    var l := Run(cfg, cs).ledger;
    ProtectRefusedIff(cfg, cs, positionId, stop, ref, now);
    if positionId in l.rows.positions {
      var p := l.rows.positions[positionId];
      HeldAgainstIs(l.rows, p);
      if ReferenceStop(l.rows, p).Some? {
        MinStopMeaning(l.rows, cfg, p, stop);
      }
    }
  }

  /** What a taken stop order writes: the row is covered at the new stop, with new targets. */
  lemma ProtectedRow(l: Ledger, cfg: Settings, positionId: Id, stop: real, ref: Option<string>, now: int)
    requires ProtectPosition(l, cfg, positionId, stop, ref, now).Ok?
    ensures positionId in l.rows.positions
    ensures var rows := ProtectPosition(l, cfg, positionId, stop, ref, now).value.rows;
            && positionId in rows.positions && rows.wallet.Some? && l.rows.wallet.Some?
            && var p, q := l.rows.positions[positionId], rows.positions[positionId];
            && rows == l.rows.(wallet := rows.wallet, positions := l.rows.positions[positionId := q])
            && q == p.(stop := Some(stop), brokerStopPrice := Some(stop), brokerOrderRef := ref,
                       protectedQuantity := p.remainingQuantity, protection := Protected, tp1 := q.tp1, tp2 := q.tp2)
            && Targeted(q, p.averageFill, stop)
            && rows.wallet.value == l.rows.wallet.value.(openRisk := rows.wallet.value.openRisk,
                                                         version := l.rows.wallet.value.version + 1, asOf := Some(now))
            && exists held :: HeldAgainst(l.rows, p, held)
                 && Moved(l.rows.wallet.value.openRisk - Exposure(p.averageFill, held, p.remainingQuantity)
                          + Exposure(p.averageFill, stop, p.remainingQuantity), rows.wallet.value.openRisk, cfg)
  {
    var p := l.rows.positions[positionId];
    TargetsMeaning(p.(stop := Some(stop), brokerStopPrice := Some(stop), brokerOrderRef := ref,
                      protectedQuantity := p.remainingQuantity, protection := Protected), stop);
    HeldAgainstIs(l.rows, p);
    var held := ReferenceStop(l.rows, p).value;
    RiskIsExposure(p.averageFill, held, p.remainingQuantity);
    RiskIsExposure(p.averageFill, stop, p.remainingQuantity);
    hide Targeted, RiskAt, MinStop, Round4, Exposure, HeldAgainst;
  }

  /* ---- exits ---- */

  /** An exit goes through for some of the shares that remain. It pays out its proceeds,
      books its result to the row, gives back the risk of the shares sold, and closes the
      row with the last share. */
  lemma ExitMeaning(l: Ledger, positionId: Id, price: real, quantity: int, now: int)
    ensures var r := ConfirmExit(l, positionId, price, quantity, now);
            && (r.Ok? <==> positionId in l.rows.positions && l.rows.wallet.Some?
                           && 1 <= quantity <= l.rows.positions[positionId].remainingQuantity)
            && (r.Ok? ==>
                  && r.value.rows.wallet.Some? && positionId in r.value.rows.positions
                  && var p, q := l.rows.positions[positionId], r.value.rows.positions[positionId];
                  var w, w' := l.rows.wallet.value, r.value.rows.wallet.value;
                  && r.value.rows == l.rows.(wallet := Some(w'), positions := l.rows.positions[positionId := q])
                  && q == p.(remainingQuantity := q.remainingQuantity, realizedPnl := q.realizedPnl,
                             closedAt := q.closedAt)
                  && q.remainingQuantity == p.remainingQuantity - quantity
                  && q.realizedPnl == p.realizedPnl + (price - p.averageFill) * quantity as real
                  && q.closedAt == (if quantity == p.remainingQuantity then Some(now) else p.closedAt)
                  && w'.cashAvailable == w.cashAvailable + price * quantity as real
                  && w'.capitalBase == w.capitalBase && w'.reservedCash == w.reservedCash
                  && w'.openRisk == Max(0.0, w.openRisk - Exposure(p.averageFill, GivenBackTo(p), quantity))
                  && w'.version == w.version + 1 && w'.asOf == Some(now))
  {
    if positionId in l.rows.positions && quantity >= 1 {
      var p := l.rows.positions[positionId];
      RiskIsExposure(p.averageFill, StopOrAverage(p), quantity);
    }
    hide RiskAt, Exposure;
  }

  /** An exit measures from the stop; a missing stop, and one of exactly zero, counts as
      the average. */
  function GivenBackTo(p: PositionState): real {
    match p.stop
    case Some(stop) => if stop == 0.0 then p.averageFill else stop
    case None => p.averageFill
  }

  /* ---- refusals ---- */

  /** The names under which the other steps refuse. */
  lemma RefusalNames(l: Ledger, cfg: Settings, capital: real, cash: real, loss: real, a: ImportArgs, ids: ImportIds,
                     now: int)
    ensures SeedWallet(l, capital, cash, now).Raised?
            ==> SeedWallet(l, capital, cash, now).error == "INVALID_WALLET_SEED"
    ensures ReconcileWallet(l, capital, cash, loss, now).Raised? ==>
              ReconcileWallet(l, capital, cash, loss, now).error
              == if capital <= 0.0 || cash < 0.0 || loss < 0.0 then "INVALID_WALLET_RECONCILIATION" else "TypeError"
    ensures ImportPosition(l, a, ids, now).Raised? ==>
              ImportPosition(l, a, ids, now).error
              == if l.rows.wallet.None? then "WALLET_NOT_SEEDED"
                 else if a.quantity <= 0 || a.averageFill <= 0.0 then "INVALID_IMPORTED_POSITION"
                 else if a.stop.Some? && a.stop.value <= 0.0 then "INVALID_IMPORTED_STOP"
                 else "OPEN_POSITION_ALREADY_EXISTS_FOR_SYMBOL"
  {
    hide Sum, Upper;
  }

  lemma RowRefusalNames(l: Ledger, cfg: Settings, positionId: Id, price: real, quantity: int, ref: Option<string>,
                        now: int)
    ensures ConfirmExit(l, positionId, price, quantity, now).Raised? ==>
              ConfirmExit(l, positionId, price, quantity, now).error
              == if positionId !in l.rows.positions || l.rows.wallet.None? then "POSITION_OR_WALLET_MISSING"
                 else "INVALID_EXIT_QUANTITY"
    ensures ProtectPosition(l, cfg, positionId, price, ref, now).Raised? ==>
              var error := ProtectPosition(l, cfg, positionId, price, ref, now).error;
              if positionId !in l.rows.positions || l.rows.wallet.None? then error == "POSITION_OR_WALLET_MISSING"
              else
                var p := l.rows.positions[positionId];
                if forall held :: !HeldAgainst(l.rows, p, held) then error == "POSITION_STOP_UNDEFINED"
                else if MayProtect(l.rows, cfg, positionId, price) then error == "WALLET_ACCOUNTING_INVARIANT_BROKEN"
                else if p.stop.Some? && price < p.stop.value - cfg.tolerance then error == "STOP_LOOSER_THAN_CURRENT"
                else error == "STOP_LOOSER_THAN_PLAN"
  {
    hide RiskAt, MinStop, ReferenceStop, HeldAgainst;
    if positionId in l.rows.positions {
      var p := l.rows.positions[positionId];
      HeldAgainstIs(l.rows, p);
      if ReferenceStop(l.rows, p).Some? {
        MinStopMeaning(l.rows, cfg, p, price);
      }
    }
  }
}

/** The materialised rows, the event log, and each service step as a function of
    them (`orchestration/service.py`). Clock readings, fresh identifiers and the
    order in which the store lists its rows are arguments. */
module Ledger {
  import opened Prelude
  import opened Domain
  import opened Tables
  import opened Sizing
  import opened Planning
  import opened Activation

  datatype EventKind =
    | WalletSeeded | WalletReconciled
    | PositionImported | PositionUnprotected
    | ReconciliationMismatch | UnknownHolding | ReconciliationCompleted
    | PlanIssued | PlanExpiredEvent | TriggerHit
    | PlanEvaluated | BuyNowEmitted | CapacityReserved | CapacityReleased
    | FillConfirmed | StopOrderConfirmed | ExitConfirmed
    | OtherEvent(name: string)

  datatype Aggregate = WalletAggregate | Portfolio | OfSymbol(symbol: string) | OfRow(id: Id)

  /** A wallet object found, or not, where an event type keeps its snapshot. */
  datatype WalletField = Absent | Malformed | Snapshot(wallet: WalletState)

  /** The payload keys replay looks at. `root` reads the payload itself as a wallet. */
  datatype Payload = Payload(
    root: WalletField,
    wallet: WalletField,
    plan: Option<TradePlan>,
    reservation: Option<Reservation>,
    reservationDeleted: bool,
    position: Option<PositionState>,
    positions: seq<PositionState>)

  const NO_ROWS := Payload(Absent, Absent, None, None, false, None, [])

  datatype Event = Event(kind: EventKind, aggregate: Aggregate, payload: Payload)

  datatype Rows = Rows(
    wallet: Option<WalletState>,
    plans: map<Id, TradePlan>,
    reservations: map<Id, Reservation>,
    positions: map<Id, PositionState>)

  const NO_STATE := Rows(None, map[], map[], map[])

  datatype Ledger = Ledger(rows: Rows, events: seq<Event>)

  const EMPTY := Ledger(NO_STATE, [])

  function Commit(l: Ledger, rows: Rows, events: seq<Event>): Ledger {
    Ledger(rows, l.events + events)
  }

  /* ---- wallet ---- */

  function SeedWallet(l: Ledger, capital: real, cash: real, now: int): Result<Ledger> {
    if capital <= 0.0 || cash < 0.0 || cash > capital * 2.0 then Raised("INVALID_WALLET_SEED")
    else
      var w := WalletState(capital, cash, 0.0, 0.0, 0.0, 1, Some(now));
      Ok(Commit(l, l.rows.(wallet := Some(w)),
                [Event(WalletSeeded, WalletAggregate, NO_ROWS.(root := Snapshot(w)))]))
  }

  /** `max(0, (average - stop) * shares)` with a stop known to be present. */
  function RiskAt(average: real, stop: real, shares: int): real {
    Max(0.0, (average - stop) * shares as real)
  }

  /** The risk an open position with a stop still carries. */
  function StoppedRisk(p: PositionState): real {
    if p.Open() && p.stop.Some? then RiskAt(p.averageFill, p.stop.value, p.remainingQuantity) else 0.0
  }

  /** Open risk is recomputed from the positions; an open position without a
      stop makes the subtraction raise. Reservations are left in place. */
  ghost function ReconcileWallet(l: Ledger, capital: real, cash: real, dailyLoss: real, now: int): Result<Ledger> {
    if capital <= 0.0 || cash < 0.0 || dailyLoss < 0.0 then Raised("INVALID_WALLET_RECONCILIATION")
    else if exists id | id in l.rows.positions :: l.rows.positions[id].Open() && l.rows.positions[id].stop.None? then
      Raised("TypeError")
    else
      var w := WalletState(capital, cash, dailyLoss, Round2(Sum(l.rows.positions, StoppedRisk)), 0.0, 1, Some(now));
      Ok(Commit(l, l.rows.(wallet := Some(w)),
                [Event(WalletReconciled, WalletAggregate, NO_ROWS.(root := Snapshot(w)))]))
  }

  function Bump(w: WalletState, now: int): WalletState {
    w.(version := w.version + 1, asOf := Some(now))
  }

  /* ---- imported positions ---- */

  datatype ImportArgs = ImportArgs(
    symbol: string, quantity: int, averageFill: real, stop: Option<real>,
    brokerOrderRef: Option<string>, openedAt: Option<int>, timeStopMinutes: int)

  /** The position and plan identifiers an import draws. */
  datatype ImportIds = ImportIds(positionId: Id, planId: Id)

  function Target(averageFill: real, stop: Option<real>, multiple: real): Option<real> {
    if stop.Some? && averageFill - stop.value > 0.0 then
      Some(Round4(averageFill + (averageFill - stop.value) * multiple))
    else None
  }

  function ImportedPosition(a: ImportArgs, ids: ImportIds, now: int): PositionState
    requires a.quantity > 0
  {
    var since := if a.openedAt.Some? then a.openedAt.value else now;
    PositionState(
      ids.positionId, ids.planId, Upper(a.symbol), a.quantity, a.quantity, a.averageFill, a.stop,
      Target(a.averageFill, a.stop, 1.5), Target(a.averageFill, a.stop, 2.0),
      since, Some(since + 60 * a.timeStopMinutes), 0.0, true, "MANUAL_IMPORT", None,
      if a.stop.Some? then Protected else Unprotected,
      a.stop, if a.stop.Some? then a.brokerOrderRef else None, if a.stop.Some? then a.quantity else 0,
      Reconciled, Some(now))
  }

  /** A stopless import books its whole notional as risk. */
  function ImportRisk(a: ImportArgs): real {
    if a.stop.Some? then RiskAt(a.averageFill, a.stop.value, a.quantity)
    else a.averageFill * a.quantity as real
  }

  predicate SymbolHeld(rows: Rows, symbol: string) {
    exists id | id in rows.positions :: rows.positions[id].Ticker() == symbol && rows.positions[id].Open()
  }

  function UnprotectedNote(p: PositionState): seq<Event> {
    if p.protection == Unprotected then [Event(PositionUnprotected, OfRow(p.positionId), NO_ROWS)] else []
  }

  function ImportedWallet(w: WalletState, a: ImportArgs, now: int): WalletState {
    Bump(w.(cashAvailable := w.cashAvailable - a.averageFill * a.quantity as real,
            openRisk := w.openRisk + ImportRisk(a)), now)
  }

  function BookImport(l: Ledger, a: ImportArgs, ids: ImportIds, now: int): Ledger
    requires l.rows.wallet.Some? && a.quantity > 0
  {
    var p := ImportedPosition(a, ids, now);
    var w := ImportedWallet(l.rows.wallet.value, a, now);
    Commit(l, l.rows.(wallet := Some(w), positions := l.rows.positions[ids.positionId := p]),
           [Event(PositionImported, OfRow(ids.positionId), NO_ROWS.(position := Some(p), wallet := Snapshot(w)))]
           + UnprotectedNote(p))
  }

  function ImportPosition(l: Ledger, a: ImportArgs, ids: ImportIds, now: int): Result<Ledger> {
    if l.rows.wallet.None? then Raised("WALLET_NOT_SEEDED")
    else if a.quantity <= 0 || a.averageFill <= 0.0 then Raised("INVALID_IMPORTED_POSITION")
    else if a.stop.Some? && a.stop.value <= 0.0 then Raised("INVALID_IMPORTED_STOP")
    else if SymbolHeld(l.rows, Upper(a.symbol)) then Raised("OPEN_POSITION_ALREADY_EXISTS_FOR_SYMBOL")
    else
      Ok(BookImport(l, a, ids, now))
  }

  /* ---- holdings reconciliation ---- */

  datatype Holding = Holding(symbol: string, quantity: int)
  {
    function Ticker(): string {
      Strip(Upper(symbol))
    }
  }

  /** The first offending row decides the error. */
  function HoldingsError(holdings: seq<Holding>, declared: set<string>): Option<string> {
    if holdings == [] then None
    else if holdings[0].Ticker() == "" || holdings[0].quantity <= 0 then Some("INVALID_RECONCILIATION_HOLDING")
    else if holdings[0].Ticker() in declared then Some("DUPLICATE_RECONCILIATION_SYMBOL")
    else HoldingsError(holdings[1..], declared + {holdings[0].Ticker()})
  }

  function Declared(holdings: seq<Holding>, symbol: string): Option<int> {
    if holdings == [] then None
    else if holdings[0].Ticker() == symbol then Some(holdings[0].quantity)
    else Declared(holdings[1..], symbol)
  }

  function SharesIn(symbol: string): PositionState -> real {
    (p: PositionState) => if p.Open() && p.Ticker() == symbol then p.remainingQuantity as real else 0.0
  }

  /** `held` is what the open positions of the same symbol hold together. */
  function Reconcile(p: PositionState, holdings: seq<Holding>, held: real, now: int): PositionState {
    var declared := Declared(holdings, p.Ticker());
    if !p.Open() then p
    else if declared.None? then p.(reconciliationState := MissingAtBroker)
    else if declared.value as real != held then p.(reconciliationState := Unreconciled)
    else p.(reconciliationState := Reconciled, lastReconciledAt := Some(now))
  }

  function Listed(order: seq<Id>, positions: map<Id, PositionState>): seq<PositionState> {
    if order == [] then []
    else (if order[0] in positions then [positions[order[0]]] else []) + Listed(order[1..], positions)
  }

  ghost function ReconciledPositions(positions: map<Id, PositionState>, holdings: seq<Holding>, now: int)
    : map<Id, PositionState>
  {
    map id | id in positions ::
      Reconcile(positions[id], holdings, Sum(positions, SharesIn(positions[id].Ticker())), now)
  }

  /** `notes` are the mismatch and unknown-holding events; they carry no rows. */
  ghost function ReconcileHoldings(l: Ledger, holdings: seq<Holding>, order: seq<Id>, notes: seq<Event>,
                                   now: int): Result<Ledger> {
    var error := HoldingsError(holdings, {});
    if error.Some? then Raised(error.value)
    else
      var positions := ReconciledPositions(l.rows.positions, holdings, now);
      Ok(Commit(l, l.rows.(positions := positions),
                notes + [Event(ReconciliationCompleted, Portfolio, NO_ROWS.(positions := Listed(order, positions)))]))
  }

  /* ---- plans ---- */

  function IssuePlan(l: Ledger, input: PlanInput, cfg: Settings, planId: Id, now: int): Result<Ledger> {
    var built := BuildTradePlan(input, cfg, planId, now);
    if built.Raised? then Raised(built.error)
    else
      Ok(Commit(l, l.rows.(plans := l.rows.plans[planId := built.value]),
                [Event(PlanIssued, OfRow(planId), NO_ROWS.(plan := Some(built.value)))]))
  }

  function MaxInt(x: int, y: int): int {
    if x >= y then x else y
  }

  predicate CanTrigger(rows: Rows, planId: Id, at: int) {
    && planId in rows.plans
    && rows.plans[planId].status == PlanActive
    && rows.plans[planId].triggeredAt.None?
    && at <= rows.plans[planId].expiresAt
  }

  function RecordTrigger(l: Ledger, cfg: Settings, planId: Id, at: int): Ledger {
    if !CanTrigger(l.rows, planId, at) then l
    else
      var p0 := l.rows.plans[planId];
      var p := p0.(expiresAt := MaxInt(p0.expiresAt, at + 60 * (cfg.retestWindowMinutes + 5)), triggeredAt := Some(at));
      Commit(l, l.rows.(plans := l.rows.plans[planId := p]),
             [Event(TriggerHit, OfRow(planId), NO_ROWS.(plan := Some(p)))])
  }

  /* ---- reservations ---- */

  datatype ReleaseReason = UserReleased | ReleasedPlanExpired | ReservationExpired | MaxConcurrentReached

  predicate PartlyFilled(rows: Rows, planId: Id) {
    exists id | id in rows.positions :: rows.positions[id].planId == planId && rows.positions[id].quantity > 0
  }

  function ReleasedWallet(w: WalletState, r: Reservation, now: int): WalletState {
    Bump(w.(reservedCash := Max(0.0, w.reservedCash - r.reservedCash),
            openRisk := Max(0.0, w.openRisk - r.reservedRisk)), now)
  }

  function ReleasedStatus(rows: Rows, planId: Id, reason: ReleaseReason): PlanStatus {
    if reason == ReservationExpired && PartlyFilled(rows, planId) then PlanFilled else PlanActive
  }

  predicate Releasable(rows: Rows, planId: Id) {
    planId in rows.reservations && rows.wallet.Some?
  }

  function Release(l: Ledger, planId: Id, reason: ReleaseReason, now: int): Ledger {
    if !Releasable(l.rows, planId) then l
    else
      var r := l.rows.reservations[planId];
      var w := ReleasedWallet(l.rows.wallet.value, r, now);
      var plans :=
        if planId in l.rows.plans && l.rows.plans[planId].status == PlanReserved
        then l.rows.plans[planId := l.rows.plans[planId].(status := ReleasedStatus(l.rows, planId, reason))]
        else l.rows.plans;
      Commit(l, l.rows.(wallet := Some(w), plans := plans, reservations := l.rows.reservations - {planId}),
             [Event(CapacityReleased, OfRow(planId),
                    NO_ROWS.(reservation := Some(r), reservationDeleted := true, wallet := Snapshot(w),
                             plan := if planId in plans then Some(plans[planId]) else None))])
  }

  /* ---- sweep ---- */

  predicate Final(status: PlanStatus) {
    status in {PlanFilled, PlanCancelled, PlanExpired}
  }

  function ExpirePlan(l: Ledger, planId: Id): Ledger
    requires planId in l.rows.plans
  {
    var p := l.rows.plans[planId].(status := PlanExpired);
    Commit(l, l.rows.(plans := l.rows.plans[planId := p]),
           [Event(PlanExpiredEvent, OfRow(planId), NO_ROWS.(plan := Some(p)))])
  }

  lemma ReleaseKeepsPlans(l: Ledger, planId: Id, reason: ReleaseReason, now: int)
    ensures Release(l, planId, reason, now).rows.plans.Keys == l.rows.plans.Keys
  {
  }

  function SweepPlan(l: Ledger, planId: Id, now: int): Ledger {
    if planId !in l.rows.plans || Final(l.rows.plans[planId].status) || now <= l.rows.plans[planId].expiresAt then l
    else
      ReleaseKeepsPlans(l, planId, ReleasedPlanExpired, now);
      ExpirePlan(Release(l, planId, ReleasedPlanExpired, now), planId)
  }

  function SweepReservation(l: Ledger, planId: Id, now: int): Ledger {
    if planId in l.rows.reservations && now > l.rows.reservations[planId].expiresAt
    then Release(l, planId, ReservationExpired, now)
    else l
  }

  function SweepPlans(l: Ledger, order: seq<Id>, now: int): Ledger
    decreases |order|
  {
    if order == [] then l else SweepPlan(SweepPlans(l, order[..|order| - 1], now), order[|order| - 1], now)
  }

  function SweepReservations(l: Ledger, order: seq<Id>, now: int): Ledger
    decreases |order|
  {
    if order == [] then l
    else SweepReservation(SweepReservations(l, order[..|order| - 1], now), order[|order| - 1], now)
  }

  /** The order in which the store lists plans and reservations. */
  datatype Listing = Listing(plans: seq<Id>, reservations: seq<Id>)

  function Sweep(l: Ledger, listing: Listing, now: int): Ledger {
    SweepReservations(SweepPlans(l, listing.plans, now), listing.reservations, now)
  }

  /** Listings that miss no plan, and no reservation the first loop left. */
  ghost predicate Complete(l: Ledger, listing: Listing, now: int) {
    && (forall id :: id in l.rows.plans ==> id in listing.plans)
    && (forall id :: id in SweepPlans(l, listing.plans, now).rows.reservations ==> id in listing.reservations)
  }

  /* ---- activation ---- */

  /** `activate` up to the market reads: sweep, then the early exits. */
  predicate ProceedsToMarket(rows: Rows, planId: Id, now: int) {
    && planId in rows.plans
    && rows.plans[planId].status != PlanExpired
    && now <= rows.plans[planId].expiresAt
    && rows.plans[planId].status != PlanFilled
    && rows.wallet.Some?
  }

  /** What the market reads between the two transactions produced. */
  datatype MarketContext = MarketContext(snapshot: MarketSnapshot, retestValid: bool)

  function OpenPositions(rows: Rows): set<Id> {
    set id | id in rows.positions && rows.positions[id].Open()
  }

  predicate PlanHasOpen(rows: Rows, planId: Id) {
    exists id | id in rows.positions :: rows.positions[id].Open() && rows.positions[id].planId == planId
  }

  function GateOf(cfg: Settings, ctx: MarketContext): Gate {
    Gate(ctx.retestValid,
         ctx.snapshot.vwap.Some? && ctx.snapshot.last >= ctx.snapshot.vwap.value,
         if IsKeylessSource(ctx.snapshot.sourceId) then cfg.maxDelayedAgeMinutes * 60.0
           else cfg.maxMarketDataAgeSeconds,
         LimitsOf(cfg))
  }

  function ReservationFor(planId: Id, plan: TradePlan, cfg: Settings, quantity: nat, now: int): Reservation {
    Reservation(planId, quantity,
                Amount(quantity, plan.entryZoneHigh),
                Amount(quantity, plan.RiskPerShare()),
                now + cfg.reservationTtlSeconds)
  }

  function ReservedWallet(w: WalletState, r: Reservation, now: int): WalletState {
    Bump(w.(reservedCash := w.reservedCash + r.reservedCash, openRisk := w.openRisk + r.reservedRisk), now)
  }

  /** The writes of a BUY_NOW: `plan` is the copy read at the start of the transaction. */
  function Reserve(l: Ledger, cfg: Settings, planId: Id, plan: TradePlan, quantity: nat, now: int): Ledger
    requires l.rows.wallet.Some?
  {
    var r := ReservationFor(planId, plan, cfg, quantity, now);
    var w := ReservedWallet(l.rows.wallet.value, r, now);
    var p := plan.(status := PlanReserved);
    Commit(l, l.rows.(wallet := Some(w), reservations := l.rows.reservations[planId := r],
                      plans := l.rows.plans[planId := p]),
           [Event(CapacityReserved, OfRow(planId),
                  NO_ROWS.(reservation := Some(r), wallet := Snapshot(w), plan := Some(p))),
            Event(BuyNowEmitted, OfRow(planId), NO_ROWS)])
  }

  /** The tail of the activation transaction: evaluate, and reserve on BUY_NOW. */
  function EvaluateAndReserve(l: Ledger, cfg: Settings, planId: Id, plan: TradePlan, ctx: MarketContext,
                              now: int): Result<Ledger>
    requires l.rows.wallet.Some?
  {
    var d := Activate(plan, ctx.snapshot, l.rows.wallet.value, None, GateOf(cfg, ctx), now);
    if d.Raised? then Raised(d.error)
    else
      var l1 := Commit(l, l.rows, [Event(PlanEvaluated, OfRow(planId), NO_ROWS)]);
      Ok(if d.value.0 == BuyNow then Reserve(l1, cfg, planId, plan, d.value.1, now) else l1)
  }

  /** Re-announcing an existing reservation only appends row-free events. */
  function Reannounce(cfg: Settings, planId: Id, ctx: MarketContext): seq<Event> {
    [Event(PlanEvaluated, OfRow(planId), NO_ROWS)]
    + (if !ctx.retestValid
          || ((ctx.snapshot.sourceId == Some("ALPACA_IEX") || IsKeylessSource(ctx.snapshot.sourceId))
              && !ctx.snapshot.authoritative)
       then [] else [Event(BuyNowEmitted, OfRow(planId), NO_ROWS)])
  }

  function ActivateWithContext(l: Ledger, cfg: Settings, planId: Id, ctx: MarketContext, now: int): Result<Ledger> {
    if planId !in l.rows.plans then Ok(l)
    else
      var plan := l.rows.plans[planId];
      if plan.status == PlanExpired || now > plan.expiresAt then
        var l1 := Release(l, planId, ReleasedPlanExpired, now);
        // Saved without an event.
        Ok(l1.(rows := l1.rows.(plans := l1.rows.plans[planId := plan.(status := PlanExpired)])))
      else if l.rows.wallet.None? || plan.status == PlanFilled then Ok(l)
      else if |OpenPositions(l.rows)| >= cfg.maxConcurrentPositions && !PlanHasOpen(l.rows, planId) then
        Ok(Release(l, planId, MaxConcurrentReached, now))
      else if planId in l.rows.reservations && now <= l.rows.reservations[planId].expiresAt then
        Ok(Commit(l, l.rows, Reannounce(cfg, planId, ctx)))
      else
        EvaluateAndReserve(Release(l, planId, ReservationExpired, now), cfg, planId, plan, ctx, now)
  }

  /* ---- fills ---- */

  datatype FillArgs = FillArgs(
    planId: Id, price: real, quantity: int, timeStopMinutes: int,
    stopPlaced: bool, stopPrice: Option<real>, brokerOrderRef: Option<string>)

  /** The three clock readings of one `confirm_fill` call. */
  datatype FillClock = FillClock(swept: int, checked: int, booked: int)

  /** The open position of a plan, if it has one. */
  ghost function OpenPositionOf(rows: Rows, planId: Id): Option<Id> {
    if PlanHasOpen(rows, planId) then
      var id :| id in rows.positions && rows.positions[id].Open() && rows.positions[id].planId == planId;
      Some(id)
    else None
  }

  function PriorQuantity(existing: Option<PositionState>): nat {
    if existing.Some? then existing.value.quantity else 0
  }

  function PriorValue(existing: Option<PositionState>): real {
    if existing.Some? then existing.value.averageFill * existing.value.quantity as real else 0.0
  }

  function EntryAverage(existing: Option<PositionState>, price: real, quantity: int): real
    requires quantity > 0
  {
    (PriorValue(existing) + price * quantity as real) / (PriorQuantity(existing) + quantity) as real
  }

  /** A placed order always names its price once the flag checks have passed. */
  function EffectiveStop(plan: TradePlan, existing: Option<PositionState>, a: FillArgs): real {
    if a.stopPlaced && a.stopPrice.Some? then a.stopPrice.value
    else if existing.Some? && existing.value.stop.Some? then existing.value.stop.value
    else plan.stop
  }

  function CandidateRisk(plan: TradePlan, existing: Option<PositionState>, a: FillArgs): real
    requires a.quantity > 0
  {
    RiskAt(EntryAverage(existing, a.price, a.quantity), EffectiveStop(plan, existing, a),
           PriorQuantity(existing) + a.quantity)
  }

  function AllowedRisk(w: WalletState, plan: TradePlan, cfg: Settings): real {
    w.capitalBase * cfg.maxTradeRiskPct / 100.0 * plan.qualityRiskMultiplier * (1.0 + cfg.fillRiskTolerance)
  }

  function MaxNotional(w: WalletState, cfg: Settings): real {
    w.capitalBase * cfg.maxPositionNotionalPct / 100.0
  }

  function ExistingRisk(existing: Option<PositionState>): real {
    if existing.Some? && existing.value.stop.Some?
    then RiskAt(existing.value.averageFill, existing.value.stop.value, existing.value.quantity)
    else 0.0
  }

  /** The share count a risk rejection advertises. */
  function AllowedQuantity(w: WalletState, plan: TradePlan, r: Reservation, existing: Option<PositionState>,
                           cfg: Settings, a: FillArgs): int {
    var perShare := Max(0.0, a.price - EffectiveStop(plan, existing, a));
    var remaining := Max(0.0, AllowedRisk(w, plan, cfg) - ExistingRisk(existing));
    if perShare > 0.0 then ((remaining + cfg.tolerance) / perShare).Floor else r.quantity
  }

  function MinPlanStop(plan: TradePlan, cfg: Settings): real {
    plan.stop * (1.0 - cfg.stopTolerancePct / 100.0)
  }

  /** Gates that need only the plan, the reservation and the request. */
  function RequestRejection(w: WalletState, plan: TradePlan, r: Reservation, cfg: Settings,
                            a: FillArgs): Option<string> {
    if a.quantity <= 0 || a.quantity > r.quantity then Some("QUANTITY_EXCEEDS_RESERVATION")
    else if a.price < plan.entryTrigger || a.price > plan.entryZoneHigh * (1.0 + plan.maxSlippagePct / 100.0) then
      Some("FILL_OUTSIDE_PLAN")
    else if a.stopPlaced && a.stopPrice.None? then Some("STOP_ORDER_PRICE_REQUIRED")
    else if !a.stopPlaced && a.stopPrice.Some? then Some("STOP_ORDER_PRICE_WITHOUT_PLACEMENT")
    else if a.price * a.quantity as real > w.cashAvailable + cfg.tolerance then Some("FILL_EXCEEDS_CASH_AVAILABLE")
    else if a.price * a.quantity as real > r.reservedCash + cfg.tolerance then Some("FILL_EXCEEDS_RESERVATION_CASH")
    else None
  }

  /** Gates that look at the position the fill would join. */
  function PositionRejection(w: WalletState, plan: TradePlan, existing: Option<PositionState>, openCount: nat,
                             cfg: Settings, a: FillArgs): Option<string>
    requires a.quantity > 0
  {
    if existing.None? && openCount >= cfg.maxConcurrentPositions then Some("MAX_CONCURRENT_POSITIONS_REACHED")
    else if a.stopPrice.Some? && existing.Some? && existing.value.stop.Some?
            && a.stopPrice.value < existing.value.stop.value - cfg.tolerance then Some("STOP_LOOSER_THAN_CURRENT")
    else if a.stopPrice.Some? && a.stopPrice.value < MinPlanStop(plan, cfg) - cfg.tolerance then
      Some("STOP_LOOSER_THAN_PLAN")
    else if EntryAverage(existing, a.price, a.quantity) * (PriorQuantity(existing) + a.quantity) as real
            > MaxNotional(w, cfg) + cfg.tolerance then Some("POSITION_NOTIONAL_LIMIT_EXCEEDED")
    else if CandidateRisk(plan, existing, a) > AllowedRisk(w, plan, cfg) + cfg.tolerance then
      Some("FILL_RISK_EXCEEDS_TOLERANCE")
    else None
  }

  /** Everything a fill reads: the rows of its plan after the sweep. */
  datatype FillContext = FillContext(
    wallet: WalletState, plan: TradePlan, reservation: Reservation, existing: Option<PositionState>, openCount: nat)

  function ContextRejection(rows: Rows, planId: Id, now: int): Option<string> {
    if planId !in rows.plans || rows.wallet.None? then Some("FILL_CONFIRMATION_CONTEXT_MISSING")
    else if rows.plans[planId].status == PlanFilled then Some("PLAN_ALREADY_FILLED")
    else if planId !in rows.reservations then Some("FILL_CONFIRMATION_CONTEXT_MISSING")
    else if rows.plans[planId].status != PlanReserved then Some("PLAN_NOT_RESERVED")
    else if now > rows.reservations[planId].expiresAt then Some("RESERVATION_EXPIRED")
    else None
  }

  ghost function ContextOf(rows: Rows, planId: Id): FillContext
    requires planId in rows.plans && planId in rows.reservations && rows.wallet.Some?
  {
    var found := OpenPositionOf(rows, planId);
    FillContext(rows.wallet.value, rows.plans[planId], rows.reservations[planId],
                if found.Some? then Some(rows.positions[found.value]) else None,
                |OpenPositions(rows)|)
  }

  function FillRejection(c: FillContext, cfg: Settings, a: FillArgs): Option<string> {
    var first := RequestRejection(c.wallet, c.plan, c.reservation, cfg, a);
    if first.Some? then first else PositionRejection(c.wallet, c.plan, c.existing, c.openCount, cfg, a)
  }

  function ProtectionOf(protectedQuantity: nat, remaining: nat): ProtectionState {
    if protectedQuantity == remaining then Protected else Unprotected
  }

  /** The position row after a fill, before its targets are reset. */
  function Averaged(c: FillContext, a: FillArgs, positionId: Id, now: int): PositionState
    requires a.quantity > 0
  {
    var stop := EffectiveStop(c.plan, c.existing, a);
    if c.existing.None? then
      PositionState(
        positionId, a.planId, c.plan.symbol, a.quantity, a.quantity, a.price, Some(stop), None, None,
        now, Some(now + 60 * a.timeStopMinutes), 0.0, true, "FILL_ACK", None,
        if a.stopPlaced then Protected else Unprotected,
        if a.stopPlaced then a.stopPrice else None,
        if a.stopPlaced then a.brokerOrderRef else None,
        if a.stopPlaced then a.quantity else 0,
        Reconciled, Some(now))
    else
      var p := c.existing.value;
      var remaining := p.remainingQuantity + a.quantity;
      var covered := if a.stopPlaced then remaining else p.protectedQuantity;
      p.(averageFill := EntryAverage(c.existing, a.price, a.quantity),
         quantity := p.quantity + a.quantity,
         remainingQuantity := remaining,
         stop := Some(stop),
         brokerStopPrice := if a.stopPlaced then a.stopPrice else p.brokerStopPrice,
         brokerOrderRef := if a.stopPlaced then a.brokerOrderRef else p.brokerOrderRef,
         protectedQuantity := covered,
         protection := ProtectionOf(covered, remaining),
         reconciliationState := Reconciled,
         lastReconciledAt := Some(now))
  }

  function WithTargets(p: PositionState, stop: real): PositionState {
    p.(tp1 := Some(Round4(p.averageFill + (p.averageFill - stop) * 1.5)),
       tp2 := Some(Round4(p.averageFill + (p.averageFill - stop) * 2.0)))
  }

  function FilledPosition(c: FillContext, a: FillArgs, positionId: Id, now: int): PositionState
    requires a.quantity > 0
  {
    WithTargets(Averaged(c, a, positionId, now), EffectiveStop(c.plan, c.existing, a))
  }

  /** What is left of the reservation, re-priced from the plan. */
  function Consumed(plan: TradePlan, r: Reservation, quantity: int): Reservation
    requires 0 < quantity <= r.quantity
  {
    var left := r.quantity - quantity;
    r.(quantity := left,
       reservedCash := Amount(left, plan.entryZoneHigh),
       reservedRisk := Amount(left, plan.RiskPerShare()))
  }

  function Snap(x: real, tolerance: real): real {
    if Abs(x) < tolerance then 0.0 else x
  }

  /** The wallet a fill proposes; the old and new position risks use the whole quantity. */
  function ProposedWallet(c: FillContext, a: FillArgs, position: PositionState, stop: real): WalletState
    requires 0 < a.quantity <= c.reservation.quantity
  {
    var r := Consumed(c.plan, c.reservation, a.quantity);
    c.wallet.(
      reservedCash := c.wallet.reservedCash - (c.reservation.reservedCash - r.reservedCash),
      openRisk := c.wallet.openRisk - c.reservation.reservedRisk + r.reservedRisk
                  - ExistingRisk(c.existing) + RiskAt(position.averageFill, stop, position.quantity),
      cashAvailable := c.wallet.cashAvailable - a.price * a.quantity as real)
  }

  predicate AccountingBroken(w: WalletState, tolerance: real) {
    w.reservedCash < -tolerance || w.openRisk < -tolerance || w.cashAvailable < -tolerance
  }

  function SnappedWallet(w: WalletState, tolerance: real, now: int): WalletState {
    Bump(w.(reservedCash := Snap(w.reservedCash, tolerance),
            openRisk := Snap(w.openRisk, tolerance),
            cashAvailable := Snap(w.cashAvailable, tolerance)), now)
  }

  /** The rows and events of an accepted fill. */
  function BookFill(l: Ledger, c: FillContext, cfg: Settings, a: FillArgs, positionId: Id, now: int): Result<Ledger>
    requires 0 < a.quantity <= c.reservation.quantity
  {
    var position := FilledPosition(c, a, positionId, now);
    var proposed := ProposedWallet(c, a, position, EffectiveStop(c.plan, c.existing, a));
    if AccountingBroken(proposed, cfg.tolerance) then Raised("WALLET_ACCOUNTING_INVARIANT_BROKEN")
    else
      var w := SnappedWallet(proposed, cfg.tolerance, now);
      var r := Consumed(c.plan, c.reservation, a.quantity);
      var plan := c.plan.(status := if r.quantity == 0 then PlanFilled else PlanReserved);
      Ok(Commit(l,
                Rows(Some(w), l.rows.plans[a.planId := plan],
                     if r.quantity == 0 then l.rows.reservations - {a.planId} else l.rows.reservations[a.planId := r],
                     l.rows.positions[position.positionId := position]),
                [Event(FillConfirmed, OfRow(position.positionId),
                       NO_ROWS.(position := Some(position), wallet := Snapshot(w), plan := Some(plan),
                                reservation := if r.quantity > 0 then Some(r) else None,
                                reservationDeleted := r.quantity == 0))]
                + UnprotectedNote(position)))
  }

  /** `confirm_fill`: an error after the sweep rolls the sweep back as well. */
  ghost function ConfirmFill(l: Ledger, cfg: Settings, a: FillArgs, clock: FillClock, listing: Listing,
                             positionId: Id): Result<Ledger> {
    var swept := Sweep(l, listing, clock.swept);
    var context := ContextRejection(swept.rows, a.planId, clock.checked);
    if context.Some? then Raised(context.value)
    else
      var c := ContextOf(swept.rows, a.planId);
      var rejection := FillRejection(c, cfg, a);
      if rejection.Some? then Raised(rejection.value)
      else BookFill(swept, c, cfg, a, positionId, clock.booked)
  }

  /* ---- protection and exits ---- */

  function ReferenceStop(rows: Rows, p: PositionState): Option<real> {
    if p.stop.Some? then p.stop
    else if p.planId in rows.plans then Some(rows.plans[p.planId].stop)
    else None
  }

  function MinStop(rows: Rows, cfg: Settings, p: PositionState, reference: real): real {
    Max(if p.planId in rows.plans then MinPlanStop(rows.plans[p.planId], cfg) else reference, reference)
  }

  function ProtectedPosition(p: PositionState, stop: real, brokerOrderRef: Option<string>): PositionState {
    WithTargets(p.(stop := Some(stop), brokerStopPrice := Some(stop), brokerOrderRef := brokerOrderRef,
                   protectedQuantity := p.remainingQuantity, protection := Protected), stop)
  }

  function ProtectPosition(l: Ledger, cfg: Settings, positionId: Id, stop: real, brokerOrderRef: Option<string>,
                           now: int): Result<Ledger> {
    if positionId !in l.rows.positions || l.rows.wallet.None? then Raised("POSITION_OR_WALLET_MISSING")
    else
      var p0 := l.rows.positions[positionId];
      var w0 := l.rows.wallet.value;
      var reference := ReferenceStop(l.rows, p0);
      if reference.None? then Raised("POSITION_STOP_UNDEFINED")
      else if stop < MinStop(l.rows, cfg, p0, reference.value) - cfg.tolerance then
        Raised(if p0.stop.Some? && stop < p0.stop.value - cfg.tolerance then "STOP_LOOSER_THAN_CURRENT"
               else "STOP_LOOSER_THAN_PLAN")
      else
        var proposed := w0.openRisk - RiskAt(p0.averageFill, reference.value, p0.remainingQuantity)
                        + RiskAt(p0.averageFill, stop, p0.remainingQuantity);
        if proposed < -cfg.tolerance then Raised("WALLET_ACCOUNTING_INVARIANT_BROKEN")
        else
          var p := ProtectedPosition(p0, stop, brokerOrderRef);
          var w := Bump(w0.(openRisk := Snap(proposed, cfg.tolerance)), now);
          Ok(Commit(l, l.rows.(wallet := Some(w), positions := l.rows.positions[positionId := p]),
                    [Event(StopOrderConfirmed, OfRow(positionId),
                           NO_ROWS.(position := Some(p), wallet := Snapshot(w)))]))
  }

  /** `position.stop or position.average_fill`: a zero stop counts as none. */
  function StopOrAverage(p: PositionState): real {
    if p.stop.Some? && p.stop.value != 0.0 then p.stop.value else p.averageFill
  }

  function ExitPnl(p: PositionState, price: real, quantity: int): real {
    (price - p.averageFill) * quantity as real
  }

  function Proceeds(price: real, quantity: int): real {
    price * quantity as real
  }

  function ExitedPosition(p: PositionState, price: real, quantity: int, now: int): PositionState
    requires 0 < quantity <= p.remainingQuantity
  {
    var left := p.remainingQuantity - quantity;
    p.(realizedPnl := p.realizedPnl + ExitPnl(p, price, quantity),
       remainingQuantity := left,
       closedAt := if left == 0 then Some(now) else p.closedAt)
  }

  function ExitedWallet(w: WalletState, p: PositionState, price: real, quantity: int, now: int): WalletState {
    var pnl := ExitPnl(p, price, quantity);
    Bump(w.(cashAvailable := w.cashAvailable + Proceeds(price, quantity),
            openRisk := Max(0.0, w.openRisk - RiskAt(p.averageFill, StopOrAverage(p), quantity)),
            dailyRealizedLoss := if pnl < 0.0 then w.dailyRealizedLoss + Abs(pnl) else w.dailyRealizedLoss), now)
  }

  function ConfirmExit(l: Ledger, positionId: Id, price: real, quantity: int, now: int): Result<Ledger> {
    if positionId !in l.rows.positions || l.rows.wallet.None? then Raised("POSITION_OR_WALLET_MISSING")
    else if quantity <= 0 || quantity > l.rows.positions[positionId].remainingQuantity
      then Raised("INVALID_EXIT_QUANTITY")
    else
      var p := ExitedPosition(l.rows.positions[positionId], price, quantity, now);
      var w := ExitedWallet(l.rows.wallet.value, l.rows.positions[positionId], price, quantity, now);
      Ok(Commit(l, l.rows.(wallet := Some(w), positions := l.rows.positions[positionId := p]),
                [Event(ExitConfirmed, OfRow(positionId), NO_ROWS.(position := Some(p), wallet := Snapshot(w)))]))
  }
}

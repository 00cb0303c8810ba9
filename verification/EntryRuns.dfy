/** When the service reserves capacity: the conditions on the market context, the
    settings and the rows, for one activation and for every event of a run. */
module EntryRuns {
  import opened Prelude
  import opened Domain
  import opened Tables
  import opened Sizing
  import opened Planning
  import opened Activation
  import opened Ledger
  import opened RowSoundness
  import opened Runs
  import opened LimitRuns

  /* ---- feeds ---- */

  /** A feed without an account: delayed, and quoted without bid and ask. */
  ghost predicate Keyless(sourceId: Option<string>) {
    sourceId.Some? && (Occurs(sourceId.value, "YAHOO") || Occurs(sourceId.value, "CBOE_DELAYED"))
  }

  lemma KeylessMeaning(sourceId: Option<string>)
    ensures IsKeylessSource(sourceId) <==> Keyless(sourceId)
  {
    if sourceId.Some? {
      ContainsIsOccurs(sourceId.value, "YAHOO");
      ContainsIsOccurs(sourceId.value, "CBOE_DELAYED");
    }
  }

  /* ---- what the market must show ---- */

  ghost predicate FreshEnough(s: MarketSnapshot, cfg: Settings) {
    && s.dataAgeSeconds.Some?
    && s.dataAgeSeconds.value
       <= if Keyless(s.sourceId) then cfg.maxDelayedAgeMinutes * 60.0 else cfg.maxMarketDataAgeSeconds
  }

  predicate TwoSided(s: MarketSnapshot) {
    s.bid.Some? && s.ask.Some? && 0.0 < s.bid.value <= s.ask.value
  }

  ghost predicate SpreadFits(s: MarketSnapshot, plan: TradePlan) {
    if TwoSided(s) then s.last > 0.0 && (s.ask.value - s.bid.value) * 100.0 <= plan.maxSpreadPct * s.last
    else Keyless(s.sourceId)
  }

  ghost predicate MarketOpen(plan: TradePlan, ctx: MarketContext, cfg: Settings) {
    var s := ctx.snapshot;
    && s.authoritative && !s.halted && s.symbol == plan.symbol
    && FreshEnough(s, cfg) && SpreadFits(s, plan)
    && s.vwap.Some? && s.vwap.value <= s.last
    && ctx.retestValid
    && plan.entryTrigger <= s.last <= plan.entryZoneHigh
  }

  /* ---- what the wallet must hold ---- */

  /** `n` shares at the top of the zone and their risk, next to what is already
      reserved and at risk. */
  ghost predicate SharesFit(w: WalletState, plan: TradePlan, cfg: Settings, n: int) {
    var risk := plan.entryTrigger - plan.stop;
    var day := w.capitalBase * cfg.maxDailyLossPct / 100.0 - w.dailyRealizedLoss - w.openRisk;
    && n as real * risk <= Min(w.capitalBase * cfg.maxTradeRiskPct / 100.0, day) * plan.qualityRiskMultiplier
    && n as real * plan.entryZoneHigh <= Max(0.0, w.cashAvailable - w.reservedCash)
    && n as real * plan.entryZoneHigh <= w.capitalBase * cfg.maxPositionNotionalPct / 100.0
  }

  ghost predicate CanSize(w: WalletState, plan: TradePlan, cfg: Settings) {
    && w.capitalBase > 0.0 && w.cashAvailable > 0.0
    && plan.stop < plan.entryTrigger && plan.entryZoneHigh > 0.0
    && w.dailyRealizedLoss + w.openRisk < w.capitalBase * cfg.maxDailyLossPct / 100.0
    && SharesFit(w, plan, cfg, 1)
  }

  /** The wallet once the plan's own reservation, if it has one, is given back. */
  ghost function WithoutOwn(rows: Rows, planId: Id): WalletState
    requires rows.wallet.Some?
  {
    var w := rows.wallet.value;
    if planId in rows.reservations then
      var r := rows.reservations[planId];
      w.(reservedCash := Max(0.0, w.reservedCash - r.reservedCash), openRisk := Max(0.0, w.openRisk - r.reservedRisk))
    else w
  }

  /* ---- the gate ---- */

  ghost function OpenRows(rows: Rows): set<Id> {
    set id | id in rows.positions && rows.positions[id].closedAt.None? && rows.positions[id].remainingQuantity > 0
  }

  /** Everything that must hold for an activation to reserve. */
  ghost predicate MayReserve(rows: Rows, cfg: Settings, planId: Id, ctx: MarketContext, now: int) {
    && planId in rows.plans && rows.wallet.Some?
    && var plan := rows.plans[planId];
    && plan.status != PlanExpired && plan.status != PlanFilled && now <= plan.expiresAt
    && (planId in rows.reservations ==> rows.reservations[planId].expiresAt < now)
    && (|| |OpenRows(rows)| < cfg.maxConcurrentPositions
        || exists id :: id in OpenRows(rows) && rows.positions[id].planId == planId)
    && MarketOpen(plan, ctx, cfg)
    && CanSize(WithoutOwn(rows, planId), plan, cfg)
  }

  lemma RatioAtMost(part: real, whole: real, pct: real)
    requires whole > 0.0
    ensures part / whole * 100.0 <= pct <==> part * 100.0 <= pct * whole
  {
    var q := part / whole;
    assert q * whole == part;
    if q * 100.0 <= pct {
      assert (pct - q * 100.0) * whole >= 0.0;
    } else {
      assert (pct - q * 100.0) * whole < 0.0;
    }
  }

  lemma GateMeaning(plan: TradePlan, ctx: MarketContext, cfg: Settings)
    requires plan.entryTrigger >= 0.0
    ensures MarketOpen(plan, ctx, cfg)
       <==> && !ctx.snapshot.halted && ctx.snapshot.symbol == plan.symbol && !DividesByZero(ctx.snapshot)
            && GateOpen(plan, ctx.snapshot, GateOf(cfg, ctx))
  {
    KeylessMeaning(ctx.snapshot.sourceId);
    hide IsKeylessSource, Keyless;
    var s := ctx.snapshot;
    if TwoSided(s) && s.last > 0.0 {
      RatioAtMost(s.ask.value - s.bid.value, s.last, plan.maxSpreadPct);
    }
  }

  lemma FitMeaning(w: WalletState, plan: TradePlan, cfg: Settings, n: int)
    ensures SharesFit(w, plan, cfg, n) <==> Feasible(w, plan, None, LimitsOf(cfg), n)
  {
  }

  lemma SizeMeaning(w: WalletState, plan: TradePlan, cfg: Settings)
    ensures CanSize(w, plan, cfg)
       <==> Sizable(w, plan, None, LimitsOf(cfg)) && Feasible(w, plan, None, LimitsOf(cfg), 1)
  {
    FitMeaning(w, plan, cfg, 1);
    hide SharesFit, Feasible;
  }

  lemma SizingIgnoresClock(w: WalletState, w': WalletState, plan: TradePlan, cfg: Settings, n: int)
    requires w' == w.(version := w'.version, asOf := w'.asOf)
    ensures SharesFit(w', plan, cfg, n) == SharesFit(w, plan, cfg, n) && CanSize(w', plan, cfg) == CanSize(w, plan, cfg)
  {
    hide Max, Min;
  }

  /** A buy is signalled exactly when the market is open to it and one share fits. */
  lemma BuyMeaning(w: WalletState, plan: TradePlan, ctx: MarketContext, cfg: Settings, now: int)
    requires plan.entryTrigger >= 0.0
    ensures var d := Activate(plan, ctx.snapshot, w, None, GateOf(cfg, ctx), now);
            && (d.Ok? && d.value.0 == BuyNow <==>
                  now <= plan.expiresAt && MarketOpen(plan, ctx, cfg) && CanSize(w, plan, cfg))
            && (d.Ok? && d.value.0 == BuyNow ==>
                  && d.value.1 > 0 && SharesFit(w, plan, cfg, d.value.1) && !SharesFit(w, plan, cfg, d.value.1 + 1))
  {
    hide GateOpen, MarketOpen, GateOf, Sizable, Feasible, SharesFit, CanSize, SizeFromWallet;
    var d := Activate(plan, ctx.snapshot, w, None, GateOf(cfg, ctx), now);
    GateMeaning(plan, ctx, cfg);
    SizeMeaning(w, plan, cfg);
    GateLimits(cfg, ctx);
    if d.Ok? {
      BuyNowIff(plan, ctx.snapshot, w, None, GateOf(cfg, ctx), now);
      FitMeaning(w, plan, cfg, d.value.1);
      FitMeaning(w, plan, cfg, d.value.1 + 1);
    }
  }

  /** What an evaluation decides when it does not buy. */
  lemma DecisionMeaning(w: WalletState, plan: TradePlan, ctx: MarketContext, cfg: Settings, now: int)
    requires plan.entryTrigger >= 0.0
    ensures var d, s := Activate(plan, ctx.snapshot, w, None, GateOf(cfg, ctx), now), ctx.snapshot;
            if plan.expiresAt < now then d == Ok((Expired, 0))
            else if s.halted || s.symbol != plan.symbol then d == Ok((Invalid, 0))
            else if TwoSided(s) && s.last == 0.0 then d == Raised("ZeroDivisionError")
            else if plan.entryZoneHigh < s.last then d == Ok((NoTrade, 0))
            else if !MarketOpen(plan, ctx, cfg) then d == Ok((Armed, 0))
            else if !CanSize(w, plan, cfg) then d == Ok((Watch, 0))
            else d.Ok? && d.value.0 == BuyNow
  {
    hide GateOpen, MarketOpen, GateOf, Sizable, Feasible, SharesFit, CanSize, SizeFromWallet;
    GateMeaning(plan, ctx, cfg);
    SizeMeaning(w, plan, cfg);
    GateLimits(cfg, ctx);
    SizingRefusal(w, plan, None, LimitsOf(cfg));
    OpenMeansInZone(plan, ctx, cfg);
  }

  lemma OpenMeansInZone(plan: TradePlan, ctx: MarketContext, cfg: Settings)
    ensures MarketOpen(plan, ctx, cfg) ==> ctx.snapshot.last <= plan.entryZoneHigh
  {
  }

  lemma GateLimits(cfg: Settings, ctx: MarketContext)
    ensures GateOf(cfg, ctx).limits == LimitsOf(cfg)
  {
  }

  lemma FreedRows(l: Ledger, planId: Id, now: int)
    requires Sound(l.rows) && l.rows.wallet.Some?
    ensures var rows := Release(l, planId, ReservationExpired, now).rows;
            && planId !in rows.reservations && rows.wallet.Some?
            && rows.wallet.value
               == WithoutOwn(l.rows, planId).(version := rows.wallet.value.version, asOf := rows.wallet.value.asOf)
  {
  }

  lemma OpenRowsAre(rows: Rows)
    ensures OpenRows(rows) == OpenPositions(rows)
    ensures forall planId :: PlanHasOpen(rows, planId)
              <==> exists id :: id in OpenRows(rows) && rows.positions[id].planId == planId
  {
    assert forall id :: id in OpenRows(rows) <==> id in OpenPositions(rows);
    forall planId ensures PlanHasOpen(rows, planId)
                     <==> exists id :: id in OpenRows(rows) && rows.positions[id].planId == planId
    {
      if PlanHasOpen(rows, planId) {
        var id :| id in rows.positions && rows.positions[id].Open() && rows.positions[id].planId == planId;
        assert id in OpenRows(rows);
      }
    }
  }

  /** The second half of an activation reserves exactly when the market context, the
      settings and the rows allow it. */
  lemma ReservesIff(l: Ledger, cfg: Settings, planId: Id, ctx: MarketContext, now: int)
    requires Sound(l.rows)
    ensures Reserves(l, cfg, planId, ctx, now) <==> MayReserve(l.rows, cfg, planId, ctx, now)
  {
    hide Activate, MarketOpen, CanSize, OpenRows, OpenPositions, PlanHasOpen, WithoutOwn, GateOf, Amount;
    if planId in l.rows.plans && l.rows.wallet.Some? {
      var plan := l.rows.plans[planId];
      var freed := Release(l, planId, ReservationExpired, now);
      FreedRows(l, planId, now);
      ReleaseSound(l, planId, ReleasedPlanExpired, now);
      ReleaseSound(l, planId, MaxConcurrentReached, now);
      BuyMeaning(freed.rows.wallet.value, plan, ctx, cfg, now);
      SizingIgnoresClock(WithoutOwn(l.rows, planId), freed.rows.wallet.value, plan, cfg, 1);
      OpenRowsAre(l.rows);
      hide Release;
    }
  }

  /** What an activation that reserves writes: the largest quantity that fits, its cash
      and risk to the cent, for the configured time; the plan is RESERVED. */
  lemma ReservationMeaning(l: Ledger, cfg: Settings, planId: Id, ctx: MarketContext, now: int)
    requires Sound(l.rows) && MayReserve(l.rows, cfg, planId, ctx, now)
    ensures Reserves(l, cfg, planId, ctx, now)
    ensures var plan, w := l.rows.plans[planId], WithoutOwn(l.rows, planId);
            var rows := ActivateWithContext(l, cfg, planId, ctx, now).value.rows;
            var r := rows.reservations[planId];
            && r.quantity > 0 && SharesFit(w, plan, cfg, r.quantity) && !SharesFit(w, plan, cfg, r.quantity + 1)
            && ToTheCent(r.reservedCash, r.quantity, plan.entryZoneHigh)
            && ToTheCent(r.reservedRisk, r.quantity, plan.entryTrigger - plan.stop)
            && r.expiresAt == now + cfg.reservationTtlSeconds
            && rows.plans == l.rows.plans[planId := plan.(status := PlanReserved)]
            && rows.positions == l.rows.positions
            && rows.wallet.Some?
            && rows.wallet.value.reservedCash == w.reservedCash + r.reservedCash
            && rows.wallet.value.openRisk == w.openRisk + r.reservedRisk
            && rows.wallet.value.cashAvailable == w.cashAvailable && rows.wallet.value.asOf == Some(now)
  {
    hide Activate, MarketOpen, CanSize, WithoutOwn, GateOf, Amount, ToTheCent, SharesFit, EvaluateAndReserve,
         Reserves, MayReserve;
    hide ActivateWithContext, Release;
    var plan := MayReservePlan(l.rows, cfg, planId, ctx, now);
    var freed := Release(l, planId, ReservationExpired, now);
    ReservesIff(l, cfg, planId, ctx, now);
    ReservingEvaluates(l, cfg, planId, ctx, now);
    FreedRows(l, planId, now);
    FreedPlans(l, planId, now, plan.(status := PlanReserved));
    BuyMeaning(freed.rows.wallet.value, plan, ctx, cfg, now);
    var n := Activate(plan, ctx.snapshot, freed.rows.wallet.value, None, GateOf(cfg, ctx), now).value.1;
    SizingIgnoresClock(WithoutOwn(l.rows, planId), freed.rows.wallet.value, plan, cfg, n);
    SizingIgnoresClock(WithoutOwn(l.rows, planId), freed.rows.wallet.value, plan, cfg, n + 1);
    ReserveWrites(freed, cfg, planId, plan, ctx, now);
    AmountMeaning(n, plan.entryZoneHigh);
    AmountMeaning(n, plan.entryTrigger - plan.stop);
  }

  lemma MayReservePlan(rows: Rows, cfg: Settings, planId: Id, ctx: MarketContext, now: int) returns (plan: TradePlan)
    requires MayReserve(rows, cfg, planId, ctx, now)
    ensures planId in rows.plans && rows.wallet.Some? && plan == rows.plans[planId]
    ensures now <= plan.expiresAt && MarketOpen(plan, ctx, cfg) && CanSize(WithoutOwn(rows, planId), plan, cfg)
  {
    hide MarketOpen, CanSize;
    plan := rows.plans[planId];
  }

  /** An activation that reserves is an evaluation that buys. */
  lemma ReservingEvaluates(l: Ledger, cfg: Settings, planId: Id, ctx: MarketContext, now: int)
    requires Sound(l.rows) && Reserves(l, cfg, planId, ctx, now)
    ensures planId in l.rows.plans
    ensures var freed, plan := Release(l, planId, ReservationExpired, now), l.rows.plans[planId];
            && freed.rows.wallet.Some? && l.rows.wallet.Some?
            && ActivateWithContext(l, cfg, planId, ctx, now) == EvaluateAndReserve(freed, cfg, planId, plan, ctx, now)
            && var d := Activate(plan, ctx.snapshot, freed.rows.wallet.value, None, GateOf(cfg, ctx), now);
            d.Ok? && d.value.0 == BuyNow
  {
    hide Activate, Amount, GateOf;
    ReleaseSound(l, planId, ReservationExpired, now);
    ReleaseSound(l, planId, MaxConcurrentReached, now);
    ReleaseSound(l, planId, ReleasedPlanExpired, now);
  }

  lemma ReserveWrites(l: Ledger, cfg: Settings, planId: Id, plan: TradePlan, ctx: MarketContext, now: int)
    requires l.rows.wallet.Some?
    requires var d := Activate(plan, ctx.snapshot, l.rows.wallet.value, None, GateOf(cfg, ctx), now);
             d.Ok? && d.value.0 == BuyNow
    ensures var n := Activate(plan, ctx.snapshot, l.rows.wallet.value, None, GateOf(cfg, ctx), now).value.1;
            var w := l.rows.wallet.value;
            EvaluateAndReserve(l, cfg, planId, plan, ctx, now).Ok?
            && var rows := EvaluateAndReserve(l, cfg, planId, plan, ctx, now).value.rows;
            && planId in rows.reservations
            && var r := rows.reservations[planId];
            && r.quantity == n && r.reservedCash == Amount(n, plan.entryZoneHigh)
            && r.reservedRisk == Amount(n, plan.entryTrigger - plan.stop)
            && r.expiresAt == now + cfg.reservationTtlSeconds
            && rows.plans == l.rows.plans[planId := plan.(status := PlanReserved)]
            && rows.positions == l.rows.positions
            && rows.wallet == Some(w.(reservedCash := w.reservedCash + r.reservedCash,
                                      openRisk := w.openRisk + r.reservedRisk,
                                      version := w.version + 1, asOf := Some(now)))
  {
    hide Activate, GateOf, Amount;
  }

  /** A release writes no plan but its own, and no position. */
  lemma FreedPlans(l: Ledger, planId: Id, now: int, plan: TradePlan)
    requires planId in l.rows.plans
    ensures var rows := Release(l, planId, ReservationExpired, now).rows;
            && rows.positions == l.rows.positions && rows.plans[planId := plan] == l.rows.plans[planId := plan]
  {
  }

  /** The first half of an activation puts it in flight exactly if, after its sweep, the
      wallet is seeded and the plan is there, on time, and neither expired nor filled. */
  lemma BeginMeaning(cfg: Settings, w: World, planId: Id, listing: Listing, now: int)
    ensures var w', rows := Step(cfg, w, ActivateBegin(planId, listing, now)), Sweep(w.ledger, listing, now).rows;
            && w'.ledger == Sweep(w.ledger, listing, now)
            && w.pending <= w'.pending <= w.pending + {(planId, now)}
            && ((planId, now) in w'.pending <==>
                  || (planId, now) in w.pending
                  || (planId in rows.plans && rows.wallet.Some? && now <= rows.plans[planId].expiresAt
                      && rows.plans[planId].status != PlanExpired && rows.plans[planId].status != PlanFilled))
  {
    hide Sweep;
  }

  /** The early exits: without its plan or a wallet, or for a filled plan, an activation does
      nothing; an expired or late plan is left EXPIRED without its reservation; and while
      all places are taken by other plans only the reservation is given back. */
  lemma EarlyExits(l: Ledger, cfg: Settings, planId: Id, ctx: MarketContext, now: int)
    requires Sound(l.rows)
    ensures var r := ActivateWithContext(l, cfg, planId, ctx, now);
            if planId !in l.rows.plans then r == Ok(l)
            else
              var plan := l.rows.plans[planId];
              if plan.status == PlanExpired || plan.expiresAt < now then
                && r.Ok? && Given(l.rows, r.value.rows, planId)
                && r.value.rows.plans == l.rows.plans[planId := plan.(status := PlanExpired)]
              else if l.rows.wallet.None? || plan.status == PlanFilled then r == Ok(l)
              else if cfg.maxConcurrentPositions <= |OpenRows(l.rows)|
                      && forall id :: id in OpenRows(l.rows) ==> l.rows.positions[id].planId != planId then
                && r.Ok? && Given(l.rows, r.value.rows, planId)
                && r.value.rows.plans == l.rows.plans[planId := plan.(status := PlanActive)]
              else true
  {
    OpenRowsAre(l.rows);
    hide OpenRows, OpenPositions, PlanHasOpen, EvaluateAndReserve;
  }

  /** The reservation of one plan is given back, and no position moved. */
  ghost predicate Given(rows: Rows, rows': Rows, planId: Id) {
    && rows'.positions == rows.positions && rows'.reservations == rows.reservations - {planId}
    && (rows.wallet.Some? <==> rows'.wallet.Some?)
    && (rows.wallet.Some? ==>
          rows'.wallet.value
          == WithoutOwn(rows, planId).(version := rows'.wallet.value.version, asOf := rows'.wallet.value.asOf))
  }

  /** A live reservation is announced again, and nothing else happens, exactly while the
      retest is valid and the quote is not an unauthoritative one of a single exchange or a
      delayed feed. */
  lemma AnnouncementMeaning(l: Ledger, cfg: Settings, planId: Id, ctx: MarketContext, now: int)
    requires Sound(l.rows) && planId in l.rows.reservations && now <= l.rows.reservations[planId].expiresAt
    requires now <= l.rows.plans[planId].expiresAt
    requires |OpenRows(l.rows)| < cfg.maxConcurrentPositions
             || exists id :: id in OpenRows(l.rows) && l.rows.positions[id].planId == planId
    ensures var r, s := ActivateWithContext(l, cfg, planId, ctx, now), ctx.snapshot;
            && r.Ok? && r.value.rows == l.rows && l.events <= r.value.events
            && (forall i :: |l.events| <= i < |r.value.events| ==>
                  r.value.events[i].kind in {PlanEvaluated, BuyNowEmitted}
                      && r.value.events[i].aggregate == OfRow(planId))
            && ((exists i :: |l.events| <= i < |r.value.events| && r.value.events[i].kind == BuyNowEmitted) <==>
                  ctx.retestValid && (s.authoritative || (s.sourceId != Some("ALPACA_IEX") && !Keyless(s.sourceId))))
  {
    KeylessMeaning(ctx.snapshot.sourceId);
    OpenRowsAre(l.rows);
    hide IsKeylessSource, Keyless, OpenRows, OpenPositions, PlanHasOpen;
    var events := Reannounce(cfg, planId, ctx);
    assert ActivateWithContext(l, cfg, planId, ctx, now) == Ok(Commit(l, l.rows, events));
    var l' := Commit(l, l.rows, events);
    if |events| == 2 {
      assert l'.events[|l.events| + 1] == events[1];
    }
  }

  /* ---- every reservation of a run ---- */

  /** The log grew, and not by a reservation. */
  ghost predicate Unreserving(l: Ledger, l': Ledger) {
    l.events <= l'.events && forall i :: |l.events| <= i < |l'.events| ==> l'.events[i].kind != CapacityReserved
  }

  lemma ReleaseUnreserving(l: Ledger, planId: Id, reason: ReleaseReason, now: int)
    ensures Unreserving(l, Release(l, planId, reason, now))
  {
  }

  lemma {:induction false} SweepPlansUnreserving(l: Ledger, order: seq<Id>, now: int)
    ensures Unreserving(l, SweepPlans(l, order, now))
    decreases |order|
  {
    if order != [] {
      var l1 := SweepPlans(l, order[..|order| - 1], now);
      SweepPlansUnreserving(l, order[..|order| - 1], now);
      ReleaseUnreserving(l1, order[|order| - 1], ReleasedPlanExpired, now);
    }
  }

  lemma {:induction false} SweepReservationsUnreserving(l: Ledger, order: seq<Id>, now: int)
    ensures Unreserving(l, SweepReservations(l, order, now))
    decreases |order|
  {
    if order != [] {
      var l1 := SweepReservations(l, order[..|order| - 1], now);
      SweepReservationsUnreserving(l, order[..|order| - 1], now);
      ReleaseUnreserving(l1, order[|order| - 1], ReservationExpired, now);
    }
  }

  lemma SweepUnreserving(l: Ledger, listing: Listing, now: int)
    ensures Unreserving(l, Sweep(l, listing, now))
  {
    SweepPlansUnreserving(l, listing.plans, now);
    SweepReservationsUnreserving(SweepPlans(l, listing.plans, now), listing.reservations, now);
  }

  lemma FillUnreserving(l: Ledger, cfg: Settings, a: FillArgs, clock: FillClock, listing: Listing, positionId: Id)
    requires ConfirmFill(l, cfg, a, clock, listing, positionId).Ok?
    ensures Unreserving(l, ConfirmFill(l, cfg, a, clock, listing, positionId).value)
  {
    hide FilledPosition, ProposedWallet, SnappedWallet, FillRejection, Sweep;
    SweepUnreserving(l, listing, clock.swept);
  }

  lemma StepUnreserving(cfg: Settings, w: World, c: Command)
    requires Admissible(cfg, w.ledger, c) && Enabled(cfg, w, c) && !c.ActivateEnd?
    ensures Unreserving(w.ledger, Perform(cfg, w.ledger, c).value)
  {
    hide RiskAt, Sum, ImportedPosition, ImportedWallet, ProtectedPosition, ExitedPosition, ExitedWallet,
         ReconciledPositions, BuildTradePlan, ConfirmFill, ActivateWithContext, Sweep, Release;
    var l := w.ledger;
    match c
    case SweepExpired(listing, now) => SweepUnreserving(l, listing, now);
    case ActivateBegin(_, listing, now) => SweepUnreserving(l, listing, now);
    case ReleaseReservation(planId, reason, now) => ReleaseUnreserving(l, planId, reason, now);
    case Fill(a, clock, listing, positionId) => FillUnreserving(l, cfg, a, clock, listing, positionId);
    case _ =>
  }

  /** The event at `i` is a new reservation of this plan. */
  ghost predicate ReservedAt(l: Ledger, l': Ledger, i: int, planId: Id) {
    |l.events| <= i < |l'.events| && l'.events[i].kind == CapacityReserved && l'.events[i].aggregate == OfRow(planId)
  }

  lemma ReservingLogs(l: Ledger, cfg: Settings, planId: Id, plan: TradePlan, ctx: MarketContext, now: int)
    requires l.rows.wallet.Some? && EvaluateAndReserve(l, cfg, planId, plan, ctx, now).Ok?
    ensures var d := Activate(plan, ctx.snapshot, l.rows.wallet.value, None, GateOf(cfg, ctx), now);
            var l' := EvaluateAndReserve(l, cfg, planId, plan, ctx, now).value;
            && l.events <= l'.events && d.Ok?
            && (d.value.0 == BuyNow ==>
                  && |l'.events| == |l.events| + 3 && ReservedAt(l, l', |l.events| + 1, planId)
                  && forall i :: |l.events| <= i < |l'.events| && i != |l.events| + 1 ==>
                       l'.events[i].kind != CapacityReserved)
            && (d.value.0 != BuyNow ==> Unreserving(l, l'))
  {
    hide Activate, ReservationFor, ReservedWallet, GateOf;
  }

  /** An activation logs one reservation if it reserves, and none otherwise. */
  lemma ActivationLogs(l: Ledger, cfg: Settings, planId: Id, ctx: MarketContext, now: int)
    requires Sound(l.rows) && ActivateWithContext(l, cfg, planId, ctx, now).Ok?
    ensures var l' := ActivateWithContext(l, cfg, planId, ctx, now).value;
            if Reserves(l, cfg, planId, ctx, now) then
              && l.events <= l'.events
              && exists i :: ReservedAt(l, l', i, planId)
                   && forall j :: |l.events| <= j < |l'.events| && j != i ==> l'.events[j].kind != CapacityReserved
            else Unreserving(l, l')
  {
    hide ActivateWithContext, Activate, GateOf, Release, EvaluateAndReserve, Reserves, Sound, Unreserving;
    if Reserves(l, cfg, planId, ctx, now) {
      ReservingEvaluates(l, cfg, planId, ctx, now);
      var freed, plan := Release(l, planId, ReservationExpired, now), l.rows.plans[planId];
      ReleaseUnreserving(l, planId, ReservationExpired, now);
      ReservingLogs(freed, cfg, planId, plan, ctx, now);
      FirstOfThree(l, freed, ActivateWithContext(l, cfg, planId, ctx, now).value, planId);
    } else {
      IdleActivationLogs(l, cfg, planId, ctx, now);
    }
  }

  lemma FirstOfThree(l: Ledger, freed: Ledger, l': Ledger, planId: Id)
    requires Unreserving(l, freed) && freed.events <= l'.events && |l'.events| == |freed.events| + 3
    requires ReservedAt(freed, l', |freed.events| + 1, planId)
    requires forall i :: |freed.events| <= i < |l'.events| && i != |freed.events| + 1 ==>
               l'.events[i].kind != CapacityReserved
    ensures l.events <= l'.events && ReservedAt(l, l', |freed.events| + 1, planId)
    ensures forall j :: |l.events| <= j < |l'.events| && j != |freed.events| + 1 ==>
              l'.events[j].kind != CapacityReserved
  {
    forall j | |l.events| <= j < |l'.events| && j != |freed.events| + 1 ensures l'.events[j].kind != CapacityReserved {
      assert j < |freed.events| ==> l'.events[j] == freed.events[j];
    }
  }

  lemma IdleActivationLogs(l: Ledger, cfg: Settings, planId: Id, ctx: MarketContext, now: int)
    requires Sound(l.rows) && ActivateWithContext(l, cfg, planId, ctx, now).Ok?
    requires !Reserves(l, cfg, planId, ctx, now)
    ensures Unreserving(l, ActivateWithContext(l, cfg, planId, ctx, now).value)
  {
    hide EvaluateAndReserve, Activate, GateOf, OpenPositions, PlanHasOpen, Release;
    ReleaseUnreserving(l, planId, ReleasedPlanExpired, now);
    ReleaseUnreserving(l, planId, MaxConcurrentReached, now);
    ReleaseUnreserving(l, planId, ReservationExpired, now);
    if planId in l.rows.plans && l.rows.wallet.Some? {
      var freed, plan := Release(l, planId, ReservationExpired, now), l.rows.plans[planId];
      FreedRows(l, planId, now);
      if EvaluateAndReserve(freed, cfg, planId, plan, ctx, now).Ok? {
        ReservingLogs(freed, cfg, planId, plan, ctx, now);
        EvaluationReserves(freed, cfg, planId, plan, ctx, now);
        UnreservingTransitive(l, freed, EvaluateAndReserve(freed, cfg, planId, plan, ctx, now).value);
      }
    }
  }

  lemma UnreservingTransitive(a: Ledger, b: Ledger, c: Ledger)
    ensures Unreserving(a, b) && Unreserving(b, c) ==> Unreserving(a, c)
  {
  }

  lemma EvaluationReserves(l: Ledger, cfg: Settings, planId: Id, plan: TradePlan, ctx: MarketContext, now: int)
    requires l.rows.wallet.Some? && planId !in l.rows.reservations
    requires EvaluateAndReserve(l, cfg, planId, plan, ctx, now).Ok?
    ensures planId in EvaluateAndReserve(l, cfg, planId, plan, ctx, now).value.rows.reservations
       <==> Activate(plan, ctx.snapshot, l.rows.wallet.value, None, GateOf(cfg, ctx), now).value.0 == BuyNow
  {
    hide Activate, GateOf, Amount;
  }

  /** Over every run: a reservation is logged exactly by the second half of an activation
      in flight whose context, settings and rows allow it, and then once. */
  lemma RunReservations(cfg: Settings, cs: seq<Command>, c: Command)
    requires AdmissibleRun(cfg, cs + [c])
    ensures var w, l' := Run(cfg, cs), Run(cfg, cs + [c]).ledger;
            && w.ledger.events <= l'.events
            && (forall i :: |w.ledger.events| <= i < |l'.events| && l'.events[i].kind == CapacityReserved ==>
                  && c.ActivateEnd? && (c.planId, c.now) in w.pending && ReservedAt(w.ledger, l', i, c.planId)
                  && MayReserve(w.ledger.rows, cfg, c.planId, c.ctx, c.now))
            && (c.ActivateEnd? && (c.planId, c.now) in w.pending
                && MayReserve(w.ledger.rows, cfg, c.planId, c.ctx, c.now) ==>
                  exists i :: ReservedAt(w.ledger, l', i, c.planId))
  {
    hide Perform, Sound, MayReserve, Reserves;
    assert (cs + [c])[..|cs|] == cs;
    RunSound(cfg, cs);
    var w := Run(cfg, cs);
    if c.ActivateEnd? {
      ReservesIff(w.ledger, cfg, c.planId, c.ctx, c.now);
      PerformActivation(cfg, w.ledger, c);
      if Enabled(cfg, w, c) {
        ActivationLogs(w.ledger, cfg, c.planId, c.ctx, c.now);
      } else if Reserves(w.ledger, cfg, c.planId, c.ctx, c.now) {
        ReservingIsOk(w.ledger, cfg, c.planId, c.ctx, c.now);
      }
    } else if Enabled(cfg, w, c) {
      StepUnreserving(cfg, w, c);
    }
  }
}

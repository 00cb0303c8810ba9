/** The decision service over its store: tables and an event list that each step
    rewrites in place (`orchestration/service.py`, `ledger/store.py`). */
module Service {
  import opened Prelude
  import opened Domain
  import opened Sizing
  import opened Tables
  import opened Planning
  import opened Activation
  import opened Ledger
  import L = Ledger
  import opened Rebuilding
  import opened ReplayAgreement
  import opened RowSoundness
  import opened Lifecycle
  import opened Runs

  lemma ImportNotes(a: ImportArgs, ids: ImportIds, now: int)
    requires a.quantity > 0
    ensures UnprotectedNote(ImportedPosition(a, ids, now))
         == if a.stop.None? then [Event(PositionUnprotected, OfRow(ids.positionId), NO_ROWS)] else []
  {
  }

  lemma GatesBoundQuantity(c: FillContext, cfg: Settings, a: FillArgs)
    requires FillRejection(c, cfg, a).None?
    ensures 0 < a.quantity <= c.reservation.quantity
  {
    hide PositionRejection;
  }

  lemma {:induction false} ListedAppend(order: seq<Id>, positions: map<Id, PositionState>, id: Id)
    requires id in positions
    ensures Listed(order + [id], positions) == Listed(order, positions) + [positions[id]]
    decreases |order|
  {
    if order == [] {
      assert [id][1..] == [];
    } else {
      ListedAppend(order[1..], positions, id);
      assert (order + [id])[1..] == order[1..] + [id];
    }
  }

  /** The open rows of one symbol. */
  ghost predicate GroupOf(table: map<Id, PositionState>, members: set<Id>, symbol: string) {
    forall id :: id in members <==> id in table && table[id].Open() && table[id].Ticker() == symbol
  }

  lemma ClosedStays(p: PositionState, holdings: seq<Holding>, held: real, now: int)
    ensures !p.Open() ==> Reconcile(p, holdings, held, now) == p
  {
  }

  lemma HasOpen(rows: Rows, id: Id)
    requires id in rows.positions && rows.positions[id].Open()
    ensures PlanHasOpen(rows, rows.positions[id].planId)
  {
  }

  lemma OnlyOpen(rows: Rows, i: Id, j: Id)
    requires OnePerPlan(rows) && i in rows.positions && j in rows.positions
    requires rows.positions[i].Open() && rows.positions[j].Open()
             && rows.positions[i].planId == rows.positions[j].planId
    ensures i == j
  {
  }

  class DecisionService {
    const cfg: Settings
    var wallet: Option<WalletState>
    var plans: map<Id, TradePlan>
    var reservations: map<Id, Reservation>
    var positions: map<Id, PositionState>
    var events: seq<Event>

    ghost function State(): Ledger
      reads this
    {
      Ledger(Rows(wallet, plans, reservations, positions), events)
    }

    /** The rows are sound and the log rebuilds them. */
    ghost predicate Valid()
      reads this
    {
      Sound(State().rows) && Agrees(State())
    }

    /** All or nothing: the state of a successful step, or the old state. */
    ghost predicate Transacted(before: Ledger, spec: Result<Ledger>)
      reads this
    {
      State() == if spec.Ok? then spec.value else before
    }

    constructor (cfg: Settings)
      ensures this.cfg == cfg && State() == EMPTY && Valid()
    {
      this.cfg := cfg;
      wallet := None;
      plans, reservations, positions := map[], map[], map[];
      events := [];
    }

    method SeedWallet(capital: real, cash: real, now: int) returns (r: Result<WalletState>)
      requires Valid()
      modifies this
      ensures Transacted(old(State()), L.SeedWallet(old(State()), capital, cash, now))
      ensures r.Ok? <==> L.SeedWallet(old(State()), capital, cash, now).Ok?
      ensures r.Ok? ==> wallet == Some(r.value)
      ensures Valid()
    {
      if capital <= 0.0 || cash < 0.0 || cash > capital * 2.0 {
        return Raised("INVALID_WALLET_SEED");
      }
      SeedAgrees(State(), capital, cash, now);
      SeedSound(State(), capital, cash, now);
      var w := WalletState(capital, cash, 0.0, 0.0, 0.0, 1, Some(now));
      wallet := Some(w);
      events := events + [Event(WalletSeeded, WalletAggregate, NO_ROWS.(root := Snapshot(w)))];
      r := Ok(w);
    }

    /** The open-risk loop of `reconcile_wallet`. */
    method OpenRisk() returns (total: real, undefined: bool)
      ensures undefined <==> exists id :: id in positions && positions[id].Open() && positions[id].stop.None?
      ensures !undefined ==> total == Sum(positions, StoppedRisk)
    {
      hide RiskAt;
      total, undefined := 0.0, false;
      var rest := positions;
      while rest.Keys != {}
        invariant rest.Keys <= positions.Keys && forall id :: id in rest ==> rest[id] == positions[id]
        invariant total + Sum(rest, StoppedRisk) == Sum(positions, StoppedRisk)
        invariant undefined <==>
          exists id :: id in positions && id !in rest && positions[id].Open() && positions[id].stop.None?
        decreases rest.Keys
      {
        ghost var p := Pick(rest.Keys);
        var id :| id in rest.Keys;
        SumRemove(rest, StoppedRisk, id);
        var row := rest[id];
        if row.Open() {
          if row.stop.None? {
            undefined := true;
          } else {
            total := total + RiskAt(row.averageFill, row.stop.value, row.remainingQuantity);
          }
        }
        rest := rest - {id};
      }
    }

    method ReconcileWallet(capital: real, cash: real, dailyLoss: real, now: int) returns (r: Result<WalletState>)
      requires Valid()
      modifies this
      ensures Transacted(old(State()), L.ReconcileWallet(old(State()), capital, cash, dailyLoss, now))
      ensures r.Ok? <==> L.ReconcileWallet(old(State()), capital, cash, dailyLoss, now).Ok?
      ensures r.Ok? ==> wallet == Some(r.value)
      ensures Valid()
    {
      if capital <= 0.0 || cash < 0.0 || dailyLoss < 0.0 {
        return Raised("INVALID_WALLET_RECONCILIATION");
      }
      var openRisk, undefined := OpenRisk();
      if undefined {
        return Raised("TypeError");
      }
      ReconcileWalletAgrees(State(), capital, cash, dailyLoss, now);
      ReconcileWalletSound(State(), capital, cash, dailyLoss, now);
      var w := WalletState(capital, cash, dailyLoss, Round2(openRisk), 0.0, 1, Some(now));
      wallet := Some(w);
      events := events + [Event(WalletReconciled, WalletAggregate, NO_ROWS.(root := Snapshot(w)))];
      r := Ok(w);
    }

    method HoldsSymbol(symbol: string) returns (held: bool)
      ensures held <==> SymbolHeld(State().rows, symbol)
    {
      held := false;
      var rest := positions.Keys;
      while rest != {}
        invariant rest <= positions.Keys
        invariant held <==>
          exists id :: id in positions && id !in rest && positions[id].Ticker() == symbol && positions[id].Open()
        decreases rest
      {
        ghost var p := Pick(rest);
        var id :| id in rest;
        if positions[id].Ticker() == symbol && positions[id].Open() {
          held := true;
        }
        rest := rest - {id};
      }
    }

    method ImportPosition(a: ImportArgs, ids: ImportIds, now: int) returns (r: Result<PositionState>)
      requires Valid() && FreshImport(State().rows, ids)
      modifies this
      ensures Transacted(old(State()), L.ImportPosition(old(State()), a, ids, now))
      ensures r.Ok? <==> L.ImportPosition(old(State()), a, ids, now).Ok?
      ensures r.Ok? ==> ids.positionId in positions && positions[ids.positionId] == r.value
      ensures Valid()
    {
      if wallet.None? {
        return Raised("WALLET_NOT_SEEDED");
      }
      if a.quantity <= 0 || a.averageFill <= 0.0 {
        return Raised("INVALID_IMPORTED_POSITION");
      }
      if a.stop.Some? && a.stop.value <= 0.0 {
        return Raised("INVALID_IMPORTED_STOP");
      }
      var held := HoldsSymbol(Upper(a.symbol));
      if held {
        return Raised("OPEN_POSITION_ALREADY_EXISTS_FOR_SYMBOL");
      }
      hide Agrees, Sound, L.BookImport;
      ImportAgrees(State(), a, ids, now);
      ImportSound(State(), a, ids, now);
      var position := BookImport(a, ids, now);
      r := Ok(position);
    }

    /** The writes of an import that passed its checks. */
    method BookImport(a: ImportArgs, ids: ImportIds, now: int) returns (position: PositionState)
      requires wallet.Some? && a.quantity > 0
      modifies this
      ensures State() == L.BookImport(old(State()), a, ids, now)
      ensures ids.positionId in positions && positions[ids.positionId] == position
    {
      hide ImportedPosition, RiskAt;
      ImportNotes(a, ids, now);
      position := ImportedPosition(a, ids, now);
      var notional := a.averageFill * a.quantity as real;
      var risk := if a.stop.Some? then RiskAt(a.averageFill, a.stop.value, a.quantity) else notional;
      var w := wallet.value;
      w := w.(cashAvailable := w.cashAvailable - notional);
      w := w.(openRisk := w.openRisk + risk);
      w := w.(version := w.version + 1, asOf := Some(now));
      assert w == ImportedWallet(wallet.value, a, now);
      positions := positions[ids.positionId := position];
      wallet := Some(w);
      ghost var logged := events;
      events := events + [Event(PositionImported, OfRow(ids.positionId),
                                NO_ROWS.(position := Some(position), wallet := Snapshot(w)))];
      if a.stop.None? {
        events := events + [Event(PositionUnprotected, OfRow(ids.positionId), NO_ROWS)];
      }
      assert events == logged + ([Event(PositionImported, OfRow(ids.positionId),
                                        NO_ROWS.(position := Some(position), wallet := Snapshot(w)))]
                                 + UnprotectedNote(position));
    }

    method IssuePlan(input: PlanInput, planId: Id, now: int) returns (r: Result<TradePlan>)
      requires Valid() && FreshPlan(State().rows, planId)
      modifies this
      ensures Transacted(old(State()), L.IssuePlan(old(State()), input, cfg, planId, now))
      ensures r == BuildTradePlan(input, cfg, planId, now)
      ensures Valid()
    {
      r := BuildTradePlan(input, cfg, planId, now);
      if r.Raised? {
        return;
      }
      IssueAgrees(State(), input, cfg, planId, now);
      IssueSound(State(), input, cfg, planId, now);
      plans := plans[planId := r.value];
      events := events + [Event(PlanIssued, OfRow(planId), NO_ROWS.(plan := Some(r.value)))];
    }

    method RecordTriggerHit(planId: Id, at: int) returns (hit: bool)
      requires Valid()
      modifies this
      ensures State() == RecordTrigger(old(State()), cfg, planId, at)
      ensures hit <==> CanTrigger(old(State()).rows, planId, at)
      ensures Valid()
    {
      if planId !in plans || plans[planId].status != PlanActive || plans[planId].triggeredAt.Some?
         || at > plans[planId].expiresAt {
        return false;
      }
      TriggerAgrees(State(), cfg, planId, at);
      TriggerSound(State(), cfg, planId, at);
      var plan := plans[planId];
      var deadline := at + 60 * (cfg.retestWindowMinutes + 5);
      plan := plan.(expiresAt := if plan.expiresAt >= deadline then plan.expiresAt else deadline);
      plan := plan.(triggeredAt := Some(at));
      plans := plans[planId := plan];
      events := events + [Event(TriggerHit, OfRow(planId), NO_ROWS.(plan := Some(plan)))];
      hit := true;
    }

    method HasFilledPosition(planId: Id) returns (filled: bool)
      ensures filled <==> PartlyFilled(State().rows, planId)
    {
      filled := false;
      var rest := positions.Keys;
      while rest != {}
        invariant rest <= positions.Keys
        invariant filled <==>
          exists id :: id in positions && id !in rest && positions[id].planId == planId && positions[id].quantity > 0
        decreases rest
      {
        ghost var p := Pick(rest);
        var id :| id in rest;
        if positions[id].planId == planId && positions[id].quantity > 0 {
          filled := true;
        }
        rest := rest - {id};
      }
    }

    method ReleaseReservation(planId: Id, reason: ReleaseReason, now: int) returns (released: bool)
      requires Valid()
      modifies this
      ensures State() == Release(old(State()), planId, reason, now)
      ensures released <==> Releasable(old(State()).rows, planId)
      ensures |reservations| == |old(reservations)| - (if released then 1 else 0)
      ensures Valid()
    {
      hide Agrees, Sound;
      ReleaseAgrees(State(), planId, reason, now);
      ReleaseSound(State(), planId, reason, now);
      if planId !in reservations || wallet.None? {
        return false;
      }
      var reservation := reservations[planId];
      var w := wallet.value;
      w := w.(reservedCash := Max(0.0, w.reservedCash - reservation.reservedCash));
      w := w.(openRisk := Max(0.0, w.openRisk - reservation.reservedRisk));
      w := w.(version := w.version + 1, asOf := Some(now));
      if planId in plans && plans[planId].status == PlanReserved {
        var partial := HasFilledPosition(planId);
        var status := if reason == ReservationExpired && partial then PlanFilled else PlanActive;
        plans := plans[planId := plans[planId].(status := status)];
      }
      wallet := Some(w);
      assert (reservations - {planId}).Keys == reservations.Keys - {planId};
      reservations := reservations - {planId};
      events := events + [Event(CapacityReleased, OfRow(planId),
        NO_ROWS.(reservation := Some(reservation), reservationDeleted := true, wallet := Snapshot(w),
                 plan := if planId in plans then Some(plans[planId]) else None))];
      released := true;
    }

    /** One turn of the first sweep loop. */
    method ExpireIfLate(planId: Id, now: int) returns (released: int)
      requires Valid() && planId in plans
      modifies this
      ensures State() == SweepPlan(old(State()), planId, now)
      ensures plans.Keys == old(plans.Keys) && reservations.Keys <= old(reservations.Keys)
      ensures released + |reservations| == |old(reservations)|
      ensures Valid()
    {
      SweepPlanAgrees(State(), planId, now);
      SweepPlanSound(State(), planId, now);
      released := 0;
      var plan := plans[planId];
      if Final(plan.status) || now <= plan.expiresAt {
        return;
      }
      if planId in reservations {
        var gone := ReleaseReservation(planId, ReleasedPlanExpired, now);
        released := if gone then 1 else 0;
      }
      plan := plan.(status := PlanExpired);
      plans := plans[planId := plan];
      events := events + [Event(PlanExpiredEvent, OfRow(planId), NO_ROWS.(plan := Some(plan)))];
    }

    /** The first sweep loop, over the plans in store order. */
    method SweepLatePlans(now: int) returns (ghost order: seq<Id>, released: int)
      requires Valid()
      modifies this
      ensures State() == SweepPlans(old(State()), order, now)
      ensures forall id :: id in old(plans) ==> id in order
      ensures released + |reservations| == |old(reservations)|
      ensures Valid()
    {
      hide Agrees, Sound, Release, SweepPlan;
      ghost var start := State();
      order := [];
      released := 0;
      var rest := plans.Keys;
      while rest != {}
        invariant Valid() && State() == SweepPlans(start, order, now)
        invariant plans.Keys == start.rows.plans.Keys && rest <= plans.Keys
        invariant forall id :: id in start.rows.plans ==> id in rest || id in order
        invariant released + |reservations| == |start.rows.reservations|
        decreases rest
      {
        ghost var p := Pick(rest);
        var id :| id in rest;
        var gone := ExpireIfLate(id, now);
        released := released + gone;
        rest := rest - {id};
        ghost var grown := order + [id];
        assert grown[..|grown| - 1] == order;
        order := grown;
      }
    }

    /** One turn of the second sweep loop. */
    method ReleaseIfLate(planId: Id, now: int) returns (released: int)
      requires Valid()
      modifies this
      ensures State() == SweepReservation(old(State()), planId, now)
      ensures released + |reservations| == |old(reservations)|
      ensures Valid()
    {
      hide Agrees, Sound, Release;
      released := 0;
      if planId in reservations && now > reservations[planId].expiresAt {
        var gone := ReleaseReservation(planId, ReservationExpired, now);
        released := if gone then 1 else 0;
      }
    }

    method SweepLateReservations(now: int) returns (ghost order: seq<Id>, released: int)
      requires Valid()
      modifies this
      ensures State() == SweepReservations(old(State()), order, now)
      ensures forall id :: id in old(reservations) ==> id in order
      ensures released + |reservations| == |old(reservations)|
      ensures Valid()
    {
      hide Agrees, Sound, Release, SweepReservation;
      ghost var start := State();
      order := [];
      released := 0;
      var rest := reservations.Keys;
      while rest != {}
        invariant Valid() && State() == SweepReservations(start, order, now)
        invariant forall id :: id in start.rows.reservations ==> id in rest || id in order
        invariant released + |reservations| == |start.rows.reservations|
        decreases rest
      {
        ghost var p := Pick(rest);
        var id :| id in rest;
        var gone := ReleaseIfLate(id, now);
        released := released + gone;
        rest := rest - {id};
        ghost var grown := order + [id];
        assert grown[..|grown| - 1] == order;
        order := grown;
      }
    }

    /** `sweep_expired`: late plans first, then late reservations; afterwards no
        live plan and no reservation is late. */
    method SweepExpired(now: int) returns (ghost listing: Listing, released: int)
      requires Valid()
      modifies this
      ensures State() == Sweep(old(State()), listing, now) && Complete(old(State()), listing, now)
      ensures Lapsed(State().rows, now)
      ensures released + |reservations| == |old(reservations)|
      ensures Valid()
    {
      hide Agrees, SweepPlans, SweepReservations;
      ghost var start := State();
      ghost var first, second;
      var expired;
      first, expired := SweepLatePlans(now);
      second, released := SweepLateReservations(now);
      released := released + expired;
      listing := Listing(first, second);
      SweepIsThorough(start, listing, now);
    }

    /** One pass over the open positions: how many there are, and the plan's own. */
    method FindOpen(planId: Id) returns (count: nat, found: Option<Id>)
      requires Valid()
      ensures count == |OpenPositions(State().rows)|
      ensures found == OpenPositionOf(State().rows, planId)
    {
      hide Agrees;
      var rest := positions.Keys;
      var seen: set<Id> := {};
      found := None;
      while rest != {}
        invariant rest <= positions.Keys && seen == OpenPositions(State().rows) - rest
        invariant found.Some? ==>
          found.value in positions && positions[found.value].Open() && positions[found.value].planId == planId
        invariant found.None? ==> forall id :: id in seen ==> positions[id].planId != planId
        decreases rest
      {
        ghost var p := Pick(rest);
        var id :| id in rest;
        if positions[id].Open() {
          seen := seen + {id};
          if positions[id].planId == planId {
            found := Some(id);
          }
        }
        rest := rest - {id};
      }
      assert seen == OpenPositions(State().rows);
      count := |seen|;
      if found.Some? {
        HasOpen(State().rows, found.value);
        OpenPositionFound(State().rows, planId);
        OnlyOpen(State().rows, found.value, OpenPositionOf(State().rows, planId).value);
      } else {
        assert !PlanHasOpen(State().rows, planId) by {
          forall id | id in positions && positions[id].Open() ensures positions[id].planId != planId {
            assert id in OpenPositions(State().rows);
          }
        }
      }
    }

    /** The reservation half of a BUY_NOW. */
    method ReserveCapacity(planId: Id, plan: TradePlan, quantity: nat, now: int)
      requires wallet.Some?
      modifies this
      ensures State() == Reserve(old(State()), cfg, planId, plan, quantity, now)
    {
      var r := Reservation(planId, quantity, Amount(quantity, plan.entryZoneHigh),
                           Amount(quantity, plan.RiskPerShare()),
                           now + cfg.reservationTtlSeconds);
      hide Amount;
      var w := wallet.value;
      w := w.(reservedCash := w.reservedCash + r.reservedCash);
      w := w.(openRisk := w.openRisk + r.reservedRisk);
      w := w.(version := w.version + 1, asOf := Some(now));
      wallet := Some(w);
      reservations := reservations[planId := r];
      plans := plans[planId := plan.(status := PlanReserved)];
      events := events + [Event(CapacityReserved, OfRow(planId),
                                NO_ROWS.(reservation := Some(r), wallet := Snapshot(w),
                                         plan := Some(plan.(status := PlanReserved)))),
                          Event(BuyNowEmitted, OfRow(planId), NO_ROWS)];
    }

    /** The activation transaction. The early exits commit; a raising market
        evaluation rolls the release before it back. */
    method ActivateWithContext(planId: Id, ctx: MarketContext, now: int) returns (r: Result<SignalState>)
      requires Valid()
      modifies this
      ensures Transacted(old(State()), L.ActivateWithContext(old(State()), cfg, planId, ctx, now))
      ensures r.Ok? <==> L.ActivateWithContext(old(State()), cfg, planId, ctx, now).Ok?
      ensures !WritesUnlogged(old(State()).rows, planId, now) ==> Valid()
    {
      if planId !in plans {
        return Ok(Invalid);
      }
      hide Agrees, Sound, L.EvaluateAndReserve, Release, WritesUnlogged, Reannounce;
      var plan := plans[planId];
      if L.ActivateWithContext(State(), cfg, planId, ctx, now).Ok? {
        ActivationAgreesIff(State(), cfg, planId, ctx, now);
        ActivationSound(State(), cfg, planId, ctx, now);
      }
      if plan.status == PlanExpired || now > plan.expiresAt {
        var gone := ReleaseReservation(planId, ReleasedPlanExpired, now);
        plans := plans[planId := plan.(status := PlanExpired)];
        return Ok(Expired);
      }
      if wallet.None? {
        return Ok(Watch);
      }
      if plan.status == PlanFilled {
        return Ok(Invalid);
      }
      var count, found := FindOpen(planId);
      if count >= cfg.maxConcurrentPositions && found.None? {
        var gone := ReleaseReservation(planId, MaxConcurrentReached, now);
        return Ok(Watch);
      }
      if planId in reservations && now <= reservations[planId].expiresAt {
        events := events + Reannounce(cfg, planId, ctx);
        return Ok(if ctx.retestValid then BuyNow else Armed);
      }
      r := ReserveAnew(planId, plan, ctx, now);
    }

    /** Drop a lapsed reservation, evaluate, reserve; a raise undoes all three. */
    method ReserveAnew(planId: Id, plan: TradePlan, ctx: MarketContext, now: int) returns (r: Result<SignalState>)
      requires Valid() && wallet.Some?
      modifies this
      ensures Transacted(old(State()),
                         L.EvaluateAndReserve(Release(old(State()), planId, ReservationExpired, now), cfg, planId,
                                              plan, ctx, now))
      ensures r.Ok? <==>
              L.EvaluateAndReserve(Release(old(State()), planId, ReservationExpired, now), cfg, planId, plan, ctx,
                                   now).Ok?
    {
      hide Agrees, Sound, L.EvaluateAndReserve, ReleasedWallet, ReleasedStatus;
      var savedWallet, savedPlans, savedReservations, savedEvents := wallet, plans, reservations, events;
      var gone := ReleaseReservation(planId, ReservationExpired, now);
      r := EvaluateAndReserve(planId, plan, ctx, now);
      if r.Raised? {
        wallet, plans, reservations, events := savedWallet, savedPlans, savedReservations, savedEvents;
      }
    }

    method EvaluateAndReserve(planId: Id, plan: TradePlan, ctx: MarketContext, now: int)
      returns (r: Result<SignalState>)
      requires wallet.Some?
      modifies this
      ensures Transacted(old(State()), L.EvaluateAndReserve(old(State()), cfg, planId, plan, ctx, now))
      ensures r.Ok? <==> L.EvaluateAndReserve(old(State()), cfg, planId, plan, ctx, now).Ok?
    {
      hide Activation.Activate;
      var d := Activation.ActivatePlan(plan, ctx.snapshot, wallet.value, None, GateOf(cfg, ctx), now);
      if d.Raised? {
        return Raised(d.error);
      }
      events := events + [Event(PlanEvaluated, OfRow(planId), NO_ROWS)];
      if d.value.state == BuyNow {
        ReserveCapacity(planId, plan, d.value.quantity, now);
      }
      r := Ok(d.value.state);
    }

    /** `activate`: the sweep commits on its own, then the early exits, then the
        market reads, whose result is `ctx`, and the second transaction. */
    method Activate(planId: Id, ctx: MarketContext, now: int) returns (r: Result<SignalState>, ghost listing: Listing)
      requires Valid()
      modifies this
      ensures var swept := Sweep(old(State()), listing, now);
              && Complete(old(State()), listing, now)
              && (if ProceedsToMarket(swept.rows, planId, now)
                  then Transacted(swept, L.ActivateWithContext(swept, cfg, planId, ctx, now))
                  else State() == swept)
      ensures Valid()
    {
      hide Agrees, Sound, L.ActivateWithContext;
      var released;
      listing, released := SweepExpired(now);
      if planId !in plans {
        return Ok(Invalid), listing;
      }
      var plan := plans[planId];
      if plan.status == PlanExpired || now > plan.expiresAt {
        return Ok(Expired), listing;
      }
      if plan.status == PlanFilled {
        return Ok(Invalid), listing;
      }
      if wallet.None? {
        return Ok(Watch), listing;
      }
      r := ActivateWithContext(planId, ctx, now);
    }

    /** The rows of the plan a fill would book, or why there is nothing to book. */
    method FillContextFor(planId: Id, now: int) returns (c: Result<FillContext>)
      requires Valid()
      ensures c.Raised? <==> ContextRejection(State().rows, planId, now).Some?
      ensures c.Raised? ==> c.error == ContextRejection(State().rows, planId, now).value
      ensures c.Ok? ==> c.value == ContextOf(State().rows, planId)
    {
      hide Agrees;
      if planId !in plans || wallet.None? {
        return Raised("FILL_CONFIRMATION_CONTEXT_MISSING");
      }
      if plans[planId].status == PlanFilled {
        return Raised("PLAN_ALREADY_FILLED");
      }
      if planId !in reservations {
        return Raised("FILL_CONFIRMATION_CONTEXT_MISSING");
      }
      if plans[planId].status != PlanReserved {
        return Raised("PLAN_NOT_RESERVED");
      }
      if now > reservations[planId].expiresAt {
        return Raised("RESERVATION_EXPIRED");
      }
      var count, found := FindOpen(planId);
      if found.Some? {
        OpenPositionFound(State().rows, planId);
      }
      var existing := if found.Some? then Some(positions[found.value]) else None;
      c := Ok(FillContext(wallet.value, plans[planId], reservations[planId], existing, count));
    }

    /** The position of a fill: a new row, or the existing one averaged and covered anew. */
    method FillPosition(c: FillContext, a: FillArgs, positionId: Id, now: int) returns (position: PositionState)
      requires a.quantity > 0
      ensures position == FilledPosition(c, a, positionId, now)
    {
      hide EntryAverage, Round4;
      var stop := c.plan.stop;
      if a.stopPlaced && a.stopPrice.Some? {
        stop := a.stopPrice.value;
      } else if c.existing.Some? && c.existing.value.stop.Some? {
        stop := c.existing.value.stop.value;
      }
      if c.existing.None? {
        position := PositionState(
          positionId, a.planId, c.plan.symbol, a.quantity, a.quantity, a.price, Some(stop), None, None,
          now, Some(now + 60 * a.timeStopMinutes), 0.0, true, "FILL_ACK", None,
          if a.stopPlaced then Protected else Unprotected, if a.stopPlaced then a.stopPrice else None,
          if a.stopPlaced then a.brokerOrderRef else None, if a.stopPlaced then a.quantity
            else 0, Reconciled, Some(now));
      } else {
        position := c.existing.value;
        position := position.(averageFill := EntryAverage(c.existing, a.price, a.quantity));
        position := position.(quantity := position.quantity + a.quantity);
        position := position.(remainingQuantity := position.remainingQuantity + a.quantity);
        position := position.(stop := Some(stop));
        if a.stopPlaced {
          position := position.(brokerStopPrice := a.stopPrice, brokerOrderRef := a.brokerOrderRef);
          position := position.(protectedQuantity := position.remainingQuantity);
        }
        position := position.(protection := if position.protectedQuantity == position.remainingQuantity then Protected
                              else Unprotected);
        position := position.(reconciliationState := Reconciled, lastReconciledAt := Some(now));
      }
      var r := position.averageFill - stop;
      position := position.(tp1 := Some(Round4(position.averageFill + r * 1.5)));
      position := position.(tp2 := Some(Round4(position.averageFill + r * 2.0)));
    }

    /** The wallet totals a fill proposes, moved one by one. */
    method FillWallet(c: FillContext, a: FillArgs, position: PositionState, stop: real, left: Reservation)
      returns (w: WalletState)
      requires 0 < a.quantity <= c.reservation.quantity && left == Consumed(c.plan, c.reservation, a.quantity)
      ensures w == ProposedWallet(c, a, position, stop)
    {
      hide RiskAt, Consumed;
      var oldRisk := 0.0;
      if c.existing.Some? && c.existing.value.stop.Some? {
        oldRisk := RiskAt(c.existing.value.averageFill, c.existing.value.stop.value, c.existing.value.quantity);
      }
      var newRisk := RiskAt(position.averageFill, stop, position.quantity);
      w := c.wallet;
      w := w.(reservedCash := w.reservedCash - (c.reservation.reservedCash - left.reservedCash));
      w := w.(openRisk := w.openRisk - c.reservation.reservedRisk + left.reservedRisk - oldRisk + newRisk);
      w := w.(cashAvailable := w.cashAvailable - a.price * a.quantity as real);
    }

    /** The writes of a fill that passed its gates; a broken accounting guard leaves
        everything as it was. */
    /** The writes of a fill that passed its gates; a broken accounting guard leaves
        everything as it was. */
    method BookFill(c: FillContext, a: FillArgs, positionId: Id, now: int) returns (r: Result<PositionState>)
      requires 0 < a.quantity <= c.reservation.quantity
      modifies this
      ensures Transacted(old(State()), L.BookFill(old(State()), c, cfg, a, positionId, now))
      ensures r.Ok? <==> L.BookFill(old(State()), c, cfg, a, positionId, now).Ok?
      ensures r.Ok? ==> r.value == FilledPosition(c, a, positionId, now)
    {
      hide FilledPosition, ProposedWallet, EffectiveStop;
      var reservation := Consumed(c.plan, c.reservation, a.quantity);
      var position := FillPosition(c, a, positionId, now);
      var proposed := FillWallet(c, a, position, EffectiveStop(c.plan, c.existing, a), reservation);
      if AccountingBroken(proposed, cfg.tolerance) {
        return Raised("WALLET_ACCOUNTING_INVARIANT_BROKEN");
      }
      var w := proposed;
      if Abs(w.reservedCash) < cfg.tolerance {
        w := w.(reservedCash := 0.0);
      }
      if Abs(w.openRisk) < cfg.tolerance {
        w := w.(openRisk := 0.0);
      }
      if Abs(w.cashAvailable) < cfg.tolerance {
        w := w.(cashAvailable := 0.0);
      }
      w := w.(version := w.version + 1, asOf := Some(now));
      assert w == SnappedWallet(proposed, cfg.tolerance, now);
      hide Consumed;
      var plan := c.plan;
      if reservation.quantity == 0 {
        plan := plan.(status := PlanFilled);
        reservations := reservations - {a.planId};
      } else {
        plan := plan.(status := PlanReserved);
        reservations := reservations[a.planId := reservation];
      }
      positions := positions[position.positionId := position];
      wallet := Some(w);
      plans := plans[a.planId := plan];
      events := events + ([Event(FillConfirmed, OfRow(position.positionId),
        NO_ROWS.(position := Some(position), wallet := Snapshot(w), plan := Some(plan),
                 reservation := if reservation.quantity > 0 then Some(reservation) else None,
                 reservationDeleted := reservation.quantity == 0))]
        + UnprotectedNote(position));
      r := Ok(position);
    }

    /** `confirm_fill`: sweep, gates, booking, in one transaction. */
    method ConfirmFill(a: FillArgs, clock: FillClock, positionId: Id)
      returns (r: Result<PositionState>, ghost listing: Listing)
      requires Valid() && positionId !in positions
      modifies this
      ensures Complete(old(State()), listing, clock.swept)
      ensures Transacted(old(State()), L.ConfirmFill(old(State()), cfg, a, clock, listing, positionId))
      ensures r.Ok? <==> L.ConfirmFill(old(State()), cfg, a, clock, listing, positionId).Ok?
      ensures Valid()
    {
      hide Agrees, Sound, L.BookFill, FillRejection, Sweep;
      ghost var start := State();
      var savedWallet, savedPlans, savedReservations, savedPositions, savedEvents := wallet, plans, reservations,
          positions, events;
      var released;
      listing, released := SweepExpired(clock.swept);
      var c := FillContextFor(a.planId, clock.checked);
      if c.Ok? {
        var rejection := FillRejection(c.value, cfg, a);
        if rejection.Some? {
          c := Raised(rejection.value);
        }
      }
      if c.Raised? {
        r := Raised(c.error);
      } else {
        GatesBoundQuantity(c.value, cfg, a);
        r := BookFill(c.value, a, positionId, clock.booked);
      }
      if r.Raised? {
        wallet, plans, reservations, positions, events := savedWallet, savedPlans, savedReservations, savedPositions,
            savedEvents;
      } else {
        ConfirmFillAgrees(start, cfg, a, clock, listing, positionId);
        ConfirmFillSound(start, cfg, a, clock, listing, positionId);
      }
    }

    method ProtectPosition(positionId: Id, stop: real, ref: Option<string>, now: int) returns (r: Result<PositionState>)
      requires Valid()
      modifies this
      ensures Transacted(old(State()), L.ProtectPosition(old(State()), cfg, positionId, stop, ref, now))
      ensures r.Ok? <==> L.ProtectPosition(old(State()), cfg, positionId, stop, ref, now).Ok?
      ensures Valid()
    {
      hide Agrees, Sound, RiskAt, MinStop, MinPlanStop, WithTargets;
      if L.ProtectPosition(State(), cfg, positionId, stop, ref, now).Ok? {
        ProtectAgrees(State(), cfg, positionId, stop, ref, now);
        ProtectSound(State(), cfg, positionId, stop, ref, now);
      }
      ghost var p0 := if positionId in positions then Some(positions[positionId]) else None;
      if positionId !in positions || wallet.None? {
        return Raised("POSITION_OR_WALLET_MISSING");
      }
      var position := positions[positionId];
      var reference := ReferenceStop(Rows(wallet, plans, reservations, positions), position);
      if reference.None? {
        return Raised("POSITION_STOP_UNDEFINED");
      }
      var minStop := MinStop(Rows(wallet, plans, reservations, positions), cfg, position, reference.value);
      if stop < minStop - cfg.tolerance {
        return Raised(if position.stop.Some? && stop < position.stop.value - cfg.tolerance
                      then "STOP_LOOSER_THAN_CURRENT" else "STOP_LOOSER_THAN_PLAN");
      }
      var oldRisk := RiskAt(position.averageFill, reference.value, position.remainingQuantity);
      var newRisk := RiskAt(position.averageFill, stop, position.remainingQuantity);
      position := position.(stop := Some(stop));
      position := position.(brokerStopPrice := Some(stop), brokerOrderRef := ref);
      position := position.(protectedQuantity := position.remainingQuantity, protection := Protected);
      position := WithTargets(position, stop);
      assert position == ProtectedPosition(p0.value, stop, ref);
      var proposed := wallet.value.openRisk - oldRisk + newRisk;
      if proposed < -cfg.tolerance {
        return Raised("WALLET_ACCOUNTING_INVARIANT_BROKEN");
      }
      var w := wallet.value.(openRisk := if Abs(proposed) < cfg.tolerance then 0.0 else proposed);
      w := w.(version := w.version + 1, asOf := Some(now));
      positions := positions[positionId := position];
      wallet := Some(w);
      events := events + [Event(StopOrderConfirmed, OfRow(positionId),
                                NO_ROWS.(position := Some(position), wallet := Snapshot(w)))];
      r := Ok(position);
    }

    method ConfirmExit(positionId: Id, price: real, quantity: int, now: int) returns (r: Result<PositionState>)
      requires Valid()
      modifies this
      ensures Transacted(old(State()), L.ConfirmExit(old(State()), positionId, price, quantity, now))
      ensures r.Ok? <==> L.ConfirmExit(old(State()), positionId, price, quantity, now).Ok?
      ensures Valid()
    {
      hide Agrees, Sound, RiskAt, ExitPnl, Proceeds, StopOrAverage;
      if L.ConfirmExit(State(), positionId, price, quantity, now).Ok? {
        ExitAgrees(State(), positionId, price, quantity, now);
        ExitSound(State(), positionId, price, quantity, now);
      }
      ghost var p0, w0 := if positionId in positions then Some(positions[positionId]) else None, wallet;
      if positionId !in positions || wallet.None? {
        return Raised("POSITION_OR_WALLET_MISSING");
      }
      var position := positions[positionId];
      if quantity <= 0 || quantity > position.remainingQuantity {
        return Raised("INVALID_EXIT_QUANTITY");
      }
      var w := wallet.value;
      var pnl := ExitPnl(position, price, quantity);
      w := w.(cashAvailable := w.cashAvailable + Proceeds(price, quantity));
      w := w.(openRisk := Max(0.0, w.openRisk - RiskAt(position.averageFill, StopOrAverage(position), quantity)));
      if pnl < 0.0 {
        w := w.(dailyRealizedLoss := w.dailyRealizedLoss + Abs(pnl));
      }
      position := position.(realizedPnl := position.realizedPnl + pnl);
      position := position.(remainingQuantity := position.remainingQuantity - quantity);
      if position.remainingQuantity == 0 {
        position := position.(closedAt := Some(now));
      }
      w := w.(version := w.version + 1, asOf := Some(now));
      assert w == ExitedWallet(w0.value, p0.value, price, quantity, now);
      assert position == ExitedPosition(p0.value, price, quantity, now);
      positions := positions[positionId := position];
      wallet := Some(w);
      events := events + [Event(ExitConfirmed, OfRow(positionId),
                                NO_ROWS.(position := Some(position), wallet := Snapshot(w)))];
      r := Ok(position);
    }

    /** The declared holdings as a dictionary, or the first offending row. */
    method Declare(holdings: seq<Holding>) returns (r: Result<map<string, int>>)
      ensures r.Raised? <==> HoldingsError(holdings, {}).Some?
      ensures r.Raised? ==> r.error == HoldingsError(holdings, {}).value
      ensures r.Ok? ==> forall s :: Declared(holdings, s) == if s in r.value then Some(r.value[s]) else None
    {
      var m: map<string, int> := map[];
      assert holdings[0..] == holdings && m.Keys == {};
      for i := 0 to |holdings|
        invariant HoldingsError(holdings, {}) == HoldingsError(holdings[i..], m.Keys)
        invariant forall s :: Declared(holdings, s) == if s in m then Some(m[s]) else Declared(holdings[i..], s)
      {
        var h := holdings[i];
        assert holdings[i..][0] == h && holdings[i..][1..] == holdings[i + 1..];
        var symbol := h.Ticker();
        if symbol == "" || h.quantity <= 0 {
          return Raised("INVALID_RECONCILIATION_HOLDING");
        }
        if symbol in m {
          return Raised("DUPLICATE_RECONCILIATION_SYMBOL");
        }
        assert m[symbol := h.quantity].Keys == m.Keys + {symbol};
        m := m[symbol := h.quantity];
      }
      r := Ok(m);
    }

    /** The open rows, by symbol. */
    method GroupBySymbol() returns (groups: map<string, set<Id>>)
      ensures forall s :: s in groups ==> GroupOf(positions, groups[s], s)
      ensures forall id :: id in positions && positions[id].Open() ==> positions[id].Ticker() in groups
    {
      groups := map[];
      var rest := positions.Keys;
      while rest != {}
        invariant rest <= positions.Keys
        invariant forall s, id :: s in groups ==>
          (id in groups[s] <==> id in positions && id !in rest && positions[id].Open() && positions[id].Ticker() == s)
        invariant forall id :: id in positions && id !in rest && positions[id].Open() ==>
          positions[id].Ticker() in groups
        decreases rest
      {
        ghost var p := Pick(rest);
        var id :| id in rest;
        var row := positions[id];
        if row.Open() {
          groups := groups[row.Ticker() := (if row.Ticker() in groups then groups[row.Ticker()] else {}) + {id}];
        }
        rest := rest - {id};
      }
    }

    /** `sum(row.remaining_quantity for row in positions)` over one group. */
    static method HeldBy(table: map<Id, PositionState>, members: set<Id>, symbol: string) returns (held: nat)
      requires GroupOf(table, members, symbol)
      ensures held as real == Sum(table, SharesIn(symbol))
    {
      SumRestrict(table, SharesIn(symbol), members);
      held := 0;
      var rest := map id | id in table && id in members :: table[id];
      ghost var all := rest;
      while rest.Keys != {}
        invariant rest.Keys <= members && forall id :: id in rest ==> rest[id] == table[id]
        invariant held as real + Sum(rest, SharesIn(symbol)) == Sum(all, SharesIn(symbol))
        decreases rest.Keys
      {
        ghost var p := Pick(rest.Keys);
        var id :| id in rest.Keys;
        SumRemove(rest, SharesIn(symbol), id);
        held := held + rest[id].remainingQuantity;
        rest := rest - {id};
      }
    }

    /** One symbol of the reconciliation loop. */
    method ReconcileSymbol(before: map<Id, PositionState>, symbol: string, members: set<Id>, holdings: seq<Holding>,
                           declared: Option<int>, now: int)
      returns (ghost noted: seq<Event>)
      requires GroupOf(before, members, symbol)
      requires declared == Declared(holdings, symbol)
      requires positions.Keys == before.Keys && forall id :: id in members ==> positions[id] == before[id]
      modifies `positions, `events
      ensures NotesOnly(noted) && events == old(events) + noted
      ensures positions.Keys == before.Keys
      ensures forall id :: id in positions ==>
        positions[id] == if id in members then ReconciledPositions(before, holdings, now)[id] else old(positions)[id]
    {
      var held := HeldBy(before, members, symbol);
      MarkGroup(members, holdings, declared, held, now);
      noted := [];
      if declared != Some(held) {
        noted := [Event(ReconciliationMismatch, OfSymbol(symbol), NO_ROWS)];
        events := events + [Event(ReconciliationMismatch, OfSymbol(symbol), NO_ROWS)];
      }
    }

    /** Mark every row of one group. */
    method MarkGroup(members: set<Id>, holdings: seq<Holding>, declared: Option<int>, held: nat, now: int)
      requires forall id :: id in members ==>
        id in positions && positions[id].Open() && Declared(holdings, positions[id].Ticker()) == declared
      modifies `positions
      ensures positions.Keys == old(positions).Keys
      ensures forall id :: id in positions ==>
        positions[id] == if id in members then Reconcile(old(positions)[id], holdings, held as real, now)
          else old(positions)[id]
    {
      var rest := members;
      while rest != {}
        invariant rest <= members && positions.Keys == old(positions).Keys
        invariant forall id :: id in positions ==>
          positions[id] == if id in members && id !in rest
            then Reconcile(old(positions)[id], holdings, held as real, now) else old(positions)[id]
        decreases rest
      {
        ghost var p := Pick(rest);
        var id :| id in rest;
        var row := positions[id];
        if declared.None? {
          row := row.(reconciliationState := MissingAtBroker);
        } else if declared.value != held {
          row := row.(reconciliationState := Unreconciled);
        } else {
          row := row.(reconciliationState := Reconciled, lastReconciledAt := Some(now));
        }
        positions := positions[id := row];
        rest := rest - {id};
      }
    }

    /** The rows in store order. */
    method ListPositions() returns (rows: seq<PositionState>, ghost order: seq<Id>)
      ensures rows == Listed(order, positions) && forall id :: id in positions ==> id in order
    {
      rows, order := [], [];
      var rest := positions.Keys;
      while rest != {}
        invariant rest <= positions.Keys && rows == Listed(order, positions)
        invariant forall id :: id in positions ==> id in rest || id in order
        decreases rest
      {
        ghost var p := Pick(rest);
        var id :| id in rest;
        ListedAppend(order, positions, id);
        rows := rows + [positions[id]];
        order := order + [id];
        rest := rest - {id};
      }
    }

    /** The loop over the groups: every row is marked, every mismatch noted. */
    method MarkAll(holdings: seq<Holding>, declared: map<string, int>, now: int)
      returns (symbols: set<string>, ghost noted: seq<Event>)
      requires forall s :: Declared(holdings, s) == if s in declared then Some(declared[s]) else None
      modifies `positions, `events
      ensures NotesOnly(noted) && events == old(events) + noted
      ensures positions == ReconciledPositions(old(positions), holdings, now)
    {
      hide Reconcile, Sum, SharesIn, Declared, Upper, PositionState.Ticker;
      noted := [];
      var before := positions;
      var groups := GroupBySymbol();
      symbols := groups.Keys;
      var rest := symbols;
      while rest != {}
        invariant rest <= groups.Keys && positions.Keys == before.Keys
        invariant NotesOnly(noted) && events == old(events) + noted
        invariant forall id :: id in positions ==>
          positions[id] == if before[id].Open() && before[id].Ticker() !in rest
                           then ReconciledPositions(before, holdings, now)[id] else before[id]
        decreases rest
      {
        ghost var p := Pick(rest);
        var symbol :| symbol in rest;
        var quantity := if symbol in declared then Some(declared[symbol]) else None;
        ghost var more := ReconcileSymbol(before, symbol, groups[symbol], holdings, quantity, now);
        noted := noted + more;
        rest := rest - {symbol};
      }
      forall id | id in positions ensures positions[id] == ReconciledPositions(before, holdings, now)[id] {
        ClosedStays(before[id], holdings, Sum(before, SharesIn(before[id].Ticker())), now);
      }
      assert positions == ReconciledPositions(before, holdings, now);
    }

    /** One note for each declared symbol that no open position holds. */
    method NoteUnknown(symbols: set<string>) returns (ghost noted: seq<Event>)
      modifies `events
      ensures NotesOnly(noted) && events == old(events) + noted
    {
      noted := [];
      var unknown := symbols;
      while unknown != {}
        invariant NotesOnly(noted) && events == old(events) + noted
        decreases unknown
      {
        ghost var p := Pick(unknown);
        var symbol :| symbol in unknown;
        events := events + [Event(UnknownHolding, OfSymbol(symbol), NO_ROWS)];
        noted := noted + [Event(UnknownHolding, OfSymbol(symbol), NO_ROWS)];
        unknown := unknown - {symbol};
      }
    }

    /** `reconcile_holdings`: every open row is marked against the declared holding
        of its symbol, and the closing event carries all rows. */
    method ReconcileHoldings(holdings: seq<Holding>, now: int)
      returns (r: Result<()>, ghost order: seq<Id>, ghost notes: seq<Event>)
      requires Valid()
      modifies this
      ensures NotesOnly(notes) && forall id :: id in old(positions) ==> id in order
      ensures Transacted(old(State()), L.ReconcileHoldings(old(State()), holdings, order, notes, now))
      ensures r.Ok? <==> HoldingsError(holdings, {}).None?
      ensures Valid()
    {
      hide Agrees, Sound, Reconcile;
      ghost var start := State();
      notes := [];
      ghost var rows0;
      rows0, order := ListPositions();
      var declared := Declare(holdings);
      if declared.Raised? {
        return Raised(declared.error), order, notes;
      }
      ghost var before := positions;
      var held;
      held, notes := MarkAll(holdings, declared.value, now);
      ghost var strangers := NoteUnknown(declared.value.Keys - held);
      notes := notes + strangers;
      var rows;
      rows, order := ListPositions();
      events := events + [Event(ReconciliationCompleted, Portfolio, NO_ROWS.(positions := rows))];
      assert events == start.events + (notes
                                       + [Event(ReconciliationCompleted, Portfolio, NO_ROWS.(positions := rows))]);
      ReconcileHoldingsAgrees(start, holdings, order, notes, now);
      ReconcileHoldingsSound(start, holdings, order, notes, now);
      r := Ok(());
    }
  }
}

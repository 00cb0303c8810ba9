/** Every service step leaves the log and the rows in agreement. */
module ReplayAgreement {
  import opened Prelude
  import opened Domain
  import opened Planning
  import opened Activation
  import opened Ledger
  import opened Rebuilding

  /** Every row is stored under its own identifier. */
  ghost predicate Keyed(rows: Rows) {
    && (forall id :: id in rows.plans ==> rows.plans[id].planId == id)
    && (forall id :: id in rows.reservations ==> rows.reservations[id].planId == id)
    && (forall id :: id in rows.positions ==> rows.positions[id].positionId == id)
  }

  /** The log rebuilds exactly the stored rows. */
  ghost predicate Agrees(l: Ledger) {
    Keyed(l.rows) && ApplyAll(NO_STATE, l.events) == Ok(l.rows)
  }

  lemma CommitOne(l: Ledger, rows: Rows, e: Event)
    requires Agrees(l) && Keyed(rows) && ApplyEvent(l.rows, e) == Ok(rows)
    ensures Agrees(Commit(l, rows, [e]))
  {
    ApplyAllConcat(NO_STATE, l.events, [e]);
    ApplyOne(l.rows, e);
  }

  lemma CommitTwo(l: Ledger, rows: Rows, e: Event, f: Event)
    requires Agrees(l) && Keyed(rows) && ApplyEvent(l.rows, e) == Ok(rows) && ApplyEvent(rows, f) == Ok(rows)
    ensures Agrees(Commit(l, rows, [e, f]))
  {
    ApplyAllConcat(NO_STATE, l.events, [e, f]);
    ApplyTwo(l.rows, e, f);
  }

  /** Events whose payload names no row rebuild nothing. */
  ghost predicate RowFree(e: Event) {
    e.payload == NO_ROWS && e.kind !in {WalletSeeded, WalletReconciled, PositionImported}
  }

  lemma RowFreeIsSilent(rows: Rows, e: Event)
    requires RowFree(e)
    ensures ApplyEvent(rows, e) == Ok(rows)
  {
  }

  lemma {:induction false} CommitNotes(l: Ledger, notes: seq<Event>)
    requires Agrees(l) && forall i :: 0 <= i < |notes| ==> RowFree(notes[i])
    ensures Agrees(Commit(l, l.rows, notes))
    decreases |notes|
  {
    if notes == [] {
      assert l.events + [] == l.events;
    } else {
      RowFreeIsSilent(l.rows, notes[0]);
      CommitOne(l, l.rows, notes[0]);
      CommitNotes(Commit(l, l.rows, [notes[0]]), notes[1..]);
      assert l.events + [notes[0]] + notes[1..] == l.events + notes;
    }
  }

  /** A row-bearing event followed by an optional row-free one. */
  lemma CommitNoted(l: Ledger, rows: Rows, e: Event, notes: seq<Event>)
    requires Agrees(l) && Keyed(rows) && ApplyEvent(l.rows, e) == Ok(rows)
    requires forall i :: 0 <= i < |notes| ==> RowFree(notes[i])
    ensures Agrees(Commit(l, rows, [e] + notes))
  {
    CommitOne(l, rows, e);
    CommitNotes(Commit(l, rows, [e]), notes);
    assert l.events + [e] + notes == l.events + ([e] + notes);
  }

  lemma SeedAgrees(l: Ledger, capital: real, cash: real, now: int)
    requires Agrees(l) && SeedWallet(l, capital, cash, now).Ok?
    ensures Agrees(SeedWallet(l, capital, cash, now).value)
  {
    var rows := SeedWallet(l, capital, cash, now).value.rows;
    CommitOne(l, rows, Event(WalletSeeded, WalletAggregate, NO_ROWS.(root := Snapshot(rows.wallet.value))));
  }

  lemma ReconcileWalletAgrees(l: Ledger, capital: real, cash: real, dailyLoss: real, now: int)
    requires Agrees(l) && ReconcileWallet(l, capital, cash, dailyLoss, now).Ok?
    ensures Agrees(ReconcileWallet(l, capital, cash, dailyLoss, now).value)
  {
    var rows := ReconcileWallet(l, capital, cash, dailyLoss, now).value.rows;
    CommitOne(l, rows, Event(WalletReconciled, WalletAggregate, NO_ROWS.(root := Snapshot(rows.wallet.value))));
  }

  lemma ImportAgrees(l: Ledger, a: ImportArgs, ids: ImportIds, now: int)
    requires Agrees(l) && ImportPosition(l, a, ids, now).Ok?
    ensures Agrees(ImportPosition(l, a, ids, now).value)
  {
    var rows := ImportPosition(l, a, ids, now).value.rows;
    var p := rows.positions[ids.positionId];
    CommitNoted(l, rows,
      Event(PositionImported, OfRow(ids.positionId),
            NO_ROWS.(position := Some(p), wallet := Snapshot(rows.wallet.value))),
      UnprotectedNote(p));
  }

  lemma {:induction false} WriteListed(m: map<Id, PositionState>, n: map<Id, PositionState>, order: seq<Id>)
    requires m.Keys == n.Keys
    requires forall id :: id in n ==> n[id].positionId == id
    requires forall id :: id in n && id !in order ==> m[id] == n[id]
    ensures WritePositions(m, Listed(order, n)) == n
    decreases |order|
  {
    if order == [] {
      forall id | id in n ensures m[id] == n[id] {
        assert id !in order;
      }
      assert m == n;
    } else if order[0] in n {
      var listed := Listed(order, n);
      assert listed[0] == n[order[0]] && listed[1..] == Listed(order[1..], n);
      WriteListed(m[order[0] := n[order[0]]], n, order[1..]);
    } else {
      assert Listed(order, n) == Listed(order[1..], n);
      WriteListed(m, n, order[1..]);
    }
  }

  lemma ReconcileHoldingsAgrees(l: Ledger, holdings: seq<Holding>, order: seq<Id>, notes: seq<Event>, now: int)
    requires Agrees(l) && ReconcileHoldings(l, holdings, order, notes, now).Ok?
    requires forall i :: 0 <= i < |notes| ==> RowFree(notes[i])
    requires forall id :: id in l.rows.positions ==> id in order
    ensures Agrees(ReconcileHoldings(l, holdings, order, notes, now).value)
  {
    var rows := ReconcileHoldings(l, holdings, order, notes, now).value.rows;
    var e := Event(ReconciliationCompleted, Portfolio, NO_ROWS.(positions := Listed(order, rows.positions)));
    CommitNotes(l, notes);
    WriteListed(l.rows.positions, rows.positions, order);
    CommitOne(Commit(l, l.rows, notes), rows, e);
    assert l.events + notes + [e] == l.events + (notes + [e]);
  }

  lemma IssueAgrees(l: Ledger, input: PlanInput, cfg: Settings, planId: Id, now: int)
    requires Agrees(l) && IssuePlan(l, input, cfg, planId, now).Ok?
    ensures Agrees(IssuePlan(l, input, cfg, planId, now).value)
  {
    var rows := IssuePlan(l, input, cfg, planId, now).value.rows;
    CommitOne(l, rows, Event(PlanIssued, OfRow(planId), NO_ROWS.(plan := Some(rows.plans[planId]))));
  }

  lemma TriggerAgrees(l: Ledger, cfg: Settings, planId: Id, at: int)
    requires Agrees(l)
    ensures Agrees(RecordTrigger(l, cfg, planId, at))
  {
    if CanTrigger(l.rows, planId, at) {
      var rows := RecordTrigger(l, cfg, planId, at).rows;
      CommitOne(l, rows, Event(TriggerHit, OfRow(planId), NO_ROWS.(plan := Some(rows.plans[planId]))));
    }
  }

  lemma ReleaseAgrees(l: Ledger, planId: Id, reason: ReleaseReason, now: int)
    requires Agrees(l)
    ensures Agrees(Release(l, planId, reason, now))
  {
    if Releasable(l.rows, planId) {
      var rows := Release(l, planId, reason, now).rows;
      var e := Event(CapacityReleased, OfRow(planId),
                     NO_ROWS.(reservation := Some(l.rows.reservations[planId]), reservationDeleted := true,
                              wallet := Snapshot(rows.wallet.value),
                              plan := if planId in rows.plans then Some(rows.plans[planId]) else None));
      assert WriteReservation(l.rows.reservations, e) == rows.reservations;
      assert WritePlan(l.rows.plans, e) == rows.plans;
      CommitOne(l, rows, e);
    }
  }

  lemma SweepPlanAgrees(l: Ledger, planId: Id, now: int)
    requires Agrees(l)
    ensures Agrees(SweepPlan(l, planId, now))
  {
    if SweepPlan(l, planId, now) != l {
      var l1 := Release(l, planId, ReleasedPlanExpired, now);
      ReleaseAgrees(l, planId, ReleasedPlanExpired, now);
      ReleaseKeepsPlans(l, planId, ReleasedPlanExpired, now);
      var rows := ExpirePlan(l1, planId).rows;
      CommitOne(l1, rows, Event(PlanExpiredEvent, OfRow(planId), NO_ROWS.(plan := Some(rows.plans[planId]))));
    }
  }

  lemma {:induction false} SweepPlansAgrees(l: Ledger, order: seq<Id>, now: int)
    requires Agrees(l)
    ensures Agrees(SweepPlans(l, order, now))
    decreases |order|
  {
    if order != [] {
      SweepPlansAgrees(l, order[..|order| - 1], now);
      SweepPlanAgrees(SweepPlans(l, order[..|order| - 1], now), order[|order| - 1], now);
    }
  }

  lemma {:induction false} SweepReservationsAgrees(l: Ledger, order: seq<Id>, now: int)
    requires Agrees(l)
    ensures Agrees(SweepReservations(l, order, now))
    decreases |order|
  {
    if order != [] {
      SweepReservationsAgrees(l, order[..|order| - 1], now);
      ReleaseAgrees(SweepReservations(l, order[..|order| - 1], now), order[|order| - 1], ReservationExpired, now);
    }
  }

  lemma SweepAgrees(l: Ledger, listing: Listing, now: int)
    requires Agrees(l)
    ensures Agrees(Sweep(l, listing, now))
  {
    SweepPlansAgrees(l, listing.plans, now);
    SweepReservationsAgrees(SweepPlans(l, listing.plans, now), listing.reservations, now);
  }

  lemma ReserveAgrees(l: Ledger, cfg: Settings, planId: Id, plan: TradePlan, quantity: nat, now: int)
    requires Agrees(l) && l.rows.wallet.Some? && plan.planId == planId
    ensures Agrees(Reserve(l, cfg, planId, plan, quantity, now))
  {
    var rows := Reserve(l, cfg, planId, plan, quantity, now).rows;
    CommitTwo(l, rows,
      Event(CapacityReserved, OfRow(planId),
            NO_ROWS.(reservation := Some(rows.reservations[planId]), wallet := Snapshot(rows.wallet.value),
                     plan := Some(rows.plans[planId]))),
      Event(BuyNowEmitted, OfRow(planId), NO_ROWS));
  }

  lemma EvaluateAndReserveAgrees(l: Ledger, cfg: Settings, planId: Id, plan: TradePlan, ctx: MarketContext, now: int)
    requires Agrees(l) && l.rows.wallet.Some? && plan.planId == planId
    requires EvaluateAndReserve(l, cfg, planId, plan, ctx, now).Ok?
    ensures Agrees(EvaluateAndReserve(l, cfg, planId, plan, ctx, now).value)
  {
    var d := Activate(plan, ctx.snapshot, l.rows.wallet.value, None, GateOf(cfg, ctx), now).value;
    var note := Event(PlanEvaluated, OfRow(planId), NO_ROWS);
    CommitNotes(l, [note]);
    if d.0 == BuyNow {
      ReserveAgrees(Commit(l, l.rows, [note]), cfg, planId, plan, d.1, now);
    }
  }

  /** The one write that is not logged: a plan found late but not yet marked expired. */
  ghost predicate WritesUnlogged(rows: Rows, planId: Id, now: int) {
    planId in rows.plans && now > rows.plans[planId].expiresAt && rows.plans[planId].status != PlanExpired
  }

  /** Activation keeps the log and the rows in agreement exactly when it does not
      take its unlogged expiry branch on a plan that was still live. */
  lemma ActivationAgreesIff(l: Ledger, cfg: Settings, planId: Id, ctx: MarketContext, now: int)
    requires Agrees(l) && ActivateWithContext(l, cfg, planId, ctx, now).Ok?
    ensures Agrees(ActivateWithContext(l, cfg, planId, ctx, now).value) <==> !WritesUnlogged(l.rows, planId, now)
  {
    if planId in l.rows.plans {
      var plan := l.rows.plans[planId];
      if plan.status == PlanExpired || now > plan.expiresAt {
        UnloggedExpiry(l, planId, now);
      } else {
        LoggedActivationAgrees(l, cfg, planId, ctx, now);
      }
    }
  }

  lemma UnloggedExpiry(l: Ledger, planId: Id, now: int)
    requires Agrees(l) && planId in l.rows.plans
    requires l.rows.plans[planId].status == PlanExpired || now > l.rows.plans[planId].expiresAt
    ensures var l1 := Release(l, planId, ReleasedPlanExpired, now);
            var plans := l1.rows.plans[planId := l.rows.plans[planId].(status := PlanExpired)];
            Agrees(l1.(rows := l1.rows.(plans := plans))) <==> l.rows.plans[planId].status == PlanExpired
  {
    ReleaseAgrees(l, planId, ReleasedPlanExpired, now);
    var l1 := Release(l, planId, ReleasedPlanExpired, now);
    var plan := l.rows.plans[planId].(status := PlanExpired);
    assert l1.rows.plans[planId].status == PlanExpired <==> l.rows.plans[planId].status == PlanExpired;
    if l.rows.plans[planId].status == PlanExpired {
      assert l1.rows.plans[planId := plan] == l1.rows.plans;
    } else {
      assert l1.rows.plans[planId := plan][planId] != l1.rows.plans[planId];
    }
  }

  lemma LoggedActivationAgrees(l: Ledger, cfg: Settings, planId: Id, ctx: MarketContext, now: int)
    requires Agrees(l) && ActivateWithContext(l, cfg, planId, ctx, now).Ok?
    requires planId in l.rows.plans && l.rows.plans[planId].status != PlanExpired
             && now <= l.rows.plans[planId].expiresAt
    ensures Agrees(ActivateWithContext(l, cfg, planId, ctx, now).value)
  {
    var plan := l.rows.plans[planId];
    if l.rows.wallet.None? || plan.status == PlanFilled {
    } else if |OpenPositions(l.rows)| >= cfg.maxConcurrentPositions && !PlanHasOpen(l.rows, planId) {
      ReleaseAgrees(l, planId, MaxConcurrentReached, now);
    } else if planId in l.rows.reservations && now <= l.rows.reservations[planId].expiresAt {
      CommitNotes(l, Reannounce(cfg, planId, ctx));
    } else {
      ReleaseAgrees(l, planId, ReservationExpired, now);
      EvaluateAndReserveAgrees(Release(l, planId, ReservationExpired, now), cfg, planId, plan, ctx, now);
    }
  }

  lemma BookFillAgrees(l: Ledger, c: FillContext, cfg: Settings, a: FillArgs, positionId: Id, now: int)
    requires Agrees(l) && 0 < a.quantity <= c.reservation.quantity
    requires c.plan.planId == a.planId && c.reservation.planId == a.planId
    requires BookFill(l, c, cfg, a, positionId, now).Ok?
    ensures Agrees(BookFill(l, c, cfg, a, positionId, now).value)
  {
    var rows := BookFill(l, c, cfg, a, positionId, now).value.rows;
    var position := FilledPosition(c, a, positionId, now);
    var r := Consumed(c.plan, c.reservation, a.quantity);
    var plan := rows.plans[a.planId];
    var e := Event(FillConfirmed, OfRow(position.positionId),
                   NO_ROWS.(position := Some(position), wallet := Snapshot(rows.wallet.value), plan := Some(plan),
                            reservation := if r.quantity > 0 then Some(r) else None,
                            reservationDeleted := r.quantity == 0));
    assert WriteReservation(l.rows.reservations, e) == rows.reservations;
    CommitNoted(l, rows, e, UnprotectedNote(position));
  }

  lemma ConfirmFillAgrees(l: Ledger, cfg: Settings, a: FillArgs, clock: FillClock, listing: Listing, positionId: Id)
    requires Agrees(l) && ConfirmFill(l, cfg, a, clock, listing, positionId).Ok?
    ensures Agrees(ConfirmFill(l, cfg, a, clock, listing, positionId).value)
  {
    var swept := Sweep(l, listing, clock.swept);
    SweepAgrees(l, listing, clock.swept);
    BookFillAgrees(swept, ContextOf(swept.rows, a.planId), cfg, a, positionId, clock.booked);
  }

  lemma ProtectAgrees(l: Ledger, cfg: Settings, positionId: Id, stop: real, ref: Option<string>, now: int)
    requires Agrees(l) && ProtectPosition(l, cfg, positionId, stop, ref, now).Ok?
    ensures Agrees(ProtectPosition(l, cfg, positionId, stop, ref, now).value)
  {
    var rows := ProtectPosition(l, cfg, positionId, stop, ref, now).value.rows;
    CommitOne(l, rows, Event(StopOrderConfirmed, OfRow(positionId),
                             NO_ROWS.(position := Some(rows.positions[positionId]),
                                      wallet := Snapshot(rows.wallet.value))));
  }

  lemma ExitAgrees(l: Ledger, positionId: Id, price: real, quantity: int, now: int)
    requires Agrees(l) && ConfirmExit(l, positionId, price, quantity, now).Ok?
    ensures Agrees(ConfirmExit(l, positionId, price, quantity, now).value)
  {
    var rows := ConfirmExit(l, positionId, price, quantity, now).value.rows;
    CommitOne(l, rows, Event(ExitConfirmed, OfRow(positionId),
                             NO_ROWS.(position := Some(rows.positions[positionId]),
                                      wallet := Snapshot(rows.wallet.value))));
  }
}

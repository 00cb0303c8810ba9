/** How plans and positions may change from one step to the next. */
module Lifecycle {
  import opened Prelude
  import opened Domain
  import opened Activation
  import opened Ledger
  import opened RowSoundness

  predicate Ended(status: PlanStatus) {
    status == PlanFilled || status == PlanExpired
  }

  /** Levels never move, expiry never moves earlier, a filled or expired plan
      stays so, and a trigger time is set once. */
  ghost predicate PlanAges(p: TradePlan, q: TradePlan) {
    && q == p.(status := q.status, expiresAt := q.expiresAt, triggeredAt := q.triggeredAt)
    && p.expiresAt <= q.expiresAt
    && (Ended(p.status) ==> q.status == p.status)
    && (p.triggeredAt.Some? ==> q.triggeredAt == p.triggeredAt)
  }

  ghost predicate PlansAge(rows: Rows, rows': Rows) {
    forall id :: id in rows.plans ==> id in rows'.plans && PlanAges(rows.plans[id], rows'.plans[id])
  }

  lemma PlansAgeTransitive(a: Rows, b: Rows, c: Rows)
    requires PlansAge(a, b) && PlansAge(b, c)
    ensures PlansAge(a, c)
  {
    forall id | id in a.plans ensures id in c.plans && PlanAges(a.plans[id], c.plans[id]) {
      assert PlanAges(a.plans[id], b.plans[id]) && PlanAges(b.plans[id], c.plans[id]);
    }
  }

  lemma ReleaseAges(l: Ledger, planId: Id, reason: ReleaseReason, now: int)
    ensures PlansAge(l.rows, Release(l, planId, reason, now).rows)
  {
  }

  lemma SweepPlanAges(l: Ledger, planId: Id, now: int)
    ensures PlansAge(l.rows, SweepPlan(l, planId, now).rows)
  {
    ReleaseAges(l, planId, ReleasedPlanExpired, now);
  }

  lemma {:induction false} SweepPlansAge(l: Ledger, order: seq<Id>, now: int)
    ensures PlansAge(l.rows, SweepPlans(l, order, now).rows)
    decreases |order|
  {
    if order != [] {
      var l1 := SweepPlans(l, order[..|order| - 1], now);
      SweepPlansAge(l, order[..|order| - 1], now);
      SweepPlanAges(l1, order[|order| - 1], now);
      PlansAgeTransitive(l.rows, l1.rows, SweepPlans(l, order, now).rows);
    }
  }

  lemma {:induction false} SweepReservationsAge(l: Ledger, order: seq<Id>, now: int)
    ensures PlansAge(l.rows, SweepReservations(l, order, now).rows)
    decreases |order|
  {
    if order != [] {
      var l1 := SweepReservations(l, order[..|order| - 1], now);
      SweepReservationsAge(l, order[..|order| - 1], now);
      ReleaseAges(l1, order[|order| - 1], ReservationExpired, now);
      PlansAgeTransitive(l.rows, l1.rows, SweepReservations(l, order, now).rows);
    }
  }

  lemma SweepAges(l: Ledger, listing: Listing, now: int)
    ensures PlansAge(l.rows, Sweep(l, listing, now).rows)
  {
    var l1 := SweepPlans(l, listing.plans, now);
    SweepPlansAge(l, listing.plans, now);
    SweepReservationsAge(l1, listing.reservations, now);
    PlansAgeTransitive(l.rows, l1.rows, Sweep(l, listing, now).rows);
  }

  /** The tail of an activation writes the plan as it was read before the release. */
  lemma EvaluationAges(l: Ledger, l1: Ledger, cfg: Settings, planId: Id, ctx: MarketContext, now: int)
    requires PlansAge(l.rows, l1.rows) && planId in l.rows.plans && !Ended(l.rows.plans[planId].status)
    requires l1.rows.wallet.Some? && EvaluateAndReserve(l1, cfg, planId, l.rows.plans[planId], ctx, now).Ok?
    ensures PlansAge(l.rows, EvaluateAndReserve(l1, cfg, planId, l.rows.plans[planId], ctx, now).value.rows)
  {
    hide Activate, ReservationFor, ReservedWallet;
  }

  /** A late activation is the one step that takes a filled plan back. */
  lemma ActivationAges(l: Ledger, cfg: Settings, planId: Id, ctx: MarketContext, now: int)
    requires ActivateWithContext(l, cfg, planId, ctx, now).Ok?
    requires planId in l.rows.plans ==> now <= l.rows.plans[planId].expiresAt
    ensures PlansAge(l.rows, ActivateWithContext(l, cfg, planId, ctx, now).value.rows)
  {
    hide OpenPositions, PlanHasOpen, EvaluateAndReserve, ReleasedWallet, ReleasedStatus, PlansAge;
    ReleaseAges(l, planId, ReleasedPlanExpired, now);
    ReleaseAges(l, planId, MaxConcurrentReached, now);
    ReleaseAges(l, planId, ReservationExpired, now);
    SamePlansAge(l.rows);
    if planId in l.rows.plans {
      var l1, plan := Release(l, planId, ReservationExpired, now), l.rows.plans[planId];
      if plan.status == PlanExpired {
        RewrittenPlanAges(l, planId, now);
      } else if plan.status != PlanFilled && l1.rows.wallet.Some?
          && EvaluateAndReserve(l1, cfg, planId, plan, ctx, now).Ok? {
        EvaluationAges(l, l1, cfg, planId, ctx, now);
      }
    }
  }

  lemma SamePlansAge(rows: Rows)
    ensures forall rows': Rows :: rows'.plans == rows.plans ==> PlansAge(rows, rows')
  {
  }

  lemma RewrittenPlanAges(l: Ledger, planId: Id, now: int)
    requires planId in l.rows.plans && l.rows.plans[planId].status == PlanExpired
    ensures var l1 := Release(l, planId, ReleasedPlanExpired, now);
            PlansAge(l.rows, l1.rows.(plans := l1.rows.plans[planId := l.rows.plans[planId].(status := PlanExpired)]))
  {
    ReleaseAges(l, planId, ReleasedPlanExpired, now);
  }

  lemma ConfirmFillAges(l: Ledger, cfg: Settings, a: FillArgs, clock: FillClock, listing: Listing, positionId: Id)
    requires ConfirmFill(l, cfg, a, clock, listing, positionId).Ok?
    ensures PlansAge(l.rows, ConfirmFill(l, cfg, a, clock, listing, positionId).value.rows)
  {
    hide FilledPosition, ProposedWallet, SnappedWallet, FillRejection, Consumed;
    var swept := Sweep(l, listing, clock.swept);
    SweepAges(l, listing, clock.swept);
    PlansAgeTransitive(l.rows, swept.rows, ConfirmFill(l, cfg, a, clock, listing, positionId).value.rows);
  }

  /* ---- the sweep is thorough ---- */

  /** Nothing that should have lapsed at `now` is left. */
  ghost predicate Lapsed(rows: Rows, now: int) {
    && (forall id :: id in rows.plans && !Final(rows.plans[id].status) ==> now <= rows.plans[id].expiresAt)
    && (forall id :: id in rows.reservations ==> now <= rows.reservations[id].expiresAt)
  }

  lemma {:induction false} SweptPlan(l: Ledger, order: seq<Id>, now: int, id: Id)
    requires Sound(l.rows) && id in order && id in l.rows.plans
    ensures var rows := SweepPlans(l, order, now).rows;
            id in rows.plans && (Final(rows.plans[id].status) || now <= rows.plans[id].expiresAt)
    decreases |order|
  {
    var before, last := order[..|order| - 1], order[|order| - 1];
    var l1 := SweepPlans(l, before, now);
    SweepPlansAge(l, before, now);
    SweepPlansSound(l, before, now);
    if id != last {
      assert id in before;
      SweptPlan(l, before, now, id);
    }
  }

  lemma {:induction false} SweptReservation(l: Ledger, order: seq<Id>, now: int, id: Id)
    requires Sound(l.rows) && id in SweepReservations(l, order, now).rows.reservations
    ensures id in l.rows.reservations
            && SweepReservations(l, order, now).rows.reservations[id] == l.rows.reservations[id]
    ensures id in order ==> now <= l.rows.reservations[id].expiresAt
    decreases |order|
  {
    if order != [] {
      var before, last := order[..|order| - 1], order[|order| - 1];
      SweepReservationsSound(l, before, now);
      SweptReservation(l, before, now, id);
      if id in order && id != last {
        assert id in before;
      }
    }
  }

  lemma {:induction false} SweepReservationsKeepStatus(l: Ledger, order: seq<Id>, now: int, id: Id)
    requires Sound(l.rows) && id in l.rows.plans
    ensures var rows := SweepReservations(l, order, now).rows;
            && id in rows.plans && rows.plans[id].expiresAt == l.rows.plans[id].expiresAt
            && (Final(l.rows.plans[id].status) ==> rows.plans[id].status == l.rows.plans[id].status)
    decreases |order|
  {
    if order != [] {
      SweepReservationsSound(l, order[..|order| - 1], now);
      SweepReservationsKeepStatus(l, order[..|order| - 1], now, id);
    }
  }

  lemma {:induction false} SweepPlansKeepDomain(l: Ledger, order: seq<Id>, now: int)
    ensures var rows := SweepPlans(l, order, now).rows;
            rows.plans.Keys == l.rows.plans.Keys && rows.reservations.Keys <= l.rows.reservations.Keys
    decreases |order|
  {
    if order != [] {
      SweepPlansKeepDomain(l, order[..|order| - 1], now);
    }
  }

  lemma {:induction false} SweepReservationsKeepDomain(l: Ledger, order: seq<Id>, now: int)
    ensures SweepReservations(l, order, now).rows.plans.Keys == l.rows.plans.Keys
    decreases |order|
  {
    if order != [] {
      SweepReservationsKeepDomain(l, order[..|order| - 1], now);
    }
  }

  /** After a sweep over complete listings no live plan and no reservation is late. */
  lemma SweepIsThorough(l: Ledger, listing: Listing, now: int)
    requires Sound(l.rows) && Complete(l, listing, now)
    ensures Lapsed(Sweep(l, listing, now).rows, now)
  {
    var l1 := SweepPlans(l, listing.plans, now);
    var rows := Sweep(l, listing, now).rows;
    SweepPlansSound(l, listing.plans, now);
    SweepPlansKeepDomain(l, listing.plans, now);
    SweepReservationsKeepDomain(l1, listing.reservations, now);
    forall id | id in rows.plans && !Final(rows.plans[id].status) ensures now <= rows.plans[id].expiresAt {
      SweptPlan(l, listing.plans, now, id);
      SweepReservationsKeepStatus(l1, listing.reservations, now, id);
    }
    forall id | id in rows.reservations ensures now <= rows.reservations[id].expiresAt {
      SweptReservation(l1, listing.reservations, now, id);
    }
  }

  /* ---- stops and trigger events ---- */

  /** No stop falls by more than the tolerance, and no row disappears. */
  ghost predicate StopsHold(rows: Rows, rows': Rows, tolerance: real) {
    forall id :: id in rows.positions ==>
      && id in rows'.positions
      && (rows.positions[id].stop.Some? ==>
            rows'.positions[id].stop.Some?
                && rows'.positions[id].stop.value >= rows.positions[id].stop.value - tolerance)
  }

  function TriggersIn(events: seq<Event>, planId: Id): nat {
    if events == [] then 0
    else TriggersIn(events[..|events| - 1], planId)
         + (if events[|events| - 1].kind == TriggerHit && events[|events| - 1].aggregate == OfRow(planId) then 1 else 0)
  }
}

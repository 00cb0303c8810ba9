/** What a sweep leaves of every row, in terms of the rows before it. */
module SweepRules {
  import opened Domain
  import opened Ledger
  import opened RowSoundness
  import opened PlanLife

  /** The plan is still to be decided, and its time is up. */
  predicate LatePlan(rows: Rows, id: Id, now: int) {
    && id in rows.plans && rows.plans[id].expiresAt < now
    && rows.plans[id].status != PlanFilled && rows.plans[id].status != PlanCancelled
       && rows.plans[id].status != PlanExpired
  }

  predicate LateReservation(rows: Rows, id: Id, now: int) {
    id in rows.reservations && rows.reservations[id].expiresAt < now
  }

  /** One row of plan and reservation is as it was. */
  ghost predicate Untouched(rows: Rows, rows': Rows, id: Id) {
    && id in rows.plans && id in rows'.plans && rows'.plans[id] == rows.plans[id]
    && (id in rows'.reservations <==> id in rows.reservations)
    && (id in rows.reservations ==> rows'.reservations[id] == rows.reservations[id])
  }

  ghost predicate Dropped(rows: Rows, rows': Rows, id: Id, status: PlanStatus) {
    id in rows.plans && id in rows'.plans && id !in rows'.reservations
        && rows'.plans[id] == rows.plans[id].(status := status)
  }

  ghost function StatusAfterLapse(rows: Rows, id: Id): PlanStatus {
    if Bought(rows, id) then PlanFilled else PlanActive
  }

  ghost predicate SameShape(rows: Rows, rows': Rows) {
    && rows'.plans.Keys == rows.plans.Keys && rows'.reservations.Keys <= rows.reservations.Keys
    && rows'.positions == rows.positions
  }

  /* ---- the first loop ---- */

  ghost predicate PlansSwept(rows: Rows, rows': Rows, done: seq<Id>, now: int) {
    && SameShape(rows, rows')
    && forall id :: id in rows.plans ==>
         if id in done && LatePlan(rows, id, now) then Dropped(rows, rows', id, PlanExpired)
           else Untouched(rows, rows', id)
  }

  lemma SweepPlanRow(l: Ledger, planId: Id, now: int)
    requires Sound(l.rows)
    ensures PlansSwept(l.rows, SweepPlan(l, planId, now).rows, [planId], now)
  {
    if LatePlan(l.rows, planId, now) {
      ReleaseMeaning(l, planId, ReleasedPlanExpired, now);
      ReleaseSound(l, planId, ReleasedPlanExpired, now);
    }
    hide Release;
  }

  lemma PlansSweptOn(rows: Rows, mid: Rows, rows': Rows, before: seq<Id>, last: Id, now: int)
    requires PlansSwept(rows, mid, before, now) && PlansSwept(mid, rows', [last], now)
    ensures PlansSwept(rows, rows', before + [last], now)
  {
    forall id | id in rows.plans
      ensures if id in before + [last] && LatePlan(rows, id, now) then Dropped(rows, rows', id, PlanExpired)
              else Untouched(rows, rows', id)
    {
    }
  }

  lemma {:induction false} SweepPlansRows(l: Ledger, order: seq<Id>, now: int)
    requires Sound(l.rows)
    ensures PlansSwept(l.rows, SweepPlans(l, order, now).rows, order, now)
    decreases |order|
  {
    if order != [] {
      var before, last := order[..|order| - 1], order[|order| - 1];
      hide PlansSwept, SweepPlan;
      SweepPlansRows(l, before, now);
      SweepPlansSound(l, before, now);
      SweepPlanRow(SweepPlans(l, before, now), last, now);
      PlansSweptOn(l.rows, SweepPlans(l, before, now).rows, SweepPlans(l, order, now).rows, before, last, now);
      assert before + [last] == order;
    }
  }

  /* ---- the second loop ---- */

  ghost predicate ReservationsSwept(rows: Rows, rows': Rows, done: seq<Id>, now: int) {
    && SameShape(rows, rows')
    && forall id :: id in rows.plans ==>
         if id in done && LateReservation(rows, id, now) then Dropped(rows, rows', id, StatusAfterLapse(rows, id))
         else Untouched(rows, rows', id)
  }

  lemma SweepReservationRow(l: Ledger, planId: Id, now: int)
    requires Sound(l.rows)
    ensures ReservationsSwept(l.rows, SweepReservation(l, planId, now).rows, [planId], now)
  {
    ReleaseMeaning(l, planId, ReservationExpired, now);
    hide Release;
  }

  lemma ReservationsSweptOn(rows: Rows, mid: Rows, rows': Rows, before: seq<Id>, last: Id, now: int)
    requires ReservationsSwept(rows, mid, before, now) && ReservationsSwept(mid, rows', [last], now)
    ensures ReservationsSwept(rows, rows', before + [last], now)
  {
    assert forall id :: Bought(mid, id) == Bought(rows, id) by {
      assert mid.positions == rows.positions;
    }
    forall id | id in rows.plans
      ensures if id in before + [last] && LateReservation(rows, id, now)
              then Dropped(rows, rows', id, StatusAfterLapse(rows, id)) else Untouched(rows, rows', id)
    {
    }
  }

  lemma {:induction false} SweepReservationsRows(l: Ledger, order: seq<Id>, now: int)
    requires Sound(l.rows)
    ensures ReservationsSwept(l.rows, SweepReservations(l, order, now).rows, order, now)
    decreases |order|
  {
    if order != [] {
      var before, last := order[..|order| - 1], order[|order| - 1];
      hide ReservationsSwept, SweepReservation;
      SweepReservationsRows(l, before, now);
      SweepReservationsSound(l, before, now);
      SweepReservationRow(SweepReservations(l, before, now), last, now);
      ReservationsSweptOn(l.rows, SweepReservations(l, before, now).rows, SweepReservations(l, order, now).rows,
                          before, last, now);
      assert before + [last] == order;
    }
  }

  /* ---- the sweep ---- */

  /** The rows a sweep over complete listings leaves: a late plan is EXPIRED and has no
      reservation; the plan of a late reservation is FILLED if it bought shares and ACTIVE
      if not; every other plan and reservation, and every position, is as it was. */
  lemma SweepMeaning(l: Ledger, listing: Listing, now: int)
    requires Sound(l.rows) && Complete(l, listing, now)
    ensures var rows := Sweep(l, listing, now).rows;
            && SameShape(l.rows, rows)
            && forall id :: id in l.rows.plans ==>
                 if LatePlan(l.rows, id, now) then Dropped(l.rows, rows, id, PlanExpired)
                 else if LateReservation(l.rows, id, now) then Dropped(l.rows, rows, id, StatusAfterLapse(l.rows, id))
                 else Untouched(l.rows, rows, id)
  {
    var mid := SweepPlans(l, listing.plans, now);
    var rows := Sweep(l, listing, now).rows;
    SweepPlansRows(l, listing.plans, now);
    SweepPlansSound(l, listing.plans, now);
    SweepReservationsRows(mid, listing.reservations, now);
    assert forall id :: Bought(mid.rows, id) == Bought(l.rows, id) by {
      assert mid.rows.positions == l.rows.positions;
    }
    hide SweepPlans, SweepReservations, Sound, Bought;
    forall id | id in l.rows.plans
      ensures if LatePlan(l.rows, id, now) then Dropped(l.rows, rows, id, PlanExpired)
              else if LateReservation(l.rows, id, now) then Dropped(l.rows, rows, id, StatusAfterLapse(l.rows, id))
              else Untouched(l.rows, rows, id)
    {
    }
  }

  /** A sweep moves no cash. */
  lemma {:induction false} SweepPlansCash(l: Ledger, order: seq<Id>, now: int)
    ensures SameCash(l.rows, SweepPlans(l, order, now).rows)
    decreases |order|
  {
    if order != [] {
      SweepPlansCash(l, order[..|order| - 1], now);
    }
  }

  lemma {:induction false} SweepReservationsCash(l: Ledger, order: seq<Id>, now: int)
    ensures SameCash(l.rows, SweepReservations(l, order, now).rows)
    decreases |order|
  {
    if order != [] {
      SweepReservationsCash(l, order[..|order| - 1], now);
    }
  }

  ghost predicate SameCash(rows: Rows, rows': Rows) {
    && (rows'.wallet.Some? <==> rows.wallet.Some?)
    && (rows.wallet.Some? ==>
          && rows'.wallet.value.cashAvailable == rows.wallet.value.cashAvailable
          && rows'.wallet.value.capitalBase == rows.wallet.value.capitalBase
          && rows'.wallet.value.dailyRealizedLoss == rows.wallet.value.dailyRealizedLoss)
  }

  lemma SweepCash(l: Ledger, listing: Listing, now: int)
    ensures SameCash(l.rows, Sweep(l, listing, now).rows)
  {
    SweepPlansCash(l, listing.plans, now);
    SweepReservationsCash(SweepPlans(l, listing.plans, now), listing.reservations, now);
  }
}

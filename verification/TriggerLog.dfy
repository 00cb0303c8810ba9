/** Each plan logs at most one TRIGGER_HIT. */
module TriggerLog {
  import opened Prelude
  import opened Domain
  import opened Activation
  import opened Ledger
  import opened Lifecycle

  /** The log grew by events none of which is a trigger, and no trigger time moved. */
  ghost predicate Quiet(l: Ledger, l': Ledger) {
    && l.events <= l'.events
    && (forall i :: |l.events| <= i < |l'.events| ==> l'.events[i].kind != TriggerHit)
    && l.rows.plans.Keys <= l'.rows.plans.Keys
    && (forall id :: id in l'.rows.plans ==>
          l'.rows.plans[id].triggeredAt == if id in l.rows.plans then l.rows.plans[id].triggeredAt else None)
  }

  lemma {:induction false} QuietCounts(es: seq<Event>, fs: seq<Event>, id: Id)
    requires es <= fs && forall i :: |es| <= i < |fs| ==> fs[i].kind != TriggerHit
    ensures TriggersIn(fs, id) == TriggersIn(es, id)
    decreases |fs|
  {
    if fs == es {
    } else {
      QuietCounts(es, fs[..|fs| - 1], id);
    }
  }

  /** One event for a triggered plan, none for any other identifier. */
  ghost predicate TriggersLogged(l: Ledger) {
    forall id :: TriggersIn(l.events, id)
                 == (if id in l.rows.plans && l.rows.plans[id].triggeredAt.Some? then 1 else 0)
  }

  lemma QuietKeepsLog(l: Ledger, l': Ledger)
    requires TriggersLogged(l) && Quiet(l, l')
    ensures TriggersLogged(l')
  {
    forall id ensures TriggersIn(l'.events, id)
        == (if id in l'.rows.plans && l'.rows.plans[id].triggeredAt.Some? then 1 else 0) {
      QuietCounts(l.events, l'.events, id);
    }
  }

  lemma RecordTriggerLogged(l: Ledger, cfg: Settings, planId: Id, at: int)
    requires TriggersLogged(l)
    ensures TriggersLogged(RecordTrigger(l, cfg, planId, at))
  {
    var l' := RecordTrigger(l, cfg, planId, at);
    if CanTrigger(l.rows, planId, at) {
      assert l'.events[..|l'.events| - 1] == l.events;
    }
  }

  lemma ReleaseQuiet(l: Ledger, planId: Id, reason: ReleaseReason, now: int)
    ensures Quiet(l, Release(l, planId, reason, now))
  {
  }

  lemma {:induction false} SweepPlansQuiet(l: Ledger, order: seq<Id>, now: int)
    ensures Quiet(l, SweepPlans(l, order, now))
    decreases |order|
  {
    if order != [] {
      var l1 := SweepPlans(l, order[..|order| - 1], now);
      SweepPlansQuiet(l, order[..|order| - 1], now);
      ReleaseQuiet(l1, order[|order| - 1], ReleasedPlanExpired, now);
    }
  }

  lemma {:induction false} SweepReservationsQuiet(l: Ledger, order: seq<Id>, now: int)
    ensures Quiet(l, SweepReservations(l, order, now))
    decreases |order|
  {
    if order != [] {
      var l1 := SweepReservations(l, order[..|order| - 1], now);
      SweepReservationsQuiet(l, order[..|order| - 1], now);
      ReleaseQuiet(l1, order[|order| - 1], ReservationExpired, now);
    }
  }

  lemma SweepQuiet(l: Ledger, listing: Listing, now: int)
    ensures Quiet(l, Sweep(l, listing, now))
  {
    SweepPlansQuiet(l, listing.plans, now);
    SweepReservationsQuiet(SweepPlans(l, listing.plans, now), listing.reservations, now);
  }

  lemma EvaluateAndReserveQuiet(l: Ledger, cfg: Settings, planId: Id, plan: TradePlan, ctx: MarketContext, now: int)
    requires l.rows.wallet.Some? && EvaluateAndReserve(l, cfg, planId, plan, ctx, now).Ok?
    requires planId in l.rows.plans && l.rows.plans[planId].triggeredAt == plan.triggeredAt
    ensures Quiet(l, EvaluateAndReserve(l, cfg, planId, plan, ctx, now).value)
  {
    hide Activate, ReservationFor, ReservedWallet;
  }

  lemma QuietTransitive(a: Ledger, b: Ledger, c: Ledger)
    requires Quiet(a, b) && Quiet(b, c)
    ensures Quiet(a, c)
  {
  }

  /** Events other than triggers, and a plan rewritten without its trigger time. */
  lemma QuietWrite(l: Ledger, l1: Ledger, planId: Id, plan: TradePlan, notes: seq<Event>)
    requires Quiet(l, l1) && planId in l.rows.plans && plan.triggeredAt == l.rows.plans[planId].triggeredAt
    requires forall i :: 0 <= i < |notes| ==> notes[i].kind != TriggerHit
    ensures Quiet(l, l1.(rows := l1.rows.(plans := l1.rows.plans[planId := plan])))
    ensures Quiet(l, Commit(l1, l1.rows, notes))
  {
  }

  lemma ActivationQuiet(l: Ledger, cfg: Settings, planId: Id, ctx: MarketContext, now: int)
    requires ActivateWithContext(l, cfg, planId, ctx, now).Ok?
    ensures Quiet(l, ActivateWithContext(l, cfg, planId, ctx, now).value)
  {
    hide EvaluateAndReserve, ReleasedWallet, ReleasedStatus, OpenPositions, PlanHasOpen, Quiet;
    ReleaseQuiet(l, planId, ReleasedPlanExpired, now);
    ReleaseQuiet(l, planId, MaxConcurrentReached, now);
    ReleaseQuiet(l, planId, ReservationExpired, now);
    SameQuiet(l);
    if planId in l.rows.plans {
      var l1, plan := Release(l, planId, ReservationExpired, now), l.rows.plans[planId];
      QuietWrite(l, Release(l, planId, ReleasedPlanExpired, now), planId, plan.(status := PlanExpired), []);
      QuietWrite(l, l, planId, plan, Reannounce(cfg, planId, ctx));
      if l1.rows.wallet.Some? && EvaluateAndReserve(l1, cfg, planId, plan, ctx, now).Ok? {
        EvaluateAndReserveQuiet(l1, cfg, planId, plan, ctx, now);
        QuietTransitive(l, l1, EvaluateAndReserve(l1, cfg, planId, plan, ctx, now).value);
      }
    }
  }

  lemma SameQuiet(l: Ledger)
    ensures Quiet(l, l)
  {
  }

  lemma ConfirmFillQuiet(l: Ledger, cfg: Settings, a: FillArgs, clock: FillClock, listing: Listing, positionId: Id)
    requires ConfirmFill(l, cfg, a, clock, listing, positionId).Ok?
    ensures Quiet(l, ConfirmFill(l, cfg, a, clock, listing, positionId).value)
  {
    hide FilledPosition, ProposedWallet, SnappedWallet, FillRejection;
    SweepQuiet(l, listing, clock.swept);
  }
}

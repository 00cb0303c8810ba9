/** Replay of any log, well formed or not: the last event that carries a row decides it,
    and a log fails to replay exactly at an event that should carry a row and does not. */
module LogRules {
  import opened Prelude
  import opened Domain
  import opened Planning
  import opened Ledger
  import opened Rebuilding

  /* ---- what an event carries ---- */

  /** Events that are nothing but a wallet. */
  predicate WholeWallet(kind: EventKind) {
    kind == WalletSeeded || kind == WalletReconciled
  }

  /** Events that may carry a wallet beside other rows. */
  predicate WalletBeside(kind: EventKind) {
    || kind == PositionImported || kind == CapacityReserved || kind == CapacityReleased
    || kind == FillConfirmed || kind == StopOrderConfirmed || kind == ExitConfirmed
  }

  /** An event that should carry a row and does not. */
  predicate Broken(e: Event) {
    || (WholeWallet(e.kind) && !e.payload.root.Snapshot?)
    || (WalletBeside(e.kind) && e.payload.wallet.Malformed?)
    || (e.kind == PositionImported && e.payload.position.None?)
  }

  function WalletIn(e: Event): Option<WalletState> {
    if WholeWallet(e.kind) && e.payload.root.Snapshot? then Some(e.payload.root.wallet)
    else if WalletBeside(e.kind) && e.payload.wallet.Snapshot? then Some(e.payload.wallet.wallet)
    else None
  }

  function PlanIn(e: Event, id: Id): Option<TradePlan> {
    match e.payload.plan
    case Some(p) => if p.planId == id then Some(p) else None
    case None => None
  }

  /** A deletion names its plan, or is about the aggregate of the event. */
  predicate Deletes(e: Event, id: Id) {
    e.payload.reservationDeleted && match e.payload.plan
                                    case Some(p) => p.planId == id
                                    case None => e.aggregate == OfRow(id)
  }

  predicate TouchesReservation(e: Event, id: Id) {
    Deletes(e, id) || (e.payload.reservation.Some? && e.payload.reservation.value.planId == id)
  }

  predicate TouchesPosition(e: Event, id: Id) {
    || (e.payload.position.Some? && e.payload.position.value.positionId == id)
    || (e.kind == ReconciliationCompleted && exists p | p in e.payload.positions :: p.positionId == id)
  }

  /* ---- one event ---- */

  lemma BrokenMeaning(rows: Rows, e: Event)
    ensures ApplyEvent(rows, e).Raised? <==> Broken(e)
    ensures Broken(e) ==>
              ApplyEvent(rows, e).error
              == if (WholeWallet(e.kind) && !e.payload.root.Snapshot?)
                 || (WalletBeside(e.kind) && e.payload.wallet.Malformed?)
                 then "INVALID_WALLET_SNAPSHOT" else "KeyError"
  {
  }

  lemma {:induction false} WritesListed(m: map<Id, PositionState>, ps: seq<PositionState>, id: Id)
    ensures var n := WritePositions(m, ps);
            if exists p :: p in ps && p.positionId == id then
              id in n && n[id] in ps && n[id].positionId == id
              && exists i :: 0 <= i < |ps| && n[id] == ps[i] && forall j :: i < j < |ps| ==> ps[j].positionId != id
            else (id in n <==> id in m) && (id in m ==> n[id] == m[id])
    decreases |ps|
  {
    if ps != [] {
      var rest := ps[1..];
      WritesListed(m[ps[0].positionId := ps[0]], rest, id);
      assert forall p :: p in ps <==> p == ps[0] || p in rest;
      if exists p :: p in rest && p.positionId == id {
        var n := WritePositions(m, ps);
        var i :| 0 <= i < |rest| && n[id] == rest[i] && forall j :: i < j < |rest| ==> rest[j].positionId != id;
        assert n[id] == ps[i + 1];
        forall j | i + 1 < j < |ps| ensures ps[j].positionId != id {
          assert ps[j] == rest[j - 1];
        }
      } else if ps[0].positionId == id {
        forall j | 0 < j < |ps| ensures ps[j].positionId != id {
          assert ps[j] == rest[j - 1] && rest[j - 1] in rest;
        }
      }
    }
  }

  /** The position an event leaves: the last of a reconciled list, else the one it carries. */
  ghost predicate LeftPosition(e: Event, id: Id, p: PositionState) {
    if e.kind == ReconciliationCompleted && exists q :: q in e.payload.positions && q.positionId == id then
      exists i :: 0 <= i < |e.payload.positions| && p == e.payload.positions[i] && p.positionId == id
        && forall j :: i < j < |e.payload.positions| ==> e.payload.positions[j].positionId != id
    else e.payload.position == Some(p) && p.positionId == id
  }

  /** What one event does to each row. */
  lemma EventMeaning(rows: Rows, e: Event, id: Id)
    requires !Broken(e)
    ensures ApplyEvent(rows, e).Ok?
    ensures var after := ApplyEvent(rows, e).value;
            && after.wallet == (if WalletIn(e).Some? then WalletIn(e) else rows.wallet)
            && (if PlanIn(e, id).Some? then id in after.plans && after.plans[id] == PlanIn(e, id).value
                else SameAt(rows.plans, after.plans, id))
            && (if Deletes(e, id) then id !in after.reservations
                else if TouchesReservation(e, id) then
                  id in after.reservations && Some(after.reservations[id]) == e.payload.reservation
                else SameAt(rows.reservations, after.reservations, id))
            && (if TouchesPosition(e, id) then id in after.positions && LeftPosition(e, id, after.positions[id])
                else SameAt(rows.positions, after.positions, id))
  {
    BrokenMeaning(rows, e);
    var written := if e.payload.position.Some?
      then rows.positions[e.payload.position.value.positionId := e.payload.position.value]
                   else rows.positions;
    if e.kind == ReconciliationCompleted {
      WritesListed(written, e.payload.positions, id);
    }
    hide WritePositions;
  }

  ghost predicate SameAt<T>(m: map<Id, T>, n: map<Id, T>, id: Id) {
    (id in n <==> id in m) && (id in m ==> n[id] == m[id])
  }

  /* ---- a whole log ---- */

  lemma LastEvent(events: seq<Event>, e: Event)
    ensures ApplyAll(NO_STATE, events + [e])
         == if ApplyAll(NO_STATE, events).Ok? then ApplyEvent(ApplyAll(NO_STATE, events).value, e)
            else ApplyAll(NO_STATE, events)
  {
    hide ApplyEvent;
    ApplyAllConcat(NO_STATE, events, [e]);
    if ApplyAll(NO_STATE, events).Ok? {
      ApplyOne(ApplyAll(NO_STATE, events).value, e);
    }
  }

  /** A log replays exactly when none of its events is broken. */
  lemma {:induction false} ReplaysIff(events: seq<Event>)
    ensures ApplyAll(NO_STATE, events).Ok? <==> forall i :: 0 <= i < |events| ==> !Broken(events[i])
    decreases |events|
  {
    hide ApplyEvent, Broken, ApplyAll;
    if events != [] {
      var before, last := events[..|events| - 1], events[|events| - 1];
      ReplaysIff(before);
      LastEvent(before, last);
      assert before + [last] == events;
      if ApplyAll(NO_STATE, before).Ok? {
        BrokenMeaning(ApplyAll(NO_STATE, before).value, last);
      } else {
        var i :| 0 <= i < |before| && Broken(before[i]);
        assert events[i] == before[i];
      }
    } else {
      NothingApplied();
    }
  }

  lemma NothingApplied()
    ensures ApplyAll(NO_STATE, []) == Ok(NO_STATE)
  {
  }

  /** The wallet of a replay is that of the last event that carries one, and each row is
      what the last event that touches it left. */
  lemma {:induction false} LastWriterWins(events: seq<Event>, id: Id)
    requires ApplyAll(NO_STATE, events).Ok?
    ensures var rows := ApplyAll(NO_STATE, events).value;
            && (rows.wallet.Some? ==> exists i :: LastWallet(events, i) && rows.wallet == WalletIn(events[i]))
            && (rows.wallet.None? ==> forall i :: 0 <= i < |events| ==> WalletIn(events[i]).None?)
            && (id in rows.plans ==>
                  exists i :: LastPlan(events, id, i) && Some(rows.plans[id]) == PlanIn(events[i], id))
            && (id !in rows.plans ==> forall i :: 0 <= i < |events| ==> PlanIn(events[i], id).None?)
            && (id in rows.reservations ==>
                  exists i :: LastReservation(events, id, i) && !Deletes(events[i], id)
                              && Some(rows.reservations[id]) == events[i].payload.reservation)
            && (id !in rows.reservations ==> forall i :: LastReservation(events, id, i) ==> Deletes(events[i], id))
            && (id in rows.positions ==>
                  exists i :: LastPosition(events, id, i) && LeftPosition(events[i], id, rows.positions[id]))
            && (id !in rows.positions ==> forall i :: 0 <= i < |events| ==> !TouchesPosition(events[i], id))
    decreases |events|
  {
    hide ApplyEvent, Broken, ApplyAll, WalletIn, PlanIn, Deletes, TouchesReservation, TouchesPosition, LeftPosition;
    if events == [] {
      NothingApplied();
    } else {
      var before, last := events[..|events| - 1], events[|events| - 1];
      ReplaysIff(events);
      ReplaysIff(before);
      assert forall i :: 0 <= i < |before| ==> before[i] == events[i];
      LastEvent(before, last);
      assert before + [last] == events;
      LastWriterWins(before, id);
      EventMeaning(ApplyAll(NO_STATE, before).value, last, id);
      LastWalletOn(events);
      LastRowsOn(events, id);
      DeletesTouches(last, id);
    }
  }

  lemma DeletesTouches(e: Event, id: Id)
    ensures Deletes(e, id) ==> TouchesReservation(e, id)
  {
  }

  /** The last event that carries a wallet, a plan, a reservation or its deletion, a position. */
  ghost predicate LastWallet(events: seq<Event>, i: int) {
    0 <= i < |events| && WalletIn(events[i]).Some? && forall j :: i < j < |events| ==> WalletIn(events[j]).None?
  }

  ghost predicate LastPlan(events: seq<Event>, id: Id, i: int) {
    0 <= i < |events| && PlanIn(events[i], id).Some? && forall j :: i < j < |events| ==> PlanIn(events[j], id).None?
  }

  ghost predicate LastReservation(events: seq<Event>, id: Id, i: int) {
    && 0 <= i < |events| && TouchesReservation(events[i], id)
    && forall j :: i < j < |events| ==> !TouchesReservation(events[j], id)
  }

  ghost predicate LastPosition(events: seq<Event>, id: Id, i: int) {
    && 0 <= i < |events| && TouchesPosition(events[i], id)
    && forall j :: i < j < |events| ==> !TouchesPosition(events[j], id)
  }

  lemma LastWalletOn(events: seq<Event>)
    requires events != []
    ensures var before, last := events[..|events| - 1], |events| - 1;
            forall i :: LastWallet(events, i)
              <==> if WalletIn(events[last]).Some? then i == last else LastWallet(before, i)
  {
    hide WalletIn;
  }

  lemma LastRowsOn(events: seq<Event>, id: Id)
    requires events != []
    ensures var before, last := events[..|events| - 1], |events| - 1;
            && (forall i :: LastPlan(events, id, i)
                  <==> if PlanIn(events[last], id).Some? then i == last else LastPlan(before, id, i))
            && (forall i :: LastReservation(events, id, i)
                  <==> if TouchesReservation(events[last], id) then i == last else LastReservation(before, id, i))
            && (forall i :: LastPosition(events, id, i)
                  <==> if TouchesPosition(events[last], id) then i == last else LastPosition(before, id, i))
  {
    hide PlanIn, TouchesReservation, TouchesPosition;
  }

  /* ---- what each step logs ---- */

  /** The log grew by these kinds, each about this aggregate. */
  ghost predicate Logged(l: Ledger, l': Ledger, kinds: seq<EventKind>, about: Aggregate) {
    && |l'.events| == |l.events| + |kinds| && l.events <= l'.events
    && forall i :: 0 <= i < |kinds| ==>
         l'.events[|l.events| + i].kind == kinds[i] && l'.events[|l.events| + i].aggregate == about
  }

  /** Each step that goes through logs its own event. */
  lemma StepsLog(l: Ledger, cfg: Settings, now: int)
    ensures forall capital, cash :: SeedWallet(l, capital, cash, now).Ok? ==>
              Logged(l, SeedWallet(l, capital, cash, now).value, [WalletSeeded], WalletAggregate)
    ensures forall input, planId :: IssuePlan(l, input, cfg, planId, now).Ok? ==>
              Logged(l, IssuePlan(l, input, cfg, planId, now).value, [PlanIssued], OfRow(planId))
    ensures forall planId :: RecordTrigger(l, cfg, planId, now) == l
                             || Logged(l, RecordTrigger(l, cfg, planId, now), [TriggerHit], OfRow(planId))
    ensures forall planId, reason :: Release(l, planId, reason, now) == l
                                     || Logged(l, Release(l, planId, reason, now), [CapacityReleased], OfRow(planId))
  {
    hide BuildTradePlan, ReleasedWallet, ReleasedStatus;
  }

  lemma PositionStepsLog(l: Ledger, cfg: Settings, id: Id, now: int)
    ensures forall stop, ref :: ProtectPosition(l, cfg, id, stop, ref, now).Ok? ==>
              Logged(l, ProtectPosition(l, cfg, id, stop, ref, now).value, [StopOrderConfirmed], OfRow(id))
    ensures forall price, quantity :: ConfirmExit(l, id, price, quantity, now).Ok? ==>
              Logged(l, ConfirmExit(l, id, price, quantity, now).value, [ExitConfirmed], OfRow(id))
  {
    hide RiskAt, MinStop, ReferenceStop, ProtectedPosition, ExitedPosition, ExitedWallet;
  }

  /** An import or a fill that leaves its row without a full stop order also logs that. */
  lemma ImportLogs(l: Ledger, a: ImportArgs, ids: ImportIds, now: int)
    requires ImportPosition(l, a, ids, now).Ok?
    ensures var l' := ImportPosition(l, a, ids, now).value;
            && ids.positionId in l'.rows.positions
            && Logged(l, l', if l'.rows.positions[ids.positionId].protection == Unprotected
                             then [PositionImported, PositionUnprotected]
                               else [PositionImported], OfRow(ids.positionId))
  {
    hide Target, RiskAt, Upper, SymbolHeld;
  }

  lemma FillLogs(l: Ledger, c: FillContext, cfg: Settings, a: FillArgs, positionId: Id, now: int)
    requires 0 < a.quantity <= c.reservation.quantity && BookFill(l, c, cfg, a, positionId, now).Ok?
    ensures var l', p := BookFill(l, c, cfg, a, positionId, now).value, FilledPosition(c, a, positionId, now);
            Logged(l, l', if p.protection == Unprotected then [FillConfirmed, PositionUnprotected] else [FillConfirmed],
                   OfRow(p.positionId))
  {
    hide FilledPosition, ProposedWallet, SnappedWallet, EffectiveStop, Consumed;
  }
}

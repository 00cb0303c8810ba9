/** Rebuilding the rows from the event log, and comparing them with the store
    (`ledger/replay.py`). */
module Rebuilding {
  import opened Prelude
  import opened Domain
  import opened Tables
  import opened Ledger

  /** The wallet an event carries, where its type says one should be. */
  function WalletSnapshot(e: Event): Result<Option<WalletState>> {
    match e.kind
    case WalletSeeded | WalletReconciled =>
      if e.payload.root.Snapshot? then Ok(Some(e.payload.root.wallet)) else Raised("INVALID_WALLET_SNAPSHOT")
    case PositionImported | CapacityReserved | CapacityReleased | FillConfirmed | StopOrderConfirmed | ExitConfirmed =>
      (match e.payload.wallet
       case Absent => Ok(None)
       case Malformed => Raised("INVALID_WALLET_SNAPSHOT")
       case Snapshot(w) => Ok(Some(w)))
    case _ => Ok(None)
  }

  function WritePositions(m: map<Id, PositionState>, ps: seq<PositionState>): map<Id, PositionState>
    decreases |ps|
  {
    if ps == [] then m else WritePositions(m[ps[0].positionId := ps[0]], ps[1..])
  }

  /** The reservation key a deletion removes. */
  function DeletedKey(e: Event): Option<Id> {
    if e.payload.plan.Some? then Some(e.payload.plan.value.planId)
    else if e.aggregate.OfRow? then Some(e.aggregate.id)
    else None
  }

  function WriteReservation(m: map<Id, Reservation>, e: Event): map<Id, Reservation> {
    var written :=
      if e.payload.reservation.Some? then m[e.payload.reservation.value.planId := e.payload.reservation.value] else m;
    if e.payload.reservationDeleted && DeletedKey(e).Some? then written - {DeletedKey(e).value} else written
  }

  function WritePlan(m: map<Id, TradePlan>, e: Event): map<Id, TradePlan> {
    if e.payload.plan.Some? then m[e.payload.plan.value.planId := e.payload.plan.value] else m
  }

  function WritePosition(m: map<Id, PositionState>, e: Event): map<Id, PositionState> {
    var written :=
      if e.payload.position.Some? then m[e.payload.position.value.positionId := e.payload.position.value] else m;
    if e.kind == ReconciliationCompleted then WritePositions(written, e.payload.positions) else written
  }

  /** An import without a position object has no row to decode. */
  function ApplyEvent(rows: Rows, e: Event): Result<Rows> {
    var snapshot := WalletSnapshot(e);
    if snapshot.Raised? then Raised(snapshot.error)
    else if e.kind == PositionImported && e.payload.position.None? then Raised("KeyError")
    else
      Ok(Rows(if snapshot.value.Some? then snapshot.value else rows.wallet,
              WritePlan(rows.plans, e),
              WriteReservation(rows.reservations, e),
              WritePosition(rows.positions, e)))
  }

  function ApplyAll(rows: Rows, events: seq<Event>): Result<Rows>
    decreases |events|
  {
    if events == [] then Ok(rows)
    else
      var next := ApplyEvent(rows, events[0]);
      if next.Raised? then next else ApplyAll(next.value, events[1..])
  }

  lemma {:induction false} ApplyAllConcat(rows: Rows, es: seq<Event>, fs: seq<Event>)
    ensures ApplyAll(rows, es + fs)
         == if ApplyAll(rows, es).Ok? then ApplyAll(ApplyAll(rows, es).value, fs) else ApplyAll(rows, es)
    decreases |es|
  {
    if es == [] {
      assert es + fs == fs;
    } else {
      var next := ApplyEvent(rows, es[0]);
      assert (es + fs)[1..] == es[1..] + fs;
      if next.Ok? {
        ApplyAllConcat(next.value, es[1..], fs);
      }
    }
  }

  lemma ApplyOne(rows: Rows, e: Event)
    ensures ApplyAll(rows, [e]) == ApplyEvent(rows, e)
  {
    assert [e][1..] == [];
  }

  lemma ApplyTwo(rows: Rows, e: Event, f: Event)
    ensures ApplyAll(rows, [e, f])
         == if ApplyEvent(rows, e).Ok? then ApplyEvent(ApplyEvent(rows, e).value, f) else ApplyEvent(rows, e)
  {
    assert [e, f] == [e] + [f];
    ApplyAllConcat(rows, [e], [f]);
    ApplyOne(rows, e);
    if ApplyEvent(rows, e).Ok? {
      ApplyOne(ApplyEvent(rows, e).value, f);
    }
  }

  /** `rebuild_state`: one pass over the log. */
  method RebuildState(events: seq<Event>) returns (r: Result<Rows>)
    ensures r == ApplyAll(NO_STATE, events)
  {
    var rows := NO_STATE;
    for i := 0 to |events|
      invariant ApplyAll(NO_STATE, events[..i]) == Ok(rows)
    {
      assert events == events[..i] + events[i..] && events[i..][0] == events[i];
      ApplyAllConcat(NO_STATE, events[..i], events[i..]);
      assert events[..i + 1] == events[..i] + [events[i]];
      ApplyAllConcat(NO_STATE, events[..i], [events[i]]);
      ApplyOne(rows, events[i]);
      var next := ApplyEvent(rows, events[i]);
      if next.Raised? {
        return next;
      }
      rows := next.value;
    }
    assert events[..|events|] == events;
    return Ok(rows);
  }

  /** The keys on which two tables disagree, counting a missing row as a difference. */
  function Differing<T(==)>(rebuilt: map<Id, T>, actual: map<Id, T>): set<Id> {
    set k | k in rebuilt.Keys + actual.Keys && (k !in rebuilt || k !in actual || rebuilt[k] != actual[k])
  }

  /** Exactly the differing keys, each once, in order. */
  ghost predicate Reports<T>(ids: seq<Id>, rebuilt: map<Id, T>, actual: map<Id, T>) {
    Ascending(ids) && forall k :: k in ids <==> k in Differing(rebuilt, actual)
  }

  /** `for key in sorted(set(rebuilt) | set(actual))`, keeping the keys that differ. */
  method CompareTable<T(==)>(rebuilt: map<Id, T>, actual: map<Id, T>) returns (differences: seq<Id>)
    ensures Reports(differences, rebuilt, actual)
  {
    differences := [];
    var keys := rebuilt.Keys + actual.Keys;
    while keys != {}
      invariant keys <= rebuilt.Keys + actual.Keys
      invariant Ascending(differences)
      invariant forall i, k :: 0 <= i < |differences| && k in keys ==> differences[i] < k
      invariant forall d :: d in differences <==> d in Differing(rebuilt, actual) - keys
      decreases keys
    {
      var key := Least(keys);
      ghost var before := differences;
      if key !in rebuilt || key !in actual || rebuilt[key] != actual[key] {
        differences := differences + [key];
      }
      assert forall d :: d in differences <==> d in before || (d == key && key in Differing(rebuilt, actual));
      keys := keys - {key};
    }
  }

  datatype Differences = Differences(wallet: bool, plans: seq<Id>, reservations: seq<Id>, positions: seq<Id>)

  /** `replay_check`: it reports nothing exactly when the log rebuilds the rows. */
  method ReplayCheck(l: Ledger) returns (r: Result<Differences>)
    ensures r.Raised? <==> ApplyAll(NO_STATE, l.events).Raised?
    ensures r.Ok? ==>
      var rebuilt := ApplyAll(NO_STATE, l.events).value;
      && (r.value.wallet <==> rebuilt.wallet != l.rows.wallet)
      && Reports(r.value.plans, rebuilt.plans, l.rows.plans)
      && Reports(r.value.reservations, rebuilt.reservations, l.rows.reservations)
      && Reports(r.value.positions, rebuilt.positions, l.rows.positions)
    ensures r == Ok(Differences(false, [], [], [])) <==> ApplyAll(NO_STATE, l.events) == Ok(l.rows)
  {
    var rebuilt := RebuildState(l.events);
    if rebuilt.Raised? {
      return Raised(rebuilt.error);
    }
    var plans := CompareTable(rebuilt.value.plans, l.rows.plans);
    var reservations := CompareTable(rebuilt.value.reservations, l.rows.reservations);
    var positions := CompareTable(rebuilt.value.positions, l.rows.positions);
    r := Ok(Differences(rebuilt.value.wallet != l.rows.wallet, plans, reservations, positions));
    NothingDiffers(rebuilt.value.plans, l.rows.plans, plans);
    NothingDiffers(rebuilt.value.reservations, l.rows.reservations, reservations);
    NothingDiffers(rebuilt.value.positions, l.rows.positions, positions);
  }

  lemma NothingDiffers<T>(rebuilt: map<Id, T>, actual: map<Id, T>, ids: seq<Id>)
    requires Reports(ids, rebuilt, actual)
    ensures ids == [] <==> rebuilt == actual
  {
    if ids != [] {
      assert ids[0] in ids;
      assert ids[0] in Differing(rebuilt, actual);
    } else {
      forall k | k in rebuilt.Keys + actual.Keys ensures k in rebuilt && k in actual && rebuilt[k] == actual[k] {
        assert k !in ids;
        assert k !in Differing(rebuilt, actual);
      }
    }
  }
}

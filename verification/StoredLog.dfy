/** Replay over the log as it is stored (`ledger/replay.py`): payloads are objects,
    rows inside them are decoded as they are met. */
module StoredLog {
  import opened Prelude
  import opened Domain
  import opened Ledger
  import opened Rebuilding
  import opened Records
  import opened Runs

  datatype StoredEvent = StoredEvent(kind: EventKind, aggregate: Aggregate, payload: Fields)

  function EncodeWalletField(w: WalletField): Option<Json> {
    match w
    case Absent => None
    case Malformed => Some(Object(map[]))
    case Snapshot(wallet) => Some(Object(EncodeWallet(wallet)))
  }

  function EncodeList(ps: seq<PositionState>): seq<Json> {
    if ps == [] then [] else [Object(EncodePosition(ps[0]))] + EncodeList(ps[1..])
  }

  /** What the service writes: a missing row is null, a seed's payload is the wallet itself. */
  function PayloadField(p: Payload, k: Key): Option<Json> {
    if k.WalletKey? then EncodeWalletField(p.wallet)
    else if k.PlanKey? then Some(if p.plan.Some? then Object(EncodePlan(p.plan.value)) else Null)
    else if k.ReservationKey? then Some(if p.reservation.Some? then Object(EncodeReservation(p.reservation.value))
                                        else Null)
    else if k.ReservationDeletedKey? then Some(Flag(p.reservationDeleted))
    else if k.PositionKey? then if p.position.Some? then Some(Object(EncodePosition(p.position.value))) else None
    else if k.PositionsKey? then Some(List(EncodeList(p.positions)))
    else if p.root.Snapshot? then Records.WalletField(p.root.wallet, k)
    else None
  }

  function EncodePayload(p: Payload): Fields {
    Written(k => PayloadField(p, k), {})
  }

  function EncodeEvent(e: Event): StoredEvent {
    StoredEvent(e.kind, e.aggregate, EncodePayload(e.payload))
  }

  function EncodeLog(events: seq<Event>): seq<StoredEvent> {
    seq(|events|, i requires 0 <= i < |events| => EncodeEvent(events[i]))
  }

  /* ---- reading ---- */

  /** A snapshot must be an object with the required fields. */
  function ReadWallet(candidate: Json): Result<WalletState> {
    if !candidate.Object? || Read(candidate.fields, CapitalBaseKey).None?
       || Read(candidate.fields, CashAvailableKey).None? then
      Raised("INVALID_WALLET_SNAPSHOT")
    else DecodeWallet(candidate.fields)
  }

  /** `_wallet_snapshot`, decoded. */
  function StoredSnapshot(e: StoredEvent): Result<Option<WalletState>> {
    match e.kind
    case WalletSeeded | WalletReconciled =>
      (var w :- ReadWallet(Object(e.payload)); Ok(Some(w)))
    case PositionImported | CapacityReserved | CapacityReleased | FillConfirmed | StopOrderConfirmed | ExitConfirmed =>
      (var candidate := Read(e.payload, WalletKey);
       if candidate.None? then Ok(None)
       else
         var w :- ReadWallet(candidate.value);
         Ok(Some(w)))
    case _ => Ok(None)
  }

  /** `payload.get(k) is not None`. */
  function Given(o: Fields, k: Key): Option<Json> {
    if Read(o, k).Some? && !Read(o, k).value.Null? then Read(o, k) else None
  }

  function AsFields(j: Json): Result<Fields> {
    if j.Object? then Ok(j.fields) else Raised("TypeError")
  }

  function StoredPlan(o: Fields): Result<Option<TradePlan>> {
    if Given(o, PlanKey).None? then Ok(None)
    else
      var fields :- AsFields(Given(o, PlanKey).value);
      var plan :- DecodePlan(fields);
      Ok(Some(plan))
  }

  function StoredReservation(o: Fields): Result<Option<Reservation>> {
    if Given(o, ReservationKey).None? then Ok(None)
    else
      var fields :- AsFields(Given(o, ReservationKey).value);
      var reservation :- DecodeReservation(fields);
      Ok(Some(reservation))
  }

  /** An import without a position object is itself the position. */
  function StoredPosition(e: StoredEvent): Result<Option<PositionState>> {
    if Given(e.payload, PositionKey).Some? then
      var fields :- AsFields(Given(e.payload, PositionKey).value);
      var position :- DecodePosition(fields);
      Ok(Some(position))
    else if e.kind == PositionImported then
      var fields :- AsFields(GetOr(e.payload, PositionKey, Object(e.payload)));
      var position :- DecodePosition(fields);
      Ok(Some(position))
    else Ok(None)
  }

  function DecodeList(items: seq<Json>): Result<seq<PositionState>> {
    if items == [] then Ok([])
    else
      var fields :- AsFields(items[0]);
      var first :- DecodePosition(fields);
      var rest :- DecodeList(items[1..]);
      Ok([first] + rest)
  }

  function StoredPositions(e: StoredEvent): Result<seq<PositionState>> {
    var listed := GetOr(e.payload, PositionsKey, List([]));
    if e.kind != ReconciliationCompleted then Ok([])
    else if !listed.List? then Raised("TypeError")
    else DecodeList(listed.items)
  }

  /** One turn of `rebuild_state`. */
  function ApplyStored(rows: Rows, e: StoredEvent): Result<Rows> {
    var wallet :- StoredSnapshot(e);
    var plan :- StoredPlan(e.payload);
    var reservation :- StoredReservation(e.payload);
    var position :- StoredPosition(e);
    var positions :- StoredPositions(e);
    var deleted := GetOr(e.payload, ReservationDeletedKey, Flag(false)) == Flag(true);
    var read := Event(e.kind, e.aggregate, Payload(Absent, Absent, plan, reservation, deleted, position, positions));
    Ok(Rows(if wallet.Some? then wallet else rows.wallet,
            WritePlan(rows.plans, read), WriteReservation(rows.reservations, read),
                WritePosition(rows.positions, read)))
  }

  function ApplyStoredAll(rows: Rows, events: seq<StoredEvent>): Result<Rows>
    decreases |events|
  {
    if events == [] then Ok(rows)
    else
      var r := ApplyStoredAll(rows, events[..|events| - 1]);
      if r.Raised? then r else ApplyStored(r.value, events[|events| - 1])
  }

  /** `rebuild_state` on the stored log. */
  method RebuildStored(events: seq<StoredEvent>) returns (r: Result<Rows>)
    ensures r == ApplyStoredAll(NO_STATE, events)
  {
    hide ApplyStored;
    var rows := NO_STATE;
    for i := 0 to |events|
      invariant ApplyStoredAll(NO_STATE, events[..i]) == Ok(rows)
    {
      assert events[..i + 1][..i] == events[..i];
      var next := ApplyStored(rows, events[i]);
      if next.Raised? {
        StoredStops(NO_STATE, events[..i + 1], events[i + 1..]);
        assert events == events[..i + 1] + events[i + 1..];
        return next;
      }
      rows := next.value;
    }
    assert events[..|events|] == events;
    r := Ok(rows);
  }

  lemma {:induction false} StoredStops(rows: Rows, events: seq<StoredEvent>, more: seq<StoredEvent>)
    requires ApplyStoredAll(rows, events).Raised?
    ensures ApplyStoredAll(rows, events + more) == ApplyStoredAll(rows, events)
    decreases |more|
  {
    hide ApplyStored;
    if more == [] {
      assert events + more == events;
    } else {
      StoredStops(rows, events, more[..|more| - 1]);
      assert (events + more)[..|events + more| - 1] == events + more[..|more| - 1];
    }
  }

  /* ---- storing loses nothing replay needs ---- */

  lemma ReadsPayload(p: Payload, k: Key)
    ensures Read(EncodePayload(p), k) == PayloadField(p, k)
  {
    ReadsWritten(k => PayloadField(p, k), {}, k);
  }

  lemma WalletReadsBack(w: WalletState)
    ensures ReadWallet(Object(EncodeWallet(w))) == Ok(w)
  {
    WalletRoundTrip(w, {});
    ReadsWallet(w, {}, CapitalBaseKey);
    ReadsWallet(w, {}, CashAvailableKey);
    hide DecodeWallet, Read, EncodeWalletWithout;
  }

  predicate OfWallet(k: Key) {
    k.CapitalBaseKey? || k.CashAvailableKey? || k.DailyRealizedLossKey? || k.OpenRiskKey? || k.ReservedCashKey?
        || k.VersionKey?
    || k.AsOfKey?
  }

  /** The wallet decoder looks at the wallet's keys only. */
  lemma WalletKeysDecide(o: Fields, p: Fields)
    requires forall k :: OfWallet(k) ==> Read(o, k) == Read(p, k)
    ensures ReadWallet(Object(o)) == ReadWallet(Object(p))
  {
    hide Read;
    assert OfWallet(CapitalBaseKey) && OfWallet(CashAvailableKey) && OfWallet(DailyRealizedLossKey)
           && OfWallet(OpenRiskKey);
    assert OfWallet(ReservedCashKey) && OfWallet(VersionKey) && OfWallet(AsOfKey);
  }

  /** A seed's payload reads as its wallet: the row keys beside it do not disturb the decoder. */
  lemma RootReadsBack(p: Payload)
    ensures ReadWallet(Object(EncodePayload(p)))
         == if p.root.Snapshot? then Ok(p.root.wallet) else Raised("INVALID_WALLET_SNAPSHOT")
  {
    hide Read, EncodePayload, EncodeWalletWithout, DecodeWallet;
    ReadsPayload(p, CapitalBaseKey);
    if p.root.Snapshot? {
      forall k | OfWallet(k) ensures Read(EncodePayload(p), k) == Read(EncodeWallet(p.root.wallet), k) {
        ReadsPayload(p, k);
        ReadsWallet(p.root.wallet, {}, k);
      }
      WalletKeysDecide(EncodePayload(p), EncodeWallet(p.root.wallet));
      WalletReadsBack(p.root.wallet);
    }
  }

  lemma SnapshotReadsBack(e: Event)
    ensures StoredSnapshot(EncodeEvent(e)) == WalletSnapshot(e)
  {
    hide ReadWallet, Read, EncodePayload, EncodeWallet;
    RootReadsBack(e.payload);
    ReadsPayload(e.payload, WalletKey);
    if e.payload.wallet.Snapshot? {
      WalletReadsBack(e.payload.wallet.wallet);
    }
    NothingIsMalformed();
  }

  lemma NothingIsMalformed()
    ensures ReadWallet(Object(map[])) == Raised("INVALID_WALLET_SNAPSHOT")
  {
  }

  lemma {:induction false} ListReadsBack(ps: seq<PositionState>)
    ensures DecodeList(EncodeList(ps)) == Ok(ps)
  {
    hide DecodePosition, EncodePosition;
    if ps != [] {
      PositionRoundTrip(ps[0], {});
      UnchangedPosition(ps[0]);
      ListReadsBack(ps[1..]);
      assert EncodeList(ps)[1..] == EncodeList(ps[1..]);
      assert [ps[0]] + ps[1..] == ps;
    }
  }

  lemma UnchangedPosition(p: PositionState)
    ensures Modernised(p, {}) == p && EncodePosition(p) == EncodePositionWithout(p, {})
  {
  }

  lemma RowsReadBack(e: Event)
    ensures var s := EncodeEvent(e);
      && StoredPlan(s.payload) == Ok(e.payload.plan)
      && StoredReservation(s.payload) == Ok(e.payload.reservation)
  {
    hide Read, EncodePayload, DecodePlan, DecodeReservation, EncodePlan, EncodeReservation;
    ReadsPayload(e.payload, PlanKey);
    ReadsPayload(e.payload, ReservationKey);
    if e.payload.plan.Some? {
      PlanReadsBack(e.payload.plan.value);
    }
    if e.payload.reservation.Some? {
      ReservationRoundTrip(e.payload.reservation.value);
    }
  }

  lemma PlanReadsBack(p: TradePlan)
    ensures DecodePlan(EncodePlan(p)) == Ok(p)
  {
    PlanRoundTrip(p, {});
  }

  lemma PositionReadsBack(e: Event)
    ensures StoredPosition(EncodeEvent(e))
         == if e.kind == PositionImported && e.payload.position.None? then Raised("KeyError")
           else Ok(e.payload.position)
  {
    hide Read, EncodePayload, DecodePosition, EncodePosition, EncodePositionWithout;
    ReadsPayload(e.payload, PositionKey);
    if e.payload.position.Some? {
      PositionRoundTrip(e.payload.position.value, {});
      UnchangedPosition(e.payload.position.value);
    } else {
      NotAPosition(e.payload);
    }
  }

  lemma NotAPosition(p: Payload)
    ensures DecodePosition(EncodePayload(p)) == Raised("KeyError")
  {
    hide Read, EncodePayload, DecodeTerms, DecodeCover;
    ReadsPayload(p, PositionIdKey);
  }

  /** Storing an event loses nothing that replay looks at. */
  lemma StoredAgrees(rows: Rows, e: Event)
    ensures ApplyStored(rows, EncodeEvent(e)) == ApplyEvent(rows, e)
  {
    hide StoredSnapshot, StoredPlan, StoredReservation, StoredPosition, WalletSnapshot, Read, EncodePayload,
         DecodeList, EncodeList, WritePositions;
    SnapshotReadsBack(e);
    RowsReadBack(e);
    PositionReadsBack(e);
    ReadsPayload(e.payload, PositionsKey);
    ReadsPayload(e.payload, ReservationDeletedKey);
    ListReadsBack(e.payload.positions);
  }

  lemma {:induction false} StoredLogAgrees(events: seq<Event>)
    ensures ApplyStoredAll(NO_STATE, EncodeLog(events)) == ApplyAll(NO_STATE, events)
    decreases |events|
  {
    hide ApplyStored, ApplyEvent;
    if events != [] {
      var before, last := events[..|events| - 1], events[|events| - 1];
      StoredLogAgrees(before);
      assert EncodeLog(events)[..|events| - 1] == EncodeLog(before);
      assert events == before + [last];
      ApplyAllConcat(NO_STATE, before, [last]);
      var r := ApplyAll(NO_STATE, before);
      if r.Ok? {
        ApplyOne(r.value, last);
        StoredAgrees(r.value, last);
      }
    }
  }

  /** Over every run the stored log rebuilds the stored rows, encoding and decoding included. */
  lemma RunRebuildsFromStore(cfg: Settings, cs: seq<Command>)
    requires AdmissibleRun(cfg, cs)
    ensures var l := Run(cfg, cs).ledger; ApplyStoredAll(NO_STATE, EncodeLog(l.events)) == Ok(l.rows)
  {
    hide ApplyStoredAll, ApplyAll, Perform;
    RunAgrees(cfg, cs);
    StoredLogAgrees(Run(cfg, cs).ledger.events);
  }
}

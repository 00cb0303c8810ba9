/** The stored form of rows and events: `asdict` on the way out, the decoders of
    `ledger/store.py` on the way in, and replay over stored payloads
    (`ledger/replay.py`). Keys and enumeration texts are symbols here. */
module Records {
  import opened Prelude
  import opened Domain
  import opened Ledger
  import opened Rebuilding

  datatype Key =
    | CapitalBaseKey | CashAvailableKey | DailyRealizedLossKey | OpenRiskKey | ReservedCashKey | VersionKey | AsOfKey
    | PlanIdKey | QuantityKey | ReservedRiskKey | ExpiresAtKey
    | SymbolKey | EntryTriggerKey | EntryZoneHighKey | StopKey | Tp1Key | Tp2Key | MaxSpreadKey | MaxSlippageKey
    | CreatedAtKey | MultiplierKey | StatusKey | TriggeredAtKey
    | PositionIdKey | RemainingKey | AverageFillKey | OpenedAtKey | TimeStopAtKey | RealizedPnlKey | ManagedKey
    | SourceKey | ClosedAtKey | ProtectionKey | BrokerStopKey | BrokerRefKey | ProtectedQuantityKey
    | ReconciliationKey | ReconciledAtKey
    | WalletKey | PlanKey | ReservationKey | ReservationDeletedKey | PositionKey | PositionsKey

  datatype Json =
    | Null
    | Number(number: real)
    | Text(text: string)
    | Flag(flag: bool)
    | Stamp(at: int)
    | Name(id: Id)
    | StatusText(status: PlanStatus)
    | ProtectionText(protection: ProtectionState)
    | ReconciliationText(reconciliation: ReconciliationState)
    | Object(fields: map<Key, Json>)
    | List(items: seq<Json>)

  type Fields = map<Key, Json>

  /* ---- reading one field ---- */

  /** `int(x)` drops the fraction. */
  function Truncate(x: real): int {
    if x >= 0.0 then x.Floor else -(-x).Floor
  }

  function Read(o: Fields, k: Key): Option<Json> {
    if k in o then Some(o[k]) else None
  }

  function Required(o: Fields, k: Key): Result<Json> {
    if Read(o, k).Some? then Ok(Read(o, k).value) else Raised("KeyError")
  }

  /** `data.get(k, default)`. */
  function GetOr(o: Fields, k: Key, default: Json): Json {
    if Read(o, k).Some? then Read(o, k).value else default
  }

  function AsFloat(j: Json): Result<real> {
    if j.Number? then Ok(j.number) else Raised("TypeError")
  }

  function AsCount(j: Json): Result<nat> {
    if !j.Number? then Raised("TypeError")
    else if Truncate(j.number) < 0 then Raised("ValueError")
    else Ok(Truncate(j.number))
  }

  function AsName(j: Json): Result<Id> {
    if j.Name? then Ok(j.id) else Raised("TypeError")
  }

  function AsText(j: Json): Result<string> {
    if j.Text? then Ok(j.text) else Raised("TypeError")
  }

  function AsStamp(j: Json): Result<int> {
    if j.Stamp? then Ok(j.at) else Raised("ValueError")
  }

  /** `float(x) if x is not None else None`, and likewise for stamps and texts. */
  function AsOptionalFloat(j: Json): Result<Option<real>> {
    if j.Null? then Ok(None) else if j.Number? then Ok(Some(j.number)) else Raised("TypeError")
  }

  function AsOptionalStamp(j: Json): Result<Option<int>> {
    if j.Null? then Ok(None) else if j.Stamp? then Ok(Some(j.at)) else Raised("ValueError")
  }

  function AsOptionalText(j: Json): Result<Option<string>> {
    if j.Null? then Ok(None) else if j.Text? then Ok(Some(j.text)) else Raised("TypeError")
  }

  function AsFlag(j: Json): Result<bool> {
    if j.Flag? then Ok(j.flag) else Raised("TypeError")
  }

  function AsProtection(j: Json): Result<ProtectionState> {
    if j.ProtectionText? then Ok(j.protection) else Raised("ValueError")
  }

  function AsReconciliation(j: Json): Result<ReconciliationState> {
    if j.ReconciliationText? then Ok(j.reconciliation) else Raised("ValueError")
  }

  function OptionalNumber(x: Option<real>): Json {
    if x.Some? then Number(x.value) else Null
  }

  function OptionalStamp(x: Option<int>): Json {
    if x.Some? then Stamp(x.value) else Null
  }

  function OptionalText(x: Option<string>): Json {
    if x.Some? then Text(x.value) else Null
  }

  function Count(n: nat): Json {
    Number(n as real)
  }

  lemma CountReadsBack(n: nat)
    ensures AsCount(Count(n)) == Ok(n)
  {
    assert (n as real).Floor == n;
  }

  /** The fields a writer gives, less those it does not know. */
  function Written(field: Key -> Option<Json>, dropped: set<Key>): Fields {
    map k: Key | field(k).Some? && k !in dropped :: field(k).value
  }

  lemma ReadsWritten(field: Key -> Option<Json>, dropped: set<Key>, k: Key)
    ensures Read(Written(field, dropped), k) == if k in dropped then None else field(k)
  {
  }

  lemma OptionalFloatReads(o: Fields, k: Key, gone: bool, x: Option<real>)
    requires Read(o, k) == if gone then None else Some(OptionalNumber(x))
    ensures AsOptionalFloat(GetOr(o, k, Null)) == Ok(if gone then None else x)
  {
  }

  lemma OptionalStampReads(o: Fields, k: Key, gone: bool, x: Option<int>)
    requires Read(o, k) == if gone then None else Some(OptionalStamp(x))
    ensures AsOptionalStamp(GetOr(o, k, Null)) == Ok(if gone then None else x)
  {
  }

  lemma OptionalTextReads(o: Fields, k: Key, gone: bool, x: Option<string>)
    requires Read(o, k) == if gone then None else Some(OptionalText(x))
    ensures AsOptionalText(GetOr(o, k, Null)) == Ok(if gone then None else x)
  {
  }

  /** A present value, or the default where the field is gone. */
  lemma GotOr(o: Fields, k: Key, gone: bool, x: Json, default: Json)
    requires Read(o, k) == if gone then None else Some(x)
    ensures GetOr(o, k, default) == if gone then default else x
  {
  }

  /* ---- wallets and reservations ---- */

  function WalletField(w: WalletState, k: Key): Option<Json> {
    if k.CapitalBaseKey? then Some(Number(w.capitalBase))
    else if k.CashAvailableKey? then Some(Number(w.cashAvailable))
    else if k.DailyRealizedLossKey? then Some(Number(w.dailyRealizedLoss))
    else if k.OpenRiskKey? then Some(Number(w.openRisk))
    else if k.ReservedCashKey? then Some(Number(w.reservedCash))
    else if k.VersionKey? then Some(Count(w.version))
    else if k.AsOfKey? then Some(OptionalStamp(w.asOf))
    else None
  }

  /** The row as a writer stores it that does not know some fields. */
  function EncodeWalletWithout(w: WalletState, dropped: set<Key>): Fields {
    Written(k => WalletField(w, k), dropped)
  }

  lemma ReadsWallet(w: WalletState, dropped: set<Key>, k: Key)
    ensures Read(EncodeWalletWithout(w, dropped), k) == if k in dropped then None else WalletField(w, k)
  {
    ReadsWritten(k => WalletField(w, k), dropped, k);
  }

  function EncodeWallet(w: WalletState): Fields {
    EncodeWalletWithout(w, {})
  }

  function DecodeWallet(o: Fields): Result<WalletState> {
    var capital0 :- Required(o, CapitalBaseKey);
    var capital :- AsFloat(capital0);
    var cash0 :- Required(o, CashAvailableKey);
    var cash :- AsFloat(cash0);
    var loss :- AsFloat(GetOr(o, DailyRealizedLossKey, Number(0.0)));
    var risk :- AsFloat(GetOr(o, OpenRiskKey, Number(0.0)));
    var reserved :- AsFloat(GetOr(o, ReservedCashKey, Number(0.0)));
    var version :- AsCount(GetOr(o, VersionKey, Number(1.0)));
    var asOf :- AsOptionalStamp(GetOr(o, AsOfKey, Null));
    Ok(WalletState(capital, cash, loss, risk, reserved, version, asOf))
  }

  predicate OptionalInWallet(k: Key) {
    k.DailyRealizedLossKey? || k.OpenRiskKey? || k.ReservedCashKey? || k.VersionKey? || k.AsOfKey?
  }

  /** A wallet as an older writer stored it, without some of its later fields, reads
      back with exactly those fields at their defaults; nothing dropped, nothing lost. */
  lemma WalletRoundTrip(w: WalletState, dropped: set<Key>)
    requires forall k :: k in dropped ==> OptionalInWallet(k)
    ensures DecodeWallet(EncodeWalletWithout(w, dropped))
         == Ok(w.(dailyRealizedLoss := if DailyRealizedLossKey in dropped then 0.0 else w.dailyRealizedLoss,
                  openRisk := if OpenRiskKey in dropped then 0.0 else w.openRisk,
                  reservedCash := if ReservedCashKey in dropped then 0.0 else w.reservedCash,
                  version := if VersionKey in dropped then 1 else w.version,
                  asOf := if AsOfKey in dropped then None else w.asOf))
  {
    ReadsWallet(w, dropped, CapitalBaseKey);
    ReadsWallet(w, dropped, CashAvailableKey);
    ReadsWallet(w, dropped, DailyRealizedLossKey);
    ReadsWallet(w, dropped, OpenRiskKey);
    ReadsWallet(w, dropped, ReservedCashKey);
    ReadsWallet(w, dropped, VersionKey);
    ReadsWallet(w, dropped, AsOfKey);
    CountReadsBack(w.version);
    CountReadsBack(1);
    hide AsCount, Read, EncodeWalletWithout;
  }

  function ReservationField(r: Reservation, k: Key): Option<Json> {
    if k.PlanIdKey? then Some(Name(r.planId))
    else if k.QuantityKey? then Some(Count(r.quantity))
    else if k.ReservedCashKey? then Some(Number(r.reservedCash))
    else if k.ReservedRiskKey? then Some(Number(r.reservedRisk))
    else if k.ExpiresAtKey? then Some(Stamp(r.expiresAt))
    else None
  }

  /** The row as a writer stores it that does not know some fields. */
  function EncodeReservationWithout(r: Reservation, dropped: set<Key>): Fields {
    Written(k => ReservationField(r, k), dropped)
  }

  lemma ReadsReservation(r: Reservation, dropped: set<Key>, k: Key)
    ensures Read(EncodeReservationWithout(r, dropped), k) == if k in dropped then None else ReservationField(r, k)
  {
    ReadsWritten(k => ReservationField(r, k), dropped, k);
  }

  function EncodeReservation(r: Reservation): Fields {
    EncodeReservationWithout(r, {})
  }

  function DecodeReservation(o: Fields): Result<Reservation> {
    var planId0 :- Required(o, PlanIdKey);
    var planId :- AsName(planId0);
    var quantity0 :- Required(o, QuantityKey);
    var quantity :- AsCount(quantity0);
    var cash0 :- Required(o, ReservedCashKey);
    var cash :- AsFloat(cash0);
    var risk0 :- Required(o, ReservedRiskKey);
    var risk :- AsFloat(risk0);
    var expires0 :- Required(o, ExpiresAtKey);
    var expires :- AsStamp(expires0);
    Ok(Reservation(planId, quantity, cash, risk, expires))
  }

  lemma ReservationRoundTrip(r: Reservation)
    ensures DecodeReservation(EncodeReservation(r)) == Ok(r)
  {
    ReadsReservation(r, {}, PlanIdKey);
    ReadsReservation(r, {}, QuantityKey);
    ReadsReservation(r, {}, ReservedCashKey);
    ReadsReservation(r, {}, ReservedRiskKey);
    ReadsReservation(r, {}, ExpiresAtKey);
    CountReadsBack(r.quantity);
    hide AsCount, Read, EncodeReservationWithout;
  }

  /* ---- plans ---- */

  function PlanField(p: TradePlan, k: Key): Option<Json> {
    if k.PlanIdKey? then Some(Name(p.planId))
    else if k.SymbolKey? then Some(Text(p.symbol))
    else if k.EntryTriggerKey? then Some(Number(p.entryTrigger))
    else if k.EntryZoneHighKey? then Some(Number(p.entryZoneHigh))
    else if k.StopKey? then Some(Number(p.stop))
    else if k.Tp1Key? then Some(Number(p.tp1))
    else if k.Tp2Key? then Some(Number(p.tp2))
    else if k.MaxSpreadKey? then Some(Number(p.maxSpreadPct))
    else if k.MaxSlippageKey? then Some(Number(p.maxSlippagePct))
    else if k.CreatedAtKey? then Some(Stamp(p.createdAt))
    else if k.ExpiresAtKey? then Some(Stamp(p.expiresAt))
    else if k.MultiplierKey? then Some(Number(p.qualityRiskMultiplier))
    else if k.StatusKey? then Some(StatusText(p.status))
    else if k.TriggeredAtKey? then Some(OptionalStamp(p.triggeredAt))
    else None
  }

  /** The row as a writer stores it that does not know some fields. */
  function EncodePlanWithout(p: TradePlan, dropped: set<Key>): Fields {
    Written(k => PlanField(p, k), dropped)
  }

  lemma ReadsPlan(p: TradePlan, dropped: set<Key>, k: Key)
    ensures Read(EncodePlanWithout(p, dropped), k) == if k in dropped then None else PlanField(p, k)
  {
    ReadsWritten(k => PlanField(p, k), dropped, k);
  }

  function EncodePlan(p: TradePlan): Fields {
    EncodePlanWithout(p, {})
  }

  function FloatAt(o: Fields, k: Key): Result<real> {
    var j :- Required(o, k);
    AsFloat(j)
  }

  function StampAt(o: Fields, k: Key): Result<int> {
    var j :- Required(o, k);
    AsStamp(j)
  }

  function NameAt(o: Fields, k: Key): Result<Id> {
    var j :- Required(o, k);
    AsName(j)
  }

  function TextAt(o: Fields, k: Key): Result<string> {
    var j :- Required(o, k);
    AsText(j)
  }

  function CountAt(o: Fields, k: Key): Result<nat> {
    var j :- Required(o, k);
    AsCount(j)
  }

  datatype PlanLevels = PlanLevels(symbol: string, entryTrigger: real, entryZoneHigh: real, stop: real, tp1: real,
                                   tp2: real)

  function DecodeLevels(o: Fields): Result<PlanLevels> {
    var symbol :- TextAt(o, SymbolKey);
    var trigger :- FloatAt(o, EntryTriggerKey);
    var zone :- FloatAt(o, EntryZoneHighKey);
    var stop :- AsFloat(GetOr(o, StopKey, Null));
    var tp1 :- AsFloat(GetOr(o, Tp1Key, Null));
    var tp2 :- AsFloat(GetOr(o, Tp2Key, Null));
    Ok(PlanLevels(symbol, trigger, zone, stop, tp1, tp2))
  }

  function DecodePlan(o: Fields): Result<TradePlan> {
    var levels :- DecodeLevels(o);
    var spread :- FloatAt(o, MaxSpreadKey);
    var slippage :- FloatAt(o, MaxSlippageKey);
    var created :- StampAt(o, CreatedAtKey);
    var expires :- StampAt(o, ExpiresAtKey);
    var multiplier :- FloatAt(o, MultiplierKey);
    var planId :- NameAt(o, PlanIdKey);
    var status :- AsPlanStatus(GetOr(o, StatusKey, StatusText(PlanActive)));
    var triggered :- AsOptionalStamp(GetOr(o, TriggeredAtKey, Null));
    Ok(TradePlan(planId, levels.symbol, levels.entryTrigger, levels.entryZoneHigh, levels.stop, levels.tp1, levels.tp2,
                 spread, slippage, created, expires, multiplier, status, triggered))
  }

  function AsPlanStatus(j: Json): Result<PlanStatus> {
    if j.StatusText? then Ok(j.status) else Raised("ValueError")
  }

  lemma LevelsReadBack(p: TradePlan, dropped: set<Key>)
    requires forall k :: k in dropped ==> OptionalInPlan(k)
    ensures DecodeLevels(EncodePlanWithout(p, dropped))
         == Ok(PlanLevels(p.symbol, p.entryTrigger, p.entryZoneHigh, p.stop, p.tp1, p.tp2))
  {
    hide Read, EncodePlanWithout;
    ReadsPlan(p, dropped, SymbolKey);
    ReadsPlan(p, dropped, EntryTriggerKey);
    ReadsPlan(p, dropped, EntryZoneHighKey);
    ReadsPlan(p, dropped, StopKey);
    ReadsPlan(p, dropped, Tp1Key);
    ReadsPlan(p, dropped, Tp2Key);
  }

  predicate OptionalInPlan(k: Key) {
    k.StatusKey? || k.TriggeredAtKey?
  }

  /** A plan reads back as it was; without its later fields it is active and untriggered. */
  lemma PlanRoundTrip(p: TradePlan, dropped: set<Key>)
    requires forall k :: k in dropped ==> OptionalInPlan(k)
    ensures DecodePlan(EncodePlanWithout(p, dropped))
         == Ok(p.(status := if StatusKey in dropped then PlanActive else p.status,
                  triggeredAt := if TriggeredAtKey in dropped then None else p.triggeredAt))
  {
    hide Read, EncodePlanWithout, DecodeLevels;
    LevelsReadBack(p, dropped);
    ReadsPlan(p, dropped, MaxSpreadKey);
    ReadsPlan(p, dropped, MaxSlippageKey);
    ReadsPlan(p, dropped, CreatedAtKey);
    ReadsPlan(p, dropped, ExpiresAtKey);
    ReadsPlan(p, dropped, MultiplierKey);
    ReadsPlan(p, dropped, PlanIdKey);
    ReadsPlan(p, dropped, StatusKey);
    ReadsPlan(p, dropped, TriggeredAtKey);
    var o := EncodePlanWithout(p, dropped);
    GotOr(o, StatusKey, StatusKey in dropped, StatusText(p.status), StatusText(PlanActive));
    OptionalStampReads(o, TriggeredAtKey, TriggeredAtKey in dropped, p.triggeredAt);
    assert FloatAt(o, MaxSpreadKey) == Ok(p.maxSpreadPct) && FloatAt(o, MaxSlippageKey) == Ok(p.maxSlippagePct);
    assert StampAt(o, CreatedAtKey) == Ok(p.createdAt) && StampAt(o, ExpiresAtKey) == Ok(p.expiresAt);
    assert FloatAt(o, MultiplierKey) == Ok(p.qualityRiskMultiplier) && NameAt(o, PlanIdKey) == Ok(p.planId);
    hide PlanField, GetOr, FloatAt, StampAt, NameAt, AsOptionalStamp, OptionalInPlan;
  }

  /* ---- positions ---- */

  function PositionField(p: PositionState, k: Key): Option<Json> {
    if k.PositionIdKey? then Some(Name(p.positionId))
    else if k.PlanIdKey? then Some(Name(p.planId))
    else if k.SymbolKey? then Some(Text(p.symbol))
    else if k.QuantityKey? then Some(Count(p.quantity))
    else if k.RemainingKey? then Some(Count(p.remainingQuantity))
    else if k.AverageFillKey? then Some(Number(p.averageFill))
    else if k.StopKey? then Some(OptionalNumber(p.stop))
    else if k.Tp1Key? then Some(OptionalNumber(p.tp1))
    else if k.Tp2Key? then Some(OptionalNumber(p.tp2))
    else if k.OpenedAtKey? then Some(Stamp(p.openedAt))
    else if k.TimeStopAtKey? then Some(OptionalStamp(p.timeStopAt))
    else if k.RealizedPnlKey? then Some(Number(p.realizedPnl))
    else if k.ManagedKey? then Some(Flag(p.managed))
    else if k.SourceKey? then Some(Text(p.source))
    else if k.ClosedAtKey? then Some(OptionalStamp(p.closedAt))
    else if k.ProtectionKey? then Some(ProtectionText(p.protection))
    else if k.BrokerStopKey? then Some(OptionalNumber(p.brokerStopPrice))
    else if k.BrokerRefKey? then Some(OptionalText(p.brokerOrderRef))
    else if k.ProtectedQuantityKey? then Some(Count(p.protectedQuantity))
    else if k.ReconciliationKey? then Some(ReconciliationText(p.reconciliationState))
    else if k.ReconciledAtKey? then Some(OptionalStamp(p.lastReconciledAt))
    else None
  }

  /** The row as a writer stores it that does not know some fields. */
  function EncodePositionWithout(p: PositionState, dropped: set<Key>): Fields {
    Written(k => PositionField(p, k), dropped)
  }

  lemma ReadsPosition(p: PositionState, dropped: set<Key>, k: Key)
    ensures Read(EncodePositionWithout(p, dropped), k) == if k in dropped then None else PositionField(p, k)
  {
    ReadsWritten(k => PositionField(p, k), dropped, k);
  }

  function EncodePosition(p: PositionState): Fields {
    EncodePositionWithout(p, {})
  }

  /** Rows older than the protected share count: all remaining shares, if protected. */
  function ProtectedDefault(o: Fields): Json {
    if GetOr(o, ProtectionKey, Null) == ProtectionText(Protected) then GetOr(o, RemainingKey, Null) else Number(0.0)
  }

  datatype HeldPart = HeldPart(positionId: Id, planId: Id, symbol: string, quantity: nat, remaining: nat,
                               averageFill: real)

  datatype TermPart = TermPart(stop: Option<real>, tp1: Option<real>, tp2: Option<real>, openedAt: int,
                               timeStopAt: Option<int>, realizedPnl: real, managed: bool)

  datatype CoverPart = CoverPart(closedAt: Option<int>, protection: ProtectionState, brokerStop: Option<real>,
                                 brokerRef: Option<string>,
                           protectedQuantity: nat, reconciliation: ReconciliationState, reconciledAt: Option<int>)

  function DecodeHolding(o: Fields): Result<HeldPart> {
    var positionId :- NameAt(o, PositionIdKey);
    var planId :- NameAt(o, PlanIdKey);
    var symbol :- TextAt(o, SymbolKey);
    var quantity :- CountAt(o, QuantityKey);
    var remaining :- CountAt(o, RemainingKey);
    var average :- FloatAt(o, AverageFillKey);
    Ok(HeldPart(positionId, planId, symbol, quantity, remaining, average))
  }

  function DecodeTerms(o: Fields): Result<TermPart> {
    var stop :- AsOptionalFloat(GetOr(o, StopKey, Null));
    var tp1 :- AsOptionalFloat(GetOr(o, Tp1Key, Null));
    var tp2 :- AsOptionalFloat(GetOr(o, Tp2Key, Null));
    var since :- StampAt(o, OpenedAtKey);
    var timeStop :- AsOptionalStamp(GetOr(o, TimeStopAtKey, Null));
    var pnl :- AsFloat(GetOr(o, RealizedPnlKey, Number(0.0)));
    var managed :- AsFlag(GetOr(o, ManagedKey, Flag(true)));
    Ok(TermPart(stop, tp1, tp2, since, timeStop, pnl, managed))
  }

  function DecodeSource(o: Fields): Result<string> {
    AsText(GetOr(o, SourceKey, Text("FILL_ACK")))
  }

  function DecodeCover(o: Fields): Result<CoverPart> {
    var closed :- AsOptionalStamp(GetOr(o, ClosedAtKey, Null));
    var protection :- AsProtection(GetOr(o, ProtectionKey, ProtectionText(Unprotected)));
    var brokerStop :- AsOptionalFloat(GetOr(o, BrokerStopKey, Null));
    var brokerRef :- AsOptionalText(GetOr(o, BrokerRefKey, Null));
    var covered :- AsCount(GetOr(o, ProtectedQuantityKey, ProtectedDefault(o)));
    var reconciliation :- AsReconciliation(GetOr(o, ReconciliationKey, ReconciliationText(Unreconciled)));
    var reconciledAt :- AsOptionalStamp(GetOr(o, ReconciledAtKey, Null));
    Ok(CoverPart(closed, protection, brokerStop, brokerRef, covered, reconciliation, reconciledAt))
  }

  function DecodePosition(o: Fields): Result<PositionState> {
    var h :- DecodeHolding(o);
    var t :- DecodeTerms(o);
    var source :- DecodeSource(o);
    var c :- DecodeCover(o);
    Ok(PositionState(h.positionId, h.planId, h.symbol, h.quantity, h.remaining, h.averageFill, t.stop, t.tp1, t.tp2,
                     t.openedAt, t.timeStopAt, t.realizedPnl, t.managed, source, c.closedAt, c.protection,
                     c.brokerStop, c.brokerRef,
                     c.protectedQuantity, c.reconciliation, c.reconciledAt))
  }

  predicate OptionalInPosition(k: Key) {
    || k.StopKey? || k.Tp1Key? || k.Tp2Key? || k.TimeStopAtKey? || k.RealizedPnlKey? || k.ManagedKey? || k.SourceKey?
       || k.ClosedAtKey?
    || k.ProtectionKey? || k.BrokerStopKey? || k.BrokerRefKey? || k.ProtectedQuantityKey? || k.ReconciliationKey?
    || k.ReconciledAtKey?
  }

  /** The position an older row stands for. */
  function Modernised(p: PositionState, dropped: set<Key>): PositionState {
    var protection := if ProtectionKey in dropped then Unprotected else p.protection;
    p.(stop := if StopKey in dropped then None else p.stop,
       tp1 := if Tp1Key in dropped then None else p.tp1,
       tp2 := if Tp2Key in dropped then None else p.tp2,
       timeStopAt := if TimeStopAtKey in dropped then None else p.timeStopAt,
       realizedPnl := if RealizedPnlKey in dropped then 0.0 else p.realizedPnl,
       managed := if ManagedKey in dropped then true else p.managed,
       source := if SourceKey in dropped then "FILL_ACK" else p.source,
       closedAt := if ClosedAtKey in dropped then None else p.closedAt,
       protection := protection,
       brokerStopPrice := if BrokerStopKey in dropped then None else p.brokerStopPrice,
       brokerOrderRef := if BrokerRefKey in dropped then None else p.brokerOrderRef,
       protectedQuantity :=
         if ProtectedQuantityKey !in dropped then p.protectedQuantity
         else if protection == Protected then p.remainingQuantity else 0,
       reconciliationState := if ReconciliationKey in dropped then Unreconciled else p.reconciliationState,
       lastReconciledAt := if ReconciledAtKey in dropped then None else p.lastReconciledAt)
  }

  lemma HoldingReadsBack(p: PositionState, dropped: set<Key>)
    requires forall k :: k in dropped ==> OptionalInPosition(k)
    ensures DecodeHolding(EncodePositionWithout(p, dropped))
         == Ok(HeldPart(p.positionId, p.planId, p.symbol, p.quantity, p.remainingQuantity, p.averageFill))
  {
    hide Read, EncodePositionWithout, AsCount, Count;
    ReadsPosition(p, dropped, PositionIdKey);
    ReadsPosition(p, dropped, PlanIdKey);
    ReadsPosition(p, dropped, SymbolKey);
    ReadsPosition(p, dropped, QuantityKey);
    ReadsPosition(p, dropped, RemainingKey);
    ReadsPosition(p, dropped, AverageFillKey);
    CountReadsBack(p.quantity);
    CountReadsBack(p.remainingQuantity);
  }

  lemma TermsReadBack(p: PositionState, dropped: set<Key>)
    requires forall k :: k in dropped ==> OptionalInPosition(k)
    ensures var q := Modernised(p, dropped);
            DecodeTerms(EncodePositionWithout(p, dropped)) ==
            Ok(TermPart(q.stop, q.tp1, q.tp2, q.openedAt, q.timeStopAt, q.realizedPnl, q.managed))
  {
    hide Read, EncodePositionWithout;
    ReadsPosition(p, dropped, StopKey);
    ReadsPosition(p, dropped, Tp1Key);
    ReadsPosition(p, dropped, Tp2Key);
    ReadsPosition(p, dropped, OpenedAtKey);
    ReadsPosition(p, dropped, TimeStopAtKey);
    ReadsPosition(p, dropped, RealizedPnlKey);
    ReadsPosition(p, dropped, ManagedKey);
    var o := EncodePositionWithout(p, dropped);
    OptionalFloatReads(o, StopKey, StopKey in dropped, p.stop);
    OptionalFloatReads(o, Tp1Key, Tp1Key in dropped, p.tp1);
    OptionalFloatReads(o, Tp2Key, Tp2Key in dropped, p.tp2);
    OptionalStampReads(o, TimeStopAtKey, TimeStopAtKey in dropped, p.timeStopAt);
    GotOr(o, RealizedPnlKey, RealizedPnlKey in dropped, Number(p.realizedPnl), Number(0.0));
    GotOr(o, ManagedKey, ManagedKey in dropped, Flag(p.managed), Flag(true));
    assert StampAt(o, OpenedAtKey) == Ok(p.openedAt);
    hide PositionField, GetOr, StampAt, AsOptionalFloat, AsOptionalStamp, OptionalInPosition;
  }

  lemma SourceReadsBack(p: PositionState, dropped: set<Key>)
    requires forall k :: k in dropped ==> OptionalInPosition(k)
    ensures DecodeSource(EncodePositionWithout(p, dropped)) == Ok(Modernised(p, dropped).source)
  {
    hide Read, EncodePositionWithout;
    ReadsPosition(p, dropped, SourceKey);
    GotOr(EncodePositionWithout(p, dropped), SourceKey, SourceKey in dropped, Text(p.source), Text("FILL_ACK"));
  }

  lemma CoveredReadsBack(p: PositionState, dropped: set<Key>)
    requires forall k :: k in dropped ==> OptionalInPosition(k)
    ensures var o := EncodePositionWithout(p, dropped);
            AsCount(GetOr(o, ProtectedQuantityKey, ProtectedDefault(o))) == Ok(Modernised(p, dropped).protectedQuantity)
  {
    hide Read, EncodePositionWithout, AsCount;
    ReadsPosition(p, dropped, ProtectionKey);
    ReadsPosition(p, dropped, RemainingKey);
    ReadsPosition(p, dropped, ProtectedQuantityKey);
    CountReadsBack(p.remainingQuantity);
    CountReadsBack(p.protectedQuantity);
    CountReadsBack(0);
    var o := EncodePositionWithout(p, dropped);
    GotOr(o, ProtectionKey, ProtectionKey in dropped, ProtectionText(p.protection), Null);
    GotOr(o, RemainingKey, false, Count(p.remainingQuantity), Null);
    GotOr(o, ProtectedQuantityKey, ProtectedQuantityKey in dropped, Count(p.protectedQuantity), ProtectedDefault(o));
    hide PositionField, GetOr, OptionalInPosition;
  }

  lemma CoverReadsBack(p: PositionState, dropped: set<Key>)
    requires forall k :: k in dropped ==> OptionalInPosition(k)
    ensures var q := Modernised(p, dropped);
            DecodeCover(EncodePositionWithout(p, dropped)) ==
            Ok(CoverPart(q.closedAt, q.protection, q.brokerStopPrice, q.brokerOrderRef, q.protectedQuantity,
                         q.reconciliationState, q.lastReconciledAt))
  {
    hide Read, EncodePositionWithout, ProtectedDefault, AsCount, Count;
    CoveredReadsBack(p, dropped);
    ReadsPosition(p, dropped, ClosedAtKey);
    ReadsPosition(p, dropped, ProtectionKey);
    ReadsPosition(p, dropped, BrokerStopKey);
    ReadsPosition(p, dropped, BrokerRefKey);
    ReadsPosition(p, dropped, ReconciliationKey);
    ReadsPosition(p, dropped, ReconciledAtKey);
    var o := EncodePositionWithout(p, dropped);
    OptionalStampReads(o, ClosedAtKey, ClosedAtKey in dropped, p.closedAt);
    GotOr(o, ProtectionKey, ProtectionKey in dropped, ProtectionText(p.protection), ProtectionText(Unprotected));
    OptionalFloatReads(o, BrokerStopKey, BrokerStopKey in dropped, p.brokerStopPrice);
    OptionalTextReads(o, BrokerRefKey, BrokerRefKey in dropped, p.brokerOrderRef);
    GotOr(o, ReconciliationKey, ReconciliationKey in dropped, ReconciliationText(p.reconciliationState),
          ReconciliationText(Unreconciled));
    OptionalStampReads(o, ReconciledAtKey, ReconciledAtKey in dropped, p.lastReconciledAt);
    hide PositionField, GetOr, AsOptionalFloat, AsOptionalStamp, AsOptionalText, OptionalInPosition;
  }

  /** A position reads back as it was; as an older writer stored it, each missing
      field takes its default, and the protected share count follows the protection. */
  lemma PositionRoundTrip(p: PositionState, dropped: set<Key>)
    requires forall k :: k in dropped ==> OptionalInPosition(k)
    ensures DecodePosition(EncodePositionWithout(p, dropped)) == Ok(Modernised(p, dropped))
  {
    HoldingReadsBack(p, dropped);
    TermsReadBack(p, dropped);
    SourceReadsBack(p, dropped);
    CoverReadsBack(p, dropped);
    hide DecodeHolding, DecodeTerms, DecodeSource, DecodeCover, EncodePositionWithout;
  }
}

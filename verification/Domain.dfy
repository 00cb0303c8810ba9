/** The records of the decision service, with exact reals for prices and
    integer seconds for timestamps. Rows are values: the store hands out copies
    and takes copies back, as its SQL implementation does. */
module Domain {
  import opened Prelude

  /** Identifiers are opaque; their order stands for the order of the id strings. */
  type Id = int

  datatype StrategyLane = CoreMomentum | EventMomentum | Speculative

  datatype SignalState = Watch | Armed | BuyNow | Expired | Invalid | NoTrade

  datatype PlanStatus = PlanActive | PlanReserved | PlanFilled | PlanExpired | PlanCancelled

  datatype ProtectionState = Protected | Unprotected

  datatype ReconciliationState = Reconciled | Unreconciled | MissingAtBroker

  datatype WalletState = WalletState(
    capitalBase: real,
    cashAvailable: real,
    dailyRealizedLoss: real,
    openRisk: real,
    reservedCash: real,
    version: nat,
    asOf: Option<int>)

  /** A plan as `build_trade_plan` issues it: its protective levels are always present. */
  datatype TradePlan = TradePlan(
    planId: Id,
    symbol: string,
    entryTrigger: real,
    entryZoneHigh: real,
    stop: real,
    tp1: real,
    tp2: real,
    maxSpreadPct: real,
    maxSlippagePct: real,
    createdAt: int,
    expiresAt: int,
    qualityRiskMultiplier: real,
    status: PlanStatus,
    triggeredAt: Option<int>)
  {
    function RiskPerShare(): real {
      entryTrigger - stop
    }
  }

  datatype Reservation = Reservation(
    planId: Id,
    quantity: nat,
    reservedCash: real,
    reservedRisk: real,
    expiresAt: int)

  datatype PositionState = PositionState(
    positionId: Id,
    planId: Id,
    symbol: string,
    quantity: nat,
    remainingQuantity: nat,
    averageFill: real,
    stop: Option<real>,
    tp1: Option<real>,
    tp2: Option<real>,
    openedAt: int,
    timeStopAt: Option<int>,
    realizedPnl: real,
    managed: bool,
    source: string,
    closedAt: Option<int>,
    protection: ProtectionState,
    brokerStopPrice: Option<real>,
    brokerOrderRef: Option<string>,
    protectedQuantity: nat,
    reconciliationState: ReconciliationState,
    lastReconciledAt: Option<int>)
  {
    predicate Open() {
      closedAt.None? && remainingQuantity > 0
    }

    /** The symbol as it is compared. */
    function Ticker(): string {
      Upper(symbol)
    }
  }

  datatype MarketSnapshot = MarketSnapshot(
    symbol: string,
    last: real,
    bid: Option<real>,
    ask: Option<real>,
    vwap: Option<real>,
    openingRangeHigh: Option<real>,
    openingRangeLow: Option<real>,
    retestLow: Option<real>,
    atr14: Option<real>,
    atr14Pct: Option<real>,
    remainingAtr: Option<real>,
    catalystVerified: bool,
    catalystStrength: real,
    dataAgeSeconds: Option<real>,
    sourceId: Option<string>,
    authoritative: bool,
    halted: bool)

  /** Upper case, on the letters of tickers. */
  function Upper(s: string): string {
    seq(|s|, i requires 0 <= i < |s| => if 'a' <= s[i] <= 'z' then s[i] - 'a' + 'A' else s[i])
  }

  predicate Space(c: char) {
    c in " \t\n\r"
  }

  function Strip(s: string): string {
    if s == [] then s
    else if Space(s[0]) then Strip(s[1..])
    else if Space(s[|s| - 1]) then Strip(s[..|s| - 1])
    else s
  }

  predicate Contains(s: string, part: string) {
    part <= s || (s != [] && Contains(s[1..], part))
  }

  /** Letters of tickers are raised, everything else stays, and raising again changes nothing. */
  lemma UpperMeaning(s: string)
    ensures |Upper(s)| == |s| && Upper(Upper(s)) == Upper(s)
    ensures forall i :: 0 <= i < |s| ==>
              && !('a' <= Upper(s)[i] <= 'z')
              && (if 'a' <= s[i] <= 'z' then Upper(s)[i] as int == s[i] as int - 32 else Upper(s)[i] == s[i])
  {
  }

  ghost predicate AllSpace(s: string) {
    forall c :: c in s ==> Space(c)
  }

  /** What is stripped is white space at both ends, all of it and nothing else. */
  lemma {:induction false} StripMeaning(s: string) returns (left: string, right: string)
    ensures AllSpace(left) && AllSpace(right) && s == left + Strip(s) + right
    ensures Strip(s) != "" ==> !Space(Strip(s)[0]) && !Space(Strip(s)[|Strip(s)| - 1])
    decreases |s|
  {
    left, right := "", "";
    if s == "" {
    } else if Space(s[0]) {
      left, right := StripMeaning(s[1..]);
      left := [s[0]] + left;
    } else if Space(s[|s| - 1]) {
      left, right := StripMeaning(s[..|s| - 1]);
      right := right + [s[|s| - 1]];
    }
  }

  lemma SpaceMeaning(c: char)
    ensures Space(c) <==> c == ' ' || c == '\t' || c == '\n' || c == '\r'
  {
  }

  /** A text occurs in another, at some place. */
  predicate OccursAt(text: string, part: string, i: int) {
    0 <= i && i + |part| <= |text| && text[i..i + |part|] == part
  }

  ghost predicate Occurs(text: string, part: string) {
    exists i :: OccursAt(text, part, i)
  }

  lemma {:induction false} ContainsIsOccurs(text: string, part: string)
    ensures Contains(text, part) <==> Occurs(text, part)
    decreases |text|
  {
    if part <= text {
      assert OccursAt(text, part, 0);
    } else if text != [] {
      ContainsIsOccurs(text[1..], part);
      if Occurs(text[1..], part) {
        var i :| OccursAt(text[1..], part, i);
        assert OccursAt(text, part, i + 1);
      }
      if Occurs(text, part) {
        var i :| OccursAt(text, part, i);
        assert OccursAt(text[1..], part, i - 1);
      }
    }
  }

  predicate IsKeylessSource(sourceId: Option<string>) {
    sourceId.Some? && (Contains(sourceId.value, "YAHOO") || Contains(sourceId.value, "CBOE_DELAYED"))
  }

  datatype Settings = Settings(
    maxTradeRiskPct: real,
    maxDailyLossPct: real,
    maxPositionNotionalPct: real,
    maxConcurrentPositions: nat,
    planTtlSeconds: nat,
    reservationTtlSeconds: nat,
    maxMarketDataAgeSeconds: real,
    maxDelayedAgeMinutes: real,
    retestWindowMinutes: nat,
    minRiskPct: real,
    minOpeningRangePct: real,
    minAtrPct: real,
    atrTargetBudgetMultiplier: real,
    speculativeEnabled: bool,
    fillRiskTolerance: real,
    stopTolerancePct: real,
    tolerance: real)
  {
    /** The boundaries the settings validator enforces. `tolerance` is the slack
        the service writes as 1e-9; zero gives the exact laws. */
    predicate Valid() {
      && 0.0 < maxTradeRiskPct <= 1.0
      && 0.0 < maxDailyLossPct <= 2.0
      && 0.0 < maxPositionNotionalPct <= 100.0
      && maxConcurrentPositions > 0
      && 0.0 <= fillRiskTolerance <= 1.0
      && 0.0 <= stopTolerancePct <= 5.0
      && 0.0 < minRiskPct
      && 0.0 <= tolerance <= 0.000000001
    }
  }
}

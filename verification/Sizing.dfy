/** Position sizing (`engines/wallet.py`): the largest whole quantity the risk,
    cash and notional limits admit. */
module Sizing {
  import opened Prelude
  import opened Domain

  datatype SizeResult = SizeResult(
    allowed: bool, quantity: nat, riskDollars: real, cashRequired: real, reasons: seq<string>)

  datatype Limits = Limits(tradeRiskPct: real, dailyLossPct: real, positionNotionalPct: real)

  function LimitsOf(cfg: Settings): Limits {
    Limits(cfg.maxTradeRiskPct, cfg.maxDailyLossPct, cfg.maxPositionNotionalPct)
  }

  function SizingEntry(plan: TradePlan, entryPrice: Option<real>): real {
    if entryPrice.None? then plan.entryZoneHigh else entryPrice.value
  }

  function SizingRisk(plan: TradePlan, entryPrice: Option<real>): real {
    if entryPrice.None? then plan.RiskPerShare() else entryPrice.value - plan.stop
  }

  function RemainingDaily(wallet: WalletState, limits: Limits): real {
    wallet.capitalBase * limits.dailyLossPct / 100.0 - wallet.dailyRealizedLoss - wallet.openRisk
  }

  function BaseBudget(wallet: WalletState, limits: Limits): real {
    Min(wallet.capitalBase * limits.tradeRiskPct / 100.0, RemainingDaily(wallet, limits))
  }

  function RiskBudget(wallet: WalletState, plan: TradePlan, limits: Limits): real {
    BaseBudget(wallet, limits) * plan.qualityRiskMultiplier
  }

  function FreeCash(wallet: WalletState): real {
    Max(0.0, wallet.cashAvailable - wallet.reservedCash)
  }

  function NotionalLimit(wallet: WalletState, limits: Limits): real {
    wallet.capitalBase * limits.positionNotionalPct / 100.0
  }

  function MinInt(x: int, y: int): int {
    if x <= y then x else y
  }

  /** Shares priced to the cent. */
  function Amount(quantity: nat, price: real): real {
    Round2(quantity as real * price)
  }

  function SizeFromWallet(wallet: WalletState, plan: TradePlan, entryPrice: Option<real>, limits: Limits): SizeResult {
    var entry := SizingEntry(plan, entryPrice);
    var risk := SizingRisk(plan, entryPrice);
    if wallet.capitalBase <= 0.0 || wallet.cashAvailable <= 0.0 then
      SizeResult(false, 0, 0.0, 0.0, ["WALLET_NOT_SEEDED"])
    else if risk <= 0.0 || entry <= 0.0 then
      SizeResult(false, 0, 0.0, 0.0, ["INVALID_PLAN_RISK"])
    else if RemainingDaily(wallet, limits) <= 0.0 then
      SizeResult(false, 0, 0.0, 0.0, ["DAILY_RISK_LIMIT_REACHED"])
    else
      var byRisk := (RiskBudget(wallet, plan, limits) / risk).Floor;
      var byCash := (FreeCash(wallet) / entry).Floor;
      var byNotional := (NotionalLimit(wallet, limits) / entry).Floor;
      var quantity := MinInt(byRisk, MinInt(byCash, byNotional));
      if quantity <= 0 then SizeResult(false, 0, 0.0, 0.0, ["NO_CAPACITY"])
      else SizeResult(true, quantity, Amount(quantity, risk), Amount(quantity, entry), [])
  }

  /** What the three limits admit for a given number of shares. */
  ghost predicate Feasible(wallet: WalletState, plan: TradePlan, entryPrice: Option<real>, limits: Limits,
                           quantity: int) {
    && quantity as real * SizingRisk(plan, entryPrice) <= RiskBudget(wallet, plan, limits)
    && quantity as real * SizingEntry(plan, entryPrice) <= FreeCash(wallet)
    && quantity as real * SizingEntry(plan, entryPrice) <= NotionalLimit(wallet, limits)
  }

  /** The guards before any share is counted. */
  ghost predicate Sizable(wallet: WalletState, plan: TradePlan, entryPrice: Option<real>, limits: Limits) {
    && wallet.capitalBase > 0.0 && wallet.cashAvailable > 0.0
    && SizingRisk(plan, entryPrice) > 0.0 && SizingEntry(plan, entryPrice) > 0.0
    && RemainingDaily(wallet, limits) > 0.0
  }

  lemma FloorOfQuotient(a: real, b: real, n: int)
    requires b > 0.0
    ensures n <= (a / b).Floor <==> n as real * b <= a
  {
    var q := a / b;
    assert q * b == a;
    if n as real <= q {
      assert n as real * b <= q * b;
    } else {
      assert n as real * b > q * b;
    }
  }

  lemma FeasibleAsFloors(wallet: WalletState, plan: TradePlan, entryPrice: Option<real>, limits: Limits, n: int)
    requires Sizable(wallet, plan, entryPrice, limits)
    ensures Feasible(wallet, plan, entryPrice, limits, n)
       <==> && n <= (RiskBudget(wallet, plan, limits) / SizingRisk(plan, entryPrice)).Floor
            && n <= (FreeCash(wallet) / SizingEntry(plan, entryPrice)).Floor
            && n <= (NotionalLimit(wallet, limits) / SizingEntry(plan, entryPrice)).Floor
  {
    FloorOfQuotient(RiskBudget(wallet, plan, limits), SizingRisk(plan, entryPrice), n);
    FloorOfQuotient(FreeCash(wallet), SizingEntry(plan, entryPrice), n);
    FloorOfQuotient(NotionalLimit(wallet, limits), SizingEntry(plan, entryPrice), n);
  }

  /** A quantity fits all three limits exactly when it is at most the sized one. */
  lemma SizedIsLargest(wallet: WalletState, plan: TradePlan, entryPrice: Option<real>, limits: Limits, n: int)
    requires Sizable(wallet, plan, entryPrice, limits) && n > 0
    ensures Feasible(wallet, plan, entryPrice, limits, n)
            <==> n <= SizeFromWallet(wallet, plan, entryPrice, limits).quantity
  {
    FeasibleAsFloors(wallet, plan, entryPrice, limits, n);
  }

  /** Sizing refuses exactly when a guard fails or not even one share fits. */
  lemma SizingRefusal(wallet: WalletState, plan: TradePlan, entryPrice: Option<real>, limits: Limits)
    ensures SizeFromWallet(wallet, plan, entryPrice, limits).allowed
       <==> Sizable(wallet, plan, entryPrice, limits) && Feasible(wallet, plan, entryPrice, limits, 1)
  {
    if Sizable(wallet, plan, entryPrice, limits) {
      FeasibleAsFloors(wallet, plan, entryPrice, limits, 1);
    }
  }

  /** What a sizing reports: the risk and the cash of its shares to the cent, or the first
      guard that failed. */
  lemma SizedReport(wallet: WalletState, plan: TradePlan, entryPrice: Option<real>, limits: Limits)
    ensures var r := SizeFromWallet(wallet, plan, entryPrice, limits);
            var risk, entry := SizingRisk(plan, entryPrice), SizingEntry(plan, entryPrice);
            if r.allowed then
              && r.reasons == []
              && ToTheCent(r.riskDollars, r.quantity, risk)
              && ToTheCent(r.cashRequired, r.quantity, entry)
            else
              && r.quantity == 0 && r.riskDollars == 0.0 && r.cashRequired == 0.0
              && r.reasons == [if wallet.capitalBase <= 0.0 || wallet.cashAvailable <= 0.0 then "WALLET_NOT_SEEDED"
                               else if risk <= 0.0 || entry <= 0.0 then "INVALID_PLAN_RISK"
                               else if RemainingDaily(wallet, limits) <= 0.0 then "DAILY_RISK_LIMIT_REACHED"
                               else "NO_CAPACITY"]
  {
    var r := SizeFromWallet(wallet, plan, entryPrice, limits);
    AmountMeaning(r.quantity, SizingRisk(plan, entryPrice));
    AmountMeaning(r.quantity, SizingEntry(plan, entryPrice));
    hide Amount, ToTheCent;
  }

  /** Some shares at a price, to the nearest cent. */
  ghost predicate ToTheCent(amount: real, shares: nat, price: real) {
    NearestCent(amount, shares as real * price)
  }

  lemma AmountMeaning(quantity: nat, price: real)
    ensures ToTheCent(Amount(quantity, price), quantity, price)
  {
    Round2IsNearest(quantity as real * price);
    hide Round2, NearestCent;
  }
}

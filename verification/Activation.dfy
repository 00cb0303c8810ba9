/** The entry gate (`engines/activation.py`). */
module Activation {
  import opened Prelude
  import opened Domain
  import opened Sizing

  datatype ActivationDecision = ActivationDecision(state: SignalState, reasons: seq<string>, quantity: nat)

  datatype Gate = Gate(retestValid: bool, aboveVwap: bool, maxDataAgeSeconds: real, limits: Limits)

  predicate HasValidBbo(s: MarketSnapshot) {
    s.bid.Some? && s.ask.Some? && s.bid.value > 0.0 && s.ask.value >= s.bid.value
  }

  /** The spread is relative to the last price; a zero price makes the division raise. */
  predicate DividesByZero(s: MarketSnapshot) {
    HasValidBbo(s) && s.last == 0.0
  }

  predicate Fresh(s: MarketSnapshot, gate: Gate) {
    s.dataAgeSeconds.Some? && s.dataAgeSeconds.value <= gate.maxDataAgeSeconds
  }

  predicate QuoteAcceptable(plan: TradePlan, s: MarketSnapshot)
    requires !DividesByZero(s)
  {
    if HasValidBbo(s) then (s.ask.value - s.bid.value) / s.last * 100.0 <= plan.maxSpreadPct
    else IsKeylessSource(s.sourceId)
  }

  /** Everything the market must show before capacity is sized. */
  predicate GateOpen(plan: TradePlan, s: MarketSnapshot, gate: Gate)
    requires !DividesByZero(s)
  {
    && s.authoritative && Fresh(s, gate) && QuoteAcceptable(plan, s)
    && gate.aboveVwap && gate.retestValid
    && plan.entryTrigger <= s.last <= plan.entryZoneHigh
  }

  /** The decision without its reason list. */
  function Activate(plan: TradePlan, s: MarketSnapshot, wallet: WalletState, sizingEntry: Option<real>, gate: Gate,
                    now: int)
    : Result<(SignalState, nat)>
  {
    if now > plan.expiresAt then Ok((Expired, 0))
    else if s.halted || s.symbol != plan.symbol then Ok((Invalid, 0))
    else if DividesByZero(s) then Raised("ZeroDivisionError")
    else if !GateOpen(plan, s, gate) then Ok((if s.last > plan.entryZoneHigh then NoTrade else Armed, 0))
    else
      var sized := SizeFromWallet(wallet, plan, sizingEntry, gate.limits);
      if !sized.allowed then Ok((Watch, 0)) else Ok((BuyNow, sized.quantity))
  }

  const NO_CHASE := "NO_CHASE_ENTRY_ZONE_EXCEEDED"

  /** A reason the feed or the quote gives against an entry. */
  ghost predicate FeedReason(plan: TradePlan, s: MarketSnapshot, gate: Gate, reason: string)
    requires !DividesByZero(s)
  {
    || (reason == "AUTHORITATIVE_MARKET_FEED_REQUIRED" && !s.authoritative)
    || (reason == "MARKET_DATA_STALE" && !Fresh(s, gate))
    || (reason == "SPREAD_TOO_WIDE" && HasValidBbo(s) && !QuoteAcceptable(plan, s))
    || (reason == "BBO_MISSING" && !HasValidBbo(s) && !IsKeylessSource(s.sourceId))
  }

  /** Any reason against an entry before capacity is sized. */
  ghost predicate GateReason(plan: TradePlan, s: MarketSnapshot, gate: Gate, reason: string)
    requires !DividesByZero(s)
  {
    || FeedReason(plan, s, gate, reason)
    || (reason == "ABOVE_VWAP_REQUIRED" && !gate.aboveVwap)
    || (reason == "RETEST_REQUIRED" && !gate.retestValid)
    || (reason == "TRIGGER_NOT_REACHED" && s.last < plan.entryTrigger)
    || (reason == NO_CHASE && plan.entryZoneHigh < s.last)
  }

  /** The reasons the feed and the quote give against an entry. */
  method FeedReasons(plan: TradePlan, s: MarketSnapshot, gate: Gate) returns (r: Result<seq<string>>)
    ensures r.Raised? <==> DividesByZero(s)
    ensures r.Ok? ==> forall reason :: reason in r.value <==> FeedReason(plan, s, gate, reason)
    ensures r.Ok? ==> NO_CHASE !in r.value
                      && (r.value == [] <==> s.authoritative && Fresh(s, gate) && QuoteAcceptable(plan, s))
  {
    var reasons: seq<string> := [];
    if !s.authoritative {
      reasons := reasons + ["AUTHORITATIVE_MARKET_FEED_REQUIRED"];
    }
    if s.dataAgeSeconds.None? || s.dataAgeSeconds.value > gate.maxDataAgeSeconds {
      reasons := reasons + ["MARKET_DATA_STALE"];
    }
    if HasValidBbo(s) {
      if s.last == 0.0 {
        return Raised("ZeroDivisionError");
      }
      if (s.ask.value - s.bid.value) / s.last * 100.0 > plan.maxSpreadPct {
        reasons := reasons + ["SPREAD_TOO_WIDE"];
      }
    } else if !IsKeylessSource(s.sourceId) {
      reasons := reasons + ["BBO_MISSING"];
    }
    r := Ok(reasons);
  }

  /** `activate_plan`: the reason list grows gate by gate, and its emptiness decides. */
  method ActivatePlan(plan: TradePlan, s: MarketSnapshot, wallet: WalletState, sizingEntry: Option<real>, gate: Gate,
                      now: int)
    returns (r: Result<ActivationDecision>)
    ensures r.Raised? <==> Activate(plan, s, wallet, sizingEntry, gate, now).Raised?
    ensures r.Ok? ==> (r.value.state, r.value.quantity) == Activate(plan, s, wallet, sizingEntry, gate, now).value
    ensures r.Ok? ==> (r.value.state == BuyNow <==> r.value.reasons == [])
    ensures r.Ok? && r.value.state in {Armed, NoTrade} ==>
              !DividesByZero(s) && forall reason :: reason in r.value.reasons <==> GateReason(plan, s, gate, reason)
    ensures r.Ok? && r.value.state == Expired ==> r.value.reasons == ["PLAN_EXPIRED"]
    ensures r.Ok? && r.value.state == Invalid ==> r.value.reasons == [if s.halted then "HALTED" else "SYMBOL_MISMATCH"]
  {
    hide RiskBudget, RemainingDaily, NotionalLimit, FreeCash, SizingRisk, SizingEntry, QuoteAcceptable, Fresh,
         HasValidBbo, DividesByZero;
    if now > plan.expiresAt {
      return Ok(ActivationDecision(Expired, ["PLAN_EXPIRED"], 0));
    }
    if s.halted {
      return Ok(ActivationDecision(Invalid, ["HALTED"], 0));
    }
    if s.symbol != plan.symbol {
      return Ok(ActivationDecision(Invalid, ["SYMBOL_MISMATCH"], 0));
    }
    var feed := FeedReasons(plan, s, gate);
    if feed.Raised? {
      return Raised(feed.error);
    }
    var reasons := feed.value;
    if !gate.aboveVwap {
      reasons := reasons + ["ABOVE_VWAP_REQUIRED"];
    }
    if !gate.retestValid {
      reasons := reasons + ["RETEST_REQUIRED"];
    }
    if s.last < plan.entryTrigger {
      reasons := reasons + ["TRIGGER_NOT_REACHED"];
    }
    assert NO_CHASE !in reasons;
    if s.last > plan.entryZoneHigh {
      reasons := reasons + [NO_CHASE];
    }
    if reasons != [] {
      return Ok(ActivationDecision(if NO_CHASE in reasons then NoTrade else Armed, reasons, 0));
    }
    var sized := SizeFromWallet(wallet, plan, sizingEntry, gate.limits);
    if !sized.allowed {
      return Ok(ActivationDecision(Watch, sized.reasons, 0));
    }
    return Ok(ActivationDecision(BuyNow, [], sized.quantity));
  }

  /** A buy is signalled exactly for an unexpired plan with an open gate and room
      for at least one share, and then for the largest feasible quantity. */
  lemma BuyNowIff(plan: TradePlan, s: MarketSnapshot, wallet: WalletState, sizingEntry: Option<real>, gate: Gate,
                  now: int)
    requires Activate(plan, s, wallet, sizingEntry, gate, now).Ok?
    ensures var (state, quantity) := Activate(plan, s, wallet, sizingEntry, gate, now).value;
      && (state == BuyNow <==>
            && now <= plan.expiresAt && !s.halted && s.symbol == plan.symbol
            && !DividesByZero(s) && GateOpen(plan, s, gate)
            && Sizable(wallet, plan, sizingEntry, gate.limits)
            && Feasible(wallet, plan, sizingEntry, gate.limits, 1))
      && (state == BuyNow ==>
            && quantity > 0
            && Feasible(wallet, plan, sizingEntry, gate.limits, quantity)
            && !Feasible(wallet, plan, sizingEntry, gate.limits, quantity + 1))
  {
    var quantity := SizeFromWallet(wallet, plan, sizingEntry, gate.limits).quantity;
    SizingRefusal(wallet, plan, sizingEntry, gate.limits);
    if quantity > 0 {
      FeasibleAsFloors(wallet, plan, sizingEntry, gate.limits, quantity);
      FeasibleAsFloors(wallet, plan, sizingEntry, gate.limits, quantity + 1);
    }
  }
}

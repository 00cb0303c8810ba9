/** What the replay does with a session, in terms of its bars and ticks: the order of the
    ticks, the first plan, the first entry, and the managed trade. */
module ReplayRules {
  import opened Prelude
  import opened Domain
  import opened Sizing
  import opened Planning
  import opened Activation
  import opened Bars
  import opened Intraday
  import opened VirtualTrades
  import opened ReplayEngine
  import opened PlanRules
  import opened EntryRuns
  import opened TradeLegs

  /* ---- ticks ---- */

  /** A rising bar visits its low before its high, a falling one its high before its low. */
  lemma TicksInOrder(b: ReplayBar)
    requires SynthesizeBarTicks(b).Ok?
    ensures b.open.Some? && b.bar.high.Some? && b.bar.low.Some? && b.bar.close.Some?
    ensures var low, high := b.bar.low.value, b.bar.high.value;
            var (first, second) := if b.open.value <= b.bar.close.value then (low, high) else (high, low);
            SynthesizeBarTicks(b).value == [Tick(b.bar.t, b.open.value), Tick(b.bar.t + 20, first),
                                            Tick(b.bar.t + 40, second), Tick(b.bar.t + 59, b.bar.close.value)]
  {
  }

  /* ---- the production rules for an open position ---- */

  /** What a managed, reconciled position is told to do, by price and time. */
  lemma ManagedAction(p: PositionState, last: real, maxAge: int, now: int)
    requires p.closedAt.None? && p.remainingQuantity > 0 && p.managed && p.protection == Protected
    requires p.stop.Some? && p.tp1.Some? && p.tp2.Some? && p.timeStopAt.Some?
    requires p.reconciliationState == Reconciled && p.lastReconciledAt.Some?
    ensures var action := EvaluatePosition(Some(p), last, false, false, maxAge, now);
            var recent := now <= p.lastReconciledAt.value + maxAge;
            var late := p.timeStopAt.value <= now && last < p.averageFill;
            && (action == SellNow <==> last <= p.stop.value || (recent && late))
            && (action == ReconcileRequired <==> p.stop.value < last && !recent)
            && (action == TakeProfit <==> p.stop.value < last && recent && !late && p.tp2.value <= last)
            && (action == Trim <==> p.stop.value < last && recent && !late && p.tp1.value <= last < p.tp2.value)
            && (action == Hold <==> p.stop.value < last && recent && !late && last < p.tp1.value && last < p.tp2.value)
  {
  }

  /** What comes before: nothing to do without an open row; out at the stop or on a failed
      breakout under the VWAP; then a stop order, then a reconciliation, is asked for. */
  lemma GuardedAction(position: Option<PositionState>, last: real, belowVwap: bool, failed: bool, maxAge: int, now: int)
    ensures var action := EvaluatePosition(position, last, belowVwap, failed, maxAge, now);
            && (action == UnknownPosition <==>
                  position.None? || position.value.closedAt.Some? || position.value.remainingQuantity == 0)
            && (action != UnknownPosition ==>
                  var p := position.value;
                  var out := (p.stop.Some? && last <= p.stop.value) || (failed && belowVwap);
                  && (out ==> action == SellNow)
                  && (action == PlaceStopNow <==> !out && p.protection == Unprotected)
                  && (!out && p.protection == Protected
                      && (!p.managed || p.stop.None? || p.tp1.None? || p.tp2.None? || p.timeStopAt.None?
                          || p.reconciliationState != Reconciled || p.lastReconciledAt.None?) ==>
                        action == ReconcileRequired))
  {
  }

  /* ---- one advance ---- */

  /** Some tick is at or under the stop, and some at or over the next target. */
  ghost predicate TouchesBoth(s: VirtualTrade, ticks: seq<Tick>) {
    && (exists a :: a in ticks && a.price <= s.stop)
    && (exists b :: b in ticks && (if s.tp1Taken then s.tp2 else s.tp1) <= b.price)
  }

  lemma ConflictIs(s: VirtualTrade, ticks: seq<Tick>)
    requires ticks != []
    ensures Conflict(s, ticks) <==> TouchesBoth(s, ticks)
  {
    hide Lowest, Highest;
    var bottom, top := Lowest(ticks), Highest(ticks);
    var low :| low in ticks && low.price == bottom;
    var high :| high in ticks && high.price == top;
  }

  /** A bar that touches both is sold out at the stop, all that remains; any other is
      taken tick by tick. */
  lemma AdvanceMeaning(s: VirtualTrade, ticks: seq<Tick>, conflictAt: Option<int>)
    requires Accounted(s) && s.remaining > 0.0 && ticks != []
    ensures var t := AdvanceTicks(s, ticks, conflictAt);
            if TouchesBoth(s, ticks) then
              && t.remaining == 0.0
              && t.legs == s.legs + [Leg(StopExit, s.stop, s.remaining,
                                         if conflictAt.Some? then conflictAt.value else ticks[0].at)]
            else t == TickByTick(s, ticks)
  {
    hide TickByTick, TotalR, Round4, Round6, TouchesBoth, Conflict, Shape;
    ConflictIs(s, ticks);
    RoundWithin(s.stop, s.stop, Ceiling(s));
    if TouchesBoth(s, ticks) {
      TakeCloses(s, StopExit, s.stop, if conflictAt.Some? then conflictAt.value else ticks[0].at);
    }
  }

  /* ---- the result ---- */

  /** What the legs of a trade won or lost, in money per share of the whole trade. */
  function Won(t: VirtualTrade): real {
    if |t.legs| == 0 then 0.0
    else if |t.legs| == 1 then t.legs[0].fraction * (t.legs[0].price - t.fill)
    else t.legs[0].fraction * (t.legs[0].price - t.fill) + t.legs[1].fraction * (t.legs[1].price - t.fill)
  }

  function InUnits(won: real, risk: real): real
    requires risk != 0.0
  {
    won / risk
  }

  lemma UnitsAdd(x: real, y: real, risk: real)
    requires risk != 0.0
    ensures InUnits(x + y, risk) == x / risk + y / risk && InUnits(0.0, risk) == 0.0
  {
  }

  /** The reported result is what was won in units of the risk at the fill, to six places. */
  lemma ResultMeaning(t: VirtualTrade)
    requires Accounted(t)
    ensures var exact := InUnits(Won(t), t.fill - t.stop);
            t.realizedR - 0.0000005 <= exact <= t.realizedR + 0.0000005
  {
    TotalIsWon(t);
    Round6Error(TotalR(t.legs, t.fill, t.stop));
    hide Round6, Shape, Levels, TotalR, Won, InUnits;
  }

  lemma TotalIsWon(t: VirtualTrade)
    requires Accounted(t)
    ensures TotalR(t.legs, t.fill, t.stop) == InUnits(Won(t), t.fill - t.stop)
  {
    AtMostTwo(t);
    hide Round6, Shape, Levels, TotalR;
    if |t.legs| == 0 {
      EmptyTotal(t.fill, t.stop);
    } else if |t.legs| == 1 {
      OneLeg(t);
    } else {
      TwoLegs(t);
    }
  }

  lemma OneLeg(t: VirtualTrade)
    requires t.fill > t.stop && |t.legs| == 1
    ensures TotalR(t.legs, t.fill, t.stop) == InUnits(Won(t), t.fill - t.stop)
  {
    hide TotalR;
    assert t.legs == [t.legs[0]];
    TotalOfOne(t.legs[0], t.fill, t.stop);
  }

  lemma TwoLegs(t: VirtualTrade)
    requires t.fill > t.stop && |t.legs| == 2
    ensures TotalR(t.legs, t.fill, t.stop) == InUnits(Won(t), t.fill - t.stop)
  {
    hide TotalR;
    assert t.legs == [t.legs[0], t.legs[1]];
    TotalOfTwo(t.legs[0], t.legs[1], t.fill, t.stop);
    UnitsAdd(t.legs[0].fraction * (t.legs[0].price - t.fill),
             t.legs[1].fraction * (t.legs[1].price - t.fill), t.fill - t.stop);
  }

  lemma AtMostTwo(t: VirtualTrade)
    requires Accounted(t)
    ensures |t.legs| <= 2
  {
  }

  /* ---- the entry ---- */

  /** A tick buys while the plan lives, at a price in its zone, for a wallet of one hundred
      thousand in which one share fits. */
  lemma BuysIff(e: Engine, plan: TradePlan, tick: Tick)
    requires plan.maxSpreadPct >= 0.0 && e.runtime.maxMarketDataAgeSeconds >= 0.0 && plan.entryTrigger >= 0.0
    ensures Buys(e, plan, tick)
       <==> && tick.at <= plan.expiresAt && plan.symbol == e.symbol && tick.price > 0.0
            && plan.entryTrigger <= tick.price <= plan.entryZoneHigh
            && CanSize(WalletState(100000.0, 100000.0, 0.0, 0.0, 0.0, 1, None), plan, e.runtime)
  {
    var s := TickSnapshot(e, tick.price);
    SizeMeaning(WALLET, plan, e.runtime);
    NotKeyless();
    hide CanSize, Sizable, Feasible, SizeFromWallet, IsKeylessSource;
    if Decide(e, plan, tick).Ok? {
      BuyNowIff(plan, s, WALLET, None, ReplayGate(e), tick.at);
    }
    if tick.price > 0.0 {
      assert (tick.price - tick.price) / tick.price * 100.0 == 0.0;
    }
  }

  lemma NotKeyless()
    ensures !IsKeylessSource(Some("ALPACA_SIP"))
  {
    Longer("ALPACA_SIP", "CBOE_DELAYED");
    if Contains("ALPACA_SIP", "YAHOO") {
      FirstLetter("ALPACA_SIP", "YAHOO");
    }
    hide Contains;
  }

  lemma FirstLetter(text: string, part: string)
    requires part != "" && Contains(text, part)
    ensures part[0] in text
  {
    ContainsIsOccurs(text, part);
    var i :| OccursAt(text, part, i);
    assert text[i..i + |part|][0] == text[i];
  }

  lemma Longer(text: string, part: string)
    requires |text| < |part|
    ensures !Contains(text, part)
  {
    ContainsIsOccurs(text, part);
  }

  /** The entry search ends at the first tick that buys after the plan's bar, over bars
      that are all consistent up to there; without one it ends at the first bar that is
      not, or finds none. */
  lemma {:induction false} EntryMeaning(e: Engine, plan: TradePlan, bars: seq<ReplayBar>, from: nat)
    ensures var r := FindEntry(e, plan, bars, from);
            && (r.EnterAt? ==>
                  && from <= r.index < |bars| && Quiet(e, plan, bars, from, r.index)
                  && SynthesizeBarTicks(bars[r.index]).Ok?
                  && var ticks := SynthesizeBarTicks(bars[r.index]).value;
                  && r.tick < |ticks| && Buys(e, plan, ticks[r.tick])
                  && forall j :: 0 <= j < r.tick ==> !Buys(e, plan, ticks[j]))
            && (r.NoEntry? ==> Quiet(e, plan, bars, from, |bars|))
            && (r.EntryFailed? ==>
                  exists i: nat :: from <= i < |bars| && Quiet(e, plan, bars, from, i)
                                   && SynthesizeBarTicks(bars[i]) == Raised(r.error))
    decreases |bars|
  {
    hide Buys, SynthesizeBarTicks;
    if |bars| > from {
      var before := bars[..|bars| - 1];
      EntryMeaning(e, plan, before, from);
      var r := FindEntry(e, plan, before, from);
      forall n: nat | n <= |before| ensures Quiet(e, plan, bars, from, n) == Quiet(e, plan, before, from, n) {
        assert forall i: nat :: i < n ==> bars[i] == before[i];
      }
      if r.NoEntry? && SynthesizeBarTicks(bars[|bars| - 1]).Ok? {
        FirstBuyMeaning(e, plan, SynthesizeBarTicks(bars[|bars| - 1]).value);
      } else if r.NoEntry? {
        assert Quiet(e, plan, bars, from, |bars| - 1);
      } else if r.EntryFailed? {
        var i: nat :| from <= i < |before| && Quiet(e, plan, before, from, i)
                      && SynthesizeBarTicks(before[i]) == Raised(r.error);
        assert bars[i] == before[i];
      }
    }
  }

  /** Consistent bars without a tick that buys. */
  ghost predicate Quiet(e: Engine, plan: TradePlan, bars: seq<ReplayBar>, from: nat, to: nat) {
    to <= |bars| && forall i: nat :: from <= i < to ==>
      && SynthesizeBarTicks(bars[i]).Ok?
      && forall tick :: tick in SynthesizeBarTicks(bars[i]).value ==> !Buys(e, plan, tick)
  }

  lemma {:induction false} FirstBuyMeaning(e: Engine, plan: TradePlan, ticks: seq<Tick>)
    ensures var r := FirstBuy(e, plan, ticks);
            && (r.None? ==> forall tick :: tick in ticks ==> !Buys(e, plan, tick))
            && (r.Some? ==> r.value < |ticks| && Buys(e, plan, ticks[r.value])
                            && forall j :: 0 <= j < r.value ==> !Buys(e, plan, ticks[j]))
    decreases |ticks|
  {
    hide Buys;
    if ticks != [] {
      var before, last := ticks[..|ticks| - 1], ticks[|ticks| - 1];
      FirstBuyMeaning(e, plan, before);
      assert forall tick :: tick in ticks <==> tick in before || tick == last;
    }
  }

  /* ---- the plan ---- */

  /** The plan search ends at the first prefix that yields a plan, with every shorter one
      refused; without one it ends at the first that breaks, or finds none. */
  lemma {:induction false} PlanMeaning(e: Engine, benchmark: seq<ReplayBar>, bars: seq<ReplayBar>)
    ensures var r := FindPlan(e, benchmark, bars);
            && (r.Found? ==>
                  && r.index < |bars| && AttemptPlan(e, benchmark, bars[..r.index + 1]) == Planned(r.plan)
                  && RefusedBefore(e, benchmark, bars, r.index))
            && (r.NotFound? ==> RefusedBefore(e, benchmark, bars, |bars|))
            && (r.Failed? ==>
                  exists i: nat :: i < |bars| && AttemptPlan(e, benchmark, bars[..i + 1]) == Broken(r.error)
                                   && RefusedBefore(e, benchmark, bars, i))
    decreases |bars|
  {
    hide AttemptPlan;
    if bars != [] {
      var before := bars[..|bars| - 1];
      PlanMeaning(e, benchmark, before);
      forall n: nat | n <= |before|
        ensures RefusedBefore(e, benchmark, bars, n) == RefusedBefore(e, benchmark, before, n)
      {
        forall i: nat | i < n ensures RefusedOn(e, benchmark, bars, i) == RefusedOn(e, benchmark, before, i) {
          assert bars[..i + 1] == before[..i + 1];
        }
      }
      assert bars[..|bars|] == bars;
      var r := FindPlan(e, benchmark, before);
      if r.Found? {
        assert bars[..r.index + 1] == before[..r.index + 1];
      } else if r.Failed? {
        var i: nat :| i < |before| && AttemptPlan(e, benchmark, before[..i + 1]) == Broken(r.error)
                      && RefusedBefore(e, benchmark, before, i);
        assert bars[..i + 1] == before[..i + 1];
      } else {
        assert RefusedBefore(e, benchmark, bars, |bars| - 1);
      }
    }
  }

  ghost predicate RefusedBefore(e: Engine, benchmark: seq<ReplayBar>, bars: seq<ReplayBar>, n: nat) {
    n <= |bars| && forall i: nat :: i < n ==> RefusedOn(e, benchmark, bars, i)
  }

  /** The prefix that ends at bar `i` is refused. */
  ghost predicate RefusedOn(e: Engine, benchmark: seq<ReplayBar>, bars: seq<ReplayBar>, i: nat) {
    i < |bars| && AttemptPlan(e, benchmark, bars[..i + 1]) == Refused
  }

  lemma {:induction false} PricesMeaning(prices: seq<Option<real>>)
    ensures FirstPriceError(prices).None? <==> forall p :: p in prices ==> p.Some? && p.value > 0.0
    decreases |prices|
  {
    if prices != [] {
      PricesMeaning(prices[1..]);
      assert forall p :: p in prices <==> p == prices[0] || p in prices[1..];
    }
  }

  predicate Priced(p: Option<real>) {
    p.Some? && p.value > 0.0
  }

  function HighsOf(bars: seq<ReplayBar>): seq<Option<real>> {
    seq(|bars|, i requires 0 <= i < |bars| => bars[i].bar.high)
  }

  function LowsOf(bars: seq<ReplayBar>): seq<Option<real>> {
    seq(|bars|, i requires 0 <= i < |bars| => bars[i].bar.low)
  }

  lemma HighsPriced(bars: seq<ReplayBar>)
    ensures (forall p :: p in HighsOf(bars) ==> Priced(p)) <==> forall b :: b in bars ==> Priced(b.bar.high)
  {
    hide Priced;
    forall b | b in bars ensures b.bar.high in HighsOf(bars) {
      var i :| 0 <= i < |bars| && bars[i] == b;
      assert HighsOf(bars)[i] == b.bar.high;
    }
    forall p | p in HighsOf(bars) ensures exists b :: b in bars && b.bar.high == p {
      var i :| 0 <= i < |bars| && HighsOf(bars)[i] == p;
      assert bars[i] in bars;
    }
  }

  lemma LowsPriced(bars: seq<ReplayBar>)
    ensures (forall p :: p in LowsOf(bars) ==> Priced(p)) <==> forall b :: b in bars ==> Priced(b.bar.low)
  {
    hide Priced;
    forall b | b in bars ensures b.bar.low in LowsOf(bars) {
      var i :| 0 <= i < |bars| && bars[i] == b;
      assert LowsOf(bars)[i] == b.bar.low;
    }
    forall p | p in LowsOf(bars) ensures exists b :: b in bars && b.bar.low == p {
      var i :| 0 <= i < |bars| && LowsOf(bars)[i] == p;
      assert bars[i] in bars;
    }
  }

  lemma PricesJoin(xs: seq<Option<real>>, ys: seq<Option<real>>)
    ensures FirstPriceError(xs + ys).None? <==> FirstPriceError(xs).None? && FirstPriceError(ys).None?
  {
    PricesMeaning(xs);
    PricesMeaning(ys);
    PricesMeaning(xs + ys);
    assert forall p :: p in xs + ys <==> p in xs || p in ys;
    hide FirstPriceError;
  }

  /** The plan reads the first open, every high and low, and the last close. */
  lemma PricesReadMeaning(prefix: seq<ReplayBar>)
    requires prefix != []
    ensures FirstPriceError(PricesRead(prefix)).None?
       <==> && Priced(prefix[0].open) && Priced(prefix[|prefix| - 1].bar.close)
            && forall b :: b in prefix ==> Priced(b.bar.high) && Priced(b.bar.low)
  {
    var ends, last := [prefix[|prefix| - 1].bar.close, prefix[0].open], [prefix[|prefix| - 1].bar.low];
    assert PricesRead(prefix) == ends + HighsOf(prefix) + LowsOf(prefix) + last;
    PricesMeaning(ends);
    PricesMeaning(HighsOf(prefix));
    PricesMeaning(LowsOf(prefix));
    PricesMeaning(last);
    assert prefix[0].open == ends[1] && prefix[|prefix| - 1].bar.close == ends[0];
    assert prefix[|prefix| - 1] in prefix && last[0] == prefix[|prefix| - 1].bar.low;
    hide FirstPriceError, HighsOf, LowsOf, PricesRead;
    PricesJoin(ends, HighsOf(prefix));
    PricesJoin(ends + HighsOf(prefix), LowsOf(prefix));
    PricesJoin(ends + HighsOf(prefix) + LowsOf(prefix), last);
    HighsPriced(prefix);
    LowsPriced(prefix);
  }

  /** A planned prefix ends at a validated retest; its plan enters at the top of the opening
      range with the stop at the low of the last bar, and is made a minute after it. */
  lemma PlannedMeaning(e: Engine, benchmark: seq<ReplayBar>, prefix: seq<ReplayBar>, plan: TradePlan)
    returns (s: Structure, ranking: Ranking)
    requires prefix != [] && AttemptPlan(e, benchmark, prefix) == Planned(plan)
    ensures StructureOn(e, prefix) == Ok(s) && s.state == RetestValid && s.orh.Some?
    ensures var retest := prefix[|prefix| - 1].bar;
            && retest.low.Some? && PlannedFrom(plan, s.orh.value, retest.low.value)
            && plan.symbol == e.symbol && plan.createdAt == retest.t + 60
            && plan.expiresAt == retest.t + 60 + e.cfg.planTtlSeconds && plan.qualityRiskMultiplier == 1.0
            && e.ranking(prefix, BarsThrough(benchmark, retest.t + 60)) == Ok(ranking) && ranking.score >= 65.0
            && Priced(prefix[0].open) && Priced(retest.close)
    ensures forall b :: b in prefix ==> Priced(b.bar.high) && Priced(b.bar.low)
  {
    hide StructureOn, BarsThrough, FirstPriceError, PricesRead, Nearest4;
    s := StructureOn(e, prefix).value;
    var retest := prefix[|prefix| - 1].bar;
    PricesReadMeaning(prefix);
    ranking := e.ranking(prefix, BarsThrough(benchmark, retest.t + 60)).value;
    var input := PlanInput(PlanSnapshot(e, s, retest, ranking), ranking.score, ClassifyQuality(100.0), CoreMomentum);
    IssuedPlanLevels(input, e.cfg, e.planId(retest.t + 60), retest.t + 60);
    PlanIssuedIff(input, e.cfg, e.planId(retest.t + 60), retest.t + 60);
    hide BuildTradePlan;
  }

  /** What the plan is made from: the range, the last bar, and what ranking found. */
  ghost function Candidate(e: Engine, s: Structure, retest: Bar, ranking: Ranking): PlanInput
    requires retest.close.Some?
  {
    PlanInput(MarketSnapshot(e.symbol, retest.close.value, None, None, None, s.orh, s.orl, retest.low, ranking.atr14,
                             ranking.atr14Pct, ranking.remainingAtr, false, 0.0, None, Some("ALPACA_SIP"), true, false),
              ranking.score, QualityProfile(100.0, 1.0), CoreMomentum)
  }

  /** A prefix yields a plan exactly when its structure is RETEST_VALID with a range, ranking
      succeeds, its prices are complete, and the candidate it makes can be planned. It is
      refused when it is not RETEST_VALID or the candidate cannot; anything else breaks. */
  lemma PlannedIff(e: Engine, benchmark: seq<ReplayBar>, prefix: seq<ReplayBar>)
    requires prefix != []
    ensures var r, retest := AttemptPlan(e, benchmark, prefix), prefix[|prefix| - 1].bar;
            var structure, ranked := StructureOn(e, prefix), e.ranking(prefix, BarsThrough(benchmark, retest.t + 60));
            if structure.Raised? then r == Broken(structure.error)
            else if structure.value.state != RetestValid then r == Refused
            else if structure.value.orh.None? || structure.value.orl.None? then r == Broken("AssertionError")
            else if ranked.Raised? then r == Broken(ranked.error)
            else if !(Priced(prefix[0].open) && Priced(retest.close)
                      && forall b :: b in prefix ==> Priced(b.bar.high) && Priced(b.bar.low)) then r.Broken?
            else if Plannable(Candidate(e, structure.value, retest, ranked.value), e.cfg) then r.Planned?
            else r == Refused
  {
    hide StructureOn, BarsThrough, FirstPriceError, PricesRead, BuildTradePlan, Plannable;
    var retest := prefix[|prefix| - 1].bar;
    var structure, ranked := StructureOn(e, prefix), e.ranking(prefix, BarsThrough(benchmark, retest.t + 60));
    PricesReadMeaning(prefix);
    if structure.Ok? && ranked.Ok? && retest.close.Some? {
      PlanIssuedIff(Candidate(e, structure.value, retest, ranked.value), e.cfg, e.planId(retest.t + 60), retest.t + 60);
      TopTier();
    }
  }

  lemma TopTier()
    ensures ClassifyQuality(100.0) == QualityProfile(100.0, 1.0)
  {
  }

  /** Entry at the top of the range, stop at the low of the retest, targets at one and a
      half and two times the distance. */
  ghost predicate PlannedFrom(plan: TradePlan, high: real, low: real) {
    && Nearest4(plan.entryTrigger, high) && Nearest4(plan.stop, low)
    && Nearest4(plan.tp1, high + 1.5 * (high - low)) && Nearest4(plan.tp2, high + 2.0 * (high - low))
  }

  /* ---- the managed trade ---- */

  /** The trade opens at ten basis points over the trigger, with the plan's levels, for
      half an hour before it is late. */
  lemma OpenedMeaning(plan: TradePlan, at: int)
    ensures var r := Opened(plan, at);
            && (r.Ok? ==>
                  && Nearest4(r.value.fill, plan.entryTrigger * 1.001)
                  && r.value.stop == plan.stop && r.value.tp1 == plan.tp1 && r.value.tp2 == plan.tp2
                  && r.value.openedAt == at && r.value.timeStopAt == at + 1800
                  && r.value.legs == [] && r.value.remaining == 1.0 && !r.value.tp1Taken)
            && (r.Ok? <==> ReplayEngine.Fill(plan) > plan.stop)
  {
    Round4IsNearest(plan.entryTrigger * 1.001);
    hide Round4, Nearest4;
  }

  /** The ticks of some bars, one after the other. */
  function AllTicks(bars: seq<ReplayBar>, from: nat): seq<Tick>
    decreases |bars|
  {
    if |bars| <= from then []
    else
      var last := SynthesizeBarTicks(bars[|bars| - 1]);
      AllTicks(bars[..|bars| - 1], from) + (if last.Ok? then last.value else [])
  }

  /** Consistent bars none of which spans from the stop to the first target. */
  ghost predicate Plain(s: VirtualTrade, bars: seq<ReplayBar>, from: nat) {
    forall i: nat :: from <= i < |bars| ==>
      && SynthesizeBarTicks(bars[i]).Ok? && bars[i].bar.low.Some? && bars[i].bar.high.Some?
      && (s.stop < bars[i].bar.low.value || bars[i].bar.high.value < s.tp1)
  }

  /** Over plain bars the managed trade is the trade of their ticks, one by one. */
  lemma {:induction false} ManageMeaning(s: VirtualTrade, bars: seq<ReplayBar>, from: nat)
    requires Accounted(s) && Plain(s, bars, from)
    ensures Manage(s, bars, from) == Ok(TickByTick(s, AllTicks(bars, from)))
    decreases |bars|
  {
    hide TickByTick, SynthesizeBarTicks, Accounted;
    if |bars| > from {
      var before, last := bars[..|bars| - 1], bars[|bars| - 1];
      assert forall i: nat :: i < |before| ==> before[i] == bars[i];
      ManageMeaning(s, before, from);
      var t := TickByTick(s, AllTicks(before, from));
      var ticks := SynthesizeBarTicks(last).value;
      TickByTickAccounted(s, AllTicks(before, from));
      TicksAppend(s, AllTicks(before, from), ticks);
      if t.remaining > 0.0 {
        PlainBar(s, t, last);
      } else {
        ClosedStays(s, AllTicks(before, from), ticks);
      }
    } else {
      NoTicks(s);
    }
  }

  lemma NoTicks(s: VirtualTrade)
    ensures TickByTick(s, []) == s
  {
  }

  lemma PlainBar(s: VirtualTrade, t: VirtualTrade, b: ReplayBar)
    requires Accounted(s) && Accounted(t) && From(s, t) && t.remaining > 0.0 && SynthesizeBarTicks(b).Ok?
    requires b.bar.low.Some? && b.bar.high.Some? && (s.stop < b.bar.low.value || b.bar.high.value < s.tp1)
    ensures AdvanceBar(t, b) == Ok(TickByTick(t, SynthesizeBarTicks(b).value))
  {
    hide TickByTick, Lowest, Highest, Shape;
    TicksSpanTheBar(b);
  }

  /** What is still open at the end is sold at the last close. */
  lemma EndOfDayMeaning(s: VirtualTrade, bars: seq<ReplayBar>)
    requires Accounted(s) && bars != [] && SynthesizeBarTicks(bars[|bars| - 1]).Ok?
    requires var b := bars[|bars| - 1].bar; b.close.Some? && s.stop <= b.close.value <= Ceiling(s)
    ensures EndOfDay(s, bars).Ok?
    ensures var t, b := EndOfDay(s, bars).value, bars[|bars| - 1].bar;
            if s.remaining == 0.0 then t == s
            else
              && t.remaining == 0.0 && |t.legs| == |s.legs| + 1 && t.legs[..|s.legs|] == s.legs
              && var leg := t.legs[|s.legs|];
              leg.exit == TimeStopExit && leg.fraction == s.remaining && leg.at == b.t + 59
                  && Nearest4(leg.price, b.close.value)
  {
    var b := bars[|bars| - 1];
    TicksInOrder(b);
    ShapeRemaining(s);
    hide TotalR, Round4, Round6, Shape, Nearest4, SynthesizeBarTicks;
    if s.remaining > 0.0 {
      RoundWithin(s.stop, b.bar.close.value, Ceiling(s));
      TakeCloses(s, TimeStopExit, b.bar.close.value, b.bar.t + 59);
      Round4IsNearest(b.bar.close.value);
    }
  }

  /* ---- the session ---- */

  /** The session's bars are the stamped rows of its six and a half hours, in strict order. */
  lemma SessionMeaning(session: Session, rows: seq<ReplayRow>)
    ensures var r := SessionBarsOf(session, rows);
            && (Unstamped in rows ==> r.Raised?)
            && (r.Ok? ==>
                  && (forall i, j :: 0 <= i < j < |r.value| ==> r.value[i].bar.t < r.value[j].bar.t)
                  && forall b :: b in r.value <==>
                       Stamped(b) in rows && session.start <= b.bar.t < session.start + 23400)
  {
    var window := Window(session, rows);
    SortAscends(window);
    forall b ensures b in SortByStamp(window)
        <==> Stamped(b) in rows && session.start <= b.bar.t < session.start + 23400 {
      WindowMeaning(session, rows, b);
      assert b in SortByStamp(window) <==> b in multiset(SortByStamp(window));
      assert b in window <==> b in multiset(window);
    }
    hide SortByStamp, Window;
  }

  lemma {:induction false} WindowMeaning(session: Session, rows: seq<ReplayRow>, b: ReplayBar)
    ensures b in Window(session, rows) <==> Stamped(b) in rows && session.start <= b.bar.t < session.start + 23400
    decreases |rows|
  {
    if rows != [] {
      var before, last := rows[..|rows| - 1], rows[|rows| - 1];
      WindowMeaning(session, before, b);
      assert Stamped(b) in rows <==> Stamped(b) in before || Stamped(b) == last;
    }
  }
}

/** A session whose replay sells above the plan's second target: the slipped fill lies
    above it, and the time stop sells anywhere under the fill. */
module ReplayWitness {
  import opened Prelude
  import opened Domain
  import opened Sizing
  import opened Planning
  import opened Bars
  import opened Intraday
  import opened IntradayStability
  import opened VirtualTrades
  import opened ReplayEngine
  import opened ReplayRetest
  import opened ReplayCausality

  /** A minimum risk of 0.01 percent; everything else as usual. */
  const NARROW := Settings(1.0, 2.0, 100.0, 3, 600, 300, 15.0, 20.0, 30, 0.01, 0.3, 1.0, 1.0, false, 0.1, 1.0, 0.0)

  const RULES := Rules(1, 0.1, 0.2, 30)

  const DAY_ZERO := Session(0, 0, 86400)

  const ENGINE := Engine(NARROW, NARROW, RULES, DAY_ZERO, "XYZ",
                         (prefix, benchmark) => Ok(Ranking(80.0, Some(2.0), Some(2.0), Some(1.0))), at => 0)

  function MinuteBar(t: int, open: real, high: real, low: real, close: real): ReplayBar {
    ReplayBar(Bar(t, Some(high), Some(low), Some(close), None, None, "ALPACA_SIP", t), Some(open))
  }

  /** Opening range 99 to 100; a breakout; a retest two cents under the range high;
      the entry at the trigger; and, half an hour later, a price above the second
      target and below the fill. */
  const OPENING := MinuteBar(0, 99.5, 100.0, 99.0, 99.5)
  const BREAKOUT := MinuteBar(60, 99.9, 100.2, 99.9, 100.2)
  const RETEST := MinuteBar(120, 100.1, 100.1, 99.98, 100.01)
  const ENTRY := MinuteBar(180, 100.0, 100.0, 100.0, 100.0)
  const LATE := MinuteBar(1980, 100.05, 100.05, 100.05, 100.05)

  const BARS := [OPENING, BREAKOUT, RETEST, ENTRY, LATE]

  const PLAN := TradePlan(0, "XYZ", 100.0, 100.005, 99.98, 100.03, 100.04, 0.25, 0.30, 180, 780, 1.0, PlanActive, None)

  /* ---- the structure ---- */

  const ARMED := NEW.(openingBarsSeen := 1, orh := Some(100.0), orl := Some(99.0),
                      state := ArmedState, reasons := ["OPENING_RANGE_ESTABLISHED"])

  const OPENED := ARMED.(lastBarAt := Some(0), lastClose := Some(99.5))

  const BROKEN_OUT := OPENED.(state := BreakoutSeen, breakoutAt := Some(60), reasons := ["ORH_BREAKOUT_CONFIRMED"],
                              lastBarAt := Some(60), lastClose := Some(100.2))

  const RETESTED := BROKEN_OUT.(state := RetestValid, retestAt := Some(120), reasons := ["SERVER_RETEST_VALID"],
                                lastBarAt := Some(120), lastClose := Some(100.01))

  lemma WalkAppend(init: Structure, bars: seq<Bar>, b: Bar)
    ensures var r := Walk(RULES, DAY_ZERO, init, bars);
            Walk(RULES, DAY_ZERO, init, bars + [b])
            == if r.Raised? || r.value.state == InvalidState then r else BatchStep(RULES, DAY_ZERO, r.value, b)
  {
    hide BatchStep;
    assert (bars + [b])[..|bars|] == bars;
  }

  lemma Steps()
    ensures BatchStep(RULES, DAY_ZERO, ARMED, OPENING.bar) == Ok(OPENED)
    ensures BatchStep(RULES, DAY_ZERO, OPENED, BREAKOUT.bar) == Ok(BROKEN_OUT)
    ensures BatchStep(RULES, DAY_ZERO, BROKEN_OUT, RETEST.bar) == Ok(RETESTED)
  {
  }

  lemma Walks()
    ensures Walk(RULES, DAY_ZERO, ARMED, [OPENING.bar]) == Ok(OPENED)
    ensures Walk(RULES, DAY_ZERO, ARMED, [OPENING.bar, BREAKOUT.bar]) == Ok(BROKEN_OUT)
    ensures Walk(RULES, DAY_ZERO, ARMED, [OPENING.bar, BREAKOUT.bar, RETEST.bar]) == Ok(RETESTED)
  {
    hide BatchStep;
    Steps();
    WalkAppend(ARMED, [], OPENING.bar);
    WalkAppend(ARMED, [OPENING.bar], BREAKOUT.bar);
    WalkAppend(ARMED, [OPENING.bar, BREAKOUT.bar], RETEST.bar);
    assert [] + [OPENING.bar] == [OPENING.bar];
    assert [OPENING.bar] + [BREAKOUT.bar] == [OPENING.bar, BREAKOUT.bar];
    assert [OPENING.bar, BREAKOUT.bar] + [RETEST.bar] == [OPENING.bar, BREAKOUT.bar, RETEST.bar];
  }

  /** The opening range is the first bar. */
  lemma RangeIsFirstBar(more: seq<Bar>, confirmed: Option<int>)
    requires AfterOpening(RULES, DAY_ZERO, more)
    ensures ComputeOrdered(RULES, DAY_ZERO, [OPENING.bar] + more, confirmed)
            == Walk(RULES, DAY_ZERO, ARMED, [OPENING.bar] + more)
  {
    hide Walk;
    var first := [OPENING.bar];
    assert first[..0] == [];
    assert Opening(RULES, DAY_ZERO, first) == first;
    OpeningExtends(RULES, DAY_ZERO, first, more);
    ComputeIsWalk(RULES, DAY_ZERO, first + more, confirmed);
    assert RangeOf(first) == (Some(100.0), Some(99.0));
  }

  lemma StructureOf(k: nat)
    requires 1 <= k <= 3
    ensures StructureOn(ENGINE, BARS[..k]) == Ok(if k == 1 then OPENED else if k == 2 then BROKEN_OUT else RETESTED)
  {
    hide ComputeOrdered, StructureOn, Walk;
    var prefix := BARS[..k];
    StructureOnBars(ENGINE, prefix);
    Walks();
    var more := BarsOf(prefix)[1..];
    assert BarsOf(prefix) == [OPENING.bar] + more;
    RangeIsFirstBar(more, Some(prefix[|prefix| - 1].bar.t + 60));
    assert BarsOf(BARS[..1]) == [OPENING.bar];
    assert BarsOf(BARS[..2]) == [OPENING.bar, BREAKOUT.bar];
    assert BarsOf(BARS[..3]) == [OPENING.bar, BREAKOUT.bar, RETEST.bar];
  }

  /* ---- the plan and the entry ---- */

  lemma OnGridPoint(x: real, n: int)
    requires x * 10000.0 == n as real
    ensures Round4(x) == x
  {
    RoundInteger(n);
  }

  lemma NarrowPlan()
    ensures BuildTradePlan(PlanInput(PlanSnapshot(ENGINE, RETESTED, RETEST.bar,
                                                  Ranking(80.0, Some(2.0), Some(2.0), Some(1.0))),
                                     80.0, ClassifyQuality(100.0), CoreMomentum),
                           NARROW, 0, 180) == Ok(PLAN)
  {
    hide Round4;
    OnGridPoint(100.0, 1000000);
    OnGridPoint(100.005, 1000050);
    OnGridPoint(99.98, 999800);
    OnGridPoint(100.03, 1000300);
    OnGridPoint(100.04, 1000400);
  }

  lemma PlanAtRetest()
    ensures BuildReplayPlan(ENGINE, RETESTED, BARS[..3], []) == Planned(PLAN)
  {
    hide BuildTradePlan;
    NarrowPlan();
    var prices := PricesRead(BARS[..3]);
    PositivePrices(prices);
  }

  lemma {:induction false} PositivePrices(prices: seq<Option<real>>)
    requires forall p :: p in prices ==> p.Some? && p.value > 0.0
    ensures FirstPriceError(prices).None?
    decreases |prices|
  {
    if prices != [] {
      PositivePrices(prices[1..]);
    }
  }

  lemma PlanFound()
    ensures FindPlan(ENGINE, [], BARS) == Found(2, PLAN)
  {
    hide StructureOn, BuildReplayPlan;
    StructureOf(1);
    StructureOf(2);
    StructureOf(3);
    PlanAtRetest();
    FindOneMore(BARS[..0], BARS[..1]);
    FindOneMore(BARS[..1], BARS[..2]);
    FindOneMore(BARS[..2], BARS[..3]);
    FindOneMore(BARS[..3], BARS[..4]);
    FindOneMore(BARS[..4], BARS);
  }

  lemma FindOneMore(before: seq<ReplayBar>, bars: seq<ReplayBar>)
    requires bars != [] && before == bars[..|bars| - 1]
    ensures var r := FindPlan(ENGINE, [], before);
            FindPlan(ENGINE, [], bars)
            == if !r.NotFound? then r
               else match AttemptPlan(ENGINE, [], bars)
                 case Planned(plan) => Found(|bars| - 1, plan)
                 case Refused => NotFound
                 case Broken(error) => Failed(error)
    ensures before == [] ==> FindPlan(ENGINE, [], before).NotFound?
  {
    hide AttemptPlan;
  }

  lemma BuysAtTrigger()
    ensures Buys(ENGINE, PLAN, Tick(180, 100.0))
  {
    hide SizeFromWallet;
    var limits := LimitsOf(NARROW);
    SizingRefusal(WALLET, PLAN, None, limits);
  }

  lemma EntryFound()
    ensures FindEntry(ENGINE, PLAN, BARS, 3) == EnterAt(3, 0)
  {
    hide Buys;
    BuysAtTrigger();
    var ticks := SynthesizeBarTicks(ENTRY).value;
    FirstTickBuys(ticks);
    assert BARS[..4][..3] == BARS[..3];
    assert FindEntry(ENGINE, PLAN, BARS[..3], 3) == NoEntry;
    assert FindEntry(ENGINE, PLAN, BARS[..4], 3) == EnterAt(3, 0);
  }

  lemma {:induction false} FirstTickBuys(ticks: seq<Tick>)
    requires ticks != [] && Buys(ENGINE, PLAN, ticks[0])
    ensures FirstBuy(ENGINE, PLAN, ticks) == Some(0)
    decreases |ticks|
  {
    hide Buys;
    if |ticks| > 1 {
      FirstTickBuys(ticks[..|ticks| - 1]);
    } else {
      assert ticks[..0] == [];
    }
  }

  /* ---- the trade ---- */

  const TRADE := TradeRecord(100.1, 99.98, 100.03, 100.04, 180, 1980, 1.0, false, None, 0.0, [])

  lemma TradeOpens()
    ensures Opened(PLAN, 180) == Ok(TRADE)
  {
    OnGridPoint(100.1, 1001000);
    hide Round4;
  }

  lemma {:induction false} QuietTicks(ticks: seq<Tick>)
    requires forall t :: t in ticks ==> t.at < 1980 && t.price == 100.0
    ensures TickByTick(TRADE, ticks) == TRADE
    decreases |ticks|
  {
    if ticks != [] {
      QuietTicks(ticks[..|ticks| - 1]);
      assert ticks[|ticks| - 1] in ticks;
    }
  }

  lemma RestOfEntryBar()
    ensures AdvanceTicks(TRADE, SynthesizeBarTicks(ENTRY).value[1..], None) == TRADE
  {
    hide TickByTick, Lowest, Highest;
    var rest := SynthesizeBarTicks(ENTRY).value[1..];
    QuietTicks(rest);
    assert forall t :: t in rest ==> t.price == 100.0;
  }

  const SOLD := Take(TRADE, TimeStopExit, 100.05, 1.0, 1980)

  lemma SoldLate()
    ensures AdvanceBar(TRADE, LATE) == Ok(SOLD) && SOLD.remaining == 0.0
    ensures SOLD.legs == [Leg(TimeStopExit, 100.05, 1.0, 1980)]
  {
    hide TickByTick, Lowest, Highest, TotalR, Round4, Round6;
    RoundedFractions();
    OnGridPoint(100.05, 1000500);
    var ticks := SynthesizeBarTicks(LATE).value;
    assert forall t :: t in ticks ==> t.price == 100.05;
    OneTick(TRADE, ticks[0]);
    assert OnTick(TRADE, ticks[0]) == SOLD;
    ClosedStays(TRADE, [ticks[0]], ticks[1..]);
    assert [ticks[0]] + ticks[1..] == ticks;
  }

  lemma TradeManaged()
    ensures ManageTrade(PLAN, 180, SynthesizeBarTicks(ENTRY).value[1..], BARS, 3) == Ok(SOLD)
  {
    hide AdvanceTicks, AdvanceBar, Take, Opened;
    TradeOpens();
    RestOfEntryBar();
    SoldLate();
    assert BARS[..|BARS| - 1] == BARS[..4];
    assert Manage(TRADE, BARS[..4], 4) == Ok(TRADE);
  }

  /* ---- the replay ---- */

  lemma {:induction false} SortedAlready(bars: seq<ReplayBar>)
    requires Increasing(bars)
    ensures SortByStamp(bars) == bars
    decreases |bars|
  {
    hide Insert;
    if bars != [] {
      var before, last := bars[..|bars| - 1], bars[|bars| - 1];
      SortedAlready(before);
      forall c | c in before ensures c.bar.t <= last.bar.t {
        var i :| 0 <= i < |before| && before[i] == c;
      }
      InsertLast(before, last);
      assert before + [last] == bars;
    }
  }

  function Stamps(bars: seq<ReplayBar>): seq<ReplayRow> {
    seq(|bars|, i requires 0 <= i < |bars| => Stamped(bars[i]))
  }

  lemma {:induction false} WindowOfStamps(session: Session, bars: seq<ReplayBar>)
    requires forall b :: b in bars ==> session.Covers(b.bar.t)
    ensures Window(session, Stamps(bars)) == bars
    decreases |bars|
  {
    if bars != [] {
      var before := bars[..|bars| - 1];
      WindowOfStamps(session, before);
      assert Stamps(bars)[..|bars| - 1] == Stamps(before);
      assert bars[|bars| - 1] in bars;
    }
  }

  lemma SessionRead()
    ensures SessionBarsOf(DAY_ZERO, Stamps(BARS)) == Ok(BARS)
  {
    hide Window, SortByStamp;
    WindowOfStamps(DAY_ZERO, BARS);
    SortedAlready(BARS);
  }

  /** With a minimum risk of 0.01 percent the replay of this session buys at a slipped
      fill above the second target and sells, at the time stop, between the two. */
  lemma SlippedFillSellsAboveTarget()
    ensures NARROW.Valid() && RULES.Valid() && DAY_ZERO.Valid()
    ensures var r := RunSymbol(ENGINE, [], Stamps(BARS));
            && r.Ok? && r.value.Some?
            && r.value.value.plan == PLAN && r.value.value.fill == 100.1 && PLAN.tp2 == 100.04
            && r.value.value.legs == [Leg(TimeStopExit, 100.05, 1.0, 1980)]
  {
    hide FindPlan, FindEntry, ManageTrade, SessionBarsOf, Buys, Decide, Take, Stamps;
    SessionRead();
    PlanFound();
    EntryFound();
    TradeManaged();
    SoldLate();
    FillIs();
  }

  lemma FillIs()
    ensures ReplayEngine.Fill(PLAN) == 100.1
  {
    OnGridPoint(100.1, 1001000);
    hide Round4;
  }
}

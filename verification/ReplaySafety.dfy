/** Every trade the replay opens stays inside its plan's levels. */
module ReplaySafety {
  import opened Prelude
  import opened Domain
  import opened Intraday
  import opened Planning
  import opened Sizing
  import opened Activation
  import opened VirtualTrades
  import opened ReplayEngine

  /* ---- the plan and the entry ---- */

  lemma SlippageOnGrid(n: int)
    requires 0 <= n <= 500
    ensures RoundHalfEven(n as real * 1.001) == n
  {
    assert (n as real * 1.001).Floor == n;
  }

  lemma FillOnGrid(trigger: real)
    requires OnGrid4(trigger) && 0.0 <= trigger <= 0.05
    ensures Round4(trigger * 1.001) == trigger
  {
    var n := RoundHalfEven(trigger * 10000.0);
    assert trigger * 10000.0 == n as real;
    SlippageOnGrid(n);
  }

  lemma SlippageBelowReward(entry: real, risk: real, trigger: real)
    requires entry - 0.00005 <= trigger <= entry + 0.00005 && trigger >= 0.0501
    requires risk * 100.0 >= 0.1 * entry
    ensures trigger * 1.001 <= entry + risk * 2.0
  {
  }

  lemma NextOnGrid(x: real)
    requires OnGrid4(x) && x > 0.05
    ensures x >= 0.0501
  {
    var n := RoundHalfEven(x * 10000.0);
    assert x * 10000.0 == n as real;
  }

  /** With a minimum risk of 0.1 percent or more the slipped fill never passes the second target. */
  lemma FillWithinTarget(input: PlanInput, cfg: Settings, planId: Id, now: int)
    requires BuildTradePlan(input, cfg, planId, now).Ok? && cfg.minRiskPct >= 0.1
    ensures Fill(BuildTradePlan(input, cfg, planId, now).value) <= BuildTradePlan(input, cfg, planId, now).value.tp2
  {
    hide BuildTradePlan, Round4, RoundHalfEven, Percent;
    TriggerNonNegative(input, cfg, planId, now);
    var plan := BuildTradePlan(input, cfg, planId, now).value;
    var entry := input.snapshot.openingRangeHigh.value;
    var risk := entry - input.snapshot.retestLow.value;
    IssuedPlanGeometry(input, cfg, planId, now);
    assert OnGrid4(plan.entryTrigger) && plan.entryTrigger <= plan.tp2;
    if plan.entryTrigger <= 0.05 {
      FillOnGrid(plan.entryTrigger);
    } else {
      NextOnGrid(plan.entryTrigger);
      SlippageBelowReward(entry, risk, plan.entryTrigger);
      Round4Monotone(plan.entryTrigger * 1.001, entry + risk * 2.0);
    }
  }

  /** The levels in terms of the opening-range high and the retest low. */
  lemma TriggerNonNegative(input: PlanInput, cfg: Settings, planId: Id, now: int)
    requires BuildTradePlan(input, cfg, planId, now).Ok?
    ensures var plan := BuildTradePlan(input, cfg, planId, now).value;
            && plan.entryTrigger >= 0.0 && plan.createdAt == now
            && input.snapshot.openingRangeHigh.Some? && input.snapshot.retestLow.Some?
            && var entry := input.snapshot.openingRangeHigh.value;
            var risk := entry - input.snapshot.retestLow.value;
            && plan.entryTrigger == Round4(entry) && plan.tp2 == Round4(entry + risk * 2.0)
            && entry - 0.00005 <= plan.entryTrigger <= entry + 0.00005
            && entry > 0.0 && Percent(risk, entry) >= cfg.minRiskPct
            && (cfg.minRiskPct >= 0.1 ==> risk * 100.0 >= 0.1 * entry)
  {
    var entry := input.snapshot.openingRangeHigh.value;
    var risk := entry - input.snapshot.retestLow.value;
    Round4Error(entry);
    hide Round4, VolatilityGateReason, TargetAtrBudgetReason, LaneRiskMultiplier, Percent, Min, Max;
    ScaleUp(risk, entry, cfg.minRiskPct);
  }

  lemma ScaleUp(risk: real, entry: real, pct: real)
    requires entry > 0.0 && Percent(risk, entry) >= pct
    ensures risk * 100.0 >= pct * entry
    ensures pct >= 0.1 ==> risk * 100.0 >= 0.1 * entry
  {
    var q := risk / entry;
    assert risk == q * entry;
    assert (q * 100.0 - pct) * entry >= 0.0;
    if pct >= 0.1 {
      assert (pct - 0.1) * entry >= 0.0;
    }
  }

  /** What the replay relies on in a plan it found. */
  ghost predicate ReplayPlan(e: Engine, plan: TradePlan, createdAt: int) {
    && PlanGeometry(plan) && plan.entryTrigger >= 0.0 && plan.createdAt == createdAt
    && (e.cfg.minRiskPct >= 0.1 ==> Fill(plan) <= plan.tp2)
  }

  lemma BuiltPlan(e: Engine, s: Structure, prefix: seq<ReplayBar>, benchmark: seq<ReplayBar>)
    requires prefix != [] && BuildReplayPlan(e, s, prefix, benchmark).Planned?
    ensures ReplayPlan(e, BuildReplayPlan(e, s, prefix, benchmark).plan, prefix[|prefix| - 1].bar.t + 60)
  {
    hide BuildTradePlan, PlanGeometry, Fill, BarsThrough, FirstPriceError, PricesRead;
    var retest := prefix[|prefix| - 1].bar;
    var now := retest.t + 60;
    var ranking := e.ranking(prefix, BarsThrough(benchmark, now)).value;
    var input := PlanInput(PlanSnapshot(e, s, retest, ranking), ranking.score, ClassifyQuality(100.0), CoreMomentum);
    IssuedPlanGeometry(input, e.cfg, e.planId(now), now);
    TriggerNonNegative(input, e.cfg, e.planId(now), now);
    if e.cfg.minRiskPct >= 0.1 {
      FillWithinTarget(input, e.cfg, e.planId(now), now);
    }
  }

  lemma {:induction false} FoundPlan(e: Engine, benchmark: seq<ReplayBar>, bars: seq<ReplayBar>)
    ensures var r := FindPlan(e, benchmark, bars);
            r.Found? ==> r.index < |bars| && ReplayPlan(e, r.plan, bars[r.index].bar.t + 60)
    decreases |bars|
  {
    hide StructureOn, BuildReplayPlan, ReplayPlan;
    if bars != [] {
      FoundPlan(e, benchmark, bars[..|bars| - 1]);
      var s := StructureOn(e, bars);
      if s.Ok? && BuildReplayPlan(e, s.value, bars, benchmark).Planned? {
        BuiltPlan(e, s.value, bars, benchmark);
      }
    }
  }

  /** A tick that buys lies in the entry zone of a plan with risk left in it, and the
      quantity is the largest the replay wallet admits. */
  lemma BuyingTick(e: Engine, plan: TradePlan, tick: Tick)
    requires Buys(e, plan, tick)
    ensures plan.entryTrigger <= tick.price <= plan.entryZoneHigh && plan.stop < plan.entryTrigger
    ensures var quantity := Decide(e, plan, tick).value.1;
            && quantity > 0 && Feasible(WALLET, plan, None, LimitsOf(e.runtime), quantity)
            && !Feasible(WALLET, plan, None, LimitsOf(e.runtime), quantity + 1)
  {
    hide Activate, Feasible;
    BuyNowIff(plan, TickSnapshot(e, tick.price), WALLET, None, ReplayGate(e), tick.at);
  }

  /** The construction of the virtual trade never refuses an entry of the replay. */
  lemma EntryHasRisk(e: Engine, plan: TradePlan, createdAt: int, tick: Tick)
    requires ReplayPlan(e, plan, createdAt) && Buys(e, plan, tick)
    ensures Opened(plan, tick.at).Ok? && Accounted(Opened(plan, tick.at).value)
    ensures plan.stop < tick.price < plan.tp2
  {
    hide Buys, Round4, Round6, TotalR;
    BuyingTick(e, plan, tick);
    assert OnGrid4(plan.entryTrigger) && plan.entryTrigger <= plan.entryTrigger * 1.001;
    Round4Monotone(plan.entryTrigger, plan.entryTrigger * 1.001);
    Round4OnGrid(plan.entryTrigger * 1.001);
    OpenTradeAccounted(Fill(plan), plan.stop, plan.tp1, plan.tp2, tick.at, tick.at + TIME_STOP);
  }

  /* ---- the session ---- */

  ghost predicate Within(session: Session, bars: seq<ReplayBar>) {
    forall b :: b in bars ==> session.Covers(b.bar.t)
  }

  lemma {:induction false} WindowWithin(session: Session, rows: seq<ReplayRow>)
    ensures Within(session, Window(session, rows))
    decreases |rows|
  {
    if rows != [] {
      WindowWithin(session, rows[..|rows| - 1]);
    }
  }

  lemma SessionWithin(session: Session, rows: seq<ReplayRow>)
    requires SessionBarsOf(session, rows).Ok?
    ensures Within(session, SessionBarsOf(session, rows).value)
  {
    WindowWithin(session, rows);
    SortAscends(Window(session, rows));
    forall b | b in SessionBarsOf(session, rows).value ensures session.Covers(b.bar.t) {
      assert b in multiset(SessionBarsOf(session, rows).value);
    }
  }

  /* ---- the managed trade ---- */

  lemma {:induction false} ManageAccounted(s: VirtualTrade, bars: seq<ReplayBar>, from: nat)
    requires Accounted(s)
    ensures var r := Manage(s, bars, from); r.Ok? ==> Accounted(r.value) && From(s, r.value)
    decreases |bars|
  {
    hide Accounted, AdvanceTicks, SynthesizeBarTicks;
    if |bars| > from {
      ManageAccounted(s, bars[..|bars| - 1], from);
      var r := Manage(s, bars[..|bars| - 1], from);
      var ticks := SynthesizeBarTicks(bars[|bars| - 1]);
      if r.Ok? && ticks.Ok? {
        AdvanceAccounted(r.value, ticks.value, Some(bars[|bars| - 1].bar.t));
      }
    }
  }

  /** The last bar's close is a mark the open trade has already survived. */
  lemma LastMark(session: Session, s: VirtualTrade, bars: seq<ReplayBar>, from: nat)
    requires Accounted(s) && from < |bars| && Within(session, bars) && s.openedAt >= session.start
    requires Manage(s, bars, from).Ok? && Manage(s, bars, from).value.remaining > 0.0
    ensures var ticks := SynthesizeBarTicks(bars[|bars| - 1]);
            ticks.Ok? && s.stop < ticks.value[3].price < s.tp2
  {
    hide Accounted, AdvanceTicks;
    var before, last := bars[..|bars| - 1], bars[|bars| - 1];
    assert last in bars;
    ManageAccounted(s, before, from);
    var ticks := SynthesizeBarTicks(last).value;
    OpenAfterAdvance(Manage(s, before, from).value, ticks, Some(last.bar.t));
  }

  /** The price at which the end of the day would sell. */
  ghost predicate EndsWithin(s: VirtualTrade, bars: seq<ReplayBar>)
    requires bars != []
  {
    var ticks := SynthesizeBarTicks(bars[|bars| - 1]);
    ticks.Ok? && s.stop < ticks.value[3].price < s.tp2
  }

  lemma EndOfDayAccounted(s: VirtualTrade, bars: seq<ReplayBar>)
    requires bars != [] && Accounted(s) && (s.remaining > 0.0 ==> EndsWithin(s, bars))
    ensures EndOfDay(s, bars).Ok? && Accounted(EndOfDay(s, bars).value) && EndOfDay(s, bars).value.remaining == 0.0
    ensures From(s, EndOfDay(s, bars).value)
  {
    hide SynthesizeBarTicks, TotalR, Take, Round4, Round6;
    ShapeRemaining(s);
    if s.remaining > 0.0 {
      var ticks := SynthesizeBarTicks(bars[|bars| - 1]).value;
      FinalizeAccounted(s, ticks[3].price, ticks[3].at);
    }
  }

  /** The trade after the last bar, before the end of the day. */
  lemma MarksSurvived(session: Session, s: VirtualTrade, bars: seq<ReplayBar>, index: nat, tick: nat)
    requires index < |bars| && Within(session, bars) && SynthesizeBarTicks(bars[index]).Ok? && tick < 4
    requires var at := SynthesizeBarTicks(bars[index]).value[tick];
             Accounted(s) && s.openedAt == at.at && s.stop < at.price < s.tp2 && s.remaining > 0.0
    ensures var rest := SynthesizeBarTicks(bars[index]).value[tick + 1..];
            var managed := Manage(AdvanceTicks(s, rest, None), bars, index + 1);
            managed.Ok? ==> Accounted(managed.value) && From(s, managed.value)
                            && (managed.value.remaining > 0.0 ==> EndsWithin(managed.value, bars))
  {
    hide Accounted, AdvanceTicks, Manage;
    var ticks := SynthesizeBarTicks(bars[index]).value;
    assert bars[index] in bars;
    var rest := ticks[tick + 1..];
    var advanced := AdvanceTicks(s, rest, None);
    AdvanceAccounted(s, rest, None);
    ManageAccounted(advanced, bars, index + 1);
    var managed := Manage(advanced, bars, index + 1);
    if managed.Ok? && managed.value.remaining > 0.0 {
      if index + 1 < |bars| {
        LastMark(session, advanced, bars, index + 1);
      } else {
        ManageNothing(advanced, bars, index + 1);
        EntryBarMark(s, ticks, tick);
      }
    }
  }

  lemma ManageNothing(s: VirtualTrade, bars: seq<ReplayBar>, from: nat)
    requires |bars| <= from
    ensures Manage(s, bars, from) == Ok(s)
  {
  }

  lemma EntryBarMark(s: VirtualTrade, ticks: seq<Tick>, tick: nat)
    requires |ticks| == 4 && tick < 4 && Accounted(s)
    requires s.stop < ticks[tick].price < s.tp2 && ticks[3].at - s.openedAt <= DAY
    requires AdvanceTicks(s, ticks[tick + 1..], None).remaining > 0.0
    ensures s.stop < ticks[3].price < s.tp2
  {
    hide Accounted, AdvanceTicks;
    if tick < 3 {
      OpenAfterAdvance(s, ticks[tick + 1..], None);
    }
  }

  /* ---- the result ---- */

  /** The record of a closed trade: legs, levels and result. */
  ghost predicate TradeWithinBounds(t: ReplayTrade) {
    var p := t.plan;
    && p.stop < t.fill && 1 <= |t.legs| <= 2
    && (forall i :: 0 <= i < |t.legs| ==> p.stop <= t.legs[i].price <= Max(p.tp2, t.fill))
    && (|t.legs| == 1 ==> t.legs[0].fraction == 1.0)
    && (|t.legs| == 2 ==> t.legs[0].exit == Tp1Exit && t.legs[0].price == p.tp1
                          && t.legs[0].fraction == 0.5 == t.legs[1].fraction)
    && var last := t.legs[|t.legs| - 1];
    && last.exit != Tp1Exit && (last.exit == StopExit ==> last.price == p.stop)
       && (last.exit == Tp2Exit ==> last.price == p.tp2)
    && t.r == Round6(TotalR(t.legs, t.fill, p.stop))
    && -1.0 <= t.r <= Round6((Max(p.tp2, t.fill) - t.fill) / (t.fill - p.stop))
  }

  lemma ClosedWithinBounds(e: Engine, t: ReplayTrade, s: VirtualTrade)
    requires Accounted(s) && s.remaining == 0.0
    requires t.legs == s.legs && t.r == s.realizedR && t.fill == s.fill
    requires s.stop == t.plan.stop && s.tp1 == t.plan.tp1 && s.tp2 == t.plan.tp2
    ensures TradeWithinBounds(t)
  {
    hide TotalR, Round6, Round4;
    ClosedTradeBounds(s);
  }

  lemma EntryWithinBounds(e: Engine, plan: TradePlan, createdAt: int, bars: seq<ReplayBar>, index: nat, tick: nat)
    requires ReplayPlan(e, plan, createdAt) && Within(e.session, bars)
    requires index < |bars| && SynthesizeBarTicks(bars[index]).Ok? && tick < 4
    requires Buys(e, plan, SynthesizeBarTicks(bars[index]).value[tick])
    ensures var r := RunEntry(e, plan, bars, index, tick);
            r.Ok? ==> TradeWithinBounds(r.value) && r.value.plan == plan && r.value.fill == Fill(plan)
  {
    hide Accounted, AdvanceTicks, Manage, EndOfDay, Buys, TradeWithinBounds, SynthesizeBarTicks, Decide, Fill,
         EndsWithin;
    var ticks := SynthesizeBarTicks(bars[index]).value;
    EntryHasRisk(e, plan, createdAt, ticks[tick]);
    var s := Opened(plan, ticks[tick].at).value;
    MarksSurvived(e.session, s, bars, index, tick);
    var managed := Manage(AdvanceTicks(s, ticks[tick + 1..], None), bars, index + 1);
    if managed.Ok? {
      EndOfDayAccounted(managed.value, bars);
      ClosedWithinBounds(e, RunEntry(e, plan, bars, index, tick).value, EndOfDay(managed.value, bars).value);
    }
  }

  /** For every session and every trade the replay opens: all exits lie between the
      stop and the second target (or the fill, where slippage put it higher), the
      legs sum to the whole trade, and the result is at least a full stop. */
  lemma ReplayTradeBounds(e: Engine, benchmark: seq<ReplayBar>, rows: seq<ReplayRow>, t: ReplayTrade)
    requires RunSymbol(e, benchmark, rows) == Ok(Some(t))
    ensures TradeWithinBounds(t)
    ensures e.cfg.minRiskPct >= 0.1 ==> t.fill <= t.plan.tp2
    ensures t.quantity > 0 && Feasible(WALLET, t.plan, None, LimitsOf(e.runtime), t.quantity)
            && !Feasible(WALLET, t.plan, None, LimitsOf(e.runtime), t.quantity + 1)
  {
    hide SessionBarsOf, FindPlan, TradeWithinBounds, ManageTrade, Feasible, SynthesizeBarTicks, Buys, Decide,
         PlanGeometry, Fill;
    var bars := SessionBarsOf(e.session, rows).value;
    SessionWithin(e.session, rows);
    FoundPlan(e, benchmark, bars);
    var found := FindPlan(e, benchmark, bars);
    var entry := FindEntry(e, found.plan, bars, found.index + 1);
    EntryWithinBounds(e, found.plan, bars[found.index].bar.t + 60, bars, entry.index, entry.tick);
    BuyingTick(e, found.plan, SynthesizeBarTicks(bars[entry.index]).value[entry.tick]);
  }
}

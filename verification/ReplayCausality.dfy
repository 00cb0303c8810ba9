/** The replay has no look-ahead: what happens after a trade is closed cannot change it. */
module ReplayCausality {
  import opened Prelude
  import opened Domain
  import opened Bars
  import opened Intraday
  import opened Planning
  import opened VirtualTrades
  import opened ReplayEngine
  import opened ReplaySafety

  /* ---- the plan ---- */

  lemma {:induction false} FoundAtIndex(e: Engine, benchmark: seq<ReplayBar>, bars: seq<ReplayBar>)
    requires FindPlan(e, benchmark, bars).Found?
    ensures var i := FindPlan(e, benchmark, bars).index;
            i < |bars| && FindPlan(e, benchmark, bars[..i + 1]) == FindPlan(e, benchmark, bars)
    decreases |bars|
  {
    hide AttemptPlan;
    var before := bars[..|bars| - 1];
    if FindPlan(e, benchmark, before).NotFound? {
      assert bars[..|bars|] == bars;
    } else {
      FoundAtIndex(e, benchmark, before);
      var i := FindPlan(e, benchmark, before).index;
      assert before[..i + 1] == bars[..i + 1];
    }
  }

  lemma {:induction false} BeforeTwice(bars: seq<ReplayBar>, cut: int, earlier: int)
    requires earlier <= cut
    ensures Before(Before(bars, cut), earlier) == Before(bars, earlier)
    decreases |bars|
  {
    if bars != [] {
      var last := bars[|bars| - 1];
      BeforeTwice(bars[..|bars| - 1], cut, earlier);
      if last.bar.t < cut {
        var kept := Before(bars[..|bars| - 1], cut);
        assert (kept + [last])[..|kept|] == kept;
      } else {
        assert Before(bars, cut) == Before(bars[..|bars| - 1], cut);
      }
    }
  }

  lemma SameBenchmark(xs: seq<ReplayBar>, ys: seq<ReplayBar>, cut: int)
    requires Before(xs, cut) == Before(ys, cut)
    ensures BarsThrough(xs, cut) == BarsThrough(ys, cut)
  {
  }

  lemma SameAttempt(e: Engine, xs: seq<ReplayBar>, ys: seq<ReplayBar>, prefix: seq<ReplayBar>)
    requires prefix != []
    requires BarsThrough(xs, prefix[|prefix| - 1].bar.t + 60) == BarsThrough(ys, prefix[|prefix| - 1].bar.t + 60)
    ensures AttemptPlan(e, xs, prefix) == AttemptPlan(e, ys, prefix)
  {
    hide BarsThrough, StructureOn, BuildTradePlan, PlanSnapshot, PricesRead, FirstPriceError;
  }

  /** Two benchmarks that agree before a moment give the same attempts up to it. */
  lemma {:induction false} SamePlan(e: Engine, xs: seq<ReplayBar>, ys: seq<ReplayBar>, bars: seq<ReplayBar>, cut: int)
    requires Before(xs, cut) == Before(ys, cut)
    requires forall b :: b in bars ==> b.bar.t + 60 <= cut
    ensures FindPlan(e, xs, bars) == FindPlan(e, ys, bars)
    decreases |bars|
  {
    hide Before, AttemptPlan, BarsThrough;
    if bars != [] {
      var last := bars[|bars| - 1];
      assert last in bars;
      SamePlan(e, xs, ys, bars[..|bars| - 1], cut);
      BeforeTwice(xs, cut, last.bar.t + 60);
      BeforeTwice(ys, cut, last.bar.t + 60);
      SameBenchmark(xs, ys, last.bar.t + 60);
      SameAttempt(e, xs, ys, bars);
    }
  }

  /** The plan is a function of the prefix that ends at its bar and of the benchmark's
      bars before its creation. */
  lemma PlanHasNoLookAhead(e: Engine, xs: seq<ReplayBar>, ys: seq<ReplayBar>, bars: seq<ReplayBar>,
                           more: seq<ReplayBar>)
    requires Increasing(bars) && FindPlan(e, xs, bars).Found?
    requires var found := FindPlan(e, xs, bars);
             Before(xs, found.plan.createdAt) == Before(ys, found.plan.createdAt)
    ensures var found := FindPlan(e, xs, bars);
            found.index < |bars| && FindPlan(e, ys, bars[..found.index + 1] + more) == found
  {
    hide FindPlan, Before, ReplayPlan;
    var found := FindPlan(e, xs, bars);
    FoundAtIndex(e, xs, bars);
    FoundPlan(e, xs, bars);
    PlanCreatedAt(e, found.plan, bars[found.index].bar.t + 60);
    var prefix := bars[..found.index + 1];
    SamePlan(e, xs, ys, prefix, found.plan.createdAt);
    FindPlanExtends(e, ys, prefix, more);
  }

  lemma PlanCreatedAt(e: Engine, plan: TradePlan, createdAt: int)
    requires ReplayPlan(e, plan, createdAt)
    ensures plan.createdAt == createdAt
  {
  }

  /* ---- the entry ---- */

  lemma {:induction false} EntryAtIndex(e: Engine, plan: TradePlan, bars: seq<ReplayBar>, from: nat)
    requires FindEntry(e, plan, bars, from).EnterAt?
    ensures var i := FindEntry(e, plan, bars, from).index;
            i < |bars| && FindEntry(e, plan, bars[..i + 1], from) == FindEntry(e, plan, bars, from)
    decreases |bars|
  {
    hide FirstBuy, SynthesizeBarTicks, Buys;
    var before := bars[..|bars| - 1];
    if FindEntry(e, plan, before, from).NoEntry? {
      assert bars[..|bars|] == bars;
    } else {
      EntryAtIndex(e, plan, before, from);
      var i := FindEntry(e, plan, before, from).index;
      assert before[..i + 1] == bars[..i + 1];
    }
  }

  /* ---- the times of the legs ---- */

  /** `t` has the legs of `s` and new ones no earlier than `time`. */
  ghost predicate LaterLegs(s: VirtualTrade, t: VirtualTrade, time: int) {
    && s.legs <= t.legs
    && forall i :: |s.legs| <= i < |t.legs| ==> t.legs[i].at >= time
  }

  lemma LaterLegsChain(s: VirtualTrade, t: VirtualTrade, u: VirtualTrade, time: int)
    requires LaterLegs(s, t, time) && LaterLegs(t, u, time)
    ensures LaterLegs(s, u, time)
  {
  }

  lemma OnTickTimes(s: VirtualTrade, tick: Tick)
    ensures LaterLegs(s, OnTick(s, tick), tick.at)
  {
    hide TotalR, Round4, Round6, EvaluatePosition;
  }

  lemma {:induction false} TickByTickTimes(s: VirtualTrade, ticks: seq<Tick>, time: int)
    requires forall t :: t in ticks ==> t.at >= time
    ensures LaterLegs(s, TickByTick(s, ticks), time)
    decreases |ticks|
  {
    hide OnTick;
    if ticks != [] {
      var before, last := ticks[..|ticks| - 1], ticks[|ticks| - 1];
      assert last in ticks;
      TickByTickTimes(s, before, time);
      OnTickTimes(TickByTick(s, before), last);
      LaterLegsChain(s, TickByTick(s, before), TickByTick(s, ticks), time);
    }
  }

  lemma AdvanceTimes(s: VirtualTrade, ticks: seq<Tick>, conflictAt: Option<int>, time: int)
    requires forall t :: t in ticks ==> t.at >= time
    requires conflictAt.Some? ==> conflictAt.value >= time
    ensures LaterLegs(s, AdvanceTicks(s, ticks, conflictAt), time)
  {
    hide TickByTick, TotalR, Round4, Round6, Conflict;
    if ticks != [] {
      assert ticks[0] in ticks;
      TickByTickTimes(s, ticks, time);
    }
  }

  lemma TicksFrom(b: ReplayBar)
    requires SynthesizeBarTicks(b).Ok?
    ensures forall t :: t in SynthesizeBarTicks(b).value ==> t.at >= b.bar.t
  {
  }

  lemma AdvanceBarTimes(s: VirtualTrade, b: ReplayBar)
    ensures AdvanceBar(s, b).Ok? ==> LaterLegs(s, AdvanceBar(s, b).value, b.bar.t)
  {
    hide AdvanceTicks, SynthesizeBarTicks, LaterLegs;
    var ticks := SynthesizeBarTicks(b);
    if ticks.Ok? {
      TicksFrom(b);
      AdvanceTimes(s, ticks.value, Some(b.bar.t), b.bar.t);
    }
  }

  /** From bar `from` on, new legs are no earlier than that bar. */
  lemma {:induction false} ManageTimes(s: VirtualTrade, bars: seq<ReplayBar>, from: nat, time: int)
    requires forall i :: from <= i < |bars| ==> bars[i].bar.t >= time
    ensures var r := Manage(s, bars, from); r.Ok? ==> LaterLegs(s, r.value, time)
    decreases |bars|
  {
    hide AdvanceBar;
    if |bars| > from {
      var before, last := bars[..|bars| - 1], bars[|bars| - 1];
      ManageTimes(s, before, from, time);
      var r := Manage(s, before, from);
      if r.Ok? && AdvanceBar(r.value, last).Ok? {
        AdvanceBarTimes(r.value, last);
        LaterLegsChain(s, r.value, AdvanceBar(r.value, last).value, time);
      }
    }
  }

  /** Managing is resumable at any bar at which the trade is still open. */
  lemma {:induction false} ManageResumes(s: VirtualTrade, bars: seq<ReplayBar>, from: nat, k: nat)
    requires from <= k <= |bars|
    requires Manage(s, bars[..k], from).Ok? && Manage(s, bars[..k], from).value.remaining > 0.0
    ensures Manage(s, bars, from) == Manage(Manage(s, bars[..k], from).value, bars, k)
    decreases |bars|
  {
    hide AdvanceBar;
    if k == |bars| {
      assert bars[..k] == bars;
    } else {
      assert bars[..|bars| - 1][..k] == bars[..k];
      ManageResumes(s, bars[..|bars| - 1], from, k);
    }
  }

  /* ---- the trade ---- */

  lemma EndOfDayTimes(s: VirtualTrade, bars: seq<ReplayBar>, time: int)
    requires bars != [] && bars[|bars| - 1].bar.t >= time
    ensures EndOfDay(s, bars).Ok? ==> LaterLegs(s, EndOfDay(s, bars).value, time)
  {
    hide SynthesizeBarTicks, TotalR, Round4, Round6;
    if SynthesizeBarTicks(bars[|bars| - 1]).Ok? {
      var ticks := SynthesizeBarTicks(bars[|bars| - 1]).value;
      TicksFrom(bars[|bars| - 1]);
      assert ticks[3] in ticks;
    }
  }

  /** An open trade that ends closed gained a leg. */
  lemma ClosingAddsLeg(s: VirtualTrade, t: VirtualTrade)
    requires Accounted(s) && Accounted(t) && From(s, t) && s.remaining > 0.0 && t.remaining == 0.0
    ensures |t.legs| > |s.legs|
  {
    assert |t.legs| == |s.legs| ==> t.legs == s.legs;
  }

  /** A trade whose last exit precedes bar `k` was closed on the bars before `k`, and
      managing those bars alone gives the same trade. */
  lemma ClosedBeforeCut(s: VirtualTrade, bars: seq<ReplayBar>, from: nat, k: nat)
    requires Accounted(s) && Increasing(bars) && from <= k < |bars|
    requires Manage(s, bars, from).Ok? && EndOfDay(Manage(s, bars, from).value, bars).Ok?
    requires var t := EndOfDay(Manage(s, bars, from).value, bars).value;
             Accounted(t) && From(s, t) && t.remaining == 0.0 && t.legs != [] && t.legs[|t.legs| - 1].at < bars[k].bar.t
    ensures Manage(s, bars[..k], from) == Manage(s, bars, from)
    ensures Manage(s, bars, from).value.remaining == 0.0
  {
    hide Accounted, Manage, EndOfDay;
    var m := Manage(s, bars[..k], from);
    ManageRest(s, bars, from, k);
    if m.Ok? && m.value.remaining > 0.0 {
      ManageAccounted(s, bars[..k], from);
      ManageResumes(s, bars, from, k);
      ManageTimes(m.value, bars, k, bars[k].bar.t);
      ManageAccounted(m.value, bars, k);
      EndOfDayTimes(Manage(m.value, bars, k).value, bars, bars[k].bar.t);
      EndOfDayFrom(Manage(m.value, bars, k).value, bars);
      var t := EndOfDay(Manage(s, bars, from).value, bars).value;
      LaterLegsChain(m.value, Manage(m.value, bars, k).value, t, bars[k].bar.t);
      ClosingAddsLeg(m.value, t);
      assert false;
    }
    ManageAccounted(s, bars, from);
    OpenOrClosed(Manage(s, bars, from).value);
  }

  lemma OpenOrClosed(s: VirtualTrade)
    requires Accounted(s)
    ensures s.remaining >= 0.0
  {
    ShapeRemaining(s);
  }

  lemma EndOfDayFrom(s: VirtualTrade, bars: seq<ReplayBar>)
    requires bars != [] && EndOfDay(s, bars).Ok?
    ensures From(s, EndOfDay(s, bars).value)
  {
    hide SynthesizeBarTicks, TotalR, Round4, Round6;
  }

  lemma FromChain(s: VirtualTrade, t: VirtualTrade, u: VirtualTrade)
    requires From(s, t) && From(t, u)
    ensures From(s, u)
  {
  }

  /* ---- one entry ---- */

  /** The legs of an entry are no earlier than its bar. */
  lemma EntryTimes(e: Engine, plan: TradePlan, bars: seq<ReplayBar>, index: nat, tick: nat)
    requires Increasing(bars) && index < |bars| && SynthesizeBarTicks(bars[index]).Ok? && tick < 4
    requires Buys(e, plan, SynthesizeBarTicks(bars[index]).value[tick])
    requires RunEntry(e, plan, bars, index, tick).Ok?
    ensures forall i :: 0 <= i < |RunEntry(e, plan, bars, index, tick).value.legs| ==>
              RunEntry(e, plan, bars, index, tick).value.legs[i].at >= bars[index].bar.t
  {
    hide SynthesizeBarTicks, Buys, Decide, AdvanceTicks, Manage, EndOfDay, Fill;
    var time := bars[index].bar.t;
    var ticks := SynthesizeBarTicks(bars[index]).value;
    TicksFrom(bars[index]);
    var s := Opened(plan, ticks[tick].at).value;
    var rest := ticks[tick + 1..];
    AdvanceTimes(s, rest, None, time);
    var advanced := AdvanceTicks(s, rest, None);
    assert forall i :: index < i < |bars| ==> bars[i].bar.t >= time;
    ManageTimes(advanced, bars, index + 1, time);
    var managed := Manage(advanced, bars, index + 1).value;
    EndOfDayTimes(managed, bars, time);
    LaterLegsChain(s, advanced, managed, time);
    LaterLegsChain(s, managed, EndOfDay(managed, bars).value, time);
  }

  /** The trade entered at this tick, before the later bars. */
  function Entered(plan: TradePlan, ticks: seq<Tick>, tick: nat): Result<VirtualTrade>
    requires tick < |ticks|
  {
    var trade := Opened(plan, ticks[tick].at);
    if trade.Raised? then trade else Ok(AdvanceTicks(trade.value, ticks[tick + 1..], None))
  }

  /** On these bars the symbol's trade is entered and fully closed, before any sale at
      the end of the day. */
  ghost predicate ClosedOn(e: Engine, benchmark: seq<ReplayBar>, bars: seq<ReplayBar>) {
    var found := FindPlan(e, benchmark, bars);
    && found.Found?
    && var entry := FindEntry(e, found.plan, bars, found.index + 1);
    && entry.EnterAt?
    && var trade := Entered(found.plan, SynthesizeBarTicks(bars[entry.index]).value, entry.tick);
    && trade.Ok?
    && var managed := Manage(trade.value, bars, entry.index + 1);
    && managed.Ok? && managed.value.remaining == 0.0
  }

  /** A trade closed before bar `k` by the stamps of its legs was closed on the bars before it. */
  lemma EntryClosedBefore(e: Engine, plan: TradePlan, createdAt: int, bars: seq<ReplayBar>, index: nat, tick: nat,
                          k: nat)
    requires ReplayPlan(e, plan, createdAt) && Within(e.session, bars) && Increasing(bars)
    requires index < k < |bars|
    requires SynthesizeBarTicks(bars[index]).Ok? && tick < 4
             && Buys(e, plan, SynthesizeBarTicks(bars[index]).value[tick])
    requires var r := RunEntry(e, plan, bars, index, tick);
             r.Ok? && r.value.legs != [] && r.value.legs[|r.value.legs| - 1].at < bars[k].bar.t
    ensures var trade := Entered(plan, SynthesizeBarTicks(bars[index]).value, tick);
            && trade.Ok?
            && Manage(trade.value, bars[..k], index + 1).Ok?
            && Manage(trade.value, bars[..k], index + 1).value.remaining == 0.0
  {
    hide SynthesizeBarTicks, Buys, Decide, AdvanceTicks, Manage, EndOfDay, Fill, Accounted, ReplayPlan, From;
    var ticks := SynthesizeBarTicks(bars[index]).value;
    EntryHasRisk(e, plan, createdAt, ticks[tick]);
    FreshIsOpen(plan, ticks[tick].at);
    var s := Opened(plan, ticks[tick].at).value;
    MarksSurvived(e.session, s, bars, index, tick);
    var rest := ticks[tick + 1..];
    var advanced := AdvanceTicks(s, rest, None);
    AdvanceAccounted(s, rest, None);
    var managed := Manage(advanced, bars, index + 1).value;
    ManageAccounted(advanced, bars, index + 1);
    EndOfDayAccounted(managed, bars);
    FromChain(advanced, managed, EndOfDay(managed, bars).value);
    ClosedBeforeCut(advanced, bars, index + 1, k);
  }

  /** The entry on longer bars is the same trade, once it is closed. */
  lemma EntryExtends(e: Engine, plan: TradePlan, early: seq<ReplayBar>, more: seq<ReplayBar>, index: nat, tick: nat)
    requires index < |early| && SynthesizeBarTicks(early[index]).Ok? && tick < 4
    requires Buys(e, plan, SynthesizeBarTicks(early[index]).value[tick])
    requires var trade := Entered(plan, SynthesizeBarTicks(early[index]).value, tick);
             && trade.Ok? && Manage(trade.value, early, index + 1).Ok?
             && Manage(trade.value, early, index + 1).value.remaining == 0.0
    ensures (early + more)[index] == early[index]
    ensures RunEntry(e, plan, early + more, index, tick) == RunEntry(e, plan, early, index, tick)
    ensures RunEntry(e, plan, early, index, tick).Ok? && RunEntry(e, plan, early, index, tick).value.plan == plan
  {
    hide SynthesizeBarTicks, Buys, Decide, AdvanceTicks, Manage, EndOfDay, Fill;
    var trade := Entered(plan, SynthesizeBarTicks(early[index]).value, tick).value;
    ManageStops(trade, early, index + 1, more);
    var managed := Manage(trade, early, index + 1).value;
    ClosedAtEnd(managed, early);
    ClosedAtEnd(managed, early + more);
  }

  lemma FreshIsOpen(plan: TradePlan, at: int)
    requires Opened(plan, at).Ok?
    ensures Opened(plan, at).value.remaining > 0.0 && Opened(plan, at).value.openedAt == at
    ensures var s := Opened(plan, at).value; s.stop == plan.stop && s.tp1 == plan.tp1 && s.tp2 == plan.tp2
  {
  }

  lemma ClosedAtEnd(s: VirtualTrade, bars: seq<ReplayBar>)
    requires bars != [] && s.remaining == 0.0
    ensures EndOfDay(s, bars) == Ok(s)
  {
  }

  /* ---- cutting the session ---- */

  /** Where the bars before `cut` end. */
  lemma {:induction false} CutPoint(bars: seq<ReplayBar>, cut: int) returns (k: nat)
    requires Increasing(bars)
    ensures k <= |bars| && Before(bars, cut) == bars[..k]
    ensures forall i :: 0 <= i < |bars| ==> (bars[i].bar.t < cut <==> i < k)
    decreases |bars|
  {
    k := 0;
    if bars != [] {
      var before := bars[..|bars| - 1];
      k := CutPoint(before, cut);
      if bars[|bars| - 1].bar.t < cut {
        k := |bars|;
      }
      assert bars[..k] == Before(bars, cut);
    }
  }

  /** A trade closed on some bars is the trade of every session that begins with
      them, for every benchmark that agrees before the plan's creation. */
  lemma ClosedTradeIsFixed(e: Engine, xs: seq<ReplayBar>, ys: seq<ReplayBar>, early: seq<ReplayBar>,
                           more: seq<ReplayBar>)
    requires Increasing(early) && ClosedOn(e, xs, early)
    requires var plan := FindPlan(e, xs, early).plan; Before(xs, plan.createdAt) == Before(ys, plan.createdAt)
    ensures RunSession(e, ys, early + more) == RunSession(e, xs, early)
    ensures RunSession(e, xs, early).Ok? && RunSession(e, xs, early).value.Some?
    ensures RunSession(e, xs, early).value.value.plan == FindPlan(e, xs, early).plan
  {
    hide FindPlan, FindEntry, RunEntry, Before, Increasing, Buys, SynthesizeBarTicks, Manage, Entered;
    var found := FindPlan(e, xs, early);
    var entry := FindEntry(e, found.plan, early, found.index + 1);
    PlanHasNoLookAhead(e, xs, ys, early, early[found.index + 1..] + more);
    assert early[..found.index + 1] + (early[found.index + 1..] + more) == early + more;
    FindEntryExtends(e, found.plan, early, found.index + 1, more);
    EntryExtends(e, found.plan, early, more, entry.index, entry.tick);
  }

  /** The record of a trade tells that it was closed: its last exit precedes `cut`, and
      the session goes on at or after it. */
  lemma ClosedByRecord(e: Engine, xs: seq<ReplayBar>, bars: seq<ReplayBar>, cut: int, t: ReplayTrade)
    requires Increasing(bars) && Within(e.session, bars)
    requires RunSession(e, xs, bars) == Ok(Some(t)) && t.legs != []
    requires t.legs[|t.legs| - 1].at < cut && exists b :: b in bars && b.bar.t >= cut
    ensures ClosedOn(e, xs, Before(bars, cut))
  {
    hide FindPlan, FindEntry, RunEntry, Before, Increasing, Within, ReplayPlan, Buys, SynthesizeBarTicks, Entered,
         Manage;
    var k := CutPoint(bars, cut);
    var found := FindPlan(e, xs, bars);
    FoundPlan(e, xs, bars);
    var entry := FindEntry(e, found.plan, bars, found.index + 1);
    EntryTimes(e, found.plan, bars, entry.index, entry.tick);
    assert RunEntry(e, found.plan, bars, entry.index, entry.tick) == Ok(t);
    assert entry.index < k < |bars|;
    FoundAtIndex(e, xs, bars);
    FindPlanExtends(e, xs, bars[..found.index + 1], bars[found.index + 1..k]);
    assert bars[..found.index + 1] + bars[found.index + 1..k] == bars[..k];
    EntryAtIndex(e, found.plan, bars, found.index + 1);
    FindEntryExtends(e, found.plan, bars[..entry.index + 1], found.index + 1, bars[entry.index + 1..k]);
    assert bars[..entry.index + 1] + bars[entry.index + 1..k] == bars[..k];
    EntryClosedBefore(e, found.plan, bars[found.index].bar.t + 60, bars, entry.index, entry.tick, k);
  }

  /* ---- cutting the rows ---- */

  function RowsBefore(rows: seq<ReplayRow>, cut: int): seq<ReplayRow>
    decreases |rows|
  {
    if rows == [] then []
    else
      var last := rows[|rows| - 1];
      RowsBefore(rows[..|rows| - 1], cut) + (if last.Stamped? && last.bar.bar.t < cut then [last] else [])
  }

  lemma WindowAppend(session: Session, rows: seq<ReplayRow>, last: ReplayRow)
    ensures Window(session, rows + [last])
         == Window(session, rows) + (if last.Stamped? && session.Covers(last.bar.bar.t) then [last.bar] else [])
  {
    assert (rows + [last])[..|rows|] == rows;
    hide Session.Covers;
  }

  lemma {:induction false} WindowBefore(session: Session, rows: seq<ReplayRow>, cut: int)
    ensures Window(session, RowsBefore(rows, cut)) == Before(Window(session, rows), cut)
    decreases |rows|
  {
    if rows != [] {
      var before, last := rows[..|rows| - 1], rows[|rows| - 1];
      WindowBefore(session, before, cut);
      var kept, window := RowsBefore(before, cut), Window(session, before);
      assert before + [last] == rows;
      WindowAppend(session, before, last);
      WindowAppend(session, kept, last);
      if last.Stamped? {
        BeforeAppend(window, last.bar, cut);
      }
      assert RowsBefore(rows, cut) == kept + (if last.Stamped? && last.bar.bar.t < cut then [last] else []);
      assert kept + [] == kept && window + [] == window;
      hide Window, Before, RowsBefore, Session.Covers;
    }
  }

  lemma {:induction false} BeforeAll(bars: seq<ReplayBar>, cut: int)
    requires forall b :: b in bars ==> b.bar.t < cut
    ensures Before(bars, cut) == bars
    decreases |bars|
  {
    if bars != [] {
      assert bars[|bars| - 1] in bars;
      BeforeAll(bars[..|bars| - 1], cut);
    }
  }

  lemma BeforeAppend(bars: seq<ReplayBar>, b: ReplayBar, cut: int)
    ensures Before(bars + [b], cut) == Before(bars, cut) + (if b.bar.t < cut then [b] else [])
  {
    assert (bars + [b])[..|bars|] == bars;
  }

  lemma InsertLast(sorted: seq<ReplayBar>, b: ReplayBar)
    requires forall c :: c in sorted ==> c.bar.t <= b.bar.t
    ensures Insert(sorted, b) == sorted + [b]
  {
    assert sorted != [] ==> sorted[|sorted| - 1] in sorted;
  }

  lemma InsertInside(before: seq<ReplayBar>, last: ReplayBar, b: ReplayBar)
    requires last.bar.t > b.bar.t
    ensures Insert(before + [last], b) == Insert(before, b) + [last]
  {
    assert (before + [last])[..|before|] == before;
  }

  /** Inserting and cutting commute. */
  lemma {:induction false} InsertBefore(sorted: seq<ReplayBar>, b: ReplayBar, cut: int)
    requires Ascends(sorted)
    ensures Before(Insert(sorted, b), cut)
         == if b.bar.t < cut then Insert(Before(sorted, cut), b) else Before(sorted, cut)
    decreases |sorted|
  {
    hide Before, Ascends, Insert;
    if sorted != [] {
      AscendsBelowLast(sorted);
    }
    if sorted == [] || sorted[|sorted| - 1].bar.t <= b.bar.t {
      InsertLast(sorted, b);
      BeforeAppend(sorted, b, cut);
      if b.bar.t < cut {
        BeforeAll(sorted, cut);
      } else {
        assert Before(sorted, cut) + [] == Before(sorted, cut);
      }
    } else {
      var before, last := sorted[..|sorted| - 1], sorted[|sorted| - 1];
      assert sorted == before + [last];
      InsertBefore(before, b, cut);
      InsertInside(before, last, b);
      BeforeAppend(Insert(before, b), last, cut);
      BeforeAppend(before, last, cut);
      if last.bar.t < cut {
        InsertInside(Before(before, cut), last, b);
      } else {
        var inserted, kept := Before(Insert(before, b), cut), Before(before, cut);
        assert inserted + [] == inserted && kept + [] == kept;
      }
    }
  }

  /** Sorting and cutting commute. */
  lemma {:induction false} SortBefore(bars: seq<ReplayBar>, cut: int)
    ensures SortByStamp(Before(bars, cut)) == Before(SortByStamp(bars), cut)
    decreases |bars|
  {
    if bars != [] {
      var before, last := bars[..|bars| - 1], bars[|bars| - 1];
      SortBefore(before, cut);
      SortAscends(before);
      InsertBefore(SortByStamp(before), last, cut);
      var kept := Before(before, cut);
      assert (kept + [last])[..|kept|] == kept;
      assert kept + [] == kept;
    }
  }

  lemma SessionCut(session: Session, rows: seq<ReplayRow>, cut: int)
    requires SessionBarsOf(session, rows).Ok?
    ensures Before(SessionBarsOf(session, rows).value, cut) == SortByStamp(Window(session, RowsBefore(rows, cut)))
  {
    WindowBefore(session, rows, cut);
    SortBefore(Window(session, rows), cut);
  }

  /** No look-ahead on raw rows: for two feeds that agree before `cut`, and benchmarks
      that agree before the plan's creation, a trade that is fully closed on the bars
      before `cut` is the trade of both, whatever either holds from `cut` on. */
  lemma NoLookAhead(e: Engine, xs: seq<ReplayBar>, ys: seq<ReplayBar>, rows: seq<ReplayRow>, other: seq<ReplayRow>,
                    cut: int)
    requires SessionBarsOf(e.session, rows).Ok? && SessionBarsOf(e.session, other).Ok?
    requires RowsBefore(rows, cut) == RowsBefore(other, cut)
    requires var early := Before(SessionBarsOf(e.session, rows).value, cut);
             && ClosedOn(e, xs, early)
             && Before(xs, FindPlan(e, xs, early).plan.createdAt) == Before(ys, FindPlan(e, xs, early).plan.createdAt)
    ensures RunSymbol(e, xs, rows).Ok? && RunSymbol(e, xs, rows).value.Some?
    ensures RunSymbol(e, ys, other) == RunSymbol(e, xs, rows)
            == RunSession(e, xs, Before(SessionBarsOf(e.session, rows).value, cut))
  {
    hide RunSession, Before, Window, RowsBefore, ClosedOn, FindPlan;
    var bars, bars' := SessionBarsOf(e.session, rows).value, SessionBarsOf(e.session, other).value;
    var early := Before(bars, cut);
    SessionCut(e.session, rows, cut);
    SessionCut(e.session, other, cut);
    var k := CutPoint(bars, cut);
    var k' := CutPoint(bars', cut);
    assert bars == early + bars[k..] && bars' == early + bars'[k'..];
    ClosedTradeIsFixed(e, xs, xs, early, bars[k..]);
    ClosedTradeIsFixed(e, xs, ys, early, bars'[k'..]);
  }
}

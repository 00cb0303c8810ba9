/** One symbol's historical replay (`replay/engine.py`): the plan search over growing
    prefixes, the entry search over synthesised ticks, and the managed trade. */
module ReplayEngine {
  import opened Prelude
  import opened Domain
  import opened Bars
  import opened Intraday
  import opened Planning
  import opened Sizing
  import opened Activation
  import opened VirtualTrades

  datatype ReplayRow = Stamped(bar: ReplayBar) | Unstamped

  /** What the ranking pipeline computes from the symbol's prefix and the benchmark's bars. */
  datatype Ranking = Ranking(score: real, atr14: Option<real>, atr14Pct: Option<real>, remainingAtr: Option<real>)

  /** `cfg` drives structure and plan; activation and sizing read the process-wide `runtime` settings. */
  datatype Engine = Engine(
    cfg: Settings,
    runtime: Settings,
    rules: Rules,
    session: Session,
    symbol: string,
    ranking: (seq<ReplayBar>, seq<ReplayBar>) -> Result<Ranking>,
    planId: int -> Id)

  const TIME_STOP := 30 * 60

  const WALLET := WalletState(100000.0, 100000.0, 0.0, 0.0, 0.0, 1, None)

  /* ---- session bars ---- */

  function Insert(sorted: seq<ReplayBar>, b: ReplayBar): seq<ReplayBar>
    decreases |sorted|
  {
    if sorted == [] || sorted[|sorted| - 1].bar.t <= b.bar.t then sorted + [b]
    else Insert(sorted[..|sorted| - 1], b) + [sorted[|sorted| - 1]]
  }

  /** A stable sort by stamp. */
  function SortByStamp(bars: seq<ReplayBar>): seq<ReplayBar>
    decreases |bars|
  {
    if bars == [] then [] else Insert(SortByStamp(bars[..|bars| - 1]), bars[|bars| - 1])
  }

  /** The stamped rows inside the trading session, in input order. */
  function Window(session: Session, rows: seq<ReplayRow>): seq<ReplayBar>
    decreases |rows|
  {
    if rows == [] then []
    else
      var last := rows[|rows| - 1];
      Window(session, rows[..|rows| - 1]) + (if last.Stamped? && session.Covers(last.bar.bar.t) then [last.bar] else [])
  }

  predicate Increasing(bars: seq<ReplayBar>) {
    forall i, j :: 0 <= i < j < |bars| ==> bars[i].bar.t < bars[j].bar.t
  }

  /** `_session_bars`. */
  function SessionBarsOf(session: Session, rows: seq<ReplayRow>): Result<seq<ReplayBar>> {
    if Unstamped in rows then Raised("REPLAY_BAR_TIMESTAMP_INVALID")
    else
      var bars := SortByStamp(Window(session, rows));
      if Increasing(bars) then Ok(bars) else Raised("REPLAY_DUPLICATE_BAR")
  }

  function Before(bars: seq<ReplayBar>, cut: int): seq<ReplayBar>
    decreases |bars|
  {
    if bars == [] then []
    else
      var last := bars[|bars| - 1];
      Before(bars[..|bars| - 1], cut) + (if last.bar.t < cut then [last] else [])
  }

  /** `_bars_through`. */
  function BarsThrough(bars: seq<ReplayBar>, before: int): seq<ReplayBar> {
    SortByStamp(Before(bars, before))
  }

  /* ---- the plan ---- */

  datatype Attempt = Planned(plan: TradePlan) | Refused | Broken(error: string)

  function FirstPriceError(prices: seq<Option<real>>): Option<string> {
    if prices == [] then None
    else if BarPrice(prices[0]).Raised? then Some(BarPrice(prices[0]).error)
    else FirstPriceError(prices[1..])
  }

  /** The prices `_build_plan` reads, in its order. */
  function PricesRead(prefix: seq<ReplayBar>): seq<Option<real>>
    requires prefix != []
  {
    var retest := prefix[|prefix| - 1].bar;
    [retest.close, prefix[0].open]
    + seq(|prefix|, i requires 0 <= i < |prefix| => prefix[i].bar.high)
    + seq(|prefix|, i requires 0 <= i < |prefix| => prefix[i].bar.low)
    + [retest.low]
  }

  /** The snapshot at the retest bar, in the fields the plan reads. */
  function PlanSnapshot(e: Engine, s: Structure, retest: Bar, ranking: Ranking): MarketSnapshot
    requires retest.close.Some?
  {
    MarketSnapshot(e.symbol, retest.close.value, None, None, None, s.orh, s.orl, retest.low,
                   ranking.atr14, ranking.atr14Pct, ranking.remainingAtr, false, 0.0, None, Some("ALPACA_SIP"), true,
                   false)
  }

  /** `_build_plan`; a plan refusal keeps the search going, any other error ends the run. */
  function BuildReplayPlan(e: Engine, s: Structure, prefix: seq<ReplayBar>, benchmark: seq<ReplayBar>): Attempt
    requires prefix != []
  {
    var retest := prefix[|prefix| - 1].bar;
    var createdAt := retest.t + 60;
    var ranking := e.ranking(prefix, BarsThrough(benchmark, createdAt));
    var error := FirstPriceError(PricesRead(prefix));
    if s.orh.None? || s.orl.None? then Broken("AssertionError")
    else if ranking.Raised? then Broken(ranking.error)
    else if error.Some? then Broken(error.value)
    else if retest.close.None? then Broken("REPLAY_BAR_INCOMPLETE")
    else
      var input := PlanInput(PlanSnapshot(e, s, retest, ranking.value), ranking.value.score, ClassifyQuality(100.0),
                             CoreMomentum);
      var plan := BuildTradePlan(input, e.cfg, e.planId(createdAt), createdAt);
      if plan.Raised? then Refused else Planned(plan.value)
  }

  function RowsOf(bars: seq<ReplayBar>): seq<Row> {
    seq(|bars|, i requires 0 <= i < |bars| => Dated(bars[i].bar))
  }

  /** The structure of a prefix, with the feed confirmed through its last bar. */
  ghost function StructureOn(e: Engine, prefix: seq<ReplayBar>): Result<Structure>
    requires prefix != []
  {
    Compute(e.rules, e.session, RowsOf(prefix), Some(prefix[|prefix| - 1].bar.t + 60))
  }

  /** What one growing prefix yields. */
  ghost function AttemptPlan(e: Engine, benchmark: seq<ReplayBar>, prefix: seq<ReplayBar>): Attempt
    requires prefix != []
  {
    var s := StructureOn(e, prefix);
    if s.Raised? then Broken(s.error)
    else if s.value.state != RetestValid then Refused
    else BuildReplayPlan(e, s.value, prefix, benchmark)
  }

  datatype Search = Found(index: nat, plan: TradePlan) | NotFound | Failed(error: string)

  /** The first prefix that yields a plan, unless one before it raises. */
  ghost function FindPlan(e: Engine, benchmark: seq<ReplayBar>, bars: seq<ReplayBar>): Search
    decreases |bars|
  {
    if bars == [] then NotFound
    else
      var r := FindPlan(e, benchmark, bars[..|bars| - 1]);
      if !r.NotFound? then r
      else match AttemptPlan(e, benchmark, bars)
        case Planned(plan) => Found(|bars| - 1, plan)
        case Refused => NotFound
        case Broken(error) => Failed(error)
  }

  /* ---- the entry ---- */

  function TickSnapshot(e: Engine, price: real): MarketSnapshot {
    MarketSnapshot(e.symbol, price, Some(price), Some(price), Some(price), None, None, None, None, None, None,
                   false, 0.0, Some(0.0), Some("ALPACA_SIP"), true, false)
  }

  function ReplayGate(e: Engine): Gate {
    Gate(true, true, e.runtime.maxMarketDataAgeSeconds, LimitsOf(e.runtime))
  }

  function Decide(e: Engine, plan: TradePlan, tick: Tick): Result<(SignalState, nat)> {
    Activate(plan, TickSnapshot(e, tick.price), WALLET, None, ReplayGate(e), tick.at)
  }

  predicate Buys(e: Engine, plan: TradePlan, tick: Tick) {
    Decide(e, plan, tick).Ok? && Decide(e, plan, tick).value.0 == BuyNow
  }

  /** The first tick that buys. */
  function FirstBuy(e: Engine, plan: TradePlan, ticks: seq<Tick>): (r: Option<nat>)
    ensures r.Some? ==> r.value < |ticks| && Buys(e, plan, ticks[r.value])
    decreases |ticks|
  {
    if ticks == [] then None
    else
      var r := FirstBuy(e, plan, ticks[..|ticks| - 1]);
      if r.Some? then r
      else if Buys(e, plan, ticks[|ticks| - 1]) then Some(|ticks| - 1)
      else None
  }

  datatype Entry = EnterAt(index: nat, tick: nat) | NoEntry | EntryFailed(error: string)

  /** The first bar after the plan's bar with a tick that buys. */
  function FindEntry(e: Engine, plan: TradePlan, bars: seq<ReplayBar>, from: nat): (r: Entry)
    ensures r.EnterAt? ==> from <= r.index < |bars| && SynthesizeBarTicks(bars[r.index]).Ok?
                           && r.tick < |SynthesizeBarTicks(bars[r.index]).value|
                           && Buys(e, plan, SynthesizeBarTicks(bars[r.index]).value[r.tick])
    decreases |bars|
  {
    if |bars| <= from then NoEntry
    else
      var r := FindEntry(e, plan, bars[..|bars| - 1], from);
      var ticks := SynthesizeBarTicks(bars[|bars| - 1]);
      if !r.NoEntry? then r
      else if ticks.Raised? then EntryFailed(ticks.error)
      else
        var buy := FirstBuy(e, plan, ticks.value);
        if buy.Some? then EnterAt(|bars| - 1, buy.value) else NoEntry
  }

  /* ---- the trade ---- */

  /** The slipped fill: ten basis points above the trigger. */
  function Fill(plan: TradePlan): real {
    Round4(plan.entryTrigger * 1.001)
  }

  /** The bars after the entry bar, until the trade is closed. */
  function Manage(s: VirtualTrade, bars: seq<ReplayBar>, from: nat): Result<VirtualTrade>
    decreases |bars|
  {
    if |bars| <= from then Ok(s)
    else
      var r := Manage(s, bars[..|bars| - 1], from);
      if r.Raised? || r.value.remaining <= 0.0 then r else AdvanceBar(r.value, bars[|bars| - 1])
  }

  /** What is still open after the last bar is sold at its close. */
  function EndOfDay(s: VirtualTrade, bars: seq<ReplayBar>): Result<VirtualTrade>
    requires bars != []
  {
    if s.remaining <= 0.0 then Ok(s)
    else
      var ticks := SynthesizeBarTicks(bars[|bars| - 1]);
      if ticks.Raised? then Raised(ticks.error)
      else Ok(Finalize(s, ticks.value[3].price, ticks.value[3].at))
  }

  function Opened(plan: TradePlan, entryAt: int): Result<VirtualTrade> {
    OpenTrade(Fill(plan), plan.stop, plan.tp1, plan.tp2, entryAt, entryAt + TIME_STOP)
  }

  /** `_manage_trade`: the rest of the entry bar's ticks, the later bars, the end of the day. */
  function ManageTrade(plan: TradePlan, entryAt: int, rest: seq<Tick>, bars: seq<ReplayBar>,
                       entryIndex: nat): Result<VirtualTrade>
    requires entryIndex < |bars|
  {
    var initial := Opened(plan, entryAt);
    if initial.Raised? then initial
    else
      var r := Manage(AdvanceTicks(initial.value, rest, None), bars, entryIndex + 1);
      if r.Raised? then r else EndOfDay(r.value, bars)
  }

  datatype ReplayTrade = ReplayTrade(
    plan: TradePlan, entryAt: int, fill: real, quantity: nat, legs: seq<Leg>, r: real)

  ghost function RunEntry(e: Engine, plan: TradePlan, bars: seq<ReplayBar>, index: nat, tick: nat): Result<ReplayTrade>
    requires index < |bars| && SynthesizeBarTicks(bars[index]).Ok? && tick < 4
    requires Buys(e, plan, SynthesizeBarTicks(bars[index]).value[tick])
  {
    var ticks := SynthesizeBarTicks(bars[index]).value;
    var at := ticks[tick].at;
    var managed := ManageTrade(plan, at, ticks[tick + 1..], bars, index);
    if managed.Raised? then Raised(managed.error)
    else Ok(ReplayTrade(plan, at, Fill(plan), Decide(e, plan, ticks[tick]).value.1, managed.value.legs,
                        managed.value.realizedR))
  }

  /** `_run_symbol` on the session's bars. */
  ghost function RunSession(e: Engine, benchmark: seq<ReplayBar>, bars: seq<ReplayBar>): Result<Option<ReplayTrade>> {
    match FindPlan(e, benchmark, bars)
    case NotFound => Ok(None)
    case Failed(error) => Raised(error)
    case Found(index, plan) =>
      match FindEntry(e, plan, bars, index + 1)
      case NoEntry => Ok(None)
      case EntryFailed(error) => Raised(error)
      case EnterAt(entry, tick) =>
        var trade := RunEntry(e, plan, bars, entry, tick);
        if trade.Raised? then Raised(trade.error) else Ok(Some(trade.value))
  }

  ghost function RunSymbol(e: Engine, benchmark: seq<ReplayBar>, rows: seq<ReplayRow>): Result<Option<ReplayTrade>> {
    var bars := SessionBarsOf(e.session, rows);
    if bars.Raised? then Raised(bars.error) else RunSession(e, benchmark, bars.value)
  }

  /* ---- the loops ---- */

  /** `_session_bars`: filter, sort, and one pass for duplicates. */
  method CollectSession(session: Session, rows: seq<ReplayRow>) returns (r: Result<seq<ReplayBar>>)
    ensures r == SessionBarsOf(session, rows)
  {
    hide SortByStamp, Session.Covers, Increasing, Ascends;
    var output: seq<ReplayBar> := [];
    for i := 0 to |rows|
      invariant output == Window(session, rows[..i]) && Unstamped !in rows[..i]
    {
      assert rows[..i + 1][..i] == rows[..i];
      if rows[i].Unstamped? {
        assert Unstamped in rows;
        return Raised("REPLAY_BAR_TIMESTAMP_INVALID");
      }
      if session.Covers(rows[i].bar.bar.t) {
        output := output + [rows[i].bar];
      }
    }
    assert rows[..|rows|] == rows;
    output := SortByStamp(output);
    SortAscends(Window(session, rows));
    var distinct := StampsDistinct(output);
    r := if distinct then Ok(output) else Raised("REPLAY_DUPLICATE_BAR");
  }

  /** One pass over the sorted bars with the set of stamps seen. */
  method StampsDistinct(output: seq<ReplayBar>) returns (distinct: bool)
    requires Ascends(output)
    ensures distinct == Increasing(output)
  {
    var seen: set<int> := {};
    for i := 0 to |output|
      invariant Increasing(output[..i])
      invariant forall t :: t in seen <==> exists j :: 0 <= j < i && output[j].bar.t == t
    {
      if output[i].bar.t in seen {
        return false;
      }
      seen := seen + {output[i].bar.t};
    }
    assert output[..|output|] == output;
    distinct := true;
  }

  ghost predicate Ascends(bars: seq<ReplayBar>) {
    forall i, j :: 0 <= i < j < |bars| ==> bars[i].bar.t <= bars[j].bar.t
  }

  lemma {:induction false} InsertPermutes(sorted: seq<ReplayBar>, b: ReplayBar)
    ensures multiset(Insert(sorted, b)) == multiset(sorted) + multiset{b}
    decreases |sorted|
  {
    if sorted != [] && sorted[|sorted| - 1].bar.t > b.bar.t {
      var before, last := sorted[..|sorted| - 1], sorted[|sorted| - 1];
      InsertPermutes(before, b);
      assert sorted == before + [last];
    }
  }

  lemma AscendsAppend(bars: seq<ReplayBar>, last: ReplayBar)
    requires Ascends(bars) && forall c :: c in bars ==> c.bar.t <= last.bar.t
    ensures Ascends(bars + [last])
  {
    forall i, j | 0 <= i < j < |bars + [last]| ensures (bars + [last])[i].bar.t <= (bars + [last])[j].bar.t {
      assert bars[i] in bars;
    }
  }

  lemma {:induction false} InsertAscends(sorted: seq<ReplayBar>, b: ReplayBar)
    requires Ascends(sorted)
    ensures Ascends(Insert(sorted, b))
    decreases |sorted|
  {
    hide Ascends;
    if sorted == [] || sorted[|sorted| - 1].bar.t <= b.bar.t {
      if sorted == [] {
        EmptyAscends();
      } else {
        AscendsBelowLast(sorted);
      }
      AscendsAppend(sorted, b);
    } else {
      var before, last := sorted[..|sorted| - 1], sorted[|sorted| - 1];
      AscendsBelowLast(sorted);
      InsertAscends(before, b);
      InsertPermutes(before, b);
      forall c | c in Insert(before, b) ensures c.bar.t <= last.bar.t {
        assert c in multiset(Insert(before, b));
      }
      AscendsAppend(Insert(before, b), last);
    }
  }

  lemma EmptyAscends()
    ensures Ascends([])
  {
  }

  lemma AscendsBelowLast(bars: seq<ReplayBar>)
    requires Ascends(bars) && bars != []
    ensures Ascends(bars[..|bars| - 1]) && forall c :: c in bars ==> c.bar.t <= bars[|bars| - 1].bar.t
  {
  }

  /** Sorting arranges the same bars by stamp. */
  lemma {:induction false} SortAscends(bars: seq<ReplayBar>)
    ensures Ascends(SortByStamp(bars)) && multiset(SortByStamp(bars)) == multiset(bars)
    decreases |bars|
  {
    if bars != [] {
      SortAscends(bars[..|bars| - 1]);
      InsertPermutes(SortByStamp(bars[..|bars| - 1]), bars[|bars| - 1]);
      InsertAscends(SortByStamp(bars[..|bars| - 1]), bars[|bars| - 1]);
      assert bars == bars[..|bars| - 1] + [bars[|bars| - 1]];
    }
  }

  /** The plan search of `_run_symbol`. */
  method SearchPlan(e: Engine, benchmark: seq<ReplayBar>, bars: seq<ReplayBar>) returns (r: Search)
    ensures r == FindPlan(e, benchmark, bars)
  {
    hide Compute, BuildReplayPlan;
    for index := 0 to |bars|
      invariant FindPlan(e, benchmark, bars[..index]) == NotFound
    {
      var prefix := bars[..index + 1];
      assert prefix[..index] == bars[..index];
      var s := ComputeStructure(e.rules, e.session, RowsOf(prefix), Some(bars[index].bar.t + 60));
      PlanSearchStops(e, benchmark, bars, index + 1);
      if s.Raised? {
        return Failed(s.error);
      }
      if s.value.state != RetestValid {
        continue;
      }
      var attempt := BuildReplayPlan(e, s.value, prefix, benchmark);
      if attempt.Refused? {
        continue;
      }
      return if attempt.Planned? then Found(index, attempt.plan) else Failed(attempt.error);
    }
    assert bars[..|bars|] == bars;
    r := NotFound;
  }

  lemma {:induction false} FindPlanExtends(e: Engine, benchmark: seq<ReplayBar>, bars: seq<ReplayBar>,
                                           more: seq<ReplayBar>)
    requires FindPlan(e, benchmark, bars) != NotFound
    ensures FindPlan(e, benchmark, bars + more) == FindPlan(e, benchmark, bars)
    decreases |more|
  {
    hide AttemptPlan;
    if more == [] {
      assert bars + more == bars;
    } else {
      FindPlanExtends(e, benchmark, bars, more[..|more| - 1]);
      assert (bars + more)[..|bars + more| - 1] == bars + more[..|more| - 1];
    }
  }

  lemma PlanSearchStops(e: Engine, benchmark: seq<ReplayBar>, bars: seq<ReplayBar>, n: nat)
    requires n <= |bars|
    ensures FindPlan(e, benchmark, bars[..n]) != NotFound
            ==> FindPlan(e, benchmark, bars) == FindPlan(e, benchmark, bars[..n])
  {
    hide FindPlan;
    assert bars == bars[..n] + bars[n..];
    if FindPlan(e, benchmark, bars[..n]) != NotFound {
      FindPlanExtends(e, benchmark, bars[..n], bars[n..]);
    }
  }

  /** The entry search, tick by tick. */
  method SearchEntry(e: Engine, plan: TradePlan, bars: seq<ReplayBar>, from: nat) returns (r: Entry)
    ensures r == FindEntry(e, plan, bars, from)
  {
    hide FirstBuy, SynthesizeBarTicks;
    if |bars| <= from {
      return NoEntry;
    }
    for index := from to |bars|
      invariant FindEntry(e, plan, bars[..index], from) == NoEntry
    {
      assert bars[..index + 1][..index] == bars[..index];
      EntrySearchStops(e, plan, bars, from, index + 1);
      var ticks := SynthesizeBarTicks(bars[index]);
      if ticks.Raised? {
        return EntryFailed(ticks.error);
      }
      TicksArePositive(bars[index]);
      var buy := SearchTick(e, plan, ticks.value);
      if buy.Some? {
        return EnterAt(index, buy.value);
      }
    }
    assert bars[..|bars|] == bars;
    r := NoEntry;
  }

  lemma TicksArePositive(b: ReplayBar)
    requires SynthesizeBarTicks(b).Ok?
    ensures forall t :: t in SynthesizeBarTicks(b).value ==> t.price > 0.0
  {
  }

  method SearchTick(e: Engine, plan: TradePlan, ticks: seq<Tick>) returns (r: Option<nat>)
    requires forall t :: t in ticks ==> t.price > 0.0
    ensures r == FirstBuy(e, plan, ticks)
  {
    hide Activate;
    for i := 0 to |ticks|
      invariant FirstBuy(e, plan, ticks[..i]) == None
    {
      assert ticks[..i + 1][..i] == ticks[..i];
      BuySearchStops(e, plan, ticks, i + 1);
      var decision := ActivatePlan(plan, TickSnapshot(e, ticks[i].price), WALLET, None, ReplayGate(e), ticks[i].at);
      if decision.Ok? && decision.value.state == BuyNow {
        return Some(i);
      }
    }
    assert ticks[..|ticks|] == ticks;
    r := None;
  }

  lemma {:induction false} FirstBuyExtends(e: Engine, plan: TradePlan, ticks: seq<Tick>, more: seq<Tick>)
    requires FirstBuy(e, plan, ticks).Some?
    ensures FirstBuy(e, plan, ticks + more) == FirstBuy(e, plan, ticks)
    decreases |more|
  {
    hide Buys;
    if more == [] {
      assert ticks + more == ticks;
    } else {
      FirstBuyExtends(e, plan, ticks, more[..|more| - 1]);
      assert (ticks + more)[..|ticks + more| - 1] == ticks + more[..|more| - 1];
    }
  }

  lemma BuySearchStops(e: Engine, plan: TradePlan, ticks: seq<Tick>, n: nat)
    requires n <= |ticks|
    ensures FirstBuy(e, plan, ticks[..n]).Some? ==> FirstBuy(e, plan, ticks) == FirstBuy(e, plan, ticks[..n])
  {
    hide FirstBuy, Buys;
    assert ticks == ticks[..n] + ticks[n..];
    if FirstBuy(e, plan, ticks[..n]).Some? {
      FirstBuyExtends(e, plan, ticks[..n], ticks[n..]);
    }
  }

  lemma {:induction false} FindEntryExtends(e: Engine, plan: TradePlan, bars: seq<ReplayBar>, from: nat,
                                            more: seq<ReplayBar>)
    requires !FindEntry(e, plan, bars, from).NoEntry?
    ensures FindEntry(e, plan, bars + more, from) == FindEntry(e, plan, bars, from)
    decreases |more|
  {
    hide FirstBuy, SynthesizeBarTicks, Buys;
    if more == [] {
      assert bars + more == bars;
    } else {
      FindEntryExtends(e, plan, bars, from, more[..|more| - 1]);
      assert (bars + more)[..|bars + more| - 1] == bars + more[..|more| - 1];
    }
  }

  lemma EntrySearchStops(e: Engine, plan: TradePlan, bars: seq<ReplayBar>, from: nat, n: nat)
    requires n <= |bars|
    ensures !FindEntry(e, plan, bars[..n], from).NoEntry?
            ==> FindEntry(e, plan, bars, from) == FindEntry(e, plan, bars[..n], from)
  {
    hide FindEntry, Buys;
    assert bars == bars[..n] + bars[n..];
    if !FindEntry(e, plan, bars[..n], from).NoEntry? {
      FindEntryExtends(e, plan, bars[..n], from, bars[n..]);
    }
  }

  lemma {:induction false} ManageStops(s: VirtualTrade, bars: seq<ReplayBar>, from: nat, more: seq<ReplayBar>)
    requires from <= |bars|
    requires Manage(s, bars, from).Raised? || Manage(s, bars, from).value.remaining <= 0.0
    ensures Manage(s, bars + more, from) == Manage(s, bars, from)
    decreases |more|
  {
    hide AdvanceBar;
    if more == [] {
      assert bars + more == bars;
    } else {
      ManageStops(s, bars, from, more[..|more| - 1]);
      assert (bars + more)[..|bars + more| - 1] == bars + more[..|more| - 1];
    }
  }

  lemma ManageRest(s: VirtualTrade, bars: seq<ReplayBar>, from: nat, n: nat)
    requires from <= n <= |bars|
    ensures Manage(s, bars[..n], from).Raised? || Manage(s, bars[..n], from).value.remaining <= 0.0
        ==> Manage(s, bars, from) == Manage(s, bars[..n], from)
  {
    hide Manage, AdvanceBar;
    assert bars == bars[..n] + bars[n..];
    if Manage(s, bars[..n], from).Raised? || Manage(s, bars[..n], from).value.remaining <= 0.0 {
      ManageStops(s, bars[..n], from, bars[n..]);
    }
  }

  /** `_manage_trade` on a fresh trade object. */
  method RunTrade(plan: TradePlan, entryAt: int, rest: seq<Tick>, bars: seq<ReplayBar>, entryIndex: nat)
    returns (r: Result<(seq<Leg>, real)>)
    requires entryIndex < |bars|
    ensures var spec := ManageTrade(plan, entryAt, rest, bars, entryIndex);
            r == if spec.Raised? then Raised(spec.error) else Ok((spec.value.legs, spec.value.realizedR))
  {
    hide AdvanceBar, AdvanceTicks, Fill, Take;
    if Fill(plan) <= plan.stop {
      return Raised("REPLAY_FILL_RISK_INVALID");
    }
    var state := new VirtualTradeState(Fill(plan), plan.stop, plan.tp1, plan.tp2, entryAt, entryAt + TIME_STOP);
    ghost var initial := state.View();
    AdvanceNothing(initial);
    if rest != [] {
      var _ := state.OnTicks(rest, None);
    }
    ghost var s := state.View();
    assert s == AdvanceTicks(initial, rest, None);
    assert Manage(s, bars[..entryIndex + 1], entryIndex + 1) == Ok(s);
    var index := entryIndex + 1;
    while index < |bars| && state.remaining > 0.0
      invariant state.Valid() && entryIndex < index <= |bars|
      invariant Manage(s, bars[..index], entryIndex + 1) == Ok(state.View())
    {
      assert bars[..index + 1][..index] == bars[..index];
      ManageRest(s, bars, entryIndex + 1, index + 1);
      var advanced := state.OnBar(bars[index]);
      if advanced.Raised? {
        return Raised(advanced.error);
      }
      index := index + 1;
    }
    ManageRest(s, bars, entryIndex + 1, index);
    assert bars[..|bars|] == bars;
    if state.remaining > 0.0 {
      var ticks := SynthesizeBarTicks(bars[|bars| - 1]);
      if ticks.Raised? {
        return Raised(ticks.error);
      }
      var _ := state.Close(ticks.value[3].price, ticks.value[3].at);
    }
    r := Ok((state.legs, state.realizedR));
  }

  lemma AdvanceNothing(s: VirtualTrade)
    ensures AdvanceTicks(s, [], None) == s
  {
  }

  /** `_run_symbol`. */
  method Run(e: Engine, benchmark: seq<ReplayBar>, rows: seq<ReplayRow>) returns (r: Result<Option<ReplayTrade>>)
    ensures r == RunSymbol(e, benchmark, rows)
  {
    hide FindPlan, ManageTrade, SessionBarsOf, Fill, Activate;
    var session := CollectSession(e.session, rows);
    if session.Raised? {
      return Raised(session.error);
    }
    var bars := session.value;
    var search := SearchPlan(e, benchmark, bars);
    if !search.Found? {
      return if search.NotFound? then Ok(None) else Raised(search.error);
    }
    var entry := SearchEntry(e, search.plan, bars, search.index + 1);
    if !entry.EnterAt? {
      return if entry.NoEntry? then Ok(None) else Raised(entry.error);
    }
    var ticks := SynthesizeBarTicks(bars[entry.index]).value;
    var tick := ticks[entry.tick];
    var managed := RunTrade(search.plan, tick.at, ticks[entry.tick + 1..], bars, entry.index);
    if managed.Raised? {
      return Raised(managed.error);
    }
    r := Ok(Some(ReplayTrade(search.plan, tick.at, Fill(search.plan), Decide(e, search.plan, tick).value.1,
                             managed.value.0, managed.value.1)));
  }
}

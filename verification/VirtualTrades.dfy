/** A virtual trade of the historical replay (`replay/engine.py`), managed by the
    production position rules (`engines/position.py`). */
module VirtualTrades {
  import opened Prelude
  import opened Domain
  import opened Bars

  /* ---- position rules ---- */

  datatype PositionAction = UnknownPosition | SellNow | PlaceStopNow | ReconcileRequired | TakeProfit | Trim | Hold

  const DAY := 24 * 3600

  /** `evaluate_position`: the guards in the order in which they decide. */
  function EvaluatePosition(position: Option<PositionState>, last: real, belowVwap: bool, failedBreakout: bool,
                            maxAge: int, now: int)
    : PositionAction
  {
    if position.None? || position.value.closedAt.Some? || position.value.remainingQuantity <= 0 then UnknownPosition
    else
      var p := position.value;
      if p.stop.Some? && last <= p.stop.value then SellNow
      else if failedBreakout && belowVwap then SellNow
      else if p.protection == Unprotected then PlaceStopNow
      else if !p.managed || p.stop.None? || p.tp1.None? || p.tp2.None? || p.timeStopAt.None? then ReconcileRequired
      else if p.reconciliationState != Reconciled || p.lastReconciledAt.None?
              || now - p.lastReconciledAt.value > maxAge then
        ReconcileRequired
      else if now >= p.timeStopAt.value && last < p.averageFill then SellNow
      else if last >= p.tp2.value then TakeProfit
      else if last >= p.tp1.value then Trim
      else Hold
  }

  /* ---- ticks ---- */

  /** A session bar with its opening price. */
  datatype ReplayBar = ReplayBar(bar: Bar, open: Option<real>)

  datatype Tick = Tick(at: int, price: real)

  function BarPrice(raw: Option<real>): Result<real> {
    if raw.None? then Raised("REPLAY_BAR_INCOMPLETE")
    else if raw.value <= 0.0 then Raised("REPLAY_BAR_INVALID")
    else Ok(raw.value)
  }

  function SynthesizeBarTicks(b: ReplayBar): (r: Result<seq<Tick>>)
    ensures r.Ok? ==> |r.value| == 4
  {
    var open, high, low, close := BarPrice(b.open), BarPrice(b.bar.high), BarPrice(b.bar.low), BarPrice(b.bar.close);
    if open.Raised? then Raised(open.error)
    else if high.Raised? then Raised(high.error)
    else if low.Raised? then Raised(low.error)
    else if close.Raised? then Raised(close.error)
    else if high.value < Max(open.value, close.value) || low.value > Min(open.value, close.value)
      then Raised("REPLAY_BAR_INVALID")
    else
      var rising := close.value >= open.value;
      Ok([Tick(b.bar.t, open.value),
          Tick(b.bar.t + 20, if rising then low.value else high.value),
          Tick(b.bar.t + 40, if rising then high.value else low.value),
          Tick(b.bar.t + 59, close.value)])
  }

  function Lowest(ticks: seq<Tick>): (price: real)
    requires ticks != []
    ensures forall t :: t in ticks ==> price <= t.price
    ensures exists t :: t in ticks && t.price == price
    decreases |ticks|
  {
    var last := ticks[|ticks| - 1];
    assert last in ticks;
    if |ticks| == 1 then last.price
    else
      assert forall t :: t in ticks ==> t in ticks[..|ticks| - 1] || t == last;
      Min(Lowest(ticks[..|ticks| - 1]), last.price)
  }

  function Highest(ticks: seq<Tick>): (price: real)
    requires ticks != []
    ensures forall t :: t in ticks ==> t.price <= price
    ensures exists t :: t in ticks && t.price == price
    decreases |ticks|
  {
    var last := ticks[|ticks| - 1];
    assert last in ticks;
    if |ticks| == 1 then last.price
    else
      assert forall t :: t in ticks ==> t in ticks[..|ticks| - 1] || t == last;
      Max(Highest(ticks[..|ticks| - 1]), last.price)
  }

  /** Ticks exist exactly for a consistent positive bar. */
  lemma TicksExist(b: ReplayBar)
    ensures SynthesizeBarTicks(b).Ok?
       <==> && b.open.Some? && b.bar.high.Some? && b.bar.low.Some? && b.bar.close.Some?
            && 0.0 < b.bar.low.value
            && b.bar.low.value <= b.open.value <= b.bar.high.value
            && b.bar.low.value <= b.bar.close.value <= b.bar.high.value
  {
  }

  /** They run from its open to its close inside its minute and span exactly its low and high. */
  lemma TicksSpanTheBar(b: ReplayBar)
    requires SynthesizeBarTicks(b).Ok?
    ensures var ticks := SynthesizeBarTicks(b).value;
            && |ticks| == 4 && ticks[0].price == b.open.value && ticks[3].price == b.bar.close.value
            && Lowest(ticks) == b.bar.low.value && Highest(ticks) == b.bar.high.value
            && (forall i, j :: 0 <= i < j < 4 ==> b.bar.t <= ticks[i].at < ticks[j].at < b.bar.t + 60)
  {
    hide Lowest, Highest;
    var ticks := SynthesizeBarTicks(b).value;
    TicksExist(b);
    assert ticks[1] in ticks && ticks[2] in ticks;
    assert forall t :: t in ticks ==> b.bar.low.value <= t.price <= b.bar.high.value;
  }

  /* ---- the trade ---- */

  datatype Exit = StopExit | TimeStopExit | Tp1Exit | Tp2Exit

  datatype Leg = Leg(exit: Exit, price: real, fraction: real, at: int)

  /** `status` is the last exit; `OPEN` before the first. */
  datatype TradeRecord = TradeRecord(
    fill: real, stop: real, tp1: real, tp2: real, openedAt: int, timeStopAt: int,
    remaining: real, tp1Taken: bool, status: Option<Exit>, realizedR: real, legs: seq<Leg>)

  /** Construction refuses a fill at or below its stop. */
  type VirtualTrade = t: TradeRecord | t.fill > t.stop
    witness TradeRecord(1.0, 0.0, 2.0, 3.0, 0, 0, 1.0, false, None, 0.0, [])

  datatype Transition = Transition(status: Option<Exit>, remaining: real, tp1Taken: bool, realizedR: real,
                                   legs: seq<Leg>)

  function SnapshotTransition(s: VirtualTrade): Transition {
    Transition(s.status, s.remaining, s.tp1Taken, s.realizedR, s.legs)
  }

  function OpenTrade(fill: real, stop: real, tp1: real, tp2: real, openedAt: int,
                     timeStopAt: int): Result<VirtualTrade> {
    if fill <= stop then Raised("REPLAY_FILL_RISK_INVALID")
    else Ok(TradeRecord(fill, stop, tp1, tp2, openedAt, timeStopAt, 1.0, false, None, 0.0, []))
  }

  /** One leg's result in units of the trade's risk. */
  function LegR(leg: Leg, fill: real, stop: real): real
    requires fill > stop
  {
    leg.fraction * (leg.price - fill) / (fill - stop)
  }

  function TotalR(legs: seq<Leg>, fill: real, stop: real): real
    requires fill > stop
    decreases |legs|
  {
    if legs == [] then 0.0
    else TotalR(legs[..|legs| - 1], fill, stop) + LegR(legs[|legs| - 1], fill, stop)
  }

  /** `_transition`: one more leg, then the remainder and the result from all legs. */
  function Take(s: VirtualTrade, exit: Exit, price: real, fraction: real, at: int): VirtualTrade {
    var legs := s.legs + [Leg(exit, Round4(price), Round6(fraction), at)];
    s.(legs := legs,
       remaining := Round6(Max(0.0, s.remaining - fraction)),
       status := Some(exit),
       realizedR := Round6(TotalR(legs, s.fill, s.stop)))
  }

  function VirtualPosition(s: VirtualTrade): PositionState {
    var open := if s.tp1Taken then 1 else 2;
    PositionState(0, 0, "VIRTUAL", 2, open, s.fill, Some(s.stop), Some(s.tp1), Some(s.tp2), s.openedAt,
                  Some(s.timeStopAt), 0.0, true, "VIRTUAL_FILL", None, Protected, Some(s.stop), None, open, Reconciled,
                  Some(s.openedAt))
  }

  function ActionOn(s: VirtualTrade, tick: Tick): PositionAction {
    EvaluatePosition(Some(VirtualPosition(s)), tick.price, false, false, DAY, tick.at)
  }

  /** What one tick does to an open trade. */
  function OnTick(s: VirtualTrade, tick: Tick): VirtualTrade {
    if s.remaining <= 0.0 then s
    else match ActionOn(s, tick)
      case SellNow =>
        if tick.price <= s.stop then Take(s, StopExit, s.stop, s.remaining, tick.at)
        else Take(s, TimeStopExit, tick.price, s.remaining, tick.at)
      case TakeProfit => Take(s, Tp2Exit, s.tp2, s.remaining, tick.at).(tp1Taken := true)
      case Trim =>
        if s.tp1Taken then s else Take(s, Tp1Exit, s.tp1, Min(0.5, s.remaining), tick.at).(tp1Taken := true)
      case _ => s
  }

  /** Tick-by-tick evaluation, without the rule for conflicting bars. */
  function TickByTick(s: VirtualTrade, ticks: seq<Tick>): VirtualTrade
    decreases |ticks|
  {
    if ticks == [] then s else OnTick(TickByTick(s, ticks[..|ticks| - 1]), ticks[|ticks| - 1])
  }

  function NextTarget(s: VirtualTrade): real {
    if s.tp1Taken then s.tp2 else s.tp1
  }

  predicate Conflict(s: VirtualTrade, ticks: seq<Tick>)
    requires ticks != []
  {
    Lowest(ticks) <= s.stop && Highest(ticks) >= NextTarget(s)
  }

  function StopOut(s: VirtualTrade, at: int): VirtualTrade {
    Take(s, StopExit, s.stop, s.remaining, at)
  }

  /** `advance_virtual_trade_ticks`: a bar that touches stop and target is stopped first. */
  function AdvanceTicks(s: VirtualTrade, ticks: seq<Tick>, conflictAt: Option<int>): VirtualTrade {
    if ticks == [] || s.remaining <= 0.0 then s
    else if Conflict(s, ticks) then StopOut(s, if conflictAt.Some? then conflictAt.value else ticks[0].at)
    else TickByTick(s, ticks)
  }

  function AdvanceBar(s: VirtualTrade, b: ReplayBar): Result<VirtualTrade> {
    var ticks := SynthesizeBarTicks(b);
    if ticks.Raised? then Raised(ticks.error) else Ok(AdvanceTicks(s, ticks.value, Some(b.bar.t)))
  }

  function Finalize(s: VirtualTrade, price: real, at: int): VirtualTrade {
    if s.remaining <= 0.0 then s else Take(s, TimeStopExit, price, s.remaining, at)
  }

  /** The snapshots a tick-by-tick pass reports: one for each new leg. */
  function Reports(s: VirtualTrade, ticks: seq<Tick>): seq<Transition>
    decreases |ticks|
  {
    if ticks == [] then []
    else
      var before, after := TickByTick(s, ticks[..|ticks| - 1]), TickByTick(s, ticks);
      Reports(s, ticks[..|ticks| - 1]) + (if |after.legs| > |before.legs| then [SnapshotTransition(after)] else [])
  }

  lemma {:induction false} ClosedStays(s: VirtualTrade, ticks: seq<Tick>, more: seq<Tick>)
    requires TickByTick(s, ticks).remaining <= 0.0
    ensures TickByTick(s, ticks + more) == TickByTick(s, ticks)
    ensures Reports(s, ticks + more) == Reports(s, ticks)
    decreases |more|
  {
    if more == [] {
      assert ticks + more == ticks;
    } else {
      ClosedStays(s, ticks, more[..|more| - 1]);
      assert (ticks + more)[..|ticks + more| - 1] == ticks + more[..|more| - 1];
    }
  }

  /* ---- accounting ---- */

  /** Levels as a plan carries them: rounded and in order. */
  ghost predicate Levels(s: VirtualTrade) {
    && OnGrid4(s.fill) && OnGrid4(s.stop) && OnGrid4(s.tp1) && OnGrid4(s.tp2)
    && s.stop < s.tp1 <= s.tp2
  }

  /** No exit is above the second target, or above the fill where slippage put that higher. */
  function Ceiling(s: VirtualTrade): real {
    Max(s.tp2, s.fill)
  }

  ghost predicate FirstTarget(s: VirtualTrade, leg: Leg) {
    leg.exit == Tp1Exit && leg.price == s.tp1 && leg.fraction == 0.5
  }

  /** A leg that closes `fraction` of the trade. */
  ghost predicate Closing(s: VirtualTrade, leg: Leg, fraction: real) {
    && leg.fraction == fraction && s.stop <= leg.price <= Ceiling(s)
    && match leg.exit
       case StopExit => leg.price == s.stop
       case Tp2Exit => leg.price == s.tp2
       case TimeStopExit => true
       case Tp1Exit => false
  }

  /** The only shapes a trade takes: untouched, trimmed once at the first target,
      closed in one leg, or trimmed and then closed. */
  ghost predicate Shape(s: VirtualTrade) {
    || (s.legs == [] && s.remaining == 1.0 && !s.tp1Taken)
    || (|s.legs| == 1 && FirstTarget(s, s.legs[0]) && s.remaining == 0.5 && s.tp1Taken)
    || (|s.legs| == 1 && Closing(s, s.legs[0], 1.0) && s.remaining == 0.0)
    || (|s.legs| == 2 && FirstTarget(s, s.legs[0]) && Closing(s, s.legs[1], 0.5) && s.remaining == 0.0)
  }

  ghost predicate Accounted(s: VirtualTrade) {
    && Levels(s) && Shape(s)
    && (s.status == if s.legs == [] then None else Some(s.legs[|s.legs| - 1].exit))
    && s.realizedR == Round6(TotalR(s.legs, s.fill, s.stop))
  }

  /** `t` came from `s`: same terms, and only new legs. */
  ghost predicate From(s: VirtualTrade, t: VirtualTrade) {
    && t.fill == s.fill && t.stop == s.stop && t.tp1 == s.tp1 && t.tp2 == s.tp2
    && t.openedAt == s.openedAt && t.timeStopAt == s.timeStopAt
    && s.legs <= t.legs
  }

  lemma RoundedFractions()
    ensures Round6(0.0) == 0.0 && Round6(0.5) == 0.5 && Round6(1.0) == 1.0 && Round6(-1.0) == -1.0
  {
    RoundInteger(0);
    RoundInteger(500000);
    RoundInteger(1000000);
    RoundInteger(-1000000);
  }

  lemma OpenTradeAccounted(fill: real, stop: real, tp1: real, tp2: real, openedAt: int, timeStopAt: int)
    requires OpenTrade(fill, stop, tp1, tp2, openedAt, timeStopAt).Ok?
    requires Levels(OpenTrade(fill, stop, tp1, tp2, openedAt, timeStopAt).value)
    ensures Accounted(OpenTrade(fill, stop, tp1, tp2, openedAt, timeStopAt).value)
  {
    RoundedFractions();
  }

  /** Selling all that remains inside the limits closes the trade. */
  lemma TakeCloses(s: VirtualTrade, exit: Exit, price: real, at: int)
    requires Accounted(s) && s.remaining > 0.0
    requires s.stop <= Round4(price) <= Ceiling(s)
    requires exit == StopExit ==> Round4(price) == s.stop
    requires exit == Tp2Exit ==> Round4(price) == s.tp2
    requires exit != Tp1Exit
    ensures var t := Take(s, exit, price, s.remaining, at);
            && t.remaining == 0.0 && Accounted(t) && From(s, t) && Accounted(t.(tp1Taken := true))
            && t.legs == s.legs + [Leg(exit, Round4(price), s.remaining, at)]
  {
    hide TotalR, Round4, Round6;
    RoundedFractions();
  }

  lemma TakeTrims(s: VirtualTrade, at: int)
    requires Accounted(s) && s.remaining > 0.0 && !s.tp1Taken
    ensures var t := Take(s, Tp1Exit, s.tp1, Min(0.5, s.remaining), at).(tp1Taken := true);
            Accounted(t) && From(s, t)
  {
    hide TotalR, Round4, Round6;
    RoundedFractions();
  }

  /** Rounding keeps a price between two levels of the grid. */
  lemma RoundWithin(low: real, price: real, high: real)
    requires OnGrid4(low) && OnGrid4(high) && low <= price <= high
    ensures low <= Round4(price) <= high
  {
    Round4Monotone(low, price);
    Round4Monotone(price, high);
  }

  lemma OnTickAccounted(s: VirtualTrade, tick: Tick)
    requires Accounted(s)
    ensures Accounted(OnTick(s, tick)) && From(s, OnTick(s, tick))
    ensures tick.price <= s.stop ==> OnTick(s, tick).remaining == 0.0
  {
    hide TotalR, Round4, Round6, Shape, Take;
    assert s.remaining >= 0.0 by { ShapeRemaining(s); }
    if s.remaining > 0.0 {
      RoundWithin(s.stop, s.stop, Ceiling(s));
      RoundWithin(s.stop, s.tp2, Ceiling(s));
      match ActionOn(s, tick)
      case SellNow =>
        if tick.price <= s.stop {
          TakeCloses(s, StopExit, s.stop, tick.at);
        } else {
          RoundWithin(s.stop, tick.price, Ceiling(s));
          TakeCloses(s, TimeStopExit, tick.price, tick.at);
        }
      case TakeProfit => TakeCloses(s, Tp2Exit, s.tp2, tick.at);
      case Trim =>
        if !s.tp1Taken {
          TakeTrims(s, tick.at);
        }
      case _ =>
    }
  }

  lemma ShapeRemaining(s: VirtualTrade)
    requires Shape(s)
    ensures s.remaining in {0.0, 0.5, 1.0}
  {
  }

  lemma {:induction false} TickByTickAccounted(s: VirtualTrade, ticks: seq<Tick>)
    requires Accounted(s)
    ensures Accounted(TickByTick(s, ticks)) && From(s, TickByTick(s, ticks))
    decreases |ticks|
  {
    hide Accounted, OnTick;
    if ticks != [] {
      TickByTickAccounted(s, ticks[..|ticks| - 1]);
      OnTickAccounted(TickByTick(s, ticks[..|ticks| - 1]), ticks[|ticks| - 1]);
    }
  }

  /** Every advance keeps the books: the remainder is 1, one half or 0, at most two
      legs, the first target at most once, and every exit within the limits. */
  lemma AdvanceAccounted(s: VirtualTrade, ticks: seq<Tick>, conflictAt: Option<int>)
    requires Accounted(s)
    ensures Accounted(AdvanceTicks(s, ticks, conflictAt)) && From(s, AdvanceTicks(s, ticks, conflictAt))
  {
    hide TotalR, Round4, Round6, Shape, Take;
    if ticks == [] || s.remaining <= 0.0 {
    } else if Conflict(s, ticks) {
      RoundWithin(s.stop, s.stop, Ceiling(s));
      TakeCloses(s, StopExit, s.stop, if conflictAt.Some? then conflictAt.value else ticks[0].at);
    } else {
      TickByTickAccounted(s, ticks);
    }
  }

  lemma FinalizeAccounted(s: VirtualTrade, price: real, at: int)
    requires Accounted(s) && s.stop <= price <= Ceiling(s)
    ensures var t := Finalize(s, price, at); Accounted(t) && From(s, t) && t.remaining == 0.0
  {
    hide TotalR, Round4, Round6, Shape, Take;
    ShapeRemaining(s);
    if s.remaining > 0.0 {
      RoundWithin(s.stop, price, Ceiling(s));
      TakeCloses(s, TimeStopExit, price, at);
    }
  }

  /* ---- the result ---- */

  lemma LegBounds(leg: Leg, fill: real, stop: real, low: real, high: real)
    requires fill > stop && leg.fraction >= 0.0 && low <= leg.price <= high
    ensures leg.fraction * ((low - fill) / (fill - stop)) <= LegR(leg, fill, stop)
            <= leg.fraction * ((high - fill) / (fill - stop))
  {
    var risk := fill - stop;
    Quotients(low - fill, leg.price - fill, risk);
    Quotients(leg.price - fill, high - fill, risk);
    var a, b, c := (low - fill) / risk, (leg.price - fill) / risk, (high - fill) / risk;
    Scaled(leg.fraction, leg.price - fill, risk);
    assert leg.fraction * a <= leg.fraction * b <= leg.fraction * c;
  }

  lemma Quotients(x: real, y: real, d: real)
    requires x <= y && d > 0.0
    ensures x / d <= y / d
  {
  }

  lemma Scaled(k: real, x: real, d: real)
    requires d > 0.0
    ensures k * x / d == k * (x / d)
  {
    var q := x / d;
    assert x == q * d;
    assert k * x == k * q * d;
  }

  lemma FullStop(fill: real, stop: real)
    requires fill > stop
    ensures (stop - fill) / (fill - stop) == -1.0
  {
  }

  lemma TotalOfOne(a: Leg, fill: real, stop: real)
    requires fill > stop
    ensures TotalR([a], fill, stop) == LegR(a, fill, stop)
  {
    assert [a][..0] == [];
  }

  lemma TotalOfTwo(a: Leg, b: Leg, fill: real, stop: real)
    requires fill > stop
    ensures TotalR([a, b], fill, stop) == LegR(a, fill, stop) + LegR(b, fill, stop)
  {
    assert [a, b][..1] == [a];
    TotalOfOne(a, fill, stop);
  }

  /** The result of a closed trade, before rounding, against that of any earlier state:
      what was still open returned at least a full stop and at most the ceiling. */
  lemma ResultSince(s: VirtualTrade, t: VirtualTrade)
    requires Accounted(s) && Accounted(t) && From(s, t) && t.remaining == 0.0
    ensures TotalR(t.legs, t.fill, t.stop) >= TotalR(s.legs, s.fill, s.stop) - s.remaining
    ensures TotalR(t.legs, t.fill, t.stop)
         <= TotalR(s.legs, s.fill, s.stop) + s.remaining * ((Ceiling(s) - s.fill) / (s.fill - s.stop))
  {
    hide TotalR, LegR, Round4, Round6;
    var fill, stop := s.fill, s.stop;
    FullStop(fill, stop);
    if |t.legs| == 1 {
      var a := t.legs[0];
      assert t.legs == [a];
      assert s.legs == [] || s.legs == [a];
      TotalOfOne(a, fill, stop);
      LegBounds(a, fill, stop, stop, Ceiling(s));
      EmptyTotal(fill, stop);
    } else {
      var a, b := t.legs[0], t.legs[1];
      assert t.legs == [a, b];
      TotalOfTwo(a, b, fill, stop);
      TotalOfOne(a, fill, stop);
      LegBounds(a, fill, stop, stop, Ceiling(s));
      LegBounds(b, fill, stop, stop, Ceiling(s));
      EmptyTotal(fill, stop);
      assert s.legs == [] || s.legs == [a] || s.legs == [a, b];
    }
  }

  lemma EmptyTotal(fill: real, stop: real)
    requires fill > stop
    ensures TotalR([], fill, stop) == 0.0
  {
  }

  /** A closed trade lost at most its risk and gained at most its ceiling. */
  lemma ClosedTradeBounds(t: VirtualTrade)
    requires Accounted(t) && t.remaining == 0.0
    ensures -1.0 <= t.realizedR <= Round6((Ceiling(t) - t.fill) / (t.fill - t.stop))
  {
    var s := t.(legs := [], remaining := 1.0, tp1Taken := false, status := None, realizedR := 0.0);
    RoundedFractions();
    EmptyTotal(t.fill, t.stop);
    ResultSince(s, t);
    Round6Monotone(-1.0, TotalR(t.legs, t.fill, t.stop));
    Round6Monotone(TotalR(t.legs, t.fill, t.stop), (Ceiling(t) - t.fill) / (t.fill - t.stop));
  }

  /* ---- stop first ---- */

  lemma {:induction false} StopIsFinal(s: VirtualTrade, ticks: seq<Tick>)
    requires Accounted(s) && exists t :: t in ticks && t.price <= s.stop
    ensures TickByTick(s, ticks).remaining == 0.0
    decreases |ticks|
  {
    hide Accounted, OnTick;
    var before, last := ticks[..|ticks| - 1], ticks[|ticks| - 1];
    TickByTickAccounted(s, before);
    OnTickAccounted(TickByTick(s, before), last);
    if last.price > s.stop {
      var t :| t in ticks && t.price <= s.stop;
      assert t in before;
      StopIsFinal(s, before);
      ClosedStays(s, before, [last]);
      assert ticks == before + [last];
    }
  }

  lemma StopOutTotal(s: VirtualTrade, at: int)
    requires Accounted(s) && s.remaining > 0.0
    ensures TotalR(StopOut(s, at).legs, s.fill, s.stop) == TotalR(s.legs, s.fill, s.stop) - s.remaining
    ensures StopOut(s, at).realizedR == Round6(TotalR(s.legs, s.fill, s.stop) - s.remaining)
  {
    hide Round4, Round6;
    RoundedFractions();
    var leg := Leg(StopExit, s.stop, s.remaining, at);
    assert StopOut(s, at).legs == s.legs + [leg];
    assert (s.legs + [leg])[..|s.legs|] == s.legs;
    LegBounds(leg, s.fill, s.stop, s.stop, s.stop);
    FullStop(s.fill, s.stop);
  }

  /** Stop-first is the worst case: for a bar that touches the stop and the next
      target, no ordering of its ticks, whatever their times, reports less. */
  lemma StopFirstIsWorst(s: VirtualTrade, ticks: seq<Tick>, conflictAt: Option<int>, other: seq<Tick>)
    requires Accounted(s) && s.remaining > 0.0
    requires ticks != [] && Conflict(s, ticks)
    requires forall t :: t in ticks ==> exists o :: o in other && o.price == t.price
    ensures TickByTick(s, other).remaining == 0.0 == AdvanceTicks(s, ticks, conflictAt).remaining
    ensures AdvanceTicks(s, ticks, conflictAt).realizedR <= TickByTick(s, other).realizedR
  {
    hide TotalR, Round4, Round6, Shape, OnTick;
    var low :| low in ticks && low.price == Lowest(ticks);
    StopIsFinal(s, other);
    TickByTickAccounted(s, other);
    var t := TickByTick(s, other);
    ResultSince(s, t);
    var at := if conflictAt.Some? then conflictAt.value else ticks[0].at;
    StopOutTotal(s, at);
    RoundWithin(s.stop, s.stop, Ceiling(s));
    TakeCloses(s, StopExit, s.stop, at);
    Round6Monotone(TotalR(s.legs, s.fill, s.stop) - s.remaining, TotalR(t.legs, t.fill, t.stop));
  }

  /** The worst case is attained by the ordering that visits the low first. */
  lemma StopFirstIsAttained(s: VirtualTrade, ticks: seq<Tick>, conflictAt: Option<int>, first: Tick, rest: seq<Tick>)
    requires Accounted(s) && s.remaining > 0.0
    requires ticks != [] && Conflict(s, ticks) && first.price <= s.stop
    ensures AdvanceTicks(s, ticks, conflictAt).realizedR == TickByTick(s, [first] + rest).realizedR
  {
    hide TotalR, Round4, Round6, Shape, Take;
    OnTickAccounted(s, first);
    assert [first][..0] == [];
    assert TickByTick(s, [first]) == OnTick(s, first) == StopOut(s, first.at);
    ClosedStays(s, [first], rest);
    StopOutTotal(s, first.at);
    StopOutTotal(s, if conflictAt.Some? then conflictAt.value else ticks[0].at);
  }

  /* ---- the price at the end of the day ---- */

  /** A trade that a tick leaves open was marked strictly between its stop and its
      second target, as long as the position counts as reconciled. */
  lemma OpenAfterTick(s: VirtualTrade, tick: Tick)
    requires Accounted(s) && OnTick(s, tick).remaining > 0.0 && tick.at - s.openedAt <= DAY
    ensures s.stop < tick.price < s.tp2
  {
    hide TotalR, Round4, Round6, Shape, Take;
    OnTickAccounted(s, tick);
    if tick.price >= s.tp2 && s.remaining > 0.0 {
      RoundWithin(s.stop, s.stop, Ceiling(s));
      RoundWithin(s.stop, s.tp2, Ceiling(s));
      if ActionOn(s, tick) == TakeProfit {
        TakeCloses(s, Tp2Exit, s.tp2, tick.at);
      } else {
        RoundWithin(s.stop, tick.price, Ceiling(s));
        TakeCloses(s, TimeStopExit, tick.price, tick.at);
      }
    }
  }

  lemma OpenAfterAdvance(s: VirtualTrade, ticks: seq<Tick>, conflictAt: Option<int>)
    requires Accounted(s) && ticks != [] && AdvanceTicks(s, ticks, conflictAt).remaining > 0.0
    requires ticks[|ticks| - 1].at - s.openedAt <= DAY
    ensures s.stop < ticks[|ticks| - 1].price < s.tp2
  {
    hide TotalR, Round4, Round6, Shape, Take, OnTick;
    if Conflict(s, ticks) {
      RoundWithin(s.stop, s.stop, Ceiling(s));
      TakeCloses(s, StopExit, s.stop, if conflictAt.Some? then conflictAt.value else ticks[0].at);
      assert false;
    }
    TickByTickAccounted(s, ticks[..|ticks| - 1]);
    OpenAfterTick(TickByTick(s, ticks[..|ticks| - 1]), ticks[|ticks| - 1]);
  }

  /* ---- slippage above the second target ---- */

  ghost predicate ExitsBelowTarget(t: VirtualTrade) {
    forall i :: 0 <= i < |t.legs| ==> t.legs[i].price <= t.tp2
  }

  /** Every exit stays at or below the second target, for all ticks, exactly when
      the fill itself does: a time stop sells anywhere under the fill. */
  lemma ExitsBelowTargetIff(s: VirtualTrade)
    requires Accounted(s) && s.legs == [] && s.timeStopAt - s.openedAt <= DAY
    ensures (forall ticks :: ExitsBelowTarget(TickByTick(s, ticks))) <==> s.fill <= s.tp2
  {
    hide TickByTick, Round4, Round6, TotalR;
    if s.fill <= s.tp2 {
      forall ticks ensures ExitsBelowTarget(TickByTick(s, ticks)) {
        TickByTickAccounted(s, ticks);
      }
    } else {
      SoldAboveTarget(s);
    }
  }

  lemma SoldAboveTarget(s: VirtualTrade)
    requires Accounted(s) && s.legs == [] && s.fill > s.tp2 && s.timeStopAt - s.openedAt <= DAY
    ensures exists ticks :: !ExitsBelowTarget(TickByTick(s, ticks))
  {
    hide TotalR, Round4, Round6;
    var tick := Tick(s.timeStopAt, s.fill - 0.00004);
    JustBelow(s.fill, s.tp2);
    OneTick(s, tick);
    var t := OnTick(s, tick);
    assert ActionOn(s, tick) == SellNow;
    assert t.legs == [Leg(TimeStopExit, s.fill, Round6(1.0), s.timeStopAt)];
    assert t.legs[0].price > t.tp2;
  }

  lemma OneTick(s: VirtualTrade, tick: Tick)
    ensures TickByTick(s, [tick]) == OnTick(s, tick)
  {
    hide OnTick;
    assert [tick][..0] == [];
  }

  /** A price a whisker under a level of the grid rounds to that level. */
  lemma JustBelow(high: real, low: real)
    requires OnGrid4(high) && OnGrid4(low) && low < high
    ensures Round4(high - 0.00004) == high && low < high - 0.00004
  {
    hide RoundHalfEven;
    var n, m := RoundHalfEven(high * 10000.0), RoundHalfEven(low * 10000.0);
    RoundsUp(n);
    assert (high - 0.00004) * 10000.0 == n as real - 0.4;
    assert m < n;
  }

  lemma RoundsUp(n: int)
    ensures RoundHalfEven(n as real - 0.4) == n
  {
    assert (n as real - 0.4).Floor == n - 1;
  }

  /* ---- the object ---- */

  /** What an advance reports. */
  function AdvanceReports(s: VirtualTrade, ticks: seq<Tick>, conflictAt: Option<int>): seq<Transition> {
    if ticks == [] || s.remaining <= 0.0 then []
    else if Conflict(s, ticks) then [SnapshotTransition(AdvanceTicks(s, ticks, conflictAt))]
    else Reports(s, ticks)
  }

  lemma ReportOne(s: VirtualTrade, ticks: seq<Tick>, i: nat)
    requires i < |ticks|
    ensures TickByTick(s, ticks[..i + 1]) == OnTick(TickByTick(s, ticks[..i]), ticks[i])
    ensures var before, after := TickByTick(s, ticks[..i]), TickByTick(s, ticks[..i + 1]);
            Reports(s, ticks[..i + 1]) == Reports(s, ticks[..i])
                + (if |after.legs| > |before.legs| then [SnapshotTransition(after)] else [])
  {
    assert ticks[..i + 1][..i] == ticks[..i];
  }

  lemma ReportRest(s: VirtualTrade, ticks: seq<Tick>, i: nat)
    requires i <= |ticks| && TickByTick(s, ticks[..i]).remaining <= 0.0
    ensures TickByTick(s, ticks) == TickByTick(s, ticks[..i]) && Reports(s, ticks) == Reports(s, ticks[..i])
  {
    hide TickByTick, Reports;
    ClosedStays(s, ticks[..i], ticks[i..]);
    assert ticks == ticks[..i] + ticks[i..];
  }

  /** The position object is built once per advance; only its share count follows the trade. */
  lemma SameAction(s: VirtualTrade, position: PositionState, tick: Tick)
    requires position == VirtualPosition(s).(protectedQuantity := position.protectedQuantity)
    ensures EvaluatePosition(Some(position), tick.price, false, false, DAY, tick.at) == ActionOn(s, tick)
  {
  }

  lemma PositionFollows(s: VirtualTrade, tick: Tick)
    ensures var t := OnTick(s, tick);
            && (t.tp1Taken <== s.tp1Taken)
            && VirtualPosition(t) == VirtualPosition(s).(remainingQuantity := VirtualPosition(t).remainingQuantity,
                                                         protectedQuantity := VirtualPosition(t).protectedQuantity)
  {
    hide TotalR, Round4, Round6, EvaluatePosition;
  }

  class VirtualTradeState {
    const fill: real
    const stop: real
    const tp1: real
    const tp2: real
    const openedAt: int
    const timeStopAt: int
    var remaining: real
    var tp1Taken: bool
    var status: Option<Exit>
    var realizedR: real
    var legs: seq<Leg>

    ghost predicate Valid() {
      fill > stop
    }

    ghost function View(): (s: VirtualTrade)
      requires Valid()
      reads this
    {
      TradeRecord(fill, stop, tp1, tp2, openedAt, timeStopAt, remaining, tp1Taken, status, realizedR, legs)
    }

    constructor (fill: real, stop: real, tp1: real, tp2: real, openedAt: int, timeStopAt: int)
      requires fill > stop
      ensures Valid() && OpenTrade(fill, stop, tp1, tp2, openedAt, timeStopAt) == Ok(View())
    {
      this.fill, this.stop, this.tp1, this.tp2 := fill, stop, tp1, tp2;
      this.openedAt, this.timeStopAt := openedAt, timeStopAt;
      remaining, tp1Taken, status, realizedR, legs := 1.0, false, None, 0.0, [];
    }

    /** `sum(...)` over the recorded legs. */
    method Total() returns (total: real)
      requires Valid()
      ensures total == TotalR(legs, fill, stop)
    {
      hide LegR;
      total := 0.0;
      for i := 0 to |legs|
        invariant total == TotalR(legs[..i], fill, stop)
      {
        assert legs[..i + 1][..i] == legs[..i];
        total := total + LegR(legs[i], fill, stop);
      }
      assert legs[..|legs|] == legs;
    }

    method TakeLeg(exit: Exit, price: real, fraction: real, at: int)
      requires Valid()
      modifies this
      ensures View() == Take(old(View()), exit, price, fraction, at)
    {
      hide TotalR, Round4, Round6;
      legs := legs + [Leg(exit, Round4(price), Round6(fraction), at)];
      remaining := Round6(Max(0.0, remaining - fraction));
      status := Some(exit);
      var total := Total();
      realizedR := Round6(total);
    }

    function Snapshot(): Transition
      reads this
    {
      Transition(status, remaining, tp1Taken, realizedR, legs)
    }

    /** One tick: sell, take profit, trim once, or nothing. */
    method Consider(action: PositionAction, tick: Tick) returns (report: seq<Transition>)
      requires Valid() && remaining > 0.0 && action == ActionOn(View(), tick)
      modifies this
      ensures View() == OnTick(old(View()), tick)
      ensures report == if |legs| > |old(legs)| then [SnapshotTransition(View())] else []
    {
      hide EvaluatePosition, Round4, Round6, TotalR;
      report := [];
      if action == SellNow {
        if tick.price <= stop {
          TakeLeg(StopExit, stop, remaining, tick.at);
        } else {
          TakeLeg(TimeStopExit, tick.price, remaining, tick.at);
        }
        report := [Snapshot()];
      } else if action == TakeProfit {
        TakeLeg(Tp2Exit, tp2, remaining, tick.at);
        tp1Taken := true;
        report := [Snapshot()];
      } else if action == Trim && !tp1Taken {
        TakeLeg(Tp1Exit, tp1, Min(0.5, remaining), tick.at);
        tp1Taken := true;
        report := [Snapshot()];
      }
    }

    /** `advance_virtual_trade_ticks`. */
    method OnTicks(ticks: seq<Tick>, conflictAt: Option<int>) returns (transitions: seq<Transition>)
      requires Valid()
      modifies this
      ensures View() == AdvanceTicks(old(View()), ticks, conflictAt)
      ensures transitions == AdvanceReports(old(View()), ticks, conflictAt)
    {
      hide OnTick, ActionOn, TickByTick, Reports, EvaluatePosition, Take;
      if ticks == [] || remaining <= 0.0 {
        return [];
      }
      ghost var s := View();
      var target := if tp1Taken then tp2 else tp1;
      if Lowest(ticks) <= stop && Highest(ticks) >= target {
        TakeLeg(StopExit, stop, remaining, if conflictAt.Some? then conflictAt.value else ticks[0].at);
        return [Snapshot()];
      }
      transitions := Play(ticks);
    }

    /** The loop over the ticks of a bar without a conflict. */
    method Play(ticks: seq<Tick>) returns (transitions: seq<Transition>)
      requires Valid()
      modifies this
      ensures View() == TickByTick(old(View()), ticks) && transitions == Reports(old(View()), ticks)
    {
      hide OnTick, ActionOn, TickByTick, Reports, EvaluatePosition, Take;
      ghost var s := View();
      StartOfTicks(s, ticks);
      transitions := [];
      var position := Position();
      for i := 0 to |ticks|
        invariant View() == TickByTick(s, ticks[..i]) && transitions == Reports(s, ticks[..i])
        invariant remaining > 0.0 ==>
          position == VirtualPosition(View()).(protectedQuantity := position.protectedQuantity)
      {
        ReportOne(s, ticks, i);
        if remaining <= 0.0 {
          ReportRest(s, ticks, i);
          return;
        }
        SameAction(View(), position, ticks[i]);
        PositionFollows(View(), ticks[i]);
        var action := EvaluatePosition(Some(position), ticks[i].price, false, false, DAY, ticks[i].at);
        var report := Consider(action, ticks[i]);
        transitions := transitions + report;
        if tp1Taken {
          position := position.(remainingQuantity := 1);
        }
      }
      assert ticks[..|ticks|] == ticks;
    }

    /** `_virtual_position`. */
    method Position() returns (position: PositionState)
      requires Valid()
      ensures position == VirtualPosition(View())
    {
      var open := if tp1Taken then 1 else 2;
      position := PositionState(0, 0, "VIRTUAL", 2, open, fill, Some(stop), Some(tp1), Some(tp2), openedAt,
                                Some(timeStopAt), 0.0, true, "VIRTUAL_FILL", None, Protected, Some(stop), None, open,
                                Reconciled, Some(openedAt));
    }

    /** `advance_virtual_trade_bar`. */
    method OnBar(b: ReplayBar) returns (r: Result<seq<Transition>>)
      requires Valid()
      modifies this
      ensures r.Raised? <==> AdvanceBar(old(View()), b).Raised?
      ensures r.Raised? ==> r.error == AdvanceBar(old(View()), b).error && View() == old(View())
      ensures r.Ok? ==> View() == AdvanceBar(old(View()), b).value
    {
      hide AdvanceTicks, AdvanceReports;
      var ticks := SynthesizeBarTicks(b);
      if ticks.Raised? {
        return Raised(ticks.error);
      }
      var transitions := OnTicks(ticks.value, Some(b.bar.t));
      r := Ok(transitions);
    }

    /** `finalize_virtual_trade`. */
    method Close(price: real, at: int) returns (report: Option<Transition>)
      requires Valid()
      modifies this
      ensures View() == Finalize(old(View()), price, at)
      ensures report == if old(remaining) <= 0.0 then None else Some(SnapshotTransition(View()))
    {
      hide Take;
      if remaining <= 0.0 {
        return None;
      }
      TakeLeg(TimeStopExit, price, remaining, at);
      report := Some(Snapshot());
    }
  }

  lemma StartOfTicks(s: VirtualTrade, ticks: seq<Tick>)
    ensures TickByTick(s, ticks[..0]) == s && Reports(s, ticks[..0]) == []
  {
  }
}

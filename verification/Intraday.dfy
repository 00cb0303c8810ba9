/** The opening-range structure, batch and online (`engines/intraday.py`). */
module Intraday {
  import opened Prelude
  import opened Domain
  import opened Bars

  datatype StructureState = BuildingOr | ArmedState | BreakoutSeen | RetestValid | InvalidState

  datatype Structure = Structure(
    state: StructureState,
    orh: Option<real>,
    orl: Option<real>,
    openingBarsSeen: nat,
    runningVwap: Option<real>,
    cumulativeVolume: real,
    cumulativeNotional: real,
    lastBarAt: Option<int>,
    lastClose: Option<real>,
    breakoutAt: Option<int>,
    retestAt: Option<int>,
    reasons: seq<string>)

  const NEW := Structure(BuildingOr, None, None, 0, None, 0.0, 0.0, None, None, None, None, [])

  /** The settings of the structure machine: minutes of opening range, touch
      tolerance in percent, invalidation buffer in R, retest window in minutes. */
  datatype Rules = Rules(openingMinutes: nat, tolerancePct: real, bufferR: real, windowMinutes: nat)
  {
    predicate Valid() {
      0 < openingMinutes <= 30 && 0.0 < tolerancePct <= 5.0 && 0.0 <= bufferR <= 1.0 && 0 < windowMinutes <= 120
    }
  }

  /** One trading day: the local date spans `[dayStart, dayEnd)`, trading starts at
      `start` and lasts 390 minutes. */
  datatype Session = Session(dayStart: int, start: int, dayEnd: int)
  {
    function End(): int {
      start + 390 * 60
    }

    predicate Valid() {
      dayStart <= start && End() <= dayEnd && start % 60 == 0
    }

    predicate Covers(t: int) {
      start <= t < End()
    }
  }

  predicate Complete(b: Bar) {
    b.high.Some? && b.low.Some? && b.close.Some?
  }

  predicate HasVwap(b: Bar) {
    b.volume.Some? && b.volume.value > 0.0 && b.vwap.Some? && b.vwap.value > 0.0
  }

  function Mean(total: real, weight: real): real
    requires weight != 0.0
  {
    total / weight
  }

  function TradedValue(b: Bar): real
    requires HasVwap(b)
  {
    b.vwap.value * b.volume.value
  }

  /** `_apply_vwap` on one bar. */
  function ApplyVwap(s: Structure, b: Bar): Structure {
    if HasVwap(b) && s.cumulativeVolume + b.volume.value != 0.0 then
      var volume := s.cumulativeVolume + b.volume.value;
      var notional := s.cumulativeNotional + TradedValue(b);
      s.(cumulativeVolume := volume, cumulativeNotional := notional, runningVwap := Some(Mean(notional, volume)))
    else s
  }

  /** The slack under a floor, in units of the opening range. */
  function Buffer(orh: real, orl: real, bufferR: real): real {
    bufferR * (orh - orl)
  }

  function InvalidationReason(state: StructureState, low: real, orh: real, orl: real, bufferR: real): Option<string> {
    match state
    case ArmedState =>
      if low < orl - Buffer(orh, orl, bufferR) then Some("RANGE_BREAKDOWN") else None
    case BreakoutSeen =>
      if low < orh - Buffer(orh, orl, bufferR) then Some("RETEST_INVALIDATED_BELOW_ORH_BUFFER") else None
    case RetestValid =>
      if low < orh - Buffer(orh, orl, bufferR) then Some("RETEST_INVALIDATED_BELOW_ORH_BUFFER") else None
    case _ => None
  }

  /** The low touches the opening-range high or the running VWAP within tolerance. */
  predicate Near(low: real, orh: real, vwap: Option<real>, rules: Rules)
    requires orh != 0.0
  {
    || Abs(low - orh) / orh <= rules.tolerancePct / 100.0
    || (vwap.Some? && vwap.value > 0.0 && Abs(low - vwap.value) / vwap.value <= rules.tolerancePct / 100.0)
  }

  function Seen(s: Structure, b: Bar, close: real): Structure {
    ApplyVwap(s, b).(lastBarAt := Some(b.t), lastClose := Some(close))
  }

  function RangeHigh(s: Structure): real {
    if s.orh.Some? then s.orh.value else 0.0
  }

  function RangeLow(s: Structure): real {
    if s.orl.Some? then s.orl.value else 0.0
  }

  function Rearmed(s: Structure, reason: string): Structure {
    s.(state := ArmedState, breakoutAt := None, reasons := [reason])
  }

  /* ---- batch ---- */

  /** The breakout branch of `compute_structure`: expiry first, then the close,
      then the touch. `s` has already seen the bar. */
  function BatchRetest(rules: Rules, s: Structure, b: Bar, low: real, close: real): Result<Structure>
    requires s.breakoutAt.Some?
  {
    var orh := RangeHigh(s);
    if b.t - s.breakoutAt.value > 60 * rules.windowMinutes then Ok(Rearmed(s, "RETEST_WINDOW_EXPIRED"))
    else if close <= orh then Ok(Rearmed(s, "RETEST_CLOSE_BELOW_ORH"))
    else if orh == 0.0 then Raised("ZeroDivisionError")
    else if Near(low, orh, s.runningVwap, rules) then
      Ok(s.(state := RetestValid, retestAt := Some(b.t), reasons := ["SERVER_RETEST_VALID"]))
    else Ok(s.(reasons := ["RETEST_WINDOW_OPEN"]))
  }

  function Crosses(previous: Option<real>, close: real, orh: real): bool {
    previous.Some? && previous.value <= orh && close > orh
  }

  /** One turn of the main loop of `compute_structure`. */
  function BatchStep(rules: Rules, session: Session, s: Structure, b: Bar): Result<Structure> {
    if !Complete(b) then Raised("INTRADAY_BAR_INCOMPLETE")
    else
      var low, close := b.low.value, b.close.value;
      var s1 := Seen(s, b, close);
      var reason := InvalidationReason(s.state, low, RangeHigh(s), RangeLow(s), rules.bufferR);
      if b.t < session.start + 60 * rules.openingMinutes then Ok(s1)
      else if reason.Some? then Ok(s1.(state := InvalidState, reasons := [reason.value]))
      else if s.state == RetestValid then Ok(s1)
      else if s.state == BreakoutSeen && s.breakoutAt.Some? then BatchRetest(rules, s1, b, low, close)
      else if Crosses(s.lastClose, close, RangeHigh(s)) then
        Ok(s1.(state := BreakoutSeen, breakoutAt := Some(b.t), reasons := ["ORH_BREAKOUT_CONFIRMED"]))
      else Ok(s1)
  }

  /** The loop over `bars` from `init`; it ends at the first invalidation. */
  function Walk(rules: Rules, session: Session, init: Structure, bars: seq<Bar>): Result<Structure>
    decreases |bars|
  {
    if bars == [] then Ok(init)
    else
      var r := Walk(rules, session, init, bars[..|bars| - 1]);
      if r.Raised? || r.value.state == InvalidState then r else BatchStep(rules, session, r.value, bars[|bars| - 1])
  }

  function Opening(rules: Rules, session: Session, ordered: seq<Bar>): seq<Bar>
    decreases |ordered|
  {
    if ordered == [] then []
    else
      var last := ordered[|ordered| - 1];
      Opening(rules, session, ordered[..|ordered| - 1])
      + (if session.start <= Minute(last) < session.start + 60 * rules.openingMinutes then [last] else [])
  }

  /** The high and low over the opening bars read so far. */
  function Widen(s: Structure, b: Bar): Structure
    requires Complete(b)
  {
    s.(orh := Some(if s.orh.Some? then Max(s.orh.value, b.high.value) else b.high.value),
       orl := Some(if s.orl.Some? then Min(s.orl.value, b.low.value) else b.low.value))
  }

  predicate RangeReadable(opening: seq<Bar>) {
    forall i | 0 <= i < |opening| :: opening[i].high.Some? && opening[i].low.Some?
  }

  function RangeOf(opening: seq<Bar>): (Option<real>, Option<real>)
    requires RangeReadable(opening)
    decreases |opening|
  {
    if opening == [] then (None, None)
    else
      var (high, low) := RangeOf(opening[..|opening| - 1]);
      var b := opening[|opening| - 1];
      (Some(if high.Some? then Max(high.value, b.high.value) else b.high.value),
       Some(if low.Some? then Min(low.value, b.low.value) else b.low.value))
  }

  function VwapOver(s: Structure, bars: seq<Bar>): Structure
    decreases |bars|
  {
    if bars == [] then s else ApplyVwap(VwapOver(s, bars[..|bars| - 1]), bars[|bars| - 1])
  }

  /** Without a full opening range: wait, unless the feed has confirmed a missing minute empty. */
  function Waiting(rules: Rules, session: Session, s: Structure, ordered: seq<Bar>, opening: seq<Bar>,
                   confirmed: Option<int>): Result<Structure> {
    var empty := confirmed.Some? && exists i | 0 <= i < rules.openingMinutes ::
                   session.start + 60 * i + 60 <= confirmed.value && !HasMinute(opening, session.start + 60 * i);
    var s1 := if empty then s.(state := InvalidState, reasons := ["OPENING_RANGE_CONFIRMED_EMPTY"])
              else s.(state := BuildingOr, reasons := ["OPENING_RANGE_WAITING_FOR_SIP"]);
    var s2 := VwapOver(s1, ordered);
    if ordered == [] then Ok(s2)
    else
      var last := ordered[|ordered| - 1];
      if last.close.None? then Raised("INTRADAY_BAR_INCOMPLETE")
      else Ok(s2.(lastBarAt := Some(Minute(last)), lastClose := last.close))
  }

  predicate HasMinute(bars: seq<Bar>, minute: int) {
    exists i | 0 <= i < |bars| :: Minute(bars[i]) == minute
  }

  /** `compute_structure` on the merged bars of the session, in minute order. */
  function ComputeOrdered(rules: Rules, session: Session, ordered: seq<Bar>,
                          confirmed: Option<int>): Result<Structure> {
    var opening := Opening(rules, session, ordered);
    if !RangeReadable(opening) then Raised("INTRADAY_BAR_INCOMPLETE")
    else
      var (high, low) := RangeOf(opening);
      var s := NEW.(openingBarsSeen := |opening|, orh := high, orl := low);
      if |opening| < rules.openingMinutes || high.None? || low.None?
        then Waiting(rules, session, s, ordered, opening, confirmed)
      else if high.value - low.value <= 0.0 then
        Ok(s.(state := InvalidState, reasons := ["OPENING_RANGE_INVALID"]))
      else Walk(rules, session, s.(state := ArmedState, reasons := ["OPENING_RANGE_ESTABLISHED"]), ordered)
  }

  function InSession(session: Session, bars: seq<Bar>): seq<Bar>
    decreases |bars|
  {
    if bars == [] then []
    else InSession(session, bars[..|bars| - 1])
         + (if session.Covers(bars[|bars| - 1].t) then [bars[|bars| - 1]] else [])
  }

  /** `compute_structure` on raw rows. */
  ghost function Compute(rules: Rules, session: Session, rows: seq<Row>, confirmed: Option<int>): Result<Structure> {
    ComputeOrdered(rules, session, InSession(session, Merged(rows)), confirmed)
  }

  /* ---- online ---- */

  function OnlineOpening(rules: Rules, s: Structure, b: Bar, minuteIndex: int): Structure
    requires Complete(b)
  {
    if minuteIndex != s.openingBarsSeen then s.(state := InvalidState, reasons := ["OPENING_RANGE_INCOMPLETE"])
    else
      var s1 := Widen(s, b).(openingBarsSeen := s.openingBarsSeen + 1);
      if s1.openingBarsSeen == rules.openingMinutes then
        s1.(state := ArmedState, reasons := ["OPENING_RANGE_ESTABLISHED"])
      else s1
  }

  /** The breakout branch online: expiry first, then the touch, then the close. */
  function OnlineRetest(rules: Rules, s: Structure, b: Bar, low: real, close: real): Result<Structure> {
    var orh := RangeHigh(s);
    if s.breakoutAt.None? then Ok(s.(state := ArmedState, reasons := ["RETEST_BREAKOUT_TIMESTAMP_MISSING"]))
    else if b.t - s.breakoutAt.value > 60 * rules.windowMinutes then Ok(Rearmed(s, "RETEST_WINDOW_EXPIRED"))
    else if orh == 0.0 then Raised("ZeroDivisionError")
    else if Near(low, orh, s.runningVwap, rules) && close > orh then
      Ok(s.(state := RetestValid, retestAt := Some(b.t), reasons := ["SERVER_RETEST_VALID"]))
    else if close <= orh then Ok(Rearmed(s, "RETEST_CLOSE_BELOW_ORH"))
    else Ok(s.(reasons := ["RETEST_WINDOW_OPEN"]))
  }

  /** After the opening range; `s` has seen the bar, `previous` is the close before it. */
  function OnlineTrading(rules: Rules, s: Structure, b: Bar, low: real, close: real,
                         previous: Option<real>): Result<Structure> {
    if s.state == InvalidState then Ok(s)
    else if s.openingBarsSeen < rules.openingMinutes
      then Ok(s.(state := InvalidState, reasons := ["OPENING_RANGE_INCOMPLETE"]))
    else if s.orh.None? || s.orl.None? then Ok(s.(state := InvalidState, reasons := ["OPENING_RANGE_MISSING"]))
    else if s.orh.value - s.orl.value <= 0.0 then Ok(s.(state := InvalidState, reasons := ["OPENING_RANGE_INVALID"]))
    else
      var reason := InvalidationReason(s.state, low, s.orh.value, s.orl.value, rules.bufferR);
      if reason.Some? then Ok(s.(state := InvalidState, reasons := [reason.value]))
      else if s.state == RetestValid then Ok(s)
      else if s.state == BreakoutSeen then OnlineRetest(rules, s, b, low, close)
      else if s.state == ArmedState && Crosses(previous, close, s.orh.value) then
        Ok(s.(state := BreakoutSeen, breakoutAt := Some(b.t), reasons := ["ORH_BREAKOUT_CONFIRMED"]))
      else Ok(s)
  }

  /** `update_intraday_structure`. */
  function Update(rules: Rules, session: Session, s: Structure, b: Bar): Result<Structure> {
    if !Complete(b) then Raised("INTRADAY_BAR_INCOMPLETE")
    else if b.high.value < b.low.value || b.close.value <= 0.0 then Raised("INTRADAY_BAR_INVALID")
    else if !(session.dayStart <= b.t < session.dayEnd) then Raised("INTRADAY_BAR_SESSION_MISMATCH")
    else if s.lastBarAt.Some? && b.t <= s.lastBarAt.value then Ok(s)
    else if !session.Covers(b.t) then Ok(s)
    else
      var minuteIndex := (b.t - session.start) / 60;
      var s1 := Seen(s, b, b.close.value);
      if minuteIndex < rules.openingMinutes then Ok(OnlineOpening(rules, s1, b, minuteIndex))
      else OnlineTrading(rules, s1, b, b.low.value, b.close.value, s.lastClose)
  }

  function Online(rules: Rules, session: Session, bars: seq<Bar>): Result<Structure>
    decreases |bars|
  {
    if bars == [] then Ok(NEW)
    else
      var r := Online(rules, session, bars[..|bars| - 1]);
      if r.Raised? then r else Update(rules, session, r.value, bars[|bars| - 1])
  }

  /* ---- the loops ---- */

  lemma {:induction false} WalkStops(rules: Rules, session: Session, init: Structure, bars: seq<Bar>, more: seq<Bar>)
    requires Walk(rules, session, init, bars).Raised? || Walk(rules, session, init, bars).value.state == InvalidState
    ensures Walk(rules, session, init, bars + more) == Walk(rules, session, init, bars)
    decreases |more|
  {
    if more == [] {
      assert bars + more == bars;
    } else {
      WalkStops(rules, session, init, bars, more[..|more| - 1]);
      assert (bars + more)[..|bars + more| - 1] == bars + more[..|more| - 1];
    }
  }

  lemma WalkOne(rules: Rules, session: Session, init: Structure, bars: seq<Bar>, i: nat, s: Structure)
    requires i < |bars| && Walk(rules, session, init, bars[..i]) == Ok(s) && s.state != InvalidState
    ensures Walk(rules, session, init, bars[..i + 1]) == BatchStep(rules, session, s, bars[i])
  {
    assert bars[..i + 1][..i] == bars[..i];
  }

  lemma WalkRest(rules: Rules, session: Session, init: Structure, bars: seq<Bar>, i: nat)
    requires i <= |bars|
    requires Walk(rules, session, init, bars[..i]).Raised?
             || Walk(rules, session, init, bars[..i]).value.state == InvalidState
    ensures Walk(rules, session, init, bars) == Walk(rules, session, init, bars[..i])
  {
    WalkStops(rules, session, init, bars[..i], bars[i..]);
    assert bars == bars[..i] + bars[i..];
  }

  /** The main loop of `compute_structure`, leaving at the first invalidation. */
  method WalkBars(rules: Rules, session: Session, init: Structure, bars: seq<Bar>) returns (r: Result<Structure>)
    requires init.state == ArmedState && init.lastClose.None?
    ensures r == Walk(rules, session, init, bars)
  {
    hide Walk, InvalidationReason, Near, ApplyVwap;
    var s := init;
    var previousClose: Option<real> := None;
    var orh, orl := RangeHigh(init), RangeLow(init);
    StartWalk(rules, session, init, bars);
    for i := 0 to |bars|
      invariant Walk(rules, session, init, bars[..i]) == Ok(s)
      invariant previousClose == s.lastClose && s.orh == init.orh && s.orl == init.orl
      invariant s.state == BreakoutSeen ==> s.breakoutAt.Some?
      invariant s.state in {ArmedState, BreakoutSeen, RetestValid}
    {
      var b := bars[i];
      WalkOne(rules, session, init, bars, i, s);
      SameRange(s, b);
      if !Complete(b) {
        WalkRest(rules, session, init, bars, i + 1);
        return Raised("INTRADAY_BAR_INCOMPLETE");
      }
      var low, close := b.low.value, b.close.value;
      s := ApplyVwap(s, b);
      s := s.(lastBarAt := Some(b.t));
      s := s.(lastClose := Some(close));
      if b.t < session.start + 60 * rules.openingMinutes {
        previousClose := Some(close);
        continue;
      }
      var reason := InvalidationReason(s.state, low, orh, orl, rules.bufferR);
      if reason.Some? {
        s := s.(state := InvalidState, reasons := [reason.value]);
        WalkRest(rules, session, init, bars, i + 1);
        return Ok(s);
      }
      if s.state == RetestValid {
        previousClose := Some(close);
        continue;
      }
      if s.state == BreakoutSeen {
        var next := BatchRetest(rules, s, b, low, close);
        if next.Raised? {
          WalkRest(rules, session, init, bars, i + 1);
          return next;
        }
        s := next.value;
        previousClose := Some(close);
        continue;
      }
      if previousClose.Some? && previousClose.value <= orh && close > orh {
        s := s.(state := BreakoutSeen, breakoutAt := Some(b.t), reasons := ["ORH_BREAKOUT_CONFIRMED"]);
      }
      previousClose := Some(close);
    }
    assert bars[..|bars|] == bars;
    r := Ok(s);
  }

  lemma StartWalk(rules: Rules, session: Session, init: Structure, bars: seq<Bar>)
    ensures Walk(rules, session, init, bars[..0]) == Ok(init)
  {
  }

  /** Seeing a bar leaves the range, the state and the breakout time alone. */
  lemma SameRange(s: Structure, b: Bar)
    ensures var s1 := ApplyVwap(s, b);
            && s1 == s.(runningVwap := s1.runningVwap, cumulativeVolume := s1.cumulativeVolume,
                        cumulativeNotional := s1.cumulativeNotional)
  {
  }

  /** The bars of the session, and those of its opening minutes. */
  method SessionBars(rules: Rules, session: Session, bars: seq<Bar>) returns (ordered: seq<Bar>, opening: seq<Bar>)
    ensures ordered == InSession(session, bars) && opening == Opening(rules, session, ordered)
  {
    ordered, opening := [], [];
    for i := 0 to |bars|
      invariant ordered == InSession(session, bars[..i])
      invariant opening == Opening(rules, session, ordered)
    {
      assert bars[..i + 1][..i] == bars[..i];
      if session.Covers(bars[i].t) {
        ghost var before := ordered;
        ordered := ordered + [bars[i]];
        assert ordered[..|ordered| - 1] == before;
        if session.start <= Minute(bars[i]) < session.start + 60 * rules.openingMinutes {
          opening := opening + [bars[i]];
        }
      }
    }
    assert bars[..|bars|] == bars;
  }

  /** `max(highs)` and `min(lows)`. */
  method RangeBounds(opening: seq<Bar>) returns (high: Option<real>, low: Option<real>)
    requires RangeReadable(opening)
    ensures (high, low) == RangeOf(opening)
  {
    high, low := None, None;
    for i := 0 to |opening|
      invariant (high, low) == RangeOf(opening[..i])
    {
      assert opening[..i + 1][..i] == opening[..i];
      high := Some(if high.Some? then Max(high.value, opening[i].high.value) else opening[i].high.value);
      low := Some(if low.Some? then Min(low.value, opening[i].low.value) else opening[i].low.value);
    }
    assert opening[..|opening|] == opening;
  }

  /** `compute_structure` from raw rows: merge, keep the session, then the range and the walk. */
  method ComputeStructure(rules: Rules, session: Session, rows: seq<Row>, confirmed: Option<int>)
    returns (r: Result<Structure>)
    ensures r == Compute(rules, session, rows, confirmed)
  {
    hide Merge, Merged, Walk, Opening, InSession, Waiting;
    var bars := MergedBars(rows);
    var ordered, opening := SessionBars(rules, session, bars);
    if !RangeReadable(opening) {
      return Raised("INTRADAY_BAR_INCOMPLETE");
    }
    var high, low := RangeBounds(opening);
    var s := NEW.(openingBarsSeen := |opening|, orh := high, orl := low);
    if |opening| < rules.openingMinutes || high.None? || low.None? {
      return Waiting(rules, session, s, ordered, opening, confirmed);
    }
    if high.value - low.value <= 0.0 {
      return Ok(s.(state := InvalidState, reasons := ["OPENING_RANGE_INVALID"]));
    }
    r := WalkBars(rules, session, s.(state := ArmedState, reasons := ["OPENING_RANGE_ESTABLISHED"]), ordered);
  }

  /** An online structure, updated bar by bar in place. */
  class OnlineStructure {
    const rules: Rules
    const session: Session
    var state: StructureState
    var orh: Option<real>
    var orl: Option<real>
    var openingBarsSeen: nat
    var runningVwap: Option<real>
    var cumulativeVolume: real
    var cumulativeNotional: real
    var lastBarAt: Option<int>
    var lastClose: Option<real>
    var breakoutAt: Option<int>
    var retestAt: Option<int>
    var reasons: seq<string>

    ghost function View(): Structure
      reads this
    {
      Structure(state, orh, orl, openingBarsSeen, runningVwap, cumulativeVolume, cumulativeNotional,
                lastBarAt, lastClose, breakoutAt, retestAt, reasons)
    }

    constructor (rules: Rules, session: Session)
      ensures this.rules == rules && this.session == session && View() == NEW
    {
      this.rules, this.session := rules, session;
      state, orh, orl, openingBarsSeen := BuildingOr, None, None, 0;
      runningVwap, cumulativeVolume, cumulativeNotional := None, 0.0, 0.0;
      lastBarAt, lastClose, breakoutAt, retestAt := None, None, None, None;
      reasons := [];
    }

    method Invalidate(reason: string)
      modifies `state, `reasons
      ensures state == InvalidState && reasons == [reason]
    {
      state, reasons := InvalidState, [reason];
    }

    /** `update_intraday_structure`; a malformed bar leaves the structure alone. */
    method Accept(b: Bar) returns (error: Option<string>)
      modifies this
      ensures var spec := Update(rules, session, old(View()), b);
              && (error.Some? <==> spec.Raised?)
              && (spec.Ok? ==> View() == spec.value)
    {
      hide OnlineOpening, OnlineTrading, Seen;
      if !Complete(b) {
        return Some("INTRADAY_BAR_INCOMPLETE");
      }
      var high, low, close := b.high.value, b.low.value, b.close.value;
      if high < low || close <= 0.0 {
        return Some("INTRADAY_BAR_INVALID");
      }
      if !(session.dayStart <= b.t < session.dayEnd) {
        return Some("INTRADAY_BAR_SESSION_MISMATCH");
      }
      if lastBarAt.Some? && b.t <= lastBarAt.value {
        return None;
      }
      if !session.Covers(b.t) {
        return None;
      }
      var minuteIndex := (b.t - session.start) / 60;
      var previousClose := lastClose;
      See(b, close);
      if minuteIndex < rules.openingMinutes {
        Open(b, minuteIndex);
        return None;
      }
      error := Trade(b, low, close, previousClose);
    }

    /** `_apply_vwap` and the running marks. */
    method See(b: Bar, close: real)
      modifies this
      ensures View() == Seen(old(View()), b, close)
    {
      hide Mean, TradedValue;
      if HasVwap(b) && cumulativeVolume + b.volume.value != 0.0 {
        cumulativeVolume := cumulativeVolume + b.volume.value;
        cumulativeNotional := cumulativeNotional + TradedValue(b);
        runningVwap := Some(Mean(cumulativeNotional, cumulativeVolume));
      }
      lastBarAt, lastClose := Some(b.t), Some(close);
    }

    /** A bar of the opening range. */
    method Open(b: Bar, minuteIndex: int)
      requires Complete(b)
      modifies this
      ensures View() == OnlineOpening(rules, old(View()), b, minuteIndex)
    {
      if minuteIndex != openingBarsSeen {
        Invalidate("OPENING_RANGE_INCOMPLETE");
        return;
      }
      orh := Some(if orh.None? then b.high.value else Max(orh.value, b.high.value));
      orl := Some(if orl.None? then b.low.value else Min(orl.value, b.low.value));
      openingBarsSeen := openingBarsSeen + 1;
      if openingBarsSeen == rules.openingMinutes {
        state, reasons := ArmedState, ["OPENING_RANGE_ESTABLISHED"];
      }
    }

    /** A bar after the opening range. */
    method Trade(b: Bar, low: real, close: real, previousClose: Option<real>) returns (error: Option<string>)
      modifies this
      ensures var spec := OnlineTrading(rules, old(View()), b, low, close, previousClose);
              && (error.Some? <==> spec.Raised?)
              && (spec.Ok? ==> View() == spec.value)
    {
      hide Near, InvalidationReason;
      error := None;
      if state == InvalidState {
        return;
      }
      if openingBarsSeen < rules.openingMinutes {
        Invalidate("OPENING_RANGE_INCOMPLETE");
        return;
      }
      if orh.None? || orl.None? {
        Invalidate("OPENING_RANGE_MISSING");
        return;
      }
      if orh.value - orl.value <= 0.0 {
        Invalidate("OPENING_RANGE_INVALID");
        return;
      }
      var reason := InvalidationReason(state, low, orh.value, orl.value, rules.bufferR);
      if reason.Some? {
        Invalidate(reason.value);
        return;
      }
      if state == RetestValid {
        return;
      }
      if state == BreakoutSeen {
        error := Retest(b, low, close);
        return;
      }
      if state == ArmedState && previousClose.Some? && previousClose.value <= orh.value && close > orh.value {
        state, breakoutAt, reasons := BreakoutSeen, Some(b.t), ["ORH_BREAKOUT_CONFIRMED"];
      }
    }

    /** A bar while a breakout is open. */
    method Retest(b: Bar, low: real, close: real) returns (error: Option<string>)
      modifies this
      ensures var spec := OnlineRetest(rules, old(View()), b, low, close);
              && (error.Some? <==> spec.Raised?)
              && (spec.Ok? ==> View() == spec.value)
    {
      hide Near;
      error := None;
      var high := if orh.Some? then orh.value else 0.0;
      if breakoutAt.None? {
        state, reasons := ArmedState, ["RETEST_BREAKOUT_TIMESTAMP_MISSING"];
      } else if b.t - breakoutAt.value > 60 * rules.windowMinutes {
        state, breakoutAt, reasons := ArmedState, None, ["RETEST_WINDOW_EXPIRED"];
      } else if high == 0.0 {
        error := Some("ZeroDivisionError");
      } else if Near(low, high, runningVwap, rules) && close > high {
        state, retestAt, reasons := RetestValid, Some(b.t), ["SERVER_RETEST_VALID"];
      } else if close <= high {
        state, breakoutAt, reasons := ArmedState, None, ["RETEST_CLOSE_BELOW_ORH"];
      } else {
        reasons := ["RETEST_WINDOW_OPEN"];
      }
    }
  }
}

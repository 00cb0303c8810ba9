/** What the opening-range machine answers, in terms of the session's bars alone:
    when it invalidates and why, and which of its states it is in otherwise. */
module StructureMeaning {
  import opened Prelude
  import opened Bars
  import opened Intraday
  import opened IntradayStability
  import opened IntradayRefinement
  import opened IntradaySoundness
  import opened IntradayRows

  /** A breakout is open before bar `k`. */
  ghost predicate OpenBefore(t: Tape, k: nat) {
    exists i: nat :: i < k <= |t.bars| && t.Breaks(i) && t.Held(i, k - 1)
  }

  /** A retest was completed before bar `k`. */
  ghost predicate RetestedBefore(t: Tape, k: nat) {
    exists i: nat, j: nat :: j < k && t.Retest(i, j)
  }

  /** The level the low of bar `k` may not pass: a buffer under the top of the range
      once there is a breakout to defend, and under its bottom before. */
  ghost function FloorAt(t: Tape, k: nat): real {
    Floor(t, OpenBefore(t, k) || RetestedBefore(t, k))
  }

  function Floor(t: Tape, defends: bool): real {
    (if defends then t.Orh() else t.Orl()) - t.rules.bufferR * (t.Orh() - t.Orl())
  }

  ghost predicate Breached(t: Tape, k: nat) {
    k < |t.bars| && t.Trading(k) && LowOf(t.bars[k]) < FloorAt(t, k)
  }

  ghost function BreachReason(t: Tape, k: nat): string {
    Reason(OpenBefore(t, k) || RetestedBefore(t, k))
  }

  function Reason(defends: bool): string {
    if defends then "RETEST_INVALIDATED_BELOW_ORH_BUFFER" else "RANGE_BREAKDOWN"
  }

  ghost predicate FirstBreach(t: Tape, k: nat) {
    Breached(t, k) && forall j: nat :: j < k ==> !Breached(t, j)
  }

  /** While the machine lives, its state says what stands. */
  lemma LiveState(t: Tape, k: nat)
    requires t.Valid() && t.LiveAt(k)
    ensures var s := t.After(k).value;
            && (s.state == RetestValid <==> RetestedBefore(t, k))
            && (s.state == BreakoutSeen <==> OpenBefore(t, k) && !RetestedBefore(t, k))
            && s.state in {ArmedState, BreakoutSeen, RetestValid}
  {
    LiveWalk(t, k);
    hide Tape.After, Tape.Touches, VwapOver;
    var s := t.After(k).value;
    if s.state == RetestValid {
      var i: nat, j: nat :| RecordedRetest(t, k, s, i, j);
      assert t.Retest(i, j);
    } else if s.state == BreakoutSeen {
      var i: nat :| OpenBreakout(t, k, s, i);
      assert t.Breaks(i) && t.Held(i, k - 1);
    }
  }

  lemma NextTurn(t: Tape, k: nat)
    requires t.Valid() && k < |t.bars| && t.LiveAt(k)
    ensures t.After(k + 1) == BatchStep(t.rules, t.session, t.After(k).value, t.bars[k])
  {
    assert t.bars[..k + 1][..k] == t.bars[..k];
  }

  lemma StepInvalid(t: Tape, k: nat, s: Structure)
    requires t.Valid() && k < |t.bars| && Carried(t, k, s) && BatchStep(t.rules, t.session, s, t.bars[k]).Ok?
    ensures var s' := BatchStep(t.rules, t.session, s, t.bars[k]).value;
            && (s'.state == InvalidState <==> t.Trading(k) && LowOf(t.bars[k]) < Floor(t, s.state != ArmedState))
            && (s'.state == InvalidState ==>
                  s'.lastBarAt == Some(t.bars[k].t) && s'.reasons == [Reason(s.state != ArmedState)])
  {
    var b := t.bars[k];
    SeenReads(s, b, CloseOf(b));
    RangeIs(t, k, s);
    ReasonIs(t, s.state, LowOf(b));
    RetestNotInvalid(t.rules, Seen(s, b, CloseOf(b)), b, LowOf(b), CloseOf(b));
    hide ApplyVwap, Near, VwapOver, Seen, BatchRetest, InvalidationReason, Tape.Orh, Tape.Orl, Tape.Valid, Floor,
         Reason;
  }

  lemma SeenReads(s: Structure, b: Bar, close: real)
    ensures Seen(s, b, close).state == s.state && Seen(s, b, close).lastBarAt == Some(b.t)
    ensures Seen(s, b, close).breakoutAt == s.breakoutAt
  {
  }

  lemma RangeIs(t: Tape, k: nat, s: Structure)
    requires t.Valid() && Carried(t, k, s)
    ensures RangeHigh(s) == t.Orh() && RangeLow(s) == t.Orl()
  {
    hide VwapOver;
  }

  lemma ReasonIs(t: Tape, state: StructureState, low: real)
    requires state in {ArmedState, BreakoutSeen, RetestValid}
    ensures InvalidationReason(state, low, t.Orh(), t.Orl(), t.rules.bufferR)
         == if low < Floor(t, state != ArmedState) then Some(Reason(state != ArmedState)) else None
  {
  }

  lemma RetestNotInvalid(rules: Rules, s: Structure, b: Bar, low: real, close: real)
    ensures s.breakoutAt.Some? && s.state == BreakoutSeen && BatchRetest(rules, s, b, low, close).Ok? ==>
              BatchRetest(rules, s, b, low, close).value.state != InvalidState
  {
    hide Near;
  }

  lemma InvalidTurn(t: Tape, k: nat)
    requires t.Valid() && k < |t.bars| && t.LiveAt(k) && t.After(k + 1).Ok?
    ensures var s := t.After(k + 1).value;
            && (s.state == InvalidState <==> Breached(t, k))
            && (s.state == InvalidState ==> s.reasons == [BreachReason(t, k)] && s.lastBarAt == Some(t.bars[k].t))
  {
    hide Tape.After, BatchStep, OpenBefore, RetestedBefore, Carried, Explained, Alert, Floored, Tape.Valid,
         Tape.Trading, Floor, Reason;
    LiveState(t, k);
    LiveWalk(t, k);
    NextTurn(t, k);
    StepInvalid(t, k, t.After(k).value);
  }

  lemma BeforeOk(t: Tape, k: nat)
    requires k < |t.bars| && t.After(k + 1).Ok?
    ensures t.After(k).Ok? && (t.After(k).value.state == InvalidState ==> t.After(k + 1) == t.After(k))
  {
    assert t.bars[..k + 1][..k] == t.bars[..k];
  }

  /** The structure after `n` bars is INVALID exactly when some trading bar went under
      its floor; the first that did gives the reason and the last bar read. */
  lemma {:induction false} InvalidMeaning(t: Tape, n: nat)
    requires t.Valid() && n <= |t.bars| && t.After(n).Ok?
    ensures var s := t.After(n).value;
            && (s.state == InvalidState <==> exists k: nat :: k < n && Breached(t, k))
            && (s.state == InvalidState ==>
                  exists k: nat :: k < n && FirstBreach(t, k) && s.reasons == [BreachReason(t, k)]
                                   && s.lastBarAt == Some(t.bars[k].t))
    decreases n
  {
    hide Tape.After, Tape.Trading, FloorAt, BreachReason, Tape.Valid;
    if n == 0 {
      LiveStart(t);
      assert t.e.state == ArmedState by { TapeStarts(t); }
    } else {
      BeforeOk(t, n - 1);
      InvalidMeaning(t, n - 1);
      if t.After(n - 1).value.state != InvalidState {
        InvalidTurn(t, n - 1);
        if t.After(n).value.state == InvalidState {
          assert FirstBreach(t, n - 1);
        }
      } else {
        var k: nat :| k < n - 1 && FirstBreach(t, k) && t.After(n - 1).value.reasons == [BreachReason(t, k)]
                      && t.After(n - 1).value.lastBarAt == Some(t.bars[k].t);
        assert k < n && FirstBreach(t, k);
      }
    }
  }

  lemma TapeStarts(t: Tape)
    requires t.Valid()
    ensures t.e.state == ArmedState
  {
  }

  /** The state a session ends in, by its bars: INVALID after a breach, otherwise
      RETEST_VALID after a retest, otherwise BREAKOUT_SEEN while a breakout is held,
      otherwise ARMED. */
  lemma StateMeaning(t: Tape)
    requires t.Valid() && t.After(|t.bars|).Ok?
    ensures t.After(|t.bars|).value.state
         == if exists k: nat :: Breached(t, k) then InvalidState
            else if RetestedBefore(t, |t.bars|) then RetestValid
            else if OpenBefore(t, |t.bars|) then BreakoutSeen
            else ArmedState
    ensures t.After(|t.bars|).value.state == InvalidState ==>
              exists k: nat :: FirstBreach(t, k) && t.After(|t.bars|).value.reasons == [BreachReason(t, k)]
  {
    hide Tape.After, OpenBefore, RetestedBefore, FloorAt;
    InvalidMeaning(t, |t.bars|);
    if t.After(|t.bars|).value.state != InvalidState {
      LiveState(t, |t.bars|);
    }
  }

  /** What a live structure has recorded: the breakout it holds or the retest it saw,
      and the volume-weighted price of everything traded. */
  lemma LiveRecord(t: Tape, k: nat)
    requires t.Valid() && t.LiveAt(k)
    ensures var s, traded := t.After(k).value, t.bars[..k];
            && (s.state == BreakoutSeen ==>
                  exists i: nat :: i < k && t.Breaks(i) && t.Held(i, k - 1) && s.breakoutAt == Some(t.bars[i].t))
            && (s.state == RetestValid ==> exists i: nat, j: nat :: RecordedRetest(t, k, s, i, j))
            && s.runningVwap == (if Volume(traded) > 0.0 then Some(Mean(Notional(traded), Volume(traded))) else None)
            && (k > 0 ==> s.lastClose == t.bars[k - 1].close)
            && (s.state == ArmedState ==> s.breakoutAt.None?) && (s.state != RetestValid ==> s.retestAt.None?)
  {
    LiveWalk(t, k);
    RunningVwap(t.e, t.bars[..k]);
    hide Tape.After, Tape.Touches, VwapOver, Tape.Valid, Mean, Volume, Notional;
    var s := t.After(k).value;
    if s.state == BreakoutSeen {
      var i: nat :| OpenBreakout(t, k, s, i);
      assert t.Breaks(i) && t.Held(i, k - 1);
    }
  }

  /** A breakout is given up for the first of two reasons: its window ran out, or a
      close fell back into the range. */
  lemma GivenUpMeaning(t: Tape, k: nat, i: nat)
    requires t.Valid() && t.LiveAt(k) && k < |t.bars| && t.LiveAt(k + 1) && t.Trading(k)
    requires t.After(k).value.state == BreakoutSeen && i < k && t.After(k).value.breakoutAt == Some(t.bars[i].t)
    ensures var s, late := t.After(k + 1).value, t.bars[k].t - t.bars[i].t > 60 * t.rules.windowMinutes;
            && (s.state == ArmedState <==> late || LowClose(t, k))
            && (s.state == ArmedState ==>
                  s.reasons == [if late then "RETEST_WINDOW_EXPIRED" else "RETEST_CLOSE_BELOW_ORH"])
            && (s.state == BreakoutSeen ==> s.reasons == ["RETEST_WINDOW_OPEN"])
            && (s.state == RetestValid ==> s.reasons == ["SERVER_RETEST_VALID"])
  {
    LiveWalk(t, k);
    NextTurn(t, k);
    SeenKeeps(t.After(k).value, t.bars[k], CloseOf(t.bars[k]));
    hide Tape.After, ApplyVwap, Near, VwapOver, Seen, InvalidationReason, Explained, Alert, Floored;
  }

  predicate LowClose(t: Tape, k: nat)
    requires k < |t.bars|
  {
    CloseOf(t.bars[k]) <= t.Orh()
  }

  /* ---- the opening range ---- */

  /** The bars of the first minutes of the session, and nothing else. */
  lemma {:induction false} OpeningBars(rules: Rules, session: Session, ordered: seq<Bar>, b: Bar)
    ensures b in Opening(rules, session, ordered)
       <==> b in ordered && session.start <= b.t - b.t % 60 < session.start + 60 * rules.openingMinutes
    decreases |ordered|
  {
    if ordered != [] {
      var before, last := ordered[..|ordered| - 1], ordered[|ordered| - 1];
      OpeningBars(rules, session, before, b);
      assert b in ordered <==> b in before || b == last;
    }
  }

  /** Trading lasts six and a half hours. */
  lemma {:induction false} SessionBars(session: Session, bars: seq<Bar>, b: Bar)
    ensures b in InSession(session, bars) <==> b in bars && session.start <= b.t < session.start + 23400
    decreases |bars|
  {
    if bars != [] {
      var before, last := bars[..|bars| - 1], bars[|bars| - 1];
      SessionBars(session, before, b);
      assert b in bars <==> b in before || b == last;
    }
  }

  /** The range runs from the lowest low to the highest high of the opening bars. */
  lemma {:induction false} RangeMeaning(opening: seq<Bar>)
    requires RangeReadable(opening) && opening != []
    ensures RangeOf(opening).0.Some? && RangeOf(opening).1.Some?
    ensures var high, low := RangeOf(opening).0.value, RangeOf(opening).1.value;
            && (forall b :: b in opening ==> b.high.Some? && b.low.Some? && low <= b.low.value && b.high.value <= high)
            && (exists b :: b in opening && b.high == Some(high))
            && (exists b :: b in opening && b.low == Some(low))
    decreases |opening|
  {
    var before, last := opening[..|opening| - 1], opening[|opening| - 1];
    assert last in opening && forall b :: b in opening <==> b in before || b == last;
    if before != [] {
      RangeMeaning(before);
    }
  }

  /* ---- from raw rows ---- */

  ghost predicate EarlyBar(rules: Rules, session: Session, b: Bar) {
    b.t - b.t % 60 < session.start + 60 * rules.openingMinutes
  }

  lemma AlignedMinute(start: int, t: int)
    requires start % 60 == 0 && start <= t
    ensures start <= t - t % 60
  {
  }

  /** The session's bars as the batch reads them, and its range, from raw rows. */
  lemma TapeFromRows(rules: Rules, session: Session, rows: seq<Row>)
    requires rules.Valid() && session.Valid() && FullRange(rules, session, InSession(session, Merged(rows)))
    ensures var t := TapeOf(rules, session, rows);
            && (forall b :: b in t.bars <==> b in Merged(rows) && session.start <= b.t < session.start + 23400)
            && (forall b :: b in t.bars && EarlyBar(rules, session, b) ==>
                  b.high.Some? && b.low.Some? && t.Orl() <= b.low.value && b.high.value <= t.Orh())
            && (exists b :: b in t.bars && EarlyBar(rules, session, b) && b.high == Some(t.Orh()))
            && (exists b :: b in t.bars && EarlyBar(rules, session, b) && b.low == Some(t.Orl()))
  {
    hide Merged, InSession, Opening, RangeOf;
    var ordered := InSession(session, Merged(rows));
    var opening := Opening(rules, session, ordered);
    RangeMeaning(opening);
    forall b ensures b in ordered <==> b in Merged(rows) && session.start <= b.t < session.start + 23400 {
      SessionBars(session, Merged(rows), b);
    }
    forall b ensures b in opening <==> b in ordered && EarlyBar(rules, session, b) {
      OpeningBars(rules, session, ordered, b);
      if b in ordered {
        AlignedMinute(session.start, b.t);
      }
    }
  }

  lemma TapeIsValid(rules: Rules, session: Session, rows: seq<Row>, confirmed: Option<int>)
    requires rules.Valid() && FullRange(rules, session, InSession(session, Merged(rows)))
    ensures var t := TapeOf(rules, session, rows);
            && (t.Orh() > t.Orl() ==> t.Valid() && t.After(|t.bars|) == Compute(rules, session, rows, confirmed))
            && (t.Orh() <= t.Orl() ==>
                  && Compute(rules, session, rows, confirmed).Ok?
                  && Compute(rules, session, rows, confirmed).value.state == InvalidState
                  && Compute(rules, session, rows, confirmed).value.reasons == ["OPENING_RANGE_INVALID"])
  {
    hide Merged, InSession, Walk, ComputeOrdered;
    var ordered := InSession(session, Merged(rows));
    MergedRises(rows);
    SessionRises(session, Merged(rows));
    ComputeIsWalk(rules, session, ordered, confirmed);
    assert ordered[..|ordered|] == ordered;
  }

  /** For rows of any feeds in any order, once the opening range is complete: the
      state of the batch structure, by the bars alone. */
  lemma StateFromRows(rules: Rules, session: Session, rows: seq<Row>, confirmed: Option<int>)
    requires rules.Valid() && FullRange(rules, session, InSession(session, Merged(rows)))
    requires Compute(rules, session, rows, confirmed).Ok?
    ensures var s, t := Compute(rules, session, rows, confirmed).value, TapeOf(rules, session, rows);
            && s.state == (if t.Orh() <= t.Orl() || exists k: nat :: Breached(t, k) then InvalidState
                           else if RetestedBefore(t, |t.bars|) then RetestValid
                           else if OpenBefore(t, |t.bars|) then BreakoutSeen
                           else ArmedState)
            && (t.Orh() > t.Orl() && s.state == InvalidState ==>
                  exists k: nat :: FirstBreach(t, k) && s.reasons == [BreachReason(t, k)])
  {
    hide Compute, TapeOf, Tape.After, OpenBefore, RetestedBefore, Breached, FirstBreach, BreachReason, Tape.Valid;
    hide Merged, InSession, Opening;
    TapeIsValid(rules, session, rows, confirmed);
    var t := TapeOf(rules, session, rows);
    if t.Orh() > t.Orl() {
      StateMeaning(t);
    }
  }

  /** Before it is complete: INVALID exactly when a minute of it that the feed has
      confirmed carries no bar, and still building otherwise. */
  lemma WaitingFromRows(rules: Rules, session: Session, rows: seq<Row>, confirmed: Option<int>)
    requires rules.Valid() && Compute(rules, session, rows, confirmed).Ok?
    requires |Opening(rules, session, InSession(session, Merged(rows)))| < rules.openingMinutes
    ensures var s, bars := Compute(rules, session, rows, confirmed).value, InSession(session, Merged(rows));
            && s.state in {InvalidState, BuildingOr}
            && (s.state == InvalidState <==>
                  exists i: nat :: i < rules.openingMinutes && confirmed.Some?
                                   && session.start + 60 * i + 60 <= confirmed.value
                                   && !SeenMinute(bars, session.start + 60 * i))
            && s.reasons == [if s.state == InvalidState then "OPENING_RANGE_CONFIRMED_EMPTY"
                             else "OPENING_RANGE_WAITING_FOR_SIP"]
            && s.runningVwap == (if Volume(bars) > 0.0 then Some(Mean(Notional(bars), Volume(bars))) else None)
            && (bars != [] ==>
                  var last := bars[|bars| - 1];
                  s.lastBarAt == Some(last.t - last.t % 60) && s.lastClose == last.close)
            && s.breakoutAt.None? && s.retestAt.None?
  {
    hide Merged, InSession, Opening, RangeOf, VwapOver, Volume, Notional, Mean;
    var ordered := InSession(session, Merged(rows));
    var opening := Opening(rules, session, ordered);
    VwapKeepsDecision(NEW.(openingBarsSeen := |opening|, orh := RangeOf(opening).0, orl := RangeOf(opening).1,
                           state := BuildingOr, reasons := ["OPENING_RANGE_WAITING_FOR_SIP"]), ordered);
    VwapKeepsDecision(NEW.(openingBarsSeen := |opening|, orh := RangeOf(opening).0, orl := RangeOf(opening).1,
                           state := InvalidState, reasons := ["OPENING_RANGE_CONFIRMED_EMPTY"]), ordered);
    RunningVwap(NEW.(openingBarsSeen := |opening|, orh := RangeOf(opening).0, orl := RangeOf(opening).1,
                     state := BuildingOr, reasons := ["OPENING_RANGE_WAITING_FOR_SIP"]), ordered);
    RunningVwap(NEW.(openingBarsSeen := |opening|, orh := RangeOf(opening).0, orl := RangeOf(opening).1,
                     state := InvalidState, reasons := ["OPENING_RANGE_CONFIRMED_EMPTY"]), ordered);
    forall i: nat | i < rules.openingMinutes
      ensures HasMinute(opening, session.start + 60 * i) <==> SeenMinute(ordered, session.start + 60 * i)
    {
      OpeningMinute(rules, session, ordered, i);
    }
  }

  lemma {:induction false} VwapKeepsDecision(s: Structure, bars: seq<Bar>)
    ensures var r := VwapOver(s, bars);
            r == s.(runningVwap := r.runningVwap, cumulativeVolume := r.cumulativeVolume,
                    cumulativeNotional := r.cumulativeNotional)
    decreases |bars|
  {
    if bars != [] {
      VwapKeepsDecision(s, bars[..|bars| - 1]);
    }
  }

  lemma OpeningMinute(rules: Rules, session: Session, ordered: seq<Bar>, i: nat)
    requires i < rules.openingMinutes
    ensures HasMinute(Opening(rules, session, ordered), session.start + 60 * i)
       <==> SeenMinute(ordered, session.start + 60 * i)
  {
    hide Opening;
    var opening := Opening(rules, session, ordered);
    var minute := session.start + 60 * i;
    if HasMinute(opening, minute) {
      var j :| 0 <= j < |opening| && Minute(opening[j]) == minute;
      OpeningBars(rules, session, ordered, opening[j]);
      assert opening[j] in opening;
    }
    if SeenMinute(ordered, minute) {
      var b :| b in ordered && b.t - b.t % 60 == minute;
      OpeningBars(rules, session, ordered, b);
      var j :| 0 <= j < |opening| && opening[j] == b;
      assert Minute(opening[j]) == minute;
    }
  }

  /** Some bar carries this minute. */
  ghost predicate SeenMinute(bars: seq<Bar>, minute: int) {
    exists b :: b in bars && b.t - b.t % 60 == minute
  }

  /* ---- online ---- */

  /** On a session with a proper range the online fold is in the state its bars say. */
  lemma OnlineState(rules: Rules, session: Session, bars: seq<Bar>, e: Structure)
    requires Proper(rules, session, bars, e)
    ensures var t, on := Tape(rules, session, e, bars), Online(rules, session, bars);
            && t.Valid() && on.Ok?
            && on.value.state == (if exists k: nat :: Breached(t, k) then InvalidState
                                  else if RetestedBefore(t, |bars|) then RetestValid
                                  else if OpenBefore(t, |bars|) then BreakoutSeen
                                  else ArmedState)
            && (on.value.state == InvalidState ==>
                  exists k: nat :: FirstBreach(t, k) && on.value.reasons == [BreachReason(t, k)])
  {
    hide Walk, Online, OpenBefore, RetestedBefore, Breached, FirstBreach, BreachReason, FullRange, Regular, RangeOf,
         Opening;
    var t := Tape(rules, session, e, bars);
    TapeOfRegular(rules, session, bars, e);
    BatchRefinesOnline(rules, session, bars, e, None);
    ComputeIsWalk(rules, session, bars, None);
    assert bars[..|bars|] == bars;
    StateMeaning(t);
  }

  lemma TapeOfRegular(rules: Rules, session: Session, bars: seq<Bar>, e: Structure)
    requires Proper(rules, session, bars, e)
    ensures Tape(rules, session, e, bars).Valid()
  {
    hide WellFormed, RangeOf, Opening;
  }

  /** What the online update refuses and what it passes over: an incomplete bar, one whose
      high is under its low or whose close is not positive, and one of another day raise;
      a bar that is not newer than the last, or outside trading hours, changes nothing. */
  lemma UpdateMeaning(rules: Rules, session: Session, s: Structure, b: Bar)
    ensures var r := Update(rules, session, s, b);
            if b.high.None? || b.low.None? || b.close.None? then r == Raised("INTRADAY_BAR_INCOMPLETE")
            else if b.high.value < b.low.value || b.close.value <= 0.0 then r == Raised("INTRADAY_BAR_INVALID")
            else if b.t < session.dayStart || session.dayEnd <= b.t then r == Raised("INTRADAY_BAR_SESSION_MISMATCH")
            else if s.lastBarAt.Some? && b.t <= s.lastBarAt.value then r == Ok(s)
            else if b.t < session.start || session.start + 23400 <= b.t then r == Ok(s)
            else r.Ok? ==> r.value.lastBarAt == Some(b.t) && r.value.lastClose == b.close
  {
    hide InvalidationReason, Near, ApplyVwap;
    if b.high.Some? && b.low.Some? && b.close.Some? {
      SeenTape(s, s, b, b.close.value);
    }
  }

  /** Well-formed minute bars of one session, in order. */
  ghost predicate Formed(session: Session, bars: seq<Bar>) {
    && session.Valid()
    && (forall i :: 0 <= i < |bars| ==> WellFormed(session, bars[i]))
    && (forall i, j :: 0 <= i < j < |bars| ==> bars[i].t < bars[j].t)
  }

  /** The first `k` bars are the first `k` minutes. */
  ghost predicate Consecutive(session: Session, bars: seq<Bar>, k: nat) {
    k <= |bars| && forall i :: 0 <= i < k ==> bars[i].t == session.start + 60 * i
  }

  /** While the minutes arrive one by one the online structure builds its range. */
  lemma {:induction false} OnlineBuilding(rules: Rules, session: Session, bars: seq<Bar>, k: nat)
    requires rules.Valid() && Formed(session, bars) && Consecutive(session, bars, k) && k < rules.openingMinutes
    ensures Online(rules, session, bars[..k]).Ok?
    ensures var s := Online(rules, session, bars[..k]).value;
            && s.state == BuildingOr && s.openingBarsSeen == k
            && s.lastBarAt == (if k == 0 then None else Some(bars[k - 1].t))
    decreases k
  {
    if k > 0 {
      assert bars[..k][..k - 1] == bars[..k - 1];
      OnlineBuilding(rules, session, bars, k - 1);
      var s, b := Online(rules, session, bars[..k - 1]).value, bars[k - 1];
      assert WellFormed(session, b);
      OpeningStep(rules, session, s, b, k - 1);
      SeenTape(s, s, b, b.close.value);
    }
  }

  /** A gap in the opening minutes invalidates the online structure for good. */
  lemma {:induction false} OnlineGap(rules: Rules, session: Session, bars: seq<Bar>, j: nat, k: nat)
    requires rules.Valid() && Formed(session, bars) && Consecutive(session, bars, j) && j < rules.openingMinutes
    requires j < k <= |bars| && bars[j].t != session.start + 60 * j
    ensures Online(rules, session, bars[..k]).Ok?
    ensures var s := Online(rules, session, bars[..k]).value;
            && s.state == InvalidState && s.reasons == ["OPENING_RANGE_INCOMPLETE"] && s.openingBarsSeen == j
            && s.lastBarAt == Some(bars[k - 1].t)
    decreases k
  {
    hide Update, WellFormed, Session.Valid;
    assert bars[..k][..k - 1] == bars[..k - 1];
    if k - 1 == j {
      OnlineBuilding(rules, session, bars, j);
    } else {
      OnlineGap(rules, session, bars, j, k - 1);
    }
    var s, b := Online(rules, session, bars[..k - 1]).value, bars[k - 1];
    LaterMinuteIndex(session, bars, j, k - 1);
    GapStep(rules, session, s, b, j);
  }

  lemma LaterMinuteIndex(session: Session, bars: seq<Bar>, j: nat, k: nat)
    requires Formed(session, bars) && Consecutive(session, bars, j) && j <= k < |bars|
    requires bars[j].t != session.start + 60 * j
    ensures bars[k].t >= session.start + 60 * (j + 1)
  {
    assert WellFormed(session, bars[j]) && WellFormed(session, bars[k]);
    if j > 0 {
      assert WellFormed(session, bars[j - 1]);
      NextMinute(bars[j - 1].t, bars[j].t);
    }
    assert bars[j].t >= session.start + 60 * j;
    MinutesApart(session.start, bars[j].t, j);
  }

  lemma MinutesApart(start: int, t: int, j: nat)
    requires start % 60 == 0 && t % 60 == 0 && t > start + 60 * j
    ensures t >= start + 60 * (j + 1)
  {
  }

  lemma GapStep(rules: Rules, session: Session, s: Structure, b: Bar, j: nat)
    requires rules.Valid() && session.Valid() && WellFormed(session, b) && s.openingBarsSeen == j < rules.openingMinutes
    requires b.t >= session.start + 60 * (j + 1) && (s.lastBarAt.Some? ==> s.lastBarAt.value < b.t)
    requires s.state == BuildingOr || (s.state == InvalidState && s.reasons == ["OPENING_RANGE_INCOMPLETE"])
    ensures var r := Update(rules, session, s, b);
            && r.Ok? && r.value.state == InvalidState && r.value.reasons == ["OPENING_RANGE_INCOMPLETE"]
            && r.value.openingBarsSeen == j && r.value.lastBarAt == Some(b.t)
  {
    MinuteIndexLate(b.t, session.start, j + 1);
    SeenTape(s, s, b, b.close.value);
  }
}

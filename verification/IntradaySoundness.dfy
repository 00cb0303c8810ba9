/** What RETEST_VALID means: a breakout of the opening range and a later retest
    inside its window, and nothing below the invalidation floors. */
module IntradaySoundness {
  import opened Prelude
  import opened Domain
  import opened Bars
  import opened Intraday

  function CloseOf(b: Bar): real {
    if b.close.Some? then b.close.value else 0.0
  }

  function LowOf(b: Bar): real {
    if b.low.Some? then b.low.value else 0.0
  }

  /** A bar that counts for the volume-weighted price. */
  predicate Traded(b: Bar) {
    b.volume.Some? && b.vwap.Some? && b.volume.value > 0.0 && b.vwap.value > 0.0
  }

  function Volume(bars: seq<Bar>): real
    decreases |bars|
  {
    if bars == [] then 0.0
    else
      var last := bars[|bars| - 1];
      Volume(bars[..|bars| - 1]) + (if Traded(last) then last.volume.value else 0.0)
  }

  function Notional(bars: seq<Bar>): real
    decreases |bars|
  {
    if bars == [] then 0.0
    else
      var last := bars[|bars| - 1];
      Notional(bars[..|bars| - 1]) + (if Traded(last) then last.volume.value * last.vwap.value else 0.0)
  }

  /** A low within `pct` percent of a level. */
  predicate Reaches(low: real, level: real, pct: real) {
    level < 0.0 || -pct * level <= 100.0 * (low - level) <= pct * level
  }

  /** A session's range, its rules and its bars, read up to some index. */
  datatype Tape = Tape(rules: Rules, session: Session, e: Structure, bars: seq<Bar>)
  {
    ghost predicate Valid() {
      && e.state == ArmedState && e.lastClose.None? && e.breakoutAt.None? && e.retestAt.None?
      && e.runningVwap.None? && e.cumulativeVolume == 0.0 && e.cumulativeNotional == 0.0
      && e.orh.Some? && e.orl.Some? && e.orh.value > e.orl.value
      && rules.bufferR >= 0.0 && rules.tolerancePct >= 0.0
      && forall i, j :: 0 <= i < j < |bars| ==> bars[i].t < bars[j].t
    }

    function Orh(): real { RangeHigh(e) }

    function Orl(): real { RangeLow(e) }

    /** The floor under a breakout, and under the range. */
    function BreakoutFloor(): real { Orh() - rules.bufferR * (Orh() - Orl()) }

    function RangeFloor(): real { Orl() - rules.bufferR * (Orh() - Orl()) }

    predicate Trading(i: nat)
      requires i < |bars|
    {
      bars[i].t >= session.start + 60 * rules.openingMinutes
    }

    /** The first close above the range after one at or below it. */
    predicate Breaks(i: nat) {
      1 <= i < |bars| && Trading(i) && CloseOf(bars[i - 1]) <= Orh() < CloseOf(bars[i])
    }

    /** From the breakout at `i` on, through `j`, the close held and the window is open. */
    ghost predicate Held(i: nat, j: nat) {
      j < |bars| && forall k: nat :: i < k <= j ==>
        CloseOf(bars[k]) > Orh() && bars[k].t - bars[i].t <= 60 * rules.windowMinutes
    }

    /** The low is near the top of the range, or near the volume-weighted price of
        everything traded so far. */
    predicate Touches(j: nat) {
      && j < |bars| && Orh() != 0.0
      && (|| Reaches(LowOf(bars[j]), Orh(), rules.tolerancePct)
          || (var volume := Volume(bars[..j + 1]);
              volume > 0.0 && Reaches(LowOf(bars[j]), Mean(Notional(bars[..j + 1]), volume), rules.tolerancePct)))
    }

    /** A breakout at `i` retested at `j`. */
    ghost predicate Retest(i: nat, j: nat) {
      Breaks(i) && i < j < |bars| && Held(i, j) && Touches(j)
    }

    /** No low after `i`, before `k`, went under the breakout floor. */
    ghost predicate Supported(i: nat, k: nat) {
      k <= |bars| && forall j: nat :: i < j < k ==> LowOf(bars[j]) >= BreakoutFloor()
    }

    function After(k: nat): Result<Structure>
      requires k <= |bars|
    {
      Walk(rules, session, e, bars[..k])
    }

    ghost predicate LiveAt(k: nat) {
      k <= |bars| && After(k).Ok? && After(k).value.state != InvalidState
    }
  }

  /** What the structure carries along besides its state. */
  ghost predicate Carried(t: Tape, k: nat, s: Structure) {
    && k <= |t.bars|
    && s.orh == t.e.orh && s.orl == t.e.orl
    && s.lastClose == (if k == 0 then None else t.bars[k - 1].close)
    && (forall i: nat :: i < k ==> Complete(t.bars[i]))
    && s.runningVwap == VwapOver(t.e, t.bars[..k]).runningVwap
    && s.cumulativeVolume == VwapOver(t.e, t.bars[..k]).cumulativeVolume
    && s.cumulativeNotional == VwapOver(t.e, t.bars[..k]).cumulativeNotional
    && s.state in {ArmedState, BreakoutSeen, RetestValid}
    && (s.state == ArmedState ==> s.breakoutAt.None?) && (s.state != RetestValid ==> s.retestAt.None?)
  }

  /** A breakout still open after `k` bars. */
  ghost predicate OpenBreakout(t: Tape, k: nat, s: Structure, i: nat) {
    i < k <= |t.bars| && t.Breaks(i) && t.Held(i, k - 1) && s.breakoutAt == Some(t.bars[i].t) && t.Supported(i, k)
  }

  /** The retest the structure records. */
  ghost predicate RecordedRetest(t: Tape, k: nat, s: Structure, i: nat, j: nat) {
    && j < k <= |t.bars| && t.Retest(i, j)
    && s.breakoutAt == Some(t.bars[i].t) && s.retestAt == Some(t.bars[j].t) && t.Supported(i, k)
  }

  ghost predicate Explained(t: Tape, k: nat, s: Structure) {
    && (s.state == BreakoutSeen ==> exists i: nat :: OpenBreakout(t, k, s, i))
    && (s.state == RetestValid ==> exists i: nat, j: nat :: RecordedRetest(t, k, s, i, j))
  }

  /** Nothing was missed: every breakout still held is the recorded one, and no
      retest went by. */
  ghost predicate Alert(t: Tape, k: nat, s: Structure) {
    s.state != RetestValid ==>
      && (forall i: nat :: t.Breaks(i) && i < k && t.Held(i, k - 1) ==>
            s.state == BreakoutSeen && s.breakoutAt == Some(t.bars[i].t))
      && (forall i: nat, j: nat :: t.Retest(i, j) ==> j >= k)
  }

  ghost predicate Floored(t: Tape, k: nat) {
    k <= |t.bars| && forall i: nat :: i < k && t.Trading(i) ==> LowOf(t.bars[i]) >= t.RangeFloor()
  }

  lemma VwapNext(t: Tape, k: nat)
    requires k < |t.bars|
    ensures VwapOver(t.e, t.bars[..k + 1]) == ApplyVwap(VwapOver(t.e, t.bars[..k]), t.bars[k])
  {
    assert t.bars[..k + 1][..k] == t.bars[..k];
  }

  lemma ApplyVwapCongruent(s: Structure, w: Structure, b: Bar)
    requires s.runningVwap == w.runningVwap && s.cumulativeVolume == w.cumulativeVolume
             && s.cumulativeNotional == w.cumulativeNotional
    ensures var s1, w1 := ApplyVwap(s, b), ApplyVwap(w, b);
            && s1.runningVwap == w1.runningVwap && s1.cumulativeVolume == w1.cumulativeVolume
            && s1.cumulativeNotional == w1.cumulativeNotional
            && s1 == s.(runningVwap := s1.runningVwap, cumulativeVolume := s1.cumulativeVolume,
                        cumulativeNotional := s1.cumulativeNotional)
  {
  }

  /** One live turn of the loop on the bar at `k`. */
  ghost predicate Turn(t: Tape, k: nat, s: Structure, s': Structure) {
    && t.Valid() && k < |t.bars| && Carried(t, k, s) && (s.state == BreakoutSeen ==> s.breakoutAt.Some?)
    && BatchStep(t.rules, t.session, s, t.bars[k]) == Ok(s') && s'.state != InvalidState
  }

  /** The bar closes outside the breakout, or its window has run out. */
  predicate Lost(t: Tape, k: nat, s: Structure)
    requires k < |t.bars| && s.breakoutAt.Some?
  {
    t.bars[k].t - s.breakoutAt.value > 60 * t.rules.windowMinutes || CloseOf(t.bars[k]) <= t.Orh()
  }

  lemma TurnCarried(t: Tape, k: nat, s: Structure, s': Structure)
    requires Turn(t, k, s, s')
    ensures Carried(t, k + 1, s')
  {
    VwapNext(t, k);
    ApplyVwapCongruent(s, VwapOver(t.e, t.bars[..k]), t.bars[k]);
    hide VwapOver, ApplyVwap, Near, InvalidationReason;
  }

  lemma MeanPositive(total: real, weight: real)
    requires total > 0.0 && weight > 0.0
    ensures Mean(total, weight) > 0.0 && Mean(total, weight) * weight == total
  {
    var q := Mean(total, weight);
    assert q * weight == total;
    PositiveFactor(q, weight);
  }

  lemma PositiveFactor(x: real, y: real)
    requires x * y > 0.0 && y > 0.0
    ensures x > 0.0
  {
  }

  /** The running price is the traded value over the traded volume. */
  lemma {:induction false} RunningVwap(e: Structure, bars: seq<Bar>)
    requires e.runningVwap.None? && e.cumulativeVolume == 0.0 && e.cumulativeNotional == 0.0
    ensures var s := VwapOver(e, bars);
            && s.cumulativeVolume == Volume(bars) >= 0.0 && s.cumulativeNotional == Notional(bars)
            && (Volume(bars) > 0.0 <==> Notional(bars) > 0.0) && Notional(bars) >= 0.0
            && s.runningVwap == if Volume(bars) > 0.0 then Some(Mean(Notional(bars), Volume(bars))) else None
    decreases |bars|
  {
    if bars != [] {
      var before, last := bars[..|bars| - 1], bars[|bars| - 1];
      RunningVwap(e, before);
      hide Mean;
      if Traded(last) {
        TradedProduct(last);
      }
    }
  }

  lemma TradedProduct(b: Bar)
    requires Traded(b)
    ensures b.volume.value * b.vwap.value > 0.0
  {
  }

  lemma NearLevel(low: real, level: real, pct: real)
    requires level != 0.0 && pct >= 0.0
    ensures Abs(low - level) / level <= pct / 100.0 <==> Reaches(low, level, pct)
  {
    var q := Abs(low - level) / level;
    assert q * level == Abs(low - level);
    if level > 0.0 {
      assert (pct / 100.0 - q) * level == pct / 100.0 * level - Abs(low - level);
      assert pct / 100.0 * level * 100.0 == pct * level;
      if q <= pct / 100.0 {
        assert (pct / 100.0 - q) * level >= 0.0;
      } else {
        assert (pct / 100.0 - q) * level < 0.0;
      }
    } else {
      assert q > 0.0 ==> q * level < 0.0;
    }
  }

  /** The touch as the machine computes it. */
  lemma NearIsTouch(t: Tape, j: nat)
    requires t.Valid() && j < |t.bars| && t.Orh() != 0.0
    ensures t.Touches(j)
       <==> Near(LowOf(t.bars[j]), t.Orh(), VwapOver(t.e, t.bars[..j + 1]).runningVwap, t.rules)
  {
    hide Mean, VwapOver, Volume, Notional, Reaches, Abs;
    RunningVwap(t.e, t.bars[..j + 1]);
    var low := LowOf(t.bars[j]);
    NearLevel(low, t.Orh(), t.rules.tolerancePct);
    var volume, notional := Volume(t.bars[..j + 1]), Notional(t.bars[..j + 1]);
    if volume > 0.0 {
      MeanPositive(notional, volume);
      NearLevel(low, Mean(notional, volume), t.rules.tolerancePct);
    }
  }

  /** The touch the loop tests is the touch of the tape. */
  lemma TurnTouch(t: Tape, k: nat, s: Structure)
    requires t.Valid() && k < |t.bars| && Carried(t, k, s) && t.Orh() != 0.0
    ensures t.Touches(k) <==> Near(LowOf(t.bars[k]), t.Orh(), ApplyVwap(s, t.bars[k]).runningVwap, t.rules)
  {
    VwapNext(t, k);
    NearIsTouch(t, k);
    ApplyVwapCongruent(s, VwapOver(t.e, t.bars[..k]), t.bars[k]);
    hide VwapOver, ApplyVwap, Near, Tape.Touches;
  }

  lemma SeenKeeps(s: Structure, b: Bar, close: real)
    ensures var s1 := Seen(s, b, close);
            && s1.state == s.state && s1.breakoutAt == s.breakoutAt && s1.retestAt == s.retestAt && s1.orh == s.orh
            && s1.runningVwap == ApplyVwap(s, b).runningVwap
  {
  }

  lemma TurnFloor(t: Tape, k: nat, s: Structure, s': Structure)
    requires Turn(t, k, s, s')
    ensures t.Trading(k) ==> LowOf(t.bars[k]) >= if s.state == ArmedState then t.RangeFloor() else t.BreakoutFloor()
  {
    hide VwapOver, ApplyVwap, Near, Seen, BatchRetest;
  }

  lemma TurnFromBreakout(t: Tape, k: nat, s: Structure, s': Structure)
    requires Turn(t, k, s, s') && t.Trading(k) && s.state == BreakoutSeen
    ensures if Lost(t, k, s) then s'.state == ArmedState
            else && s'.breakoutAt == s.breakoutAt
                 && (if t.Touches(k) then s'.state == RetestValid && s'.retestAt == Some(t.bars[k].t)
                     else s'.state == BreakoutSeen)
  {
    SeenKeeps(s, t.bars[k], CloseOf(t.bars[k]));
    if t.Orh() != 0.0 {
      TurnTouch(t, k, s);
    }
    hide VwapOver, ApplyVwap, Near, Seen, InvalidationReason;
  }

  lemma TurnFromOther(t: Tape, k: nat, s: Structure, s': Structure)
    requires Turn(t, k, s, s') && (s.state != BreakoutSeen || !t.Trading(k))
    ensures s.state == RetestValid || !t.Trading(k) ==>
              s'.state == s.state && s'.breakoutAt == s.breakoutAt && s'.retestAt == s.retestAt
    ensures t.Trading(k) && s.state == ArmedState ==>
              if t.Breaks(k) then s'.state == BreakoutSeen && s'.breakoutAt == Some(t.bars[k].t)
                else s'.state == ArmedState
  {
    SeenKeeps(s, t.bars[k], CloseOf(t.bars[k]));
    hide VwapOver, ApplyVwap, Near, Seen, InvalidationReason, BatchRetest;
  }

  /** All a live turn can do, by the state it starts from. */
  lemma TurnCases(t: Tape, k: nat, s: Structure, s': Structure)
    requires Turn(t, k, s, s')
    ensures Carried(t, k + 1, s')
    ensures s.state == RetestValid || !t.Trading(k) ==>
              s'.state == s.state && s'.breakoutAt == s.breakoutAt && s'.retestAt == s.retestAt
    ensures t.Trading(k) && s.state == BreakoutSeen ==>
              if Lost(t, k, s) then s'.state == ArmedState
              else && s'.breakoutAt == s.breakoutAt
                   && (if t.Touches(k) then s'.state == RetestValid && s'.retestAt == Some(t.bars[k].t)
                       else s'.state == BreakoutSeen)
    ensures t.Trading(k) && s.state == ArmedState ==>
              if t.Breaks(k) then s'.state == BreakoutSeen && s'.breakoutAt == Some(t.bars[k].t)
                else s'.state == ArmedState
    ensures t.Trading(k) ==> LowOf(t.bars[k]) >= if s.state == ArmedState then t.RangeFloor() else t.BreakoutFloor()
  {
    TurnCarried(t, k, s, s');
    TurnFloor(t, k, s, s');
    if s.state == BreakoutSeen && t.Trading(k) {
      TurnFromBreakout(t, k, s, s');
    } else {
      TurnFromOther(t, k, s, s');
    }
    hide VwapOver, ApplyVwap, Near, Seen, BatchStep, Carried;
  }

  lemma FloorsOrdered(t: Tape)
    requires t.Valid()
    ensures t.RangeFloor() < t.BreakoutFloor()
  {
  }

  lemma FlooredNext(t: Tape, k: nat, s: Structure, s': Structure)
    requires Turn(t, k, s, s') && Floored(t, k)
    ensures Floored(t, k + 1)
  {
    hide Turn, Carried;
    assert Turn(t, k, s, s');
    TurnCases(t, k, s, s');
    TurnValid(t, k, s, s');
    FloorsOrdered(t);
  }

  lemma TurnValid(t: Tape, k: nat, s: Structure, s': Structure)
    requires Turn(t, k, s, s')
    ensures t.Valid() && k < |t.bars| && s.state in {ArmedState, BreakoutSeen, RetestValid}
    ensures s.state == BreakoutSeen ==> s.breakoutAt.Some?
  {
  }

  lemma LaterIsTrading(t: Tape, i: nat, k: nat)
    requires t.Valid() && i < k < |t.bars| && t.Trading(i)
    ensures t.Trading(k)
  {
    assert t.bars[i].t < t.bars[k].t;
  }

  lemma ExplainedNext(t: Tape, k: nat, s: Structure, s': Structure)
    requires Turn(t, k, s, s') && Explained(t, k, s)
    ensures Explained(t, k + 1, s')
  {
    TurnValid(t, k, s, s');
    TurnCases(t, k, s, s');
    hide Turn, Carried, Near, VwapOver, BatchStep;
    if s.state == BreakoutSeen {
      var i: nat :| OpenBreakout(t, k, s, i);
      LaterIsTrading(t, i, k);
      if s'.state != ArmedState {
        BreakoutGoesOn(t, k, s, s', i);
      }
    } else if s.state == RetestValid {
      var i: nat, j: nat :| RecordedRetest(t, k, s, i, j);
      LaterIsTrading(t, i, k);
      RetestStays(t, k, s, s', i, j);
    } else if s'.state == BreakoutSeen {
      assert OpenBreakout(t, k + 1, s', k);
    }
  }

  lemma RetestStays(t: Tape, k: nat, s: Structure, s': Structure, i: nat, j: nat)
    requires k < |t.bars| && RecordedRetest(t, k, s, i, j) && LowOf(t.bars[k]) >= t.BreakoutFloor()
    requires s'.breakoutAt == s.breakoutAt && s'.retestAt == s.retestAt
    ensures RecordedRetest(t, k + 1, s', i, j)
  {
    hide Near, VwapOver;
  }

  lemma BreakoutGoesOn(t: Tape, k: nat, s: Structure, s': Structure, i: nat)
    requires k < |t.bars| && OpenBreakout(t, k, s, i) && !Lost(t, k, s) && LowOf(t.bars[k]) >= t.BreakoutFloor()
    requires s'.breakoutAt == s.breakoutAt
    ensures t.Touches(k) && s'.retestAt == Some(t.bars[k].t) ==> RecordedRetest(t, k + 1, s', i, k)
    ensures OpenBreakout(t, k + 1, s', i)
  {
    hide Near, VwapOver;
    assert t.Held(i, k);
  }

  lemma AlertNext(t: Tape, k: nat, s: Structure, s': Structure)
    requires Turn(t, k, s, s') && Explained(t, k, s) && Alert(t, k, s)
    ensures Alert(t, k + 1, s')
  {
    TurnValid(t, k, s, s');
    TurnCases(t, k, s, s');
    hide Turn, Carried, Near, VwapOver, BatchStep;
    if s'.state != RetestValid {
      forall i: nat | t.Breaks(i) && i < k + 1 && t.Held(i, k)
        ensures s'.state == BreakoutSeen && s'.breakoutAt == Some(t.bars[i].t)
      {
        HeldIsRecorded(t, k, s, s', i);
      }
      forall i: nat, j: nat | t.Retest(i, j) ensures j >= k + 1 {
        if j == k {
          RetestIsTaken(t, k, s, s', i);
        }
      }
    }
  }

  lemma OpenClosesAbove(t: Tape, k: nat, s: Structure, h: nat)
    requires OpenBreakout(t, k, s, h)
    ensures CloseOf(t.bars[k - 1]) > t.Orh()
  {
  }

  lemma NoBreakFromBreakout(t: Tape, k: nat, s: Structure)
    requires Explained(t, k, s) && t.Breaks(k)
    ensures s.state != BreakoutSeen
  {
    if s.state == BreakoutSeen {
      var h: nat :| OpenBreakout(t, k, s, h);
      OpenClosesAbove(t, k, s, h);
    }
  }

  /** A breakout held through the bar at `k` is the one recorded after it. */
  lemma HeldIsRecorded(t: Tape, k: nat, s: Structure, s': Structure, i: nat)
    requires Turn(t, k, s, s') && Explained(t, k, s) && Alert(t, k, s) && s'.state != RetestValid
    requires t.Breaks(i) && i <= k && t.Held(i, k)
    ensures s'.state == BreakoutSeen && s'.breakoutAt == Some(t.bars[i].t)
  {
    TurnValid(t, k, s, s');
    TurnCases(t, k, s, s');
    hide Turn, Carried, Near, VwapOver, BatchStep;
    if i < k {
      LaterIsTrading(t, i, k);
      assert t.Held(i, k - 1);
    } else {
      NoBreakFromBreakout(t, k, s);
    }
  }

  /** A retest at `k` of a held breakout cannot be missed. */
  lemma RetestIsTaken(t: Tape, k: nat, s: Structure, s': Structure, i: nat)
    requires Turn(t, k, s, s') && Explained(t, k, s) && Alert(t, k, s) && t.Retest(i, k)
    ensures s'.state == RetestValid
  {
    TurnValid(t, k, s, s');
    TurnCases(t, k, s, s');
    hide Turn, Carried, Near, VwapOver, BatchStep;
    LaterIsTrading(t, i, k);
    if s.state != RetestValid {
      assert t.Held(i, k - 1);
      assert s.state == BreakoutSeen && s.breakoutAt == Some(t.bars[i].t);
      assert !Lost(t, k, s);
    }
  }

  lemma {:induction false} LiveWalk(t: Tape, k: nat)
    requires t.Valid() && t.LiveAt(k)
    ensures var s := t.After(k).value;
            && Carried(t, k, s) && Explained(t, k, s) && Alert(t, k, s) && Floored(t, k)
            && (s.state == BreakoutSeen ==> s.breakoutAt.Some?)
    decreases k
  {
    if k == 0 {
      LiveStart(t);
    } else {
      LiveBefore(t, k - 1);
      LiveWalk(t, k - 1);
      var s, s' := t.After(k - 1).value, t.After(k).value;
      hide Walk, BatchStep;
      assert Turn(t, k - 1, s, s');
      TurnCases(t, k - 1, s, s');
      ExplainedNext(t, k - 1, s, s');
      AlertNext(t, k - 1, s, s');
      FlooredNext(t, k - 1, s, s');
    }
  }

  lemma LiveStart(t: Tape)
    requires t.Valid()
    ensures t.LiveAt(0) && t.After(0) == Ok(t.e)
    ensures Carried(t, 0, t.e) && Explained(t, 0, t.e) && Alert(t, 0, t.e) && Floored(t, 0)
  {
    assert t.bars[..0] == [];
  }

  lemma LiveBefore(t: Tape, k: nat)
    requires t.Valid() && k < |t.bars| && t.LiveAt(k + 1)
    ensures t.LiveAt(k) && BatchStep(t.rules, t.session, t.After(k).value, t.bars[k]) == t.After(k + 1)
  {
    assert t.bars[..k + 1][..k] == t.bars[..k];
  }

  /** Over a live session the structure is RETEST_VALID exactly when some breakout
      was retested inside its window, it then records one such pair, and no low
      went under the floors. */
  lemma RetestValidMeaning(t: Tape)
    requires t.Valid() && t.LiveAt(|t.bars|)
    ensures var s := t.After(|t.bars|).value;
            && (s.state == RetestValid <==> exists i: nat, j: nat :: t.Retest(i, j))
            && (s.state == RetestValid ==> exists i: nat, j: nat :: RecordedRetest(t, |t.bars|, s, i, j))
            && Floored(t, |t.bars|)
  {
    LiveWalk(t, |t.bars|);
    var s := t.After(|t.bars|).value;
    if s.state == RetestValid {
      var i: nat, j: nat :| RecordedRetest(t, |t.bars|, s, i, j);
      assert t.Retest(i, j);
    }
  }
}

/** Folding the online update over a session gives the batch structure. */
module IntradayRefinement {
  import opened Prelude
  import opened Domain
  import opened Bars
  import opened Intraday
  import opened IntradayStability

  ghost predicate WellFormed(session: Session, b: Bar) {
    && Complete(b) && b.high.value >= b.low.value && b.close.value > 0.0
    && session.Covers(b.t) && b.t % 60 == 0
  }

  /** Minute-aligned, strictly increasing bars of one session whose opening range is complete. */
  ghost predicate Regular(rules: Rules, session: Session, bars: seq<Bar>) {
    && rules.Valid() && session.Valid()
    && (forall i :: 0 <= i < |bars| ==> WellFormed(session, bars[i]))
    && (forall i, j :: 0 <= i < j < |bars| ==> bars[i].t < bars[j].t)
    && |bars| >= rules.openingMinutes
    && (forall i :: 0 <= i < rules.openingMinutes ==> bars[i].t == session.start + 60 * i)
  }

  lemma {:induction false} OpeningIsPrefix(rules: Rules, session: Session, bars: seq<Bar>, k: nat)
    requires Regular(rules, session, bars) && k <= rules.openingMinutes
    ensures Opening(rules, session, bars[..k]) == bars[..k]
    decreases k
  {
    if k > 0 {
      OpeningIsPrefix(rules, session, bars, k - 1);
      assert bars[..k][..k - 1] == bars[..k - 1];
    }
  }

  lemma PrefixReadable(rules: Rules, session: Session, bars: seq<Bar>, k: nat)
    requires Regular(rules, session, bars) && k <= |bars|
    ensures RangeReadable(bars[..k])
  {
    var p := bars[..k];
    forall i | 0 <= i < |p| ensures p[i].high.Some? && p[i].low.Some? {
      assert WellFormed(session, bars[i]);
    }
  }

  lemma TailAfterOpening(rules: Rules, session: Session, bars: seq<Bar>)
    requires Regular(rules, session, bars)
    ensures AfterOpening(rules, session, bars[rules.openingMinutes..])
  {
    var n := rules.openingMinutes;
    var p := bars[n..];
    forall i | 0 <= i < |p| ensures Minute(p[i]) >= session.start + 60 * n {
      assert WellFormed(session, bars[n + i]) && WellFormed(session, bars[n - 1]);
      assert bars[n - 1].t < bars[n + i].t;
      NextMinute(bars[n - 1].t, bars[n + i].t);
    }
  }

  lemma RegularOpening(rules: Rules, session: Session, bars: seq<Bar>)
    requires Regular(rules, session, bars)
    ensures Opening(rules, session, bars) == bars[..rules.openingMinutes]
    ensures FullRange(rules, session, bars)
  {
    hide Opening, WellFormed, RangeOf;
    var n := rules.openingMinutes;
    TailAfterOpening(rules, session, bars);
    OpeningIsPrefix(rules, session, bars, n);
    OpeningExtends(rules, session, bars[..n], bars[n..]);
    assert bars == bars[..n] + bars[n..];
    PrefixReadable(rules, session, bars, n);
  }

  lemma NextMinute(a: int, b: int)
    requires a % 60 == 0 && b % 60 == 0 && a < b
    ensures MinuteOf(b) == b >= a + 60
  {
  }

  lemma MinuteIndex(start: int, i: nat)
    ensures (start + 60 * i - start) / 60 == i
  {
  }

  lemma MinuteIndexLate(t: int, start: int, n: nat)
    requires t >= start + 60 * n
    ensures (t - start) / 60 >= n
  {
  }

  /** The online structure inside the opening range, against the batch walk. */
  ghost predicate Opened(rules: Rules, session: Session, bars: seq<Bar>, k: nat, s: Structure)
    requires Regular(rules, session, bars) && k <= rules.openingMinutes && RangeReadable(bars[..k])
  {
    && s.state == (if k == rules.openingMinutes then ArmedState else BuildingOr)
    && s.reasons == (if k == rules.openingMinutes then ["OPENING_RANGE_ESTABLISHED"] else [])
    && (s.orh, s.orl) == RangeOf(bars[..k]) && s.openingBarsSeen == k
    && s.breakoutAt.None? && s.retestAt.None?
    && s.lastBarAt == (if k == 0 then None else Some(bars[k - 1].t))
  }

  /** The parts both machines update on every bar. */
  ghost predicate SameTape(s: Structure, w: Structure) {
    && s.runningVwap == w.runningVwap && s.cumulativeVolume == w.cumulativeVolume
    && s.cumulativeNotional == w.cumulativeNotional && s.lastBarAt == w.lastBarAt && s.lastClose == w.lastClose
  }

  lemma SeenTape(s: Structure, w: Structure, b: Bar, close: real)
    requires SameTape(s, w)
    ensures SameTape(Seen(s, b, close), Seen(w, b, close))
    ensures var s1 := Seen(s, b, close);
            s1 == s.(runningVwap := s1.runningVwap, cumulativeVolume := s1.cumulativeVolume,
                     cumulativeNotional := s1.cumulativeNotional, lastBarAt := Some(b.t), lastClose := Some(close))
  {
  }

  lemma {:induction false} OpeningAgrees(rules: Rules, session: Session, bars: seq<Bar>, init: Structure, k: nat)
    requires Regular(rules, session, bars) && k <= rules.openingMinutes && RangeReadable(bars[..k])
    requires init.state == ArmedState && SameTape(NEW, init)
    ensures Online(rules, session, bars[..k]).Ok?
            && Opened(rules, session, bars, k, Online(rules, session, bars[..k]).value)
    ensures Walk(rules, session, init, bars[..k]).Ok?
    ensures var w := Walk(rules, session, init, bars[..k]).value;
            && SameTape(Online(rules, session, bars[..k]).value, w)
            && w == init.(runningVwap := w.runningVwap, cumulativeVolume := w.cumulativeVolume,
                          cumulativeNotional := w.cumulativeNotional, lastBarAt := w.lastBarAt,
                          lastClose := w.lastClose)
    decreases k
  {
    if k > 0 {
      var b := bars[k - 1];
      assert bars[..k][..k - 1] == bars[..k - 1];
      PrefixReadable(rules, session, bars, k - 1);
      OpeningAgrees(rules, session, bars, init, k - 1);
      var s := Online(rules, session, bars[..k - 1]).value;
      var w := Walk(rules, session, init, bars[..k - 1]).value;
      assert WellFormed(session, b) && b.t == session.start + 60 * (k - 1);
      assert k > 1 ==> bars[k - 2].t < b.t;
      SeenTape(s, w, b, b.close.value);
      SeenTape(w, w, b, b.close.value);
      OpeningStep(rules, session, s, b, k - 1);
      hide Update, BatchStep, Seen;
      OpeningWalkStep(rules, session, w, b);
    }
  }

  lemma OpeningStep(rules: Rules, session: Session, s: Structure, b: Bar, i: nat)
    requires rules.Valid() && session.Valid() && WellFormed(session, b) && i < rules.openingMinutes
    requires b.t == session.start + 60 * i && (s.lastBarAt.Some? ==> s.lastBarAt.value < b.t)
    ensures Update(rules, session, s, b) == Ok(OnlineOpening(rules, Seen(s, b, b.close.value), b, i))
  {
    hide Seen;
    MinuteIndex(session.start, i);
  }

  lemma OpeningWalkStep(rules: Rules, session: Session, w: Structure, b: Bar)
    requires Complete(b) && b.t < session.start + 60 * rules.openingMinutes
    ensures BatchStep(rules, session, w, b) == Ok(Seen(w, b, b.close.value))
  {
    hide Seen;
  }

  /* ---- after the opening range ---- */

  /** What both machines share once the range is established. */
  ghost predicate Ranged(rules: Rules, s: Structure) {
    && s.state != BuildingOr && s.openingBarsSeen == rules.openingMinutes
    && s.orh.Some? && s.orl.Some? && s.orh.value > s.orl.value && s.orh.value > 0.0
    && (s.state == BreakoutSeen ==> s.breakoutAt.Some?)
  }

  /** The two breakout branches test in different orders and decide alike. */
  lemma RetestBranchesAgree(rules: Rules, s: Structure, b: Bar, low: real, close: real)
    requires s.breakoutAt.Some? && RangeHigh(s) != 0.0
    ensures OnlineRetest(rules, s, b, low, close) == BatchRetest(rules, s, b, low, close)
  {
  }

  /** On a live structure both machines make the same move. */
  lemma StepsAgree(rules: Rules, session: Session, s: Structure, b: Bar)
    requires rules.Valid() && session.Valid() && Ranged(rules, s) && s.state != InvalidState && WellFormed(session, b)
    requires b.t >= session.start + 60 * rules.openingMinutes && s.lastBarAt.Some? && s.lastBarAt.value < b.t
    ensures Update(rules, session, s, b) == BatchStep(rules, session, s, b)
    ensures Update(rules, session, s, b).Ok? && Ranged(rules, Update(rules, session, s, b).value)
    ensures Update(rules, session, s, b).value.lastBarAt == Some(b.t)
  {
    hide Near, ApplyVwap, InvalidationReason;
    MinuteIndexLate(b.t, session.start, rules.openingMinutes);
    SeenTape(s, s, b, b.close.value);
    if s.state == BreakoutSeen {
      RetestBranchesAgree(rules, Seen(s, b, b.close.value), b, b.low.value, b.close.value);
    }
  }

  /** Everything but the tape. */
  ghost predicate SameDecision(s: Structure, w: Structure) {
    && s.state == w.state && s.orh == w.orh && s.orl == w.orl && s.openingBarsSeen == w.openingBarsSeen
    && s.breakoutAt == w.breakoutAt && s.retestAt == w.retestAt && s.reasons == w.reasons
  }

  /** An invalid online structure only follows the tape. */
  lemma InvalidOnlineStays(rules: Rules, session: Session, s: Structure, b: Bar)
    requires rules.Valid() && session.Valid() && s.state == InvalidState && WellFormed(session, b)
    requires b.t >= session.start + 60 * rules.openingMinutes
    ensures Update(rules, session, s, b).Ok? && SameDecision(Update(rules, session, s, b).value, s)
  {
    MinuteIndexLate(b.t, session.start, rules.openingMinutes);
  }

  /** A regular session whose range is not degenerate; `e` is the structure the
      batch walk starts from. */
  ghost predicate Proper(rules: Rules, session: Session, bars: seq<Bar>, e: Structure) {
    && Regular(rules, session, bars) && FullRange(rules, session, bars)
    && e == Established(rules, session, bars)
    && e.orh.Some? && e.orl.Some? && e.orh.value > e.orl.value && e.orh.value > 0.0
  }

  ghost predicate Live(rules: Rules, session: Session, e: Structure, bars: seq<Bar>) {
    Walk(rules, session, e, bars).Ok? && Walk(rules, session, e, bars).value.state != InvalidState
  }

  ghost predicate Matched(rules: Rules, session: Session, e: Structure, bars: seq<Bar>) {
    var on, w := Online(rules, session, bars), Walk(rules, session, e, bars);
    && on.Ok? && w.Ok? && SameDecision(on.value, w.value)
    && (Live(rules, session, e, bars) ==>
          on == w && Ranged(rules, w.value) && bars != [] && w.value.lastBarAt == Some(bars[|bars| - 1].t))
  }

  lemma MatchedAtOpening(rules: Rules, session: Session, bars: seq<Bar>, e: Structure)
    requires Proper(rules, session, bars, e)
    ensures Matched(rules, session, e, bars[..rules.openingMinutes])
  {
    hide Walk, Online;
    var n := rules.openingMinutes;
    RegularOpening(rules, session, bars);
    PrefixReadable(rules, session, bars, n);
    OpeningAgrees(rules, session, bars, e, n);
  }

  lemma MatchedStep(rules: Rules, session: Session, e: Structure, before: seq<Bar>, b: Bar)
    requires rules.Valid() && session.Valid() && Matched(rules, session, e, before)
    requires WellFormed(session, b) && b.t >= session.start + 60 * rules.openingMinutes
    requires before != [] ==> before[|before| - 1].t < b.t
    ensures Matched(rules, session, e, before + [b])
    ensures Live(rules, session, e, before)
            ==> Online(rules, session, before + [b]) == Walk(rules, session, e, before + [b])
  {
    var bars := before + [b];
    assert bars[..|bars| - 1] == before;
    hide Update, BatchStep;
    var w := Walk(rules, session, e, before).value;
    if w.state == InvalidState {
      InvalidOnlineStays(rules, session, Online(rules, session, before).value, b);
    } else {
      StepsAgree(rules, session, w, b);
    }
  }

  lemma {:induction false} WalkMatchesOnline(rules: Rules, session: Session, bars: seq<Bar>, e: Structure, k: nat)
    requires Proper(rules, session, bars, e) && rules.openingMinutes <= k <= |bars|
    ensures Matched(rules, session, e, bars[..k])
    ensures k > rules.openingMinutes && Live(rules, session, e, bars[..k - 1]) ==>
      Online(rules, session, bars[..k]) == Walk(rules, session, e, bars[..k])
    decreases k
  {
    hide Matched;
    var n := rules.openingMinutes;
    if k == n {
      MatchedAtOpening(rules, session, bars, e);
    } else {
      WalkMatchesOnline(rules, session, bars, e, k - 1);
      var before, b := bars[..k - 1], bars[k - 1];
      assert bars[..k] == before + [b];
      assert WellFormed(session, b) && WellFormed(session, bars[n - 1]) && bars[n - 1].t < b.t;
      assert before[|before| - 1] == bars[k - 2];
      NextMinute(bars[n - 1].t, b.t);
      MatchedStep(rules, session, e, before, b);
    }
  }

  /** Batch refines online: on a regular session with a proper range, folding the
      online update gives the batch state, range, breakout and retest times and
      reasons, and the whole structure up to and including the first invalidation. */
  lemma BatchRefinesOnline(rules: Rules, session: Session, bars: seq<Bar>, e: Structure, confirmed: Option<int>)
    requires Proper(rules, session, bars, e)
    ensures var on, batch := Online(rules, session, bars), ComputeOrdered(rules, session, bars, confirmed);
            && on.Ok? && batch.Ok? && SameDecision(on.value, batch.value)
            && (batch.value.state != InvalidState ==> on == batch)
            && (|bars| > rules.openingMinutes && Live(rules, session, e, bars[..|bars| - 1]) ==> on == batch)
  {
    hide Walk, Online;
    assert bars[..|bars|] == bars;
    WalkMatchesOnline(rules, session, bars, e, |bars|);
    ComputeIsWalk(rules, session, bars, confirmed);
  }
}

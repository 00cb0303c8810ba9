/** Which legs a virtual trade takes, and when: by the prices and times of its ticks
    alone. */
module TradeLegs {
  import opened Prelude
  import opened VirtualTrades

  /* ---- what a tick is to a trade ---- */

  predicate Stops(s: VirtualTrade, tick: Tick) {
    tick.price <= s.stop
  }

  /** Targets and the time stop count for a day; the stop always does. */
  predicate Counts(s: VirtualTrade, tick: Tick) {
    tick.at <= s.openedAt + 86400 && !Stops(s, tick)
  }

  /** Late, and under the fill. */
  predicate TimesOut(s: VirtualTrade, tick: Tick) {
    Counts(s, tick) && s.timeStopAt <= tick.at && tick.price < s.fill
  }

  predicate ReachesSecond(s: VirtualTrade, tick: Tick) {
    Counts(s, tick) && !TimesOut(s, tick) && s.tp2 <= tick.price
  }

  predicate ReachesFirst(s: VirtualTrade, tick: Tick) {
    Counts(s, tick) && !TimesOut(s, tick) && s.tp1 <= tick.price < s.tp2
  }

  predicate Closes(s: VirtualTrade, tick: Tick) {
    Stops(s, tick) || TimesOut(s, tick) || ReachesSecond(s, tick)
  }

  predicate Marks(s: VirtualTrade, tick: Tick) {
    Closes(s, tick) || ReachesFirst(s, tick)
  }

  function TrimLeg(s: VirtualTrade, tick: Tick): Leg {
    Leg(Tp1Exit, s.tp1, 0.5, tick.at)
  }

  /** The stop and the second target sell at their level, the time stop at the market. */
  function ClosingLeg(s: VirtualTrade, tick: Tick, fraction: real): Leg {
    if Stops(s, tick) then Leg(StopExit, s.stop, fraction, tick.at)
    else if TimesOut(s, tick) then Leg(TimeStopExit, Round4(tick.price), fraction, tick.at)
    else Leg(Tp2Exit, s.tp2, fraction, tick.at)
  }

  /* ---- one tick ---- */

  lemma LevelsOnGrid(s: VirtualTrade)
    requires Accounted(s)
    ensures Round4(s.stop) == s.stop && Round4(s.tp1) == s.tp1 && Round4(s.tp2) == s.tp2 && s.stop < s.tp1 <= s.tp2
  {
  }

  /** What one tick does to an open trade. */
  lemma TickMeaning(s: VirtualTrade, tick: Tick)
    requires Accounted(s) && s.remaining > 0.0
    ensures var t := OnTick(s, tick);
            if Closes(s, tick) then t.legs == s.legs + [ClosingLeg(s, tick, s.remaining)] && t.remaining == 0.0
            else if ReachesFirst(s, tick) && s.legs == [] then
              t.legs == [TrimLeg(s, tick)] && t.remaining == 0.5 && t.tp1Taken
            else t == s
  {
    hide TotalR, Round4, Round6;
    RoundedFractions();
    LevelsOnGrid(s);
  }

  lemma OneMore(s: VirtualTrade, ticks: seq<Tick>, k: nat)
    requires k < |ticks|
    ensures TickByTick(s, ticks[..k + 1]) == OnTick(TickByTick(s, ticks[..k]), ticks[k])
  {
    hide OnTick;
    assert ticks[..k + 1][..k] == ticks[..k];
  }

  /* ---- the first leg ---- */

  ghost predicate FirstMark(s: VirtualTrade, ticks: seq<Tick>, k: nat) {
    k < |ticks| && Marks(s, ticks[k]) && forall i :: 0 <= i < k ==> !Marks(s, ticks[i])
  }

  lemma {:induction false} Unmarked(s: VirtualTrade, ticks: seq<Tick>)
    requires Accounted(s) && s.legs == [] && forall i :: 0 <= i < |ticks| ==> !Marks(s, ticks[i])
    ensures TickByTick(s, ticks) == s
    decreases |ticks|
  {
    hide OnTick, Accounted, Marks;
    if ticks != [] {
      var before, last := ticks[..|ticks| - 1], ticks[|ticks| - 1];
      Unmarked(s, before);
      UntouchedIsWhole(s);
      TickMeaning(s, last);
      assert !Marks(s, ticks[|ticks| - 1]);
      MarksAre(s, last);
    }
  }

  lemma MarksAre(s: VirtualTrade, tick: Tick)
    ensures Marks(s, tick) <==> Closes(s, tick) || ReachesFirst(s, tick)
  {
  }

  lemma UntouchedIsWhole(s: VirtualTrade)
    requires Accounted(s) && s.legs == []
    ensures s.remaining == 1.0 && !s.tp1Taken
  {
  }

  lemma AfterFirst(s: VirtualTrade, ticks: seq<Tick>, k: nat)
    requires Accounted(s) && s.legs == [] && FirstMark(s, ticks, k)
    ensures TickByTick(s, ticks[..k + 1]) == OnTick(s, ticks[k]) && s.remaining == 1.0
  {
    hide OnTick, Accounted, Marks, TickByTick;
    forall i | 0 <= i < |ticks[..k]| ensures !Marks(s, ticks[..k][i]) {
      assert ticks[..k][i] == ticks[i];
    }
    Unmarked(s, ticks[..k]);
    OneMore(s, ticks, k);
    UntouchedIsWhole(s);
  }

  /** A first mark that closes is the only leg. */
  lemma ClosedAtOnce(s: VirtualTrade, ticks: seq<Tick>, k: nat)
    requires Accounted(s) && s.legs == [] && FirstMark(s, ticks, k) && Closes(s, ticks[k])
    ensures var t := TickByTick(s, ticks); t.legs == [ClosingLeg(s, ticks[k], 1.0)] && t.remaining == 0.0
  {
    hide OnTick, Accounted, TickByTick, Closes, ClosingLeg;
    AfterFirst(s, ticks, k);
    TickMeaning(s, ticks[k]);
    ClosedStays(s, ticks[..k + 1], ticks[k + 1..]);
    assert ticks[..k + 1] + ticks[k + 1..] == ticks;
    assert s.legs + [ClosingLeg(s, ticks[k], 1.0)] == [ClosingLeg(s, ticks[k], 1.0)];
  }

  /* ---- the second leg ---- */

  /** The first tick after `k` that closes. */
  ghost predicate NextClose(s: VirtualTrade, ticks: seq<Tick>, k: nat, m: nat) {
    k < m < |ticks| && Closes(s, ticks[m]) && forall i :: k < i < m ==> !Closes(s, ticks[i])
  }

  lemma SameTerms(s: VirtualTrade, t: VirtualTrade, tick: Tick, fraction: real)
    requires From(s, t)
    ensures Closes(t, tick) == Closes(s, tick) && ClosingLeg(t, tick, fraction) == ClosingLeg(s, tick, fraction)
  {
    hide Round4;
  }

  /** A trimmed trade waits for a tick that closes. */
  lemma {:induction false} Waiting(s: VirtualTrade, ticks: seq<Tick>, k: nat, n: nat)
    requires Accounted(s) && s.legs == [] && FirstMark(s, ticks, k) && !Closes(s, ticks[k]) && k < n <= |ticks|
    requires forall i :: k < i < n ==> !Closes(s, ticks[i])
    ensures var t := TickByTick(s, ticks[..n]); t.legs == [TrimLeg(s, ticks[k])] && t.remaining == 0.5
    decreases n
  {
    hide OnTick, Accounted, TickByTick, Closes, Marks, TrimLeg;
    if n == k + 1 {
      AfterFirst(s, ticks, k);
      TickMeaning(s, ticks[k]);
      MarksAre(s, ticks[k]);
    } else {
      Waiting(s, ticks, k, n - 1);
      OneMore(s, ticks, n - 1);
      var t := TickByTick(s, ticks[..n - 1]);
      TickByTickAccounted(s, ticks[..n - 1]);
      TickMeaning(t, ticks[n - 1]);
      SameTerms(s, t, ticks[n - 1], 0.5);
    }
  }

  lemma TrimmedThenClosed(s: VirtualTrade, ticks: seq<Tick>, k: nat, m: nat)
    requires Accounted(s) && s.legs == [] && FirstMark(s, ticks, k) && !Closes(s, ticks[k]) && NextClose(s, ticks, k, m)
    ensures var t := TickByTick(s, ticks);
            t.legs == [TrimLeg(s, ticks[k]), ClosingLeg(s, ticks[m], 0.5)] && t.remaining == 0.0
  {
    hide OnTick, Accounted, TickByTick, Closes, Marks, TrimLeg, ClosingLeg;
    Waiting(s, ticks, k, m);
    OneMore(s, ticks, m);
    var t := TickByTick(s, ticks[..m]);
    TickByTickAccounted(s, ticks[..m]);
    TickMeaning(t, ticks[m]);
    SameTerms(s, t, ticks[m], 0.5);
    ClosedStays(s, ticks[..m + 1], ticks[m + 1..]);
    assert ticks[..m + 1] + ticks[m + 1..] == ticks;
    assert [TrimLeg(s, ticks[k])] + [ClosingLeg(s, ticks[m], 0.5)]
        == [TrimLeg(s, ticks[k]), ClosingLeg(s, ticks[m], 0.5)];
  }

  /* ---- all legs ---- */

  lemma {:induction false} MarkExists(s: VirtualTrade, ticks: seq<Tick>)
    ensures (exists i :: 0 <= i < |ticks| && Marks(s, ticks[i])) <==> exists k: nat :: FirstMark(s, ticks, k)
    decreases |ticks|
  {
    hide Marks;
    if ticks != [] {
      var before := ticks[..|ticks| - 1];
      MarkExists(s, before);
      if exists k: nat :: FirstMark(s, before, k) {
        var k: nat :| FirstMark(s, before, k);
        assert FirstMark(s, ticks, k);
      } else if Marks(s, ticks[|ticks| - 1]) {
        forall i | 0 <= i < |ticks| - 1 ensures !Marks(s, ticks[i]) {
          assert before[i] == ticks[i];
        }
        assert FirstMark(s, ticks, |ticks| - 1);
      }
    }
  }

  /** The legs of a trade after any ticks. No leg is taken exactly while no tick is at or
      under the stop, at or over the first target, or late and under the fill. The first
      tick that is takes the whole trade if it closes, half of it at the first target if
      not; the other half goes to the first later tick that closes, or stays. */
  lemma LegsMeaning(s: VirtualTrade, ticks: seq<Tick>)
    requires Accounted(s) && s.legs == []
    ensures var t := TickByTick(s, ticks);
            && (t.legs == [] <==> forall i :: 0 <= i < |ticks| ==> !Marks(s, ticks[i]))
            && (forall k: nat :: FirstMark(s, ticks, k) && Closes(s, ticks[k]) ==>
                  t.legs == [ClosingLeg(s, ticks[k], 1.0)])
            && (forall k: nat, m: nat :: FirstMark(s, ticks, k) && !Closes(s, ticks[k]) && NextClose(s, ticks, k, m) ==>
                  t.legs == [TrimLeg(s, ticks[k]), ClosingLeg(s, ticks[m], 0.5)])
            && (forall k: nat :: FirstMark(s, ticks, k) && !Closes(s, ticks[k])
                                 && (forall i :: k < i < |ticks| ==> !Closes(s, ticks[i])) ==>
                  t.legs == [TrimLeg(s, ticks[k])])
  {
    hide TickByTick, Marks, Closes, TrimLeg, ClosingLeg, Accounted;
    forall k: nat | FirstMark(s, ticks, k) && Closes(s, ticks[k])
      ensures TickByTick(s, ticks).legs == [ClosingLeg(s, ticks[k], 1.0)]
    {
      ClosedAtOnce(s, ticks, k);
    }
    forall k: nat, m: nat | FirstMark(s, ticks, k) && !Closes(s, ticks[k]) && NextClose(s, ticks, k, m)
      ensures TickByTick(s, ticks).legs == [TrimLeg(s, ticks[k]), ClosingLeg(s, ticks[m], 0.5)]
    {
      TrimmedThenClosed(s, ticks, k, m);
    }
    forall k: nat | FirstMark(s, ticks, k) && !Closes(s, ticks[k])
                    && forall i :: k < i < |ticks| ==> !Closes(s, ticks[i])
      ensures TickByTick(s, ticks).legs == [TrimLeg(s, ticks[k])]
    {
      Waiting(s, ticks, k, |ticks|);
      assert ticks[..|ticks|] == ticks;
    }
    NoLegsIff(s, ticks);
  }

  lemma MarkInside(s: VirtualTrade, ticks: seq<Tick>, k: nat)
    requires FirstMark(s, ticks, k)
    ensures k < |ticks|
  {
  }

  lemma NoLegsIff(s: VirtualTrade, ticks: seq<Tick>)
    requires Accounted(s) && s.legs == []
    ensures TickByTick(s, ticks).legs == [] <==> forall i :: 0 <= i < |ticks| ==> !Marks(s, ticks[i])
  {
    hide TickByTick, Marks, Closes, Accounted;
    MarkExists(s, ticks);
    if forall i :: 0 <= i < |ticks| ==> !Marks(s, ticks[i]) {
      Unmarked(s, ticks);
    } else {
      var k: nat :| FirstMark(s, ticks, k);
      SomeLeg(s, ticks, k);
    }
  }

  lemma SomeLeg(s: VirtualTrade, ticks: seq<Tick>, k: nat)
    requires Accounted(s) && s.legs == [] && FirstMark(s, ticks, k)
    ensures TickByTick(s, ticks).legs != []
  {
    hide TickByTick, Marks, Closes, Accounted, OnTick;
    AfterFirst(s, ticks, k);
    TickMeaning(s, ticks[k]);
    MarksAre(s, ticks[k]);
    var t := OnTick(s, ticks[k]);
    TickByTickAccounted(s, ticks[..k + 1]);
    TicksAppend(s, ticks[..k + 1], ticks[k + 1..]);
    TickByTickAccounted(t, ticks[k + 1..]);
    assert ticks[..k + 1] + ticks[k + 1..] == ticks;
  }

  lemma {:induction false} TicksAppend(s: VirtualTrade, ticks: seq<Tick>, more: seq<Tick>)
    ensures TickByTick(s, ticks + more) == TickByTick(TickByTick(s, ticks), more)
    decreases |more|
  {
    hide OnTick;
    if more == [] {
      assert ticks + more == ticks;
    } else {
      TicksAppend(s, ticks, more[..|more| - 1]);
      assert (ticks + more)[..|ticks + more| - 1] == ticks + more[..|more| - 1];
    }
  }

  /** For a fill under the first target: the first leg is the first target exactly when
      the first tick outside stop and target, or late under the fill, lies between the
      two targets. */
  lemma FirstTargetIff(s: VirtualTrade, ticks: seq<Tick>, k: nat)
    requires Accounted(s) && s.legs == [] && s.fill < s.tp1 && FirstMark(s, ticks, k)
    requires ticks[k].at <= s.openedAt + 86400
    ensures TickByTick(s, ticks).legs != []
    ensures TickByTick(s, ticks).legs[0] == TrimLeg(s, ticks[k]) <==> s.tp1 <= ticks[k].price < s.tp2
  {
    hide TickByTick, Accounted, FirstMark;
    SomeLeg(s, ticks, k);
    LevelsOnGrid(s);
    MarkInside(s, ticks, k);
    if Closes(s, ticks[k]) {
      ClosedAtOnce(s, ticks, k);
    } else {
      FirstIsTrim(s, ticks, k);
    }
  }

  lemma FirstIsTrim(s: VirtualTrade, ticks: seq<Tick>, k: nat)
    requires Accounted(s) && s.legs == [] && FirstMark(s, ticks, k) && !Closes(s, ticks[k])
    ensures TickByTick(s, ticks).legs != [] && TickByTick(s, ticks).legs[0] == TrimLeg(s, ticks[k])
    ensures ReachesFirst(s, ticks[k])
  {
    hide TickByTick, Accounted, OnTick;
    AfterFirst(s, ticks, k);
    TickMeaning(s, ticks[k]);
    var t := OnTick(s, ticks[k]);
    TickByTickAccounted(s, ticks[..k + 1]);
    TicksAppend(s, ticks[..k + 1], ticks[k + 1..]);
    TickByTickAccounted(t, ticks[k + 1..]);
    assert ticks[..k + 1] + ticks[k + 1..] == ticks;
  }

  /** A trade left without a leg was marked strictly between stop and first target by
      every tick of its first day, and not under the fill once it was late. */
  lemma UntouchedMeaning(s: VirtualTrade, ticks: seq<Tick>, i: nat)
    requires Accounted(s) && s.legs == [] && TickByTick(s, ticks).legs == []
    requires i < |ticks| && ticks[i].at <= s.openedAt + 86400
    ensures s.stop < ticks[i].price < s.tp1 && (s.timeStopAt <= ticks[i].at ==> s.fill <= ticks[i].price)
  {
    hide TickByTick;
    NoLegsIff(s, ticks);
    assert !Marks(s, ticks[i]);
  }
}

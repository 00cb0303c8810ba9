/** Where the plan search of the replay first sees a validated retest. */
module ReplayRetest {
  import opened Prelude
  import opened Domain
  import opened Bars
  import opened Intraday
  import opened IntradayStability
  import opened IntradayRows
  import opened VirtualTrades
  import opened ReplayEngine
  import opened ReplaySafety

  /** One-minute bars, stamped on the minute. */
  ghost predicate MinuteBars(bars: seq<ReplayBar>) {
    Increasing(bars) && forall b :: b in bars ==> b.bar.t % 60 == 0
  }

  function BarsOf(bars: seq<ReplayBar>): seq<Bar> {
    seq(|bars|, i requires 0 <= i < |bars| => bars[i].bar)
  }

  /** Such bars are their own merge. */
  lemma MergedMinuteBars(bars: seq<ReplayBar>)
    requires MinuteBars(bars)
    ensures Merged(RowsOf(bars)) == BarsOf(bars)
  {
    hide Merged;
    var plain, rows := BarsOf(bars), RowsOf(bars);
    forall i | 0 <= i < |plain| ensures plain[i].t % 60 == 0 {
      assert bars[i] in bars;
    }
    forall b ensures Dated(b) in rows <==> b in plain {
      if Dated(b) in rows {
        var i :| 0 <= i < |rows| && rows[i] == Dated(b);
        assert plain[i] == b;
      }
      if b in plain {
        var i :| 0 <= i < |plain| && plain[i] == b;
        assert rows[i] == Dated(b);
      }
    }
    MergedMinutes(rows, plain);
  }

  lemma StructureOnBars(e: Engine, prefix: seq<ReplayBar>)
    requires prefix != [] && MinuteBars(prefix) && Within(e.session, prefix)
    ensures StructureOn(e, prefix)
            == ComputeOrdered(e.rules, e.session, BarsOf(prefix), Some(prefix[|prefix| - 1].bar.t + 60))
  {
    hide Merged, ComputeOrdered, MinuteBars;
    MergedMinuteBars(prefix);
    forall b | b in BarsOf(prefix) ensures e.session.Covers(b.t) {
      var i :| 0 <= i < |prefix| && BarsOf(prefix)[i] == b;
      assert prefix[i] in prefix;
    }
    AllInSession(e.session, BarsOf(prefix));
  }

  /** Bars inside the opening range never move the state. */
  lemma {:induction false} WalkInOpening(rules: Rules, session: Session, init: Structure, bars: seq<Bar>)
    requires forall b :: b in bars ==> b.t < session.start + 60 * rules.openingMinutes
    ensures var r := Walk(rules, session, init, bars); r.Ok? ==> r.value.state == init.state
    decreases |bars|
  {
    hide ApplyVwap, InvalidationReason;
    if bars != [] {
      var before, last := bars[..|bars| - 1], bars[|bars| - 1];
      assert last in bars;
      WalkInOpening(rules, session, init, before);
      var r := Walk(rules, session, init, before);
      if r.Ok? {
        SameRange(r.value, last);
      }
    }
  }

  /** A structure that is RETEST_VALID ends with a bar after the opening range, and
      its opening range was complete before that bar. */
  lemma RetestNeedsRange(rules: Rules, session: Session, before: seq<Bar>, b: Bar, confirmed: Option<int>)
    requires rules.Valid() && b.t % 60 == 0 && session.start % 60 == 0
    requires forall c :: c in before ==> c.t < b.t
    requires var r := ComputeOrdered(rules, session, before + [b], confirmed); r.Ok? && r.value.state == RetestValid
    ensures AfterOpening(rules, session, [b]) && FullRange(rules, session, before)
  {
    hide Walk, Opening, Waiting;
    var all := before + [b];
    WaitingIsNotRetest(rules, session, all, confirmed);
    assert FullRange(rules, session, all);
    ComputeIsWalk(rules, session, all, confirmed);
    if b.t < session.start + 60 * rules.openingMinutes {
      WalkInOpening(rules, session, Established(rules, session, all), all);
      assert false;
    }
    OpeningExtends(rules, session, before, [b]);
  }

  lemma WaitingIsNotRetest(rules: Rules, session: Session, ordered: seq<Bar>, confirmed: Option<int>)
    requires rules.Valid()
    requires var r := ComputeOrdered(rules, session, ordered, confirmed); r.Ok? && r.value.state == RetestValid
    ensures FullRange(rules, session, ordered)
  {
    hide Walk, Opening;
    var opening := Opening(rules, session, ordered);
    var (high, low) := RangeOf(opening);
    WaitingState(rules, session, NEW.(openingBarsSeen := |opening|, orh := high, orl := low), ordered, opening,
                 confirmed);
    if opening != [] {
      RangeIsSome(opening);
    }
  }

  lemma WaitingState(rules: Rules, session: Session, s: Structure, ordered: seq<Bar>, opening: seq<Bar>,
                     confirmed: Option<int>)
    ensures var r := Waiting(rules, session, s, ordered, opening, confirmed);
            r.Ok? ==> r.value.state in {BuildingOr, InvalidState}
  {
    VwapKeepsState(s.(state := BuildingOr, reasons := ["OPENING_RANGE_WAITING_FOR_SIP"]), ordered);
    VwapKeepsState(s.(state := InvalidState, reasons := ["OPENING_RANGE_CONFIRMED_EMPTY"]), ordered);
  }

  lemma {:induction false} VwapKeepsState(s: Structure, bars: seq<Bar>)
    ensures VwapOver(s, bars).state == s.state
    decreases |bars|
  {
    hide ApplyVwap;
    if bars != [] {
      VwapKeepsState(s, bars[..|bars| - 1]);
      SameRange(VwapOver(s, bars[..|bars| - 1]), bars[|bars| - 1]);
    }
  }

  /** On minute bars of the session, the first prefix at which the search sees
      RETEST_VALID ends exactly at the bar recorded as the retest. */
  lemma SearchStopsAtRetest(e: Engine, bars: seq<ReplayBar>, n: nat)
    requires e.rules.Valid() && e.session.Valid() && MinuteBars(bars) && Within(e.session, bars) && n < |bars|
    requires n > 0 ==> StructureOn(e, bars[..n]).Ok? && StructureOn(e, bars[..n]).value.state != RetestValid
    requires StructureOn(e, bars[..n + 1]).Ok? && StructureOn(e, bars[..n + 1]).value.state == RetestValid
    ensures StructureOn(e, bars[..n + 1]).value.retestAt == Some(bars[n].bar.t)
  {
    hide ComputeOrdered, StructureOn;
    var prefix, longer := bars[..n], bars[..n + 1];
    assert bars[n] in bars && longer[|longer| - 1] == bars[n];
    assert BarsOf(longer) == BarsOf(prefix) + [bars[n].bar];
    StructureOnBars(e, longer);
    RetestNeedsRange(e.rules, e.session, BarsOf(prefix), bars[n].bar, Some(bars[n].bar.t + 60));
    if n == 0 {
      EmptyRange(e.rules, e.session);
    } else {
      StructureOnBars(e, prefix);
      FirstRetestIsLastBar(e.rules, e.session, BarsOf(prefix), bars[n].bar,
                           Some(prefix[n - 1].bar.t + 60), Some(bars[n].bar.t + 60));
    }
  }

  lemma EmptyRange(rules: Rules, session: Session)
    ensures !FullRange(rules, session, [])
  {
  }
}

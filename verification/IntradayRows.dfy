/** The structure machine on raw rows: what is proved of merged bars, stated for
    rows of any feeds in any order. */
module IntradayRows {
  import opened Prelude
  import opened Domain
  import opened Tables
  import opened Bars
  import opened Intraday
  import opened IntradayStability
  import opened IntradayRefinement
  import opened IntradaySoundness

  /** Bars on the minute, in strict order. */
  ghost predicate OnMinutes(bars: seq<Bar>) {
    && (forall i :: 0 <= i < |bars| ==> bars[i].t % 60 == 0)
    && (forall i, j :: 0 <= i < j < |bars| ==> bars[i].t < bars[j].t)
  }

  /** The rows hold these bars, in any order and any number of times. */
  ghost predicate Carries(rows: seq<Row>, bars: seq<Bar>) {
    forall b :: Dated(b) in rows <==> b in bars
  }

  lemma MinuteIsStamp(bars: seq<Bar>, i: nat)
    requires OnMinutes(bars) && i < |bars|
    ensures Minute(bars[i]) == bars[i].t
  {
  }

  lemma KeptBar(rows: seq<Row>, bars: seq<Bar>, i: nat)
    requires OnMinutes(bars) && Carries(rows, bars) && i < |bars|
    ensures Minute(bars[i]) in Merge(rows) && Merge(rows)[Minute(bars[i])] == bars[i]
  {
    hide Merge, Minute, Better;
    MergeKeepsBest(rows, Minute(bars[i]));
    assert bars[i] in bars;
    var b := Merge(rows)[Minute(bars[i])];
    var j :| 0 <= j < |bars| && bars[j] == b;
    MinuteIsStamp(bars, i);
    MinuteIsStamp(bars, j);
  }

  lemma ListedMinute(rows: seq<Row>, bars: seq<Bar>, m: int)
    requires Carries(rows, bars) && m in Merge(rows)
    ensures m in Minutes(bars)
  {
    hide Merge, Minute, Better;
    MergeKeepsBest(rows, m);
    var b :| Dated(b) in rows && Minute(b) == m;
    var j :| 0 <= j < |bars| && bars[j] == b;
    assert Minutes(bars)[j] == m;
  }

  /** The bar kept for a minute is of the consolidated feed if the minute has one, else of
      the single exchange if it has one; of several such bars it is the last in the order
      of their texts. */
  lemma KeptFeed(rows: seq<Row>, minute: int)
    requires minute in Merge(rows)
    ensures var kept := Merge(rows)[minute];
            && kept.t - kept.t % 60 == minute && Dated(kept) in rows
            && forall b :: Dated(b) in rows && b.t - b.t % 60 == minute ==>
                 && (Occurs(b.source, "SIP") ==> Occurs(kept.source, "SIP"))
                 && (Occurs(b.source, "IEX") ==> Occurs(kept.source, "SIP") || Occurs(kept.source, "IEX"))
                 && (SameFeed(b, kept) ==> b.canonical <= kept.canonical)
  {
    hide Merge, Occurs;
    MergeKeepsBest(rows, minute);
    var kept := Merge(rows)[minute];
    RankMeaning(kept.source);
    forall b | Dated(b) in rows && b.t - b.t % 60 == minute
      ensures (Occurs(b.source, "SIP") ==> Occurs(kept.source, "SIP"))
              && (Occurs(b.source, "IEX") ==> Occurs(kept.source, "SIP") || Occurs(kept.source, "IEX"))
              && (SameFeed(b, kept) ==> b.canonical <= kept.canonical)
    {
      RankMeaning(b.source);
      assert !Better(b, kept);
    }
  }

  ghost predicate SameFeed(a: Bar, b: Bar) {
    (Occurs(a.source, "SIP") <==> Occurs(b.source, "SIP")) && (Occurs(a.source, "IEX") <==> Occurs(b.source, "IEX"))
  }

  lemma RankMeaning(source: string)
    ensures SourceRank(source) == 2 <==> Occurs(source, "SIP")
    ensures SourceRank(source) == 1 <==> Occurs(source, "IEX") && !Occurs(source, "SIP")
  {
    ContainsIsOccurs(source, "SIP");
    ContainsIsOccurs(source, "IEX");
    hide Contains, Occurs;
  }

  /** Minute bars are their own merge. */
  lemma MergedMinutes(rows: seq<Row>, bars: seq<Bar>)
    requires OnMinutes(bars) && Carries(rows, bars)
    ensures Merged(rows) == bars
  {
    hide Merge, Minute, Merged, Carries;
    forall i | 0 <= i < |bars|
      ensures Minute(bars[i]) == bars[i].t && Minute(bars[i]) in Merge(rows) && Merge(rows)[Minute(bars[i])] == bars[i]
    {
      MinuteIsStamp(bars, i);
      KeptBar(rows, bars, i);
    }
    forall m ensures m in Merge(rows) <==> m in Minutes(bars) {
      if m in Merge(rows) {
        ListedMinute(rows, bars, m);
      }
    }
    assert Ascending(Minutes(bars));
    MinuteOrderUnique(bars, Merged(rows), Merge(rows));
  }

  lemma {:induction false} AllInSession(session: Session, bars: seq<Bar>)
    requires forall b :: b in bars ==> session.Covers(b.t)
    ensures InSession(session, bars) == bars
    decreases |bars|
  {
    if bars != [] {
      assert bars[|bars| - 1] in bars;
      AllInSession(session, bars[..|bars| - 1]);
    }
  }

  /** Batch refines online, from raw rows: folding the online update over the bars of
      a regular session gives what the batch computes from the same bars handed over
      in any order and with any repetition. */
  lemma BatchFromRowsRefinesOnline(rules: Rules, session: Session, rows: seq<Row>, bars: seq<Bar>, e: Structure,
                                   confirmed: Option<int>)
    requires Proper(rules, session, bars, e) && Carries(rows, bars)
    ensures var on, batch := Online(rules, session, bars), Compute(rules, session, rows, confirmed);
            && on.Ok? && batch.Ok? && SameDecision(on.value, batch.value)
            && (batch.value.state != InvalidState ==> on == batch)
            && (|bars| > rules.openingMinutes && Live(rules, session, e, bars[..|bars| - 1]) ==> on == batch)
  {
    hide Walk, Online, Merged, ComputeOrdered, FullRange, Established, Live, SameDecision;
    forall i | 0 <= i < |bars| ensures bars[i].t % 60 == 0 && session.Covers(bars[i].t) {
      assert WellFormed(session, bars[i]);
    }
    MergedMinutes(rows, bars);
    AllInSession(session, bars);
    BatchRefinesOnline(rules, session, bars, e, confirmed);
  }

  /* ---- what RETEST_VALID means ---- */

  ghost predicate Rising(bars: seq<Bar>) {
    forall i, j :: 0 <= i < j < |bars| ==> bars[i].t < bars[j].t
  }

  lemma LaterMinute(a: Bar, b: Bar)
    requires Minute(a) < Minute(b)
    ensures a.t < b.t
  {
  }

  lemma MergedRises(rows: seq<Row>)
    ensures Rising(Merged(rows))
  {
    hide Merged, Merge, Minute;
    var bars := Merged(rows);
    forall i, j | 0 <= i < j < |bars| ensures bars[i].t < bars[j].t {
      assert Minutes(bars)[i] < Minutes(bars)[j];
      LaterMinute(bars[i], bars[j]);
    }
  }

  lemma RisingAppend(bars: seq<Bar>, last: Bar)
    requires Rising(bars) && forall b :: b in bars ==> b.t < last.t
    ensures Rising(bars + [last])
  {
    forall i, j | 0 <= i < j < |bars + [last]| ensures (bars + [last])[i].t < (bars + [last])[j].t {
      assert bars[i] in bars;
    }
  }

  lemma {:induction false} SessionRises(session: Session, bars: seq<Bar>)
    requires Rising(bars)
    ensures Rising(InSession(session, bars))
    decreases |bars|
  {
    if bars != [] {
      var before, last := bars[..|bars| - 1], bars[|bars| - 1];
      SessionRises(session, before);
      InSessionFrom(session, before);
      forall b | b in InSession(session, before) ensures b.t < last.t {
        var i :| 0 <= i < |before| && before[i] == b;
      }
      RisingAppend(InSession(session, before), last);
      assert InSession(session, before) + [] == InSession(session, before);
    }
  }

  /** The session's tape as the batch reads it from raw rows. */
  ghost function TapeOf(rules: Rules, session: Session, rows: seq<Row>): Tape
    requires RangeReadable(Opening(rules, session, InSession(session, Merged(rows))))
  {
    var ordered := InSession(session, Merged(rows));
    Tape(rules, session, Established(rules, session, ordered), ordered)
  }

  /** For rows of any feeds in any order: while the structure is not invalid it is
      RETEST_VALID exactly when some breakout was retested inside its window, it then
      records such a pair, and no low went under the floors. */
  lemma RetestValidFromRows(rules: Rules, session: Session, rows: seq<Row>, confirmed: Option<int>)
    requires rules.Valid() && FullRange(rules, session, InSession(session, Merged(rows)))
    requires Compute(rules, session, rows, confirmed).Ok?
    requires Compute(rules, session, rows, confirmed).value.state != InvalidState
    ensures var s, t := Compute(rules, session, rows, confirmed).value, TapeOf(rules, session, rows);
            && t.Valid()
            && (s.state == RetestValid <==> exists i: nat, j: nat :: t.Retest(i, j))
            && (s.state == RetestValid ==> exists i: nat, j: nat :: RecordedRetest(t, |t.bars|, s, i, j))
            && Floored(t, |t.bars|)
  {
    hide Merged, InSession, Walk, ComputeOrdered, Floored, RecordedRetest, Tape.Retest;
    var ordered := InSession(session, Merged(rows));
    MergedRises(rows);
    SessionRises(session, Merged(rows));
    ComputeIsWalk(rules, session, ordered, confirmed);
    var t := TapeOf(rules, session, rows);
    assert ordered[..|ordered|] == ordered;
    RetestValidMeaning(t);
  }
}

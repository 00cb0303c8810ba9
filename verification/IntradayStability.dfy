/** The batch structure depends on the set of bars only, and later bars never
    rewrite what it has decided. */
module IntradayStability {
  import opened Prelude
  import opened Domain
  import opened Tables
  import opened Bars
  import opened Intraday

  /** The structure is unchanged by permuting or repeating the rows. */
  lemma StructureDependsOnSet(rules: Rules, session: Session, xs: seq<Row>, ys: seq<Row>, confirmed: Option<int>)
    requires Canonical(xs) && forall b :: Dated(b) in xs <==> Dated(b) in ys
    ensures Compute(rules, session, xs, confirmed) == Compute(rules, session, ys, confirmed)
  {
    MergeDependsOnSet(xs, ys);
    MinuteOrderUnique(Merged(xs), Merged(ys), Merge(xs));
  }

  /** Where SIP has the minute, adding bars of other feeds changes nothing. */
  lemma OutrankedRowsAreIgnored(rules: Rules, session: Session, rows: seq<Row>, extra: seq<Row>, confirmed: Option<int>)
    requires Canonical(rows) && forall b :: Dated(b) in extra ==> Outranked(rows, b)
    ensures Compute(rules, session, rows + extra, confirmed) == Compute(rules, session, rows, confirmed)
  {
    OutrankedBarsAreIgnored(rows, extra);
    MinuteOrderUnique(Merged(rows), Merged(rows + extra), Merge(rows));
  }

  /* ---- appending later bars ---- */

  ghost predicate FullRange(rules: Rules, session: Session, ordered: seq<Bar>) {
    && RangeReadable(Opening(rules, session, ordered))
    && |Opening(rules, session, ordered)| >= rules.openingMinutes > 0
  }

  ghost predicate AfterOpening(rules: Rules, session: Session, more: seq<Bar>) {
    forall i :: 0 <= i < |more| ==> Minute(more[i]) >= session.start + 60 * rules.openingMinutes
  }

  lemma {:induction false} OpeningExtends(rules: Rules, session: Session, ordered: seq<Bar>, more: seq<Bar>)
    requires AfterOpening(rules, session, more)
    ensures Opening(rules, session, ordered + more) == Opening(rules, session, ordered)
    decreases |more|
  {
    if more == [] {
      assert ordered + more == ordered;
    } else {
      OpeningExtends(rules, session, ordered, more[..|more| - 1]);
      assert (ordered + more)[..|ordered + more| - 1] == ordered + more[..|more| - 1];
    }
  }

  /** The structure the walk starts from. */
  function Established(rules: Rules, session: Session, ordered: seq<Bar>): Structure
    requires RangeReadable(Opening(rules, session, ordered))
  {
    var opening := Opening(rules, session, ordered);
    var (high, low) := RangeOf(opening);
    NEW.(openingBarsSeen := |opening|, orh := high, orl := low, state := ArmedState,
         reasons := ["OPENING_RANGE_ESTABLISHED"])
  }

  lemma RangeIsSome(opening: seq<Bar>)
    requires RangeReadable(opening) && opening != []
    ensures RangeOf(opening).0.Some? && RangeOf(opening).1.Some?
  {
  }

  lemma ComputeIsWalk(rules: Rules, session: Session, ordered: seq<Bar>, confirmed: Option<int>)
    requires FullRange(rules, session, ordered)
    ensures var s := Established(rules, session, ordered);
            && s.orh.Some? && s.orl.Some?
            && ComputeOrdered(rules, session, ordered, confirmed)
               == if s.orh.value - s.orl.value <= 0.0
                 then Ok(s.(state := InvalidState, reasons := ["OPENING_RANGE_INVALID"]))
                  else Walk(rules, session, s, ordered)
  {
    RangeIsSome(Opening(rules, session, ordered));
  }

  /** A validated retest can only stay or be invalidated, at its recorded times. */
  ghost predicate RetestKept(s: Structure, r: Result<Structure>) {
    r.Ok? ==>
      && r.value.state in {RetestValid, InvalidState}
      && r.value.retestAt == s.retestAt && r.value.breakoutAt == s.breakoutAt
  }

  lemma {:induction false} WalkKeepsRetest(rules: Rules, session: Session, init: Structure, bars: seq<Bar>,
                                           more: seq<Bar>)
    requires Walk(rules, session, init, bars).Ok? && Walk(rules, session, init, bars).value.state == RetestValid
    ensures RetestKept(Walk(rules, session, init, bars).value, Walk(rules, session, init, bars + more))
    decreases |more|
  {
    if more == [] {
      assert bars + more == bars;
    } else {
      WalkKeepsRetest(rules, session, init, bars, more[..|more| - 1]);
      assert (bars + more)[..|bars + more| - 1] == bars + more[..|more| - 1];
    }
  }

  /** Once the opening range is complete, later bars leave an invalid structure
      untouched and take a validated retest only to itself or to INVALID. */
  lemma LaterBarsKeepDecision(rules: Rules, session: Session, ordered: seq<Bar>, more: seq<Bar>, before: Option<int>,
                              after: Option<int>)
    requires FullRange(rules, session, ordered) && AfterOpening(rules, session, more)
    ensures var r := ComputeOrdered(rules, session, ordered, before);
            var r' := ComputeOrdered(rules, session, ordered + more, after);
            && (r.Raised? || r.value.state == InvalidState ==> r' == r)
            && (r.Ok? && r.value.state == RetestValid ==> RetestKept(r.value, r'))
  {
    OpeningExtends(rules, session, ordered, more);
    ComputeIsWalk(rules, session, ordered, before);
    ComputeIsWalk(rules, session, ordered + more, after);
    var s := Established(rules, session, ordered);
    var w := Walk(rules, session, s, ordered);
    if w.Raised? || w.value.state == InvalidState {
      WalkStops(rules, session, s, ordered, more);
    } else if w.value.state == RetestValid {
      WalkKeepsRetest(rules, session, s, ordered, more);
    }
  }

  /** The first prefix that is RETEST_VALID ends exactly at its retest bar. */
  lemma FirstRetestIsLastBar(rules: Rules, session: Session, before: seq<Bar>, b: Bar, c1: Option<int>, c2: Option<int>)
    requires FullRange(rules, session, before) && AfterOpening(rules, session, [b])
    requires ComputeOrdered(rules, session, before, c1).Ok?
             && ComputeOrdered(rules, session, before, c1).value.state != RetestValid
    requires ComputeOrdered(rules, session, before + [b], c2).Ok?
             && ComputeOrdered(rules, session, before + [b], c2).value.state == RetestValid
    ensures ComputeOrdered(rules, session, before + [b], c2).value.retestAt == Some(b.t)
  {
    OpeningExtends(rules, session, before, [b]);
    ComputeIsWalk(rules, session, before, c1);
    ComputeIsWalk(rules, session, before + [b], c2);
    assert (before + [b])[..|before + [b]| - 1] == before;
  }

  lemma AscendingConcat(a: seq<int>, b: seq<int>)
    requires Ascending(a) && Ascending(b) && forall i, j :: 0 <= i < |a| && 0 <= j < |b| ==> a[i] < b[j]
    ensures Ascending(a + b)
  {
  }

  lemma MergedMinutesLater(xs: seq<Row>, ys: seq<Row>, ms: seq<Bar>, ns: seq<Bar>, i: nat, j: nat)
    requires InMinuteOrder(ms, Merge(xs)) && InMinuteOrder(ns, Merge(ys)) && i < |ms| && j < |ns|
    requires forall a, b :: Dated(a) in xs && Dated(b) in ys ==> Minute(a) < Minute(b)
    ensures Minute(ms[i]) < Minute(ns[j])
  {
    MergeKeepsBest(xs, Minute(ms[i]));
    MergeKeepsBest(ys, Minute(ns[j]));
  }

  /** Rows of later minutes only lengthen the merged sequence. */
  lemma LaterRowsAppend(xs: seq<Row>, ys: seq<Row>)
    requires forall a, b :: Dated(a) in xs && Dated(b) in ys ==> Minute(a) < Minute(b)
    ensures Merged(xs + ys) == Merged(xs) + Merged(ys)
  {
    hide Merge, Merged;
    var ms, ns := Merged(xs), Merged(ys);
    assert Minutes(ms + ns) == Minutes(ms) + Minutes(ns);
    forall i, j | 0 <= i < |ms| && 0 <= j < |ns| ensures Minutes(ms)[i] < Minutes(ns)[j] {
      MergedMinutesLater(xs, ys, ms, ns, i, j);
    }
    AscendingConcat(Minutes(ms), Minutes(ns));
    forall m ensures m in Minutes(ms + ns) <==> m in Merge(xs + ys) {
      MergeSplits(xs, ys, m);
      assert m in Minutes(ms + ns) <==> m in Minutes(ms) || m in Minutes(ns);
    }
    forall i | 0 <= i < |ms + ns|
      ensures Minute((ms + ns)[i]) in Merge(xs + ys) && (ms + ns)[i] == Merge(xs + ys)[Minute((ms + ns)[i])]
    {
      AppendedRow(xs, ys, ms, ns, i);
    }
    MinuteOrderUnique(ms + ns, Merged(xs + ys), Merge(xs + ys));
  }

  lemma AppendedRow(xs: seq<Row>, ys: seq<Row>, ms: seq<Bar>, ns: seq<Bar>, i: nat)
    requires InMinuteOrder(ms, Merge(xs)) && InMinuteOrder(ns, Merge(ys)) && i < |ms + ns|
    requires forall a, b :: Dated(a) in xs && Dated(b) in ys ==> Minute(a) < Minute(b)
    ensures Minute((ms + ns)[i]) in Merge(xs + ys) && (ms + ns)[i] == Merge(xs + ys)[Minute((ms + ns)[i])]
  {
    hide Merge, Minutes, Ascending;
    MergeSplits(xs, ys, Minute((ms + ns)[i]));
    if i < |ms| {
      assert (ms + ns)[i] == ms[i];
    } else {
      assert (ms + ns)[i] == ns[i - |ms|];
    }
  }

  lemma {:induction false} MergeSplits(xs: seq<Row>, ys: seq<Row>, m: int)
    requires forall a, b :: Dated(a) in xs && Dated(b) in ys ==> Minute(a) < Minute(b)
    ensures m in Merge(xs + ys) <==> m in Merge(xs) || m in Merge(ys)
    ensures !(m in Merge(xs) && m in Merge(ys))
    ensures m in Merge(xs + ys) ==> Merge(xs + ys)[m] == if m in Merge(ys) then Merge(ys)[m] else Merge(xs)[m]
    decreases |ys|
  {
    MergeKeepsBest(xs, m);
    MergeKeepsBest(ys, m);
    if ys == [] {
      assert xs + ys == xs;
    } else {
      var before, last := ys[..|ys| - 1], ys[|ys| - 1];
      assert forall r :: r in before ==> r in ys;
      assert (xs + ys)[..|xs + ys| - 1] == xs + before;
      MergeSplits(xs, before, m);
      if last.Dated? {
        assert last in ys;
        MergeKeepsBest(xs, Minute(last.bar));
        MergeSplits(xs, before, Minute(last.bar));
      }
    }
  }

  lemma {:induction false} InSessionConcat(session: Session, xs: seq<Bar>, ys: seq<Bar>)
    ensures InSession(session, xs + ys) == InSession(session, xs) + InSession(session, ys)
    decreases |ys|
  {
    if ys == [] {
      assert xs + ys == xs;
    } else {
      assert (xs + ys)[..|xs + ys| - 1] == xs + ys[..|ys| - 1];
      InSessionConcat(session, xs, ys[..|ys| - 1]);
    }
  }

  lemma {:induction false} InSessionFrom(session: Session, bars: seq<Bar>)
    ensures forall b :: b in InSession(session, bars) ==> b in bars
    decreases |bars|
  {
    if bars != [] {
      InSessionFrom(session, bars[..|bars| - 1]);
    }
  }

  /** On raw rows of any feeds: once the opening range is complete, rows of later
      minutes leave an invalid structure untouched and keep a validated retest. */
  lemma LaterRowsKeepDecision(rules: Rules, session: Session, xs: seq<Row>, ys: seq<Row>, before: Option<int>,
                              after: Option<int>)
    requires FullRange(rules, session, InSession(session, Merged(xs)))
    requires forall a, b :: Dated(a) in xs && Dated(b) in ys ==> Minute(a) < Minute(b)
    requires forall b :: Dated(b) in ys ==> Minute(b) >= session.start + 60 * rules.openingMinutes
    ensures var r := Compute(rules, session, xs, before);
            var r' := Compute(rules, session, xs + ys, after);
            && (r.Raised? || r.value.state == InvalidState ==> r' == r)
            && (r.Ok? && r.value.state == RetestValid ==> RetestKept(r.value, r'))
  {
    hide Merge, Merged, InSession, ComputeOrdered;
    var ordered, more := InSession(session, Merged(xs)), InSession(session, Merged(ys));
    LaterRowsAppend(xs, ys);
    InSessionConcat(session, Merged(xs), Merged(ys));
    forall i | 0 <= i < |more| ensures Minute(more[i]) >= session.start + 60 * rules.openingMinutes {
      InSessionFrom(session, Merged(ys));
      assert more[i] in Merged(ys);
      MergedFromRows(ys, more[i]);
    }
    LaterBarsKeepDecision(rules, session, ordered, more, before, after);
  }

  lemma MergedFromRows(rows: seq<Row>, b: Bar)
    requires b in Merged(rows)
    ensures Dated(b) in rows
  {
    var i :| 0 <= i < |Merged(rows)| && Merged(rows)[i] == b;
    MergeKeepsBest(rows, Minute(b));
  }
}

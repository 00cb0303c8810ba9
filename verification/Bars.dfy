/** Merging minute bars of several feeds (`engines/intraday.py`, `_merged_bars`). */
module Bars {
  import opened Prelude
  import opened Domain
  import opened Tables

  /** A bar with its UTC timestamp in seconds. `canonical` is the place of its
      canonical JSON text in string order. */
  datatype Bar = Bar(
    t: int,
    high: Option<real>,
    low: Option<real>,
    close: Option<real>,
    volume: Option<real>,
    vwap: Option<real>,
    source: string,
    canonical: int)

  /** A raw row; one without a readable timestamp is skipped. */
  datatype Row = Dated(bar: Bar) | Undated

  function MinuteOf(t: int): int {
    t - t % 60
  }

  function Minute(b: Bar): int {
    MinuteOf(b.t)
  }

  function SourceRank(source: string): nat {
    if Contains(source, "SIP") then 2 else if Contains(source, "IEX") then 1 else 0
  }

  /** `candidate[:2] > existing[:2]`. */
  predicate Better(candidate: Bar, existing: Bar) {
    || SourceRank(candidate.source) > SourceRank(existing.source)
    || (SourceRank(candidate.source) == SourceRank(existing.source) && candidate.canonical > existing.canonical)
  }

  function MergeRow(selected: map<int, Bar>, row: Row): map<int, Bar> {
    if row.Undated? then selected
    else if Minute(row.bar) !in selected || Better(row.bar, selected[Minute(row.bar)])
      then selected[Minute(row.bar) := row.bar]
    else selected
  }

  /** The bar kept for each minute after reading the rows in order. */
  function Merge(rows: seq<Row>): map<int, Bar>
    decreases |rows|
  {
    if rows == [] then map[] else MergeRow(Merge(rows[..|rows| - 1]), rows[|rows| - 1])
  }

  /** Distinct bars have distinct canonical texts. */
  ghost predicate Canonical(rows: seq<Row>) {
    forall a, b :: Dated(a) in rows && Dated(b) in rows && a.canonical == b.canonical ==> a == b
  }

  /** The kept bar is one of the rows, and no row of its minute is better. */
  ghost predicate BestOf(rows: seq<Row>, minute: int, b: Bar) {
    && Dated(b) in rows && Minute(b) == minute
    && forall c :: Dated(c) in rows && Minute(c) == minute ==> !Better(c, b)
  }

  lemma {:induction false} MergeKeepsBest(rows: seq<Row>, minute: int)
    ensures minute in Merge(rows) <==> exists b :: Dated(b) in rows && Minute(b) == minute
    ensures minute in Merge(rows) ==> BestOf(rows, minute, Merge(rows)[minute])
    decreases |rows|
  {
    if rows != [] {
      var before, last := rows[..|rows| - 1], rows[|rows| - 1];
      MergeKeepsBest(before, minute);
      assert forall r :: r in rows <==> r in before || r == last;
      if minute in Merge(before) {
        assert BestOf(before, minute, Merge(before)[minute]);
      }
    }
  }

  lemma BestIsUnique(rows: seq<Row>, minute: int, a: Bar, b: Bar)
    requires Canonical(rows) && BestOf(rows, minute, a) && BestOf(rows, minute, b)
    ensures a == b
  {
    assert !Better(a, b) && !Better(b, a);
  }

  /** What is merged depends on which bars there are, not on their order or on
      how often each is repeated. */
  lemma MergeDependsOnSet(xs: seq<Row>, ys: seq<Row>)
    requires Canonical(xs) && forall b :: Dated(b) in xs <==> Dated(b) in ys
    ensures Merge(xs) == Merge(ys)
  {
    forall minute ensures minute in Merge(xs) <==> minute in Merge(ys) {
      MergeKeepsBest(xs, minute);
      MergeKeepsBest(ys, minute);
    }
    forall minute | minute in Merge(xs) ensures Merge(xs)[minute] == Merge(ys)[minute] {
      MergeKeepsBest(xs, minute);
      MergeKeepsBest(ys, minute);
      BestIsUnique(xs, minute, Merge(xs)[minute], Merge(ys)[minute]);
    }
  }

  /** A row outranked within its own minute. */
  ghost predicate Outranked(rows: seq<Row>, b: Bar) {
    exists c :: Dated(c) in rows && Minute(c) == Minute(b) && SourceRank(c.source) > SourceRank(b.source)
  }

  /** Where a better-ranked feed has the minute, bars of lower-ranked feeds change nothing. */
  lemma OutrankedBarsAreIgnored(rows: seq<Row>, extra: seq<Row>)
    requires Canonical(rows) && forall b :: Dated(b) in extra ==> Outranked(rows, b)
    ensures Merge(rows + extra) == Merge(rows)
  {
    var all := rows + extra;
    forall minute ensures minute in Merge(all) <==> minute in Merge(rows) {
      MergeKeepsBest(all, minute);
      MergeKeepsBest(rows, minute);
      if minute in Merge(all) {
        var b := Merge(all)[minute];
        assert Dated(b) in rows || Dated(b) in extra;
      }
    }
    forall minute | minute in Merge(rows) ensures Merge(all)[minute] == Merge(rows)[minute] {
      MergeKeepsBest(all, minute);
      MergeKeepsBest(rows, minute);
      var b := Merge(all)[minute];
      if Dated(b) !in rows {
        assert Dated(b) in extra;
        var c :| Dated(c) in rows && Minute(c) == Minute(b) && SourceRank(c.source) > SourceRank(b.source);
        assert Dated(c) in all && Better(c, b);
        assert false;
      }
      BestSurvives(rows, extra, minute, b);
      BestIsUnique(rows, minute, b, Merge(rows)[minute]);
    }
  }

  lemma BestSurvives(rows: seq<Row>, extra: seq<Row>, minute: int, b: Bar)
    requires BestOf(rows + extra, minute, b) && Dated(b) in rows
    ensures BestOf(rows, minute, b)
  {
    forall c | Dated(c) in rows && Minute(c) == minute ensures !Better(c, b) {
      assert Dated(c) in rows + extra;
    }
  }

  /** `[selected[minute] for minute in sorted(selected)]`, as a relation. */
  ghost predicate InMinuteOrder(bars: seq<Bar>, selected: map<int, Bar>) {
    && Ascending(Minutes(bars))
    && (forall m :: m in Minutes(bars) <==> m in selected)
    && forall i :: 0 <= i < |bars| ==> Minute(bars[i]) in selected && bars[i] == selected[Minute(bars[i])]
  }

  ghost function Minutes(bars: seq<Bar>): seq<int> {
    seq(|bars|, i requires 0 <= i < |bars| => Minute(bars[i]))
  }

  lemma MinuteOrderUnique(xs: seq<Bar>, ys: seq<Bar>, selected: map<int, Bar>)
    requires InMinuteOrder(xs, selected) && InMinuteOrder(ys, selected)
    ensures xs == ys
  {
    AscendingUnique(Minutes(xs), Minutes(ys));
    forall i | 0 <= i < |xs| ensures xs[i] == ys[i] {
      assert Minutes(xs)[i] == Minutes(ys)[i];
    }
  }

  ghost function Greatest(s: set<int>): (g: int)
    requires s != {}
    ensures g in s && forall k :: k in s ==> k <= g
    decreases s
  {
    var k := Pick(s);
    if s == {k} then k
    else
      var g := Greatest(s - {k});
      assert forall j :: j in s ==> j == k || j in s - {k};
      if g > k then g else k
  }

  ghost function Listing(keys: set<int>): (ids: seq<int>)
    ensures Ascending(ids) && forall k :: k in ids <==> k in keys
    decreases keys
  {
    if keys == {} then []
    else
      var g := Greatest(keys);
      Listing(keys - {g}) + [g]
  }

  /** The merged bars of some rows, in minute order. */
  ghost function Merged(rows: seq<Row>): (bars: seq<Bar>)
    ensures InMinuteOrder(bars, Merge(rows))
  {
    var selected := Merge(rows);
    var ids := Listing(selected.Keys);
    assert forall i :: 0 <= i < |ids| ==> ids[i] in ids;
    var bars := seq(|ids|, i requires 0 <= i < |ids| => selected[ids[i]]);
    assert Minutes(bars) == ids by {
      forall m | m in selected ensures Minute(selected[m]) == m {
        MergeKeepsBest(rows, m);
      }
    }
    bars
  }

  /** `_merged_bars`: one pass keeping the best bar of each minute, then in minute order. */
  method MergedBars(rows: seq<Row>) returns (bars: seq<Bar>)
    ensures bars == Merged(rows)
  {
    var selected: map<int, Bar> := map[];
    for i := 0 to |rows|
      invariant selected == Merge(rows[..i])
    {
      assert rows[..i + 1][..i] == rows[..i];
      if rows[i].Dated? {
        var bar := rows[i].bar;
        var minute := Minute(bar);
        if minute !in selected || Better(bar, selected[minute]) {
          selected := selected[minute := bar];
        }
      }
    }
    assert rows[..|rows|] == rows;
    forall m | m in selected ensures Minute(selected[m]) == m {
      MergeKeepsBest(rows, m);
    }
    var keys := SortedKeys(selected.Keys);
    bars := [];
    for i := 0 to |keys|
      invariant |bars| == i
      invariant forall j :: 0 <= j < i ==> keys[j] in selected && bars[j] == selected[keys[j]]
    {
      assert keys[i] in keys;
      bars := bars + [selected[keys[i]]];
    }
    assert Minutes(bars) == keys;
    MinuteOrderUnique(bars, Merged(rows), selected);
  }
}

/** What a market verdict says of the feeds, without the sorting, grouping and middle
    positions by which it is computed. */
module Verdicts {
  import opened Prelude
  import opened Consensus

  /* ---- the middle of some values ---- */

  /** How many values lie strictly below a level, and strictly above. */
  function Below(values: seq<real>, x: real): (n: nat)
    ensures n <= |values|
    decreases |values|
  {
    if values == [] then 0
    else Below(values[..|values| - 1], x) + (if values[|values| - 1] < x then 1 else 0)
  }

  function Above(values: seq<real>, x: real): (n: nat)
    ensures n <= |values|
    decreases |values|
  {
    if values == [] then 0
    else Above(values[..|values| - 1], x) + (if values[|values| - 1] > x then 1 else 0)
  }

  /** The two middle values: of an odd number of values they are the same one. */
  ghost predicate LowerMiddle(values: seq<real>, a: real) {
    a in values && 2 * Below(values, a) <= |values| - 1 && 2 * Above(values, a) <= |values|
  }

  ghost predicate UpperMiddle(values: seq<real>, b: real) {
    b in values && 2 * Below(values, b) <= |values| && 2 * Above(values, b) <= |values| - 1
  }

  /** Half way between the two middle values. */
  ghost predicate Middle(values: seq<real>, m: real) {
    exists a, b :: LowerMiddle(values, a) && UpperMiddle(values, b) && m == (a + b) / 2.0
  }

  lemma CountAppend(values: seq<real>, y: real, x: real)
    ensures Below(values + [y], x) == Below(values, x) + (if y < x then 1 else 0)
    ensures Above(values + [y], x) == Above(values, x) + (if y > x then 1 else 0)
  {
    assert (values + [y])[..|values|] == values;
  }

  lemma {:induction false} InsertCounts(sorted: seq<real>, y: real, x: real)
    ensures Below(Insert(sorted, y), x) == Below(sorted, x) + (if y < x then 1 else 0)
    ensures Above(Insert(sorted, y), x) == Above(sorted, x) + (if y > x then 1 else 0)
    decreases |sorted|
  {
    hide Below, Above;
    if sorted == [] || sorted[|sorted| - 1] <= y {
      CountAppend(sorted, y, x);
    } else {
      var before, last := sorted[..|sorted| - 1], sorted[|sorted| - 1];
      InsertCounts(before, y, x);
      CountAppend(before, last, x);
      CountAppend(Insert(before, y), last, x);
      assert before + [last] == sorted;
    }
  }

  lemma {:induction false} SortCounts(values: seq<real>, x: real)
    ensures Below(Sort(values), x) == Below(values, x) && Above(Sort(values), x) == Above(values, x)
    decreases |values|
  {
    hide Below, Above;
    if values != [] {
      var before, last := values[..|values| - 1], values[|values| - 1];
      SortCounts(before, x);
      InsertCounts(Sort(before), last, x);
      CountAppend(before, last, x);
      assert before + [last] == values;
    }
  }

  lemma {:induction false} InsertPermutes(sorted: seq<real>, x: real)
    ensures multiset(Insert(sorted, x)) == multiset(sorted) + multiset{x}
    decreases |sorted|
  {
    if sorted != [] && sorted[|sorted| - 1] > x {
      var before, last := sorted[..|sorted| - 1], sorted[|sorted| - 1];
      InsertPermutes(before, x);
      assert sorted == before + [last];
    }
  }

  /** Sorting arranges the same values in order. */
  lemma {:induction false} SortMeaning(values: seq<real>)
    ensures multiset(Sort(values)) == multiset(values) && Sorted(Sort(values))
    decreases |values|
  {
    hide Insert;
    if values != [] {
      var before, last := values[..|values| - 1], values[|values| - 1];
      SortMeaning(before);
      InsertPermutes(Sort(before), last);
      InsertSorted(Sort(before), last);
      assert values == before + [last];
    }
  }

  /** In order, the value at `k` has at most `k` below it and the rest above. */
  lemma {:induction false} PositionCounts(sorted: seq<real>, k: nat)
    requires Sorted(sorted) && k < |sorted|
    ensures Below(sorted, sorted[k]) <= k && Above(sorted, sorted[k]) <= |sorted| - 1 - k
    decreases |sorted|
  {
    var before, last := sorted[..|sorted| - 1], sorted[|sorted| - 1];
    if k < |before| {
      PositionCounts(before, k);
    } else {
      NoneAbove(before, last);
    }
  }

  lemma {:induction false} NoneAbove(values: seq<real>, x: real)
    requires forall i :: 0 <= i < |values| ==> values[i] <= x
    ensures Above(values, x) == 0
    decreases |values|
  {
    if values != [] {
      NoneAbove(values[..|values| - 1], x);
    }
  }

  /** The median is half way between the middle values. */
  lemma MedianIsMiddle(values: seq<real>)
    requires values != []
    ensures Middle(values, Median(values))
  {
    hide Sort, Below, Above;
    SortMeaning(values);
    SortElements(values);
    var sorted, n := Sort(values), |values|;
    var a, b := sorted[(n - 1) / 2], sorted[n / 2];
    PositionCounts(sorted, (n - 1) / 2);
    PositionCounts(sorted, n / 2);
    SortCounts(values, a);
    SortCounts(values, b);
    assert a in sorted && b in sorted;
    assert LowerMiddle(values, a) && UpperMiddle(values, b);
    assert Median(values) == (a + b) / 2.0;
  }

  lemma {:induction false} CountsCover(values: seq<real>, x: real, y: real)
    requires x < y
    ensures Below(values, y) + Above(values, x) >= |values|
    decreases |values|
  {
    if values != [] {
      CountsCover(values[..|values| - 1], x, y);
    }
  }

  /** There is only one middle. */
  lemma MiddleUnique(values: seq<real>, m: real, m': real)
    requires Middle(values, m) && Middle(values, m')
    ensures m == m'
  {
    hide Below, Above;
    var a, b :| LowerMiddle(values, a) && UpperMiddle(values, b) && m == (a + b) / 2.0;
    var a', b' :| LowerMiddle(values, a') && UpperMiddle(values, b') && m' == (a' + b') / 2.0;
    if a < a' {
      CountsCover(values, a, a');
    } else if a' < a {
      CountsCover(values, a', a);
    }
    if b < b' {
      CountsCover(values, b, b');
    } else if b' < b {
      CountsCover(values, b', b);
    }
  }

  lemma {:induction false} CountsGrow(values: seq<real>, x: real, y: real)
    requires x <= y
    ensures Below(values, x) <= Below(values, y) && Above(values, y) <= Above(values, x)
    decreases |values|
  {
    if values != [] {
      CountsGrow(values[..|values| - 1], x, y);
    }
  }

  /** At most half of the values lie strictly on either side of the middle. */
  lemma MiddleHalves(values: seq<real>, m: real)
    requires Middle(values, m)
    ensures 2 * Below(values, m) <= |values| && 2 * Above(values, m) <= |values|
  {
    hide Below, Above;
    var a, b :| LowerMiddle(values, a) && UpperMiddle(values, b) && m == (a + b) / 2.0;
    if a > b {
      CountsCover(values, b, a);
    }
    CountsGrow(values, m, b);
    CountsGrow(values, a, m);
  }

  /* ---- the verdict ---- */

  /** A sample fit for a decision: priced, quoted, not crossed, fresh, not halted. */
  predicate Usable(r: Sample, maxAge: real) {
    && r.snapshot.last > 0.0 && !r.snapshot.halted
    && r.snapshot.bid.Some? && r.snapshot.ask.Some? && r.snapshot.bid.value <= r.snapshot.ask.value
    && r.snapshot.dataAgeSeconds.Some? && r.snapshot.dataAgeSeconds.value <= maxAge
  }

  /** Samples of one label are one source: the declared group, else the feed's name. */
  function Label(r: Sample): string {
    match (r.group, r.snapshot.sourceId)
    case (Some(group), Some(id)) => if group != "" then group else if id != "" then id else "UNKNOWN"
    case (Some(group), None) => if group != "" then group else "UNKNOWN"
    case (None, Some(id)) => if id != "" then id else "UNKNOWN"
    case (None, None) => "UNKNOWN"
  }

  /** One usable sample for each label, the youngest by the age the code compares. */
  ghost predicate OnePerSource(rows: seq<Sample>, maxAge: real, kept: seq<Sample>) {
    && (forall r :: r in kept ==> r in rows && Usable(r, maxAge))
    && (forall i, j :: 0 <= i < j < |kept| ==> Label(kept[i]) != Label(kept[j]))
    && (forall r :: r in rows && Usable(r, maxAge) ==>
          exists k :: k in kept && Label(k) == Label(r) && Age(k) <= Age(r))
  }

  function Column(kept: seq<Sample>, f: Sample -> real): seq<real> {
    seq(|kept|, i requires 0 <= i < |kept| => f(kept[i]))
  }

  function LastOf(r: Sample): real { r.snapshot.last }

  function BidOf(r: Sample): real { if r.snapshot.bid.Some? then r.snapshot.bid.value else 0.0 }

  function AskOf(r: Sample): real { if r.snapshot.ask.Some? then r.snapshot.ask.value else 0.0 }

  /** Some two prices are further apart than `limit` basis points of `price`. */
  ghost predicate Diverges(kept: seq<Sample>, price: real, limit: real) {
    exists x, y :: x in kept && y in kept && (x.snapshot.last - y.snapshot.last) * 10000.0 > limit * price
  }

  lemma LabelIsGroup(r: Sample)
    ensures Label(r) == Group(r)
  {
  }

  lemma UsableIsValid(rows: seq<Sample>, maxAge: real)
    ensures forall r :: r in ValidRows(rows, maxAge) <==> r in rows && Usable(r, maxAge)
  {
    assert forall r :: Valid(r, maxAge) <==> Usable(r, maxAge);
  }

  lemma KeptRows(rows: seq<Sample>, maxAge: real)
    ensures OnePerSource(rows, maxAge, QuorumRows(ValidRows(rows, maxAge)))
  {
    hide ValidRows, ByGroup, Age, Group, Label, Usable;
    var valid := ValidRows(rows, maxAge);
    var kept := QuorumRows(valid);
    var gs := ByGroup(valid);
    UsableIsValid(rows, maxAge);
    GroupsKeepFreshest(valid);
    forall i | 0 <= i < |kept| ensures kept[i] in valid && Label(kept[i]) == gs.order[i] {
      assert gs.order[i] in gs.order;
      LabelIsGroup(kept[i]);
    }
    forall r | r in rows && Usable(r, maxAge)
      ensures exists k :: k in kept && Label(k) == Label(r) && Age(k) <= Age(r) {
      LabelIsGroup(r);
      var i :| 0 <= i < |gs.order| && gs.order[i] == Group(r);
      assert Kept(valid, gs.rows[Group(r)]);
      assert kept[i] in kept;
    }
  }

  lemma DivergesIff(kept: seq<Sample>, limit: real)
    requires kept != [] && Median(Prices(kept)) > 0.0
    ensures DivergenceBps(Prices(kept)) > limit <==> Diverges(kept, Median(Prices(kept)), limit)
  {
    hide Median, Greatest, Smallest, DivergenceBps;
    var prices := Prices(kept);
    DivergenceIs(prices, limit);
    SpreadIff(kept, limit * Median(prices));
  }

  lemma DivergenceIs(prices: seq<real>, limit: real)
    requires prices != [] && Median(prices) > 0.0
    ensures DivergenceBps(prices) > limit
       <==> (Greatest(prices) - Smallest(prices)) * 10000.0 > limit * Median(prices)
  {
    hide Median, Greatest, Smallest;
    RatioAbove(Greatest(prices) - Smallest(prices), Median(prices), limit);
  }

  /** The greatest difference is the spread between the extremes. */
  lemma SpreadIff(kept: seq<Sample>, limit: real)
    requires kept != []
    ensures (Greatest(Prices(kept)) - Smallest(Prices(kept))) * 10000.0 > limit
       <==> exists x, y :: x in kept && y in kept && (x.snapshot.last - y.snapshot.last) * 10000.0 > limit
  {
    hide Greatest, Smallest;
    var prices := Prices(kept);
    var i :| 0 <= i < |prices| && prices[i] == Greatest(prices);
    var j :| 0 <= j < |prices| && prices[j] == Smallest(prices);
    assert kept[i] in kept && kept[j] in kept;
    forall x, y | x in kept && y in kept
      ensures x.snapshot.last - y.snapshot.last <= Greatest(prices) - Smallest(prices) {
      var m :| 0 <= m < |kept| && kept[m] == x;
      var n :| 0 <= n < |kept| && kept[n] == y;
      assert prices[m] in prices && prices[n] in prices;
    }
  }

  lemma RatioAbove(spread: real, price: real, limit: real)
    requires price > 0.0
    ensures spread / price * 10000.0 > limit <==> spread * 10000.0 > limit * price
  {
    var q := spread / price;
    assert q * price == spread;
    if q * 10000.0 > limit {
      assert (q * 10000.0 - limit) * price > 0.0;
    } else {
      assert (q * 10000.0 - limit) * price <= 0.0;
    }
  }

  /** The verdict, by the samples alone: none usable; one usable and authoritative; too
      few independent sources; sources too far apart; or a quorum. */
  lemma VerdictMeaning(rows: seq<Sample>, maxAge: real, maxDivergence: real, minimum: int) returns (kept: seq<Sample>)
    ensures OnePerSource(rows, maxAge, kept)
    ensures (forall r :: r in rows ==> !Usable(r, maxAge)) <==> kept == []
    ensures var mode := Resolve(rows, maxAge, maxDivergence, minimum).mode;
            if kept == [] then mode == NoSample
            else if exists r :: r in rows && Usable(r, maxAge) && r.snapshot.authoritative then mode == FullMarket
            else if |kept| < minimum then mode == QuorumInsufficient
            else exists price :: Middle(Column(kept, LastOf), price) && price > 0.0
                   && mode == if Diverges(kept, price, maxDivergence) then QuorumConflict else IndependentQuorum
  {
    hide QuorumRows, Median, Freshest, ValidRows, AuthoritativeRows, DivergenceBps, Usable, Age, Label, Diverges,
         Middle;
    var valid := ValidRows(rows, maxAge);
    kept := QuorumRows(valid);
    UsableIsValid(rows, maxAge);
    KeptRows(rows, maxAge);
    QuorumRowsSound(valid, maxAge);
    NonEmptyRows(valid);
    NonEmptyRows(kept);
    NonEmptyRows(AuthoritativeRows(valid));
    if kept != [] {
      var price := Median(Prices(kept));
      assert Prices(kept) == Column(kept, LastOf);
      MedianIsMiddle(Prices(kept));
      DivergesIff(kept, maxDivergence);
      assert Middle(Column(kept, LastOf), price);
    }
  }

  lemma NonEmptyRows(rows: seq<Sample>)
    ensures rows != [] <==> exists r :: r in rows
  {
    assert rows != [] ==> rows[0] in rows;
  }

  lemma BidColumns(kept: seq<Sample>)
    requires Quoted(kept)
    ensures Bids(kept) == Column(kept, BidOf) && Asks(kept) == Column(kept, AskOf)
  {
    forall i | 0 <= i < |kept| ensures Bids(kept)[i] == BidOf(kept[i]) && Asks(kept)[i] == AskOf(kept[i]) {
      assert kept[i] in kept;
    }
  }

  /** The snapshot of a quorum: each of its three prices is the middle of what the
      independent sources say, and the rest is that of a youngest of them. */
  lemma QuorumSnapshot(rows: seq<Sample>, maxAge: real, maxDivergence: real, minimum: int)
    returns (kept: seq<Sample>, youngest: Sample)
    requires Resolve(rows, maxAge, maxDivergence, minimum).mode == IndependentQuorum
    ensures OnePerSource(rows, maxAge, kept) && |kept| >= minimum
    ensures youngest in kept && forall r :: r in kept ==> Age(youngest) <= Age(r)
    ensures var a := Resolve(rows, maxAge, maxDivergence, minimum);
            && a.snapshot.Some? && a.snapshot.value.bid.Some? && a.snapshot.value.ask.Some?
            && Middle(Column(kept, LastOf), a.snapshot.value.last)
            && Middle(Column(kept, BidOf), a.snapshot.value.bid.value)
            && Middle(Column(kept, AskOf), a.snapshot.value.ask.value)
            && a.snapshot.value == youngest.snapshot.(
                 last := a.snapshot.value.last, bid := a.snapshot.value.bid, ask := a.snapshot.value.ask,
                 sourceId := Some("QUORUM"), authoritative := true)
            && Named(kept, a.sources)
  {
    hide QuorumRows, Median, Freshest, ValidRows, AuthoritativeRows, DivergenceBps, Usable, Age, Label, Middle;
    var valid := ValidRows(rows, maxAge);
    kept := QuorumRows(valid);
    KeptRows(rows, maxAge);
    QuorumRowsSound(valid, maxAge);
    youngest := Freshest(kept);
    assert Prices(kept) == Column(kept, LastOf);
    BidColumns(kept);
    MedianIsMiddle(Prices(kept));
    MedianIsMiddle(Bids(kept));
    MedianIsMiddle(Asks(kept));
  }

  lemma Extremes(kept: seq<Sample>) returns (high: Sample, low: Sample)
    requires kept != []
    ensures high in kept && low in kept
    ensures forall r :: r in kept ==> low.snapshot.last <= r.snapshot.last <= high.snapshot.last
    ensures high.snapshot.last == Greatest(Prices(kept)) && low.snapshot.last == Smallest(Prices(kept))
  {
    hide Greatest, Smallest;
    var prices := Prices(kept);
    var i :| 0 <= i < |prices| && prices[i] == Greatest(prices);
    var j :| 0 <= j < |prices| && prices[j] == Smallest(prices);
    high, low := kept[i], kept[j];
    forall r | r in kept ensures low.snapshot.last <= r.snapshot.last <= high.snapshot.last {
      var m :| 0 <= m < |kept| && kept[m] == r;
      assert prices[m] == r.snapshot.last && prices[m] in prices;
      assert Smallest(prices) <= prices[m] <= Greatest(prices);
    }
  }

  lemma ResolvedQuorum(rows: seq<Sample>, maxAge: real, maxDivergence: real, minimum: int)
    requires Resolve(rows, maxAge, maxDivergence, minimum).mode == IndependentQuorum
    ensures var kept, a := QuorumRows(ValidRows(rows, maxAge)), Resolve(rows, maxAge, maxDivergence, minimum);
            && kept != [] && a.snapshot.Some? && a.snapshot.value.last == Median(Prices(kept)) > 0.0
            && a.divergence == Some(Round4(DivergenceBps(Prices(kept))))
  {
    hide QuorumRows, Median, ValidRows, AuthoritativeRows, Round4, DivergenceBps;
    QuorumRowsSound(ValidRows(rows, maxAge), maxAge);
  }

  /** The reported divergence is the spread of the sources in basis points of the price. */
  lemma QuorumDivergence(rows: seq<Sample>, maxAge: real, maxDivergence: real, minimum: int)
    returns (kept: seq<Sample>, high: Sample, low: Sample, price: real)
    requires Resolve(rows, maxAge, maxDivergence, minimum).mode == IndependentQuorum
    ensures OnePerSource(rows, maxAge, kept) && high in kept && low in kept && price > 0.0
    ensures forall r :: r in kept ==> low.snapshot.last <= r.snapshot.last && r.snapshot.last <= high.snapshot.last
    ensures var a := Resolve(rows, maxAge, maxDivergence, minimum);
            && a.snapshot.Some? && a.snapshot.value.last == price
            && a.divergence == Some(BpsRounded(high.snapshot.last - low.snapshot.last, price))
  {
    hide QuorumRows, Median, ValidRows, AuthoritativeRows, OnePerSource, Greatest, Smallest, Round4, Resolve, Prices;
    KeptRows(rows, maxAge);
    ResolvedQuorum(rows, maxAge, maxDivergence, minimum);
    kept := QuorumRows(ValidRows(rows, maxAge));
    high, low := Extremes(kept);
    price := Median(Prices(kept));
  }

  /** A ratio in basis points, to four decimals. */
  function BpsRounded(part: real, whole: real): real
    requires whole != 0.0
  {
    Round4(part / whole * 10000.0)
  }

  /** A refused verdict names its sources and carries no snapshot; a conflict also reports
      the spread that caused it. */
  lemma RefusedVerdict(rows: seq<Sample>, maxAge: real, maxDivergence: real, minimum: int)
    returns (kept: seq<Sample>, high: Sample, low: Sample, price: real)
    requires Resolve(rows, maxAge, maxDivergence, minimum).mode in {QuorumInsufficient, QuorumConflict}
    ensures OnePerSource(rows, maxAge, kept) && high in kept && low in kept
    ensures forall r :: r in kept ==> low.snapshot.last <= r.snapshot.last && r.snapshot.last <= high.snapshot.last
    ensures Middle(Column(kept, LastOf), price) && price > 0.0
    ensures var a := Resolve(rows, maxAge, maxDivergence, minimum);
            && a.snapshot.None? && Named(kept, a.sources)
            && a.divergence == (if a.mode == QuorumConflict
                                then Some(BpsRounded(high.snapshot.last - low.snapshot.last, price)) else None)
  {
    hide ValidRows, AuthoritativeRows, OnePerSource, Greatest, Smallest, Round4, QuorumRows, Median, Middle;
    var valid := ValidRows(rows, maxAge);
    kept := QuorumRows(valid);
    KeptRows(rows, maxAge);
    QuorumRowsSound(valid, maxAge);
    high, low := Extremes(kept);
    price := Median(Prices(kept));
    assert Prices(kept) == Column(kept, LastOf);
    MedianIsMiddle(Prices(kept));
  }

  /** The names of the sources, in order. */
  ghost predicate Named(kept: seq<Sample>, names: seq<string>) {
    && |names| == |kept|
    && forall i :: 0 <= i < |kept| ==>
         names[i] == (match kept[i].snapshot.sourceId
                      case Some(id) => if id != "" then id else "UNKNOWN"
                      case None => "UNKNOWN")
  }

  /** A full-market verdict is a usable authoritative sample, the youngest of those. */
  lemma FullMarketSnapshot(rows: seq<Sample>, maxAge: real, maxDivergence: real, minimum: int)
    returns (chosen: Sample)
    requires Resolve(rows, maxAge, maxDivergence, minimum).mode == FullMarket
    ensures chosen in rows && Usable(chosen, maxAge) && chosen.snapshot.authoritative
    ensures forall r :: r in rows && Usable(r, maxAge) && r.snapshot.authoritative ==> Age(chosen) <= Age(r)
    ensures var a := Resolve(rows, maxAge, maxDivergence, minimum);
            && a.snapshot == Some(chosen.snapshot) && a.divergence == Some(0.0)
            && a.sources == [match chosen.snapshot.sourceId
                             case Some(id) => if id != "" then id else "AUTHORITATIVE"
                             case None => "AUTHORITATIVE"]
  {
    hide QuorumRows, Median, ValidRows, AuthoritativeRows, DivergenceBps, Usable, Age;
    UsableIsValid(rows, maxAge);
    chosen := Freshest(AuthoritativeRows(ValidRows(rows, maxAge)));
  }

  /** The age that is compared: a missing one, and one of exactly zero, is a billion seconds. */
  lemma AgeMeaning(r: Sample)
    ensures Age(r) == match r.snapshot.dataAgeSeconds
                      case Some(age) => if age == 0.0 then 1000000000.0 else age
                      case None => 1000000000.0
  {
  }

  /** Of several equally young samples the first in the list is chosen. */
  lemma {:induction false} FreshestIsFirst(rows: seq<Sample>) returns (i: nat)
    requires rows != []
    ensures i < |rows| && rows[i] == Freshest(rows) && forall j :: 0 <= j < i ==> Age(rows[i]) < Age(rows[j])
    decreases |rows|
  {
    hide Age;
    var before, last := rows[..|rows| - 1], rows[|rows| - 1];
    if before == [] {
      i := 0;
    } else {
      i := FreshestIsFirst(before);
      if Age(last) < Age(Freshest(before)) {
        i := |rows| - 1;
        forall j | 0 <= j < i ensures Age(last) < Age(rows[j]) {
          assert rows[j] == before[j] && before[j] in before;
        }
      }
    }
  }

  /** And so for the sample kept for a group. */
  lemma {:induction false} KeptIsFirst(valid: seq<Sample>, g: string) returns (i: nat)
    requires g in ByGroup(valid).rows
    ensures i < |valid| && valid[i] == ByGroup(valid).rows[g]
    ensures forall j :: 0 <= j < i && Label(valid[j]) == g ==> Age(valid[i]) < Age(valid[j])
    decreases |valid|
  {
    hide Age, Group, Label;
    var before, last := valid[..|valid| - 1], valid[|valid| - 1];
    LabelIsGroup(last);
    GroupsKeepFreshest(before);
    forall j | 0 <= j < |before| ensures valid[j] == before[j] && Label(valid[j]) == Group(valid[j]) {
      LabelIsGroup(valid[j]);
    }
    if Group(last) == g && (g !in ByGroup(before).rows || Age(last) < Age(ByGroup(before).rows[g])) {
      i := |valid| - 1;
      forall j | 0 <= j < i && Label(valid[j]) == g ensures Age(last) < Age(valid[j]) {
        assert before[j] in before;
        assert Kept(before, ByGroup(before).rows[g]);
      }
    } else {
      i := KeptIsFirst(before, g);
    }
  }

  /** Two sources ten cents apart at a hundred are accepted half way. */
  lemma HalfWay()
    ensures Middle([100.0, 100.1], 100.05)
  {
    CountPair(100.0, 100.1, 100.0);
    CountPair(100.0, 100.1, 100.1);
    hide Below, Above;
    assert LowerMiddle([100.0, 100.1], 100.0) && UpperMiddle([100.0, 100.1], 100.1);
  }

  lemma CountPair(a: real, b: real, x: real)
    ensures Below([a, b], x) == (if a < x then 1 else 0) + if b < x then 1 else 0
    ensures Above([a, b], x) == (if a > x then 1 else 0) + if b > x then 1 else 0
  {
    CountAppend([], a, x);
    CountAppend([a], b, x);
    assert [] + [a] == [a] && [a] + [b] == [a, b];
  }
}

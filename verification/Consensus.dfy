/** Market authority from several feeds (`engines/consensus.py`). */
module Consensus {
  import opened Prelude
  import opened Domain

  /** A snapshot with the `independence_group` of its metadata. */
  datatype Sample = Sample(snapshot: MarketSnapshot, group: Option<string>)

  datatype Mode = NoSample | FullMarket | QuorumInsufficient | QuorumConflict | IndependentQuorum

  datatype Authority = Authority(
    mode: Mode, snapshot: Option<MarketSnapshot>, sources: seq<string>, divergence: Option<real>)

  const OLDEST := 1000000000.0

  /** `x or y`: a missing and an empty text both count as absent. */
  predicate Present(text: Option<string>) {
    text.Some? && text.value != ""
  }

  function Group(r: Sample): string {
    if Present(r.group) then r.group.value
    else if Present(r.snapshot.sourceId) then r.snapshot.sourceId.value
    else "UNKNOWN"
  }

  function SourceName(r: Sample, default: string): string {
    if Present(r.snapshot.sourceId) then r.snapshot.sourceId.value else default
  }

  /** `_valid`. */
  predicate Valid(r: Sample, maxAge: real) {
    var s := r.snapshot;
    && s.last > 0.0 && s.bid.Some? && s.ask.Some? && s.ask.value >= s.bid.value
    && s.dataAgeSeconds.Some? && s.dataAgeSeconds.value <= maxAge && !s.halted
  }

  /** `data_age_seconds or 10**9`: an age of zero is falsy and counts as the oldest. */
  function Age(r: Sample): real {
    if r.snapshot.dataAgeSeconds.None? || r.snapshot.dataAgeSeconds.value == 0.0 then OLDEST
    else r.snapshot.dataAgeSeconds.value
  }

  function ValidRows(rows: seq<Sample>, maxAge: real): (valid: seq<Sample>)
    ensures forall r :: r in valid <==> r in rows && Valid(r, maxAge)
    decreases |rows|
  {
    if rows == [] then []
    else
      var before, last := rows[..|rows| - 1], rows[|rows| - 1];
      assert forall r :: r in rows <==> r in before || r == last;
      ValidRows(before, maxAge) + (if Valid(last, maxAge) then [last] else [])
  }

  function AuthoritativeRows(rows: seq<Sample>): (chosen: seq<Sample>)
    ensures forall r :: r in chosen <==> r in rows && r.snapshot.authoritative
    decreases |rows|
  {
    if rows == [] then []
    else
      var before, last := rows[..|rows| - 1], rows[|rows| - 1];
      assert forall r :: r in rows <==> r in before || r == last;
      AuthoritativeRows(before) + (if last.snapshot.authoritative then [last] else [])
  }

  /** `min(rows, key=age)`: the first of the youngest. */
  function Freshest(rows: seq<Sample>): (r: Sample)
    requires rows != []
    ensures r in rows && forall o :: o in rows ==> Age(r) <= Age(o)
    decreases |rows|
  {
    var before, last := rows[..|rows| - 1], rows[|rows| - 1];
    assert forall r :: r in rows <==> r in before || r == last;
    if before == [] then last
    else if Age(last) < Age(Freshest(before)) then last
    else Freshest(before)
  }

  /** The dictionary by group, with the order in which groups first appeared. */
  datatype Groups = Groups(order: seq<string>, rows: map<string, Sample>)

  function Place(gs: Groups, r: Sample): Groups {
    var g := Group(r);
    if g !in gs.rows then Groups(gs.order + [g], gs.rows[g := r])
    else if Age(r) < Age(gs.rows[g]) then gs.(rows := gs.rows[g := r])
    else gs
  }

  function ByGroup(valid: seq<Sample>): Groups
    decreases |valid|
  {
    if valid == [] then Groups([], map[]) else Place(ByGroup(valid[..|valid| - 1]), valid[|valid| - 1])
  }

  ghost predicate Listed(gs: Groups) {
    && (forall g :: g in gs.order <==> g in gs.rows)
    && (forall i, j :: 0 <= i < j < |gs.order| ==> gs.order[i] != gs.order[j])
  }

  function Independent(gs: Groups): (rows: seq<Sample>)
    requires forall g :: g in gs.order ==> g in gs.rows
  {
    seq(|gs.order|, i requires 0 <= i < |gs.order| => gs.rows[gs.order[i]])
  }

  /** One row for each group, in the order of the groups. */
  function QuorumRows(valid: seq<Sample>): seq<Sample> {
    GroupsKeepFreshest(valid);
    Independent(ByGroup(valid))
  }

  /* ---- medians ---- */

  function Insert(sorted: seq<real>, x: real): (r: seq<real>)
    ensures |r| == |sorted| + 1
    decreases |sorted|
  {
    if sorted == [] || sorted[|sorted| - 1] <= x then sorted + [x]
    else Insert(sorted[..|sorted| - 1], x) + [sorted[|sorted| - 1]]
  }

  function Sort(values: seq<real>): (r: seq<real>)
    ensures |r| == |values|
    decreases |values|
  {
    if values == [] then [] else Insert(Sort(values[..|values| - 1]), values[|values| - 1])
  }

  function MiddleOf(sorted: seq<real>): real
    requires sorted != []
  {
    var n := |sorted|;
    if n % 2 == 1 then sorted[n / 2] else (sorted[n / 2 - 1] + sorted[n / 2]) / 2.0
  }

  /** `statistics.median`. */
  function Median(values: seq<real>): real
    requires values != []
  {
    MiddleOf(Sort(values))
  }

  function Greatest(values: seq<real>): (m: real)
    requires values != []
    ensures m in values && forall x :: x in values ==> x <= m
    decreases |values|
  {
    var before, last := values[..|values| - 1], values[|values| - 1];
    assert forall x :: x in values <==> x in before || x == last;
    if before == [] then last else Max(Greatest(before), last)
  }

  function Smallest(values: seq<real>): (m: real)
    requires values != []
    ensures m in values && forall x :: x in values ==> m <= x
    decreases |values|
  {
    var before, last := values[..|values| - 1], values[|values| - 1];
    assert forall x :: x in values <==> x in before || x == last;
    if before == [] then last else Min(Smallest(before), last)
  }

  function Prices(rows: seq<Sample>): seq<real> {
    seq(|rows|, i requires 0 <= i < |rows| => rows[i].snapshot.last)
  }

  predicate Quoted(rows: seq<Sample>) {
    forall r :: r in rows ==> r.snapshot.bid.Some? && r.snapshot.ask.Some?
  }

  function Bids(rows: seq<Sample>): seq<real>
    requires Quoted(rows)
  {
    seq(|rows|, i requires 0 <= i < |rows| => rows[i].snapshot.bid.value)
  }

  function Asks(rows: seq<Sample>): seq<real>
    requires Quoted(rows)
  {
    seq(|rows|, i requires 0 <= i < |rows| => rows[i].snapshot.ask.value)
  }

  function Names(rows: seq<Sample>): seq<string> {
    seq(|rows|, i requires 0 <= i < |rows| => SourceName(rows[i], "UNKNOWN"))
  }

  /** The relative spread of the sources, in basis points of the consensus price. */
  function DivergenceBps(prices: seq<real>): real
    requires prices != [] && Median(prices) != 0.0
  {
    (Greatest(prices) - Smallest(prices)) / Median(prices) * 10000.0
  }

  /** The verdict of a quorum over the independent rows. */
  function Quorum(independent: seq<Sample>, maxDivergence: real, minimum: int): Authority
    requires independent != [] && Quoted(independent) && Median(Prices(independent)) != 0.0
  {
    var prices, names := Prices(independent), Names(independent);
    if |independent| < minimum then Authority(QuorumInsufficient, None, names, None)
    else if DivergenceBps(prices) > maxDivergence then
      Authority(QuorumConflict, None, names, Some(Round4(DivergenceBps(prices))))
    else
      var synthetic := Freshest(independent).snapshot.(
        last := Median(prices), bid := Some(Median(Bids(independent))), ask := Some(Median(Asks(independent))),
        sourceId := Some("QUORUM"), authoritative := true);
      Authority(IndependentQuorum, Some(synthetic), names, Some(Round4(DivergenceBps(prices))))
  }

  /** `resolve_market_authority`. */
  function Resolve(rows: seq<Sample>, maxAge: real, maxDivergence: real, minimum: int): Authority {
    var valid := ValidRows(rows, maxAge);
    var authoritative := AuthoritativeRows(valid);
    if valid == [] then Authority(NoSample, None, [], None)
    else if authoritative != [] then
      var chosen := Freshest(authoritative);
      Authority(FullMarket, Some(chosen.snapshot), [SourceName(chosen, "AUTHORITATIVE")], Some(0.0))
    else
      QuorumRowsSound(valid, maxAge);
      Quorum(QuorumRows(valid), maxDivergence, minimum)
  }

  predicate Accepted(a: Authority) {
    a.mode in {FullMarket, IndependentQuorum}
  }

  /* ---- groups ---- */

  /** The row kept for a group is a youngest one of it, by the age the code compares. */
  ghost predicate Kept(rows: seq<Sample>, r: Sample) {
    r in rows && forall o :: o in rows && Group(o) == Group(r) ==> Age(r) <= Age(o)
  }

  ghost predicate KeepsFreshest(rows: seq<Sample>, gs: Groups) {
    && (forall r :: r in rows ==> Group(r) in gs.rows)
    && (forall g :: g in gs.rows ==> Group(gs.rows[g]) == g && Kept(rows, gs.rows[g]))
  }

  lemma PlaceKeepsFreshest(rows: seq<Sample>, gs: Groups, r: Sample)
    requires Listed(gs) && KeepsFreshest(rows, gs)
    ensures Listed(Place(gs, r)) && KeepsFreshest(rows + [r], Place(gs, r))
  {
    hide Age, Group;
    var next := Place(gs, r);
    assert forall o :: o in rows + [r] <==> o in rows || o == r;
    forall g | g in next.rows ensures Group(next.rows[g]) == g && Kept(rows + [r], next.rows[g]) {
      assert g != Group(r) ==> next.rows[g] == gs.rows[g];
    }
  }

  lemma {:induction false} GroupsKeepFreshest(rows: seq<Sample>)
    ensures Listed(ByGroup(rows)) && KeepsFreshest(rows, ByGroup(rows))
    ensures rows != [] ==> ByGroup(rows).order != []
    decreases |rows|
  {
    hide Listed, KeepsFreshest, Group, Age;
    if rows == [] {
      EmptyGroups();
    } else {
      var before, last := rows[..|rows| - 1], rows[|rows| - 1];
      GroupsKeepFreshest(before);
      PlaceKeepsFreshest(before, ByGroup(before), last);
      assert rows == before + [last];
      SomeGroup(ByGroup(before), last);
    }
  }

  lemma EmptyGroups()
    ensures Listed(ByGroup([])) && KeepsFreshest([], ByGroup([]))
  {
  }

  lemma SomeGroup(gs: Groups, r: Sample)
    requires Listed(gs)
    ensures Place(gs, r).order != []
  {
  }

  lemma QuorumRowsSound(valid: seq<Sample>, maxAge: real)
    requires forall r :: r in valid ==> Valid(r, maxAge)
    ensures var rows := QuorumRows(valid);
            && (forall r :: r in rows ==> r in valid)
            && Quoted(rows)
            && (valid != [] ==> rows != [] && Median(Prices(rows)) > 0.0)
  {
    hide ByGroup, Median, Age, Group;
    GroupsKeepFreshest(valid);
    var rows := QuorumRows(valid);
    forall r | r in rows ensures r in valid {
      var i :| 0 <= i < |rows| && rows[i] == r;
      assert ByGroup(valid).order[i] in ByGroup(valid).rows;
    }
    if valid != [] {
      MedianBetween(Prices(rows));
    }
  }

  /* ---- medians are ordered and bounded ---- */

  lemma {:induction false} InsertElements(sorted: seq<real>, x: real)
    ensures forall y :: y in Insert(sorted, x) <==> y in sorted || y == x
    decreases |sorted|
  {
    if sorted != [] && sorted[|sorted| - 1] > x {
      var before, last := sorted[..|sorted| - 1], sorted[|sorted| - 1];
      InsertElements(before, x);
      assert sorted == before + [last];
    }
  }

  lemma {:induction false} SortElements(values: seq<real>)
    ensures forall y :: y in Sort(values) <==> y in values
    decreases |values|
  {
    if values != [] {
      var before, last := values[..|values| - 1], values[|values| - 1];
      SortElements(before);
      InsertElements(Sort(before), last);
      assert values == before + [last];
    }
  }

  /** The median lies between the least and the greatest value. */
  lemma MedianBetween(values: seq<real>)
    requires values != []
    ensures Smallest(values) <= Median(values) <= Greatest(values)
  {
    hide Sort, Smallest, Greatest;
    SortElements(values);
    var sorted, n := Sort(values), |values|;
    assert sorted[n / 2] in sorted;
    if n % 2 == 0 {
      assert sorted[n / 2 - 1] in sorted;
    }
  }

  ghost predicate Dominated(xs: seq<real>, ys: seq<real>) {
    |xs| == |ys| && forall i :: 0 <= i < |xs| ==> xs[i] <= ys[i]
  }

  ghost predicate Sorted(xs: seq<real>) {
    forall i, j :: 0 <= i < j < |xs| ==> xs[i] <= xs[j]
  }

  lemma InsertLast(before: seq<real>, last: real)
    requires Sorted(before + [last])
    ensures Sorted(before) && Insert(before, last) == before + [last]
  {
    assert forall i :: 0 <= i < |before| ==> before[i] == (before + [last])[i];
    if before != [] {
      assert (before + [last])[|before| - 1] <= (before + [last])[|before|];
    }
  }

  lemma DominatedAppend(xs: seq<real>, ys: seq<real>, x: real, y: real)
    requires Dominated(xs, ys) && x <= y
    ensures Dominated(xs + [x], ys + [y])
  {
  }

  lemma DominatedParts(xs: seq<real>, ys: seq<real>, x: real, y: real)
    requires Dominated(xs + [x], ys + [y])
    ensures Dominated(xs, ys) && x <= y
  {
    assert forall i :: 0 <= i < |xs| ==> xs[i] == (xs + [x])[i] && ys[i] == (ys + [y])[i];
    assert (xs + [x])[|xs|] <= (ys + [y])[|ys|];
  }

  lemma InsertEnd(sorted: seq<real>, last: real, x: real)
    ensures last <= x ==> Insert(sorted + [last], x) == sorted + [last] + [x]
    ensures last > x ==> Insert(sorted + [last], x) == Insert(sorted, x) + [last]
  {
    assert (sorted + [last])[..|sorted|] == sorted;
  }

  /** Inserting a dominated value into a dominated sorted sequence keeps the domination. */
  lemma {:induction false} InsertDominated(xs: seq<real>, ys: seq<real>, x: real, y: real)
    requires Sorted(xs) && Sorted(ys) && Dominated(xs, ys) && x <= y
    ensures Dominated(Insert(xs, x), Insert(ys, y))
    decreases |xs|
  {
    if xs != [] {
      hide Insert, Dominated, Sorted;
      var xs', a := xs[..|xs| - 1], xs[|xs| - 1];
      var ys', b := ys[..|ys| - 1], ys[|ys| - 1];
      assert xs == xs' + [a] && ys == ys' + [b];
      InsertLast(xs', a);
      InsertLast(ys', b);
      DominatedParts(xs', ys', a, b);
      InsertEnd(xs', a, x);
      InsertEnd(ys', b, y);
      if a <= x && b <= y {
        DominatedAppend(xs, ys, x, y);
      } else if a <= x {
        InsertDominated(xs', ys', a, y);
        DominatedAppend(xs, Insert(ys', y), x, b);
      } else if b <= y {
        InsertDominated(xs', ys', x, b);
        DominatedAppend(Insert(xs', x), ys, a, y);
      } else {
        InsertDominated(xs', ys', x, y);
        DominatedAppend(Insert(xs', x), Insert(ys', y), a, b);
      }
    }
  }

  lemma {:induction false} InsertSorted(xs: seq<real>, x: real)
    requires Sorted(xs)
    ensures Sorted(Insert(xs, x))
    decreases |xs|
  {
    if xs != [] && xs[|xs| - 1] > x {
      var before, last := xs[..|xs| - 1], xs[|xs| - 1];
      InsertSorted(before, x);
      InsertElements(before, x);
      SortedAppend(Insert(before, x), last);
    }
  }

  lemma SortedAppend(xs: seq<real>, last: real)
    requires Sorted(xs) && forall x :: x in xs ==> x <= last
    ensures Sorted(xs + [last])
  {
    forall i, j | 0 <= i < j < |xs + [last]| ensures (xs + [last])[i] <= (xs + [last])[j] {
      assert xs[i] in xs;
    }
  }

  /** Sorting keeps a pointwise domination: the k-th least bid is at most the k-th least ask. */
  lemma {:induction false} SortDominated(xs: seq<real>, ys: seq<real>)
    requires Dominated(xs, ys)
    ensures Dominated(Sort(xs), Sort(ys)) && Sorted(Sort(xs)) && Sorted(Sort(ys))
    decreases |xs|
  {
    hide Insert;
    if xs != [] {
      SortDominated(xs[..|xs| - 1], ys[..|ys| - 1]);
      InsertDominated(Sort(xs[..|xs| - 1]), Sort(ys[..|ys| - 1]), xs[|xs| - 1], ys[|ys| - 1]);
      InsertSorted(Sort(xs[..|xs| - 1]), xs[|xs| - 1]);
      InsertSorted(Sort(ys[..|ys| - 1]), ys[|ys| - 1]);
    }
  }

  lemma MedianDominated(xs: seq<real>, ys: seq<real>)
    requires xs != [] && Dominated(xs, ys)
    ensures Median(xs) <= Median(ys)
  {
    hide Sort;
    SortDominated(xs, ys);
  }

  /* ---- accepted snapshots ---- */

  /** An accepted snapshot is never crossed and has a positive price. */
  lemma NeverCrossed(rows: seq<Sample>, maxAge: real, maxDivergence: real, minimum: int)
    requires Accepted(Resolve(rows, maxAge, maxDivergence, minimum))
    ensures var s := Resolve(rows, maxAge, maxDivergence, minimum).snapshot;
            && s.Some? && s.value.bid.Some? && s.value.ask.Some?
            && s.value.bid.value <= s.value.ask.value && s.value.last > 0.0 && s.value.authoritative
  {
    hide QuorumRows, Median, Freshest, ValidRows, AuthoritativeRows, DivergenceBps;
    var valid := ValidRows(rows, maxAge);
    if AuthoritativeRows(valid) == [] && valid != [] {
      QuorumRowsSound(valid, maxAge);
      MedianDominated(Bids(QuorumRows(valid)), Asks(QuorumRows(valid)));
    }
  }

  /** The price of an accepted quorum is a median of at least the required number of
      sources, and no two sources, nor a source and the price, are further apart than
      the divergence limit allows. */
  lemma QuorumAgrees(rows: seq<Sample>, maxAge: real, maxDivergence: real, minimum: int)
    requires Resolve(rows, maxAge, maxDivergence, minimum).mode == IndependentQuorum
    ensures var price := Resolve(rows, maxAge, maxDivergence, minimum).snapshot.value.last;
            var sources := QuorumRows(ValidRows(rows, maxAge));
            && |sources| >= minimum && Smallest(Prices(sources)) <= price <= Greatest(Prices(sources))
            && Greatest(Prices(sources)) - Smallest(Prices(sources)) <= maxDivergence / 10000.0 * price
  {
    hide QuorumRows, Median, Freshest, ValidRows, AuthoritativeRows, Smallest, Greatest, Valid, Prices;
    var valid := ValidRows(rows, maxAge);
    QuorumRowsSound(valid, maxAge);
    var prices := Prices(QuorumRows(valid));
    MedianBetween(prices);
    SpreadWithin(Greatest(prices) - Smallest(prices), Median(prices), maxDivergence);
  }

  lemma SpreadWithin(spread: real, price: real, limit: real)
    requires price > 0.0 && spread / price * 10000.0 <= limit
    ensures spread <= limit / 10000.0 * price
  {
    var q := spread / price;
    assert spread == q * price;
    assert (limit / 10000.0 - q) * price >= 0.0;
  }

  /* ---- input order ---- */

  /** No two different rows tie in the age the code compares. */
  ghost predicate AgesDiffer(rows: seq<Sample>) {
    forall x, y :: x in rows && y in rows && Age(x) == Age(y) ==> x == y
  }

  lemma SameGroups(xs: seq<Sample>, ys: seq<Sample>)
    requires AgesDiffer(xs) && forall r :: r in xs <==> r in ys
    ensures ByGroup(xs).rows == ByGroup(ys).rows
    ensures forall g :: g in ByGroup(xs).order <==> g in ByGroup(ys).order
  {
    hide ByGroup, Age, Group;
    GroupsKeepFreshest(xs);
    GroupsKeepFreshest(ys);
    var m, n := ByGroup(xs).rows, ByGroup(ys).rows;
    forall g ensures g in m <==> g in n {
      if g in m {
        assert m[g] in ys;
      }
      if g in n {
        assert n[g] in xs;
      }
    }
    forall g | g in m ensures m[g] == n[g] {
      assert Kept(xs, m[g]) && Kept(ys, n[g]);
    }
    assert m == n;
  }

  lemma {:induction false} InsertCommutes(sorted: seq<real>, x: real, y: real)
    ensures Insert(Insert(sorted, x), y) == Insert(Insert(sorted, y), x)
    decreases |sorted|
  {
    if sorted == [] {
      InsertEnd([], x, y);
      InsertEnd([], y, x);
      assert [] + [x] == [x] && [] + [y] == [y];
    } else {
      var before, last := sorted[..|sorted| - 1], sorted[|sorted| - 1];
      assert sorted == before + [last];
      hide Insert;
      InsertEnd(before, last, x);
      InsertEnd(before, last, y);
      InsertEnd(sorted, x, y);
      InsertEnd(sorted, y, x);
      InsertEnd(Insert(before, x), last, y);
      InsertEnd(Insert(before, y), last, x);
      InsertCommutes(before, x, y);
    }
  }

  /** Any value may be the last one inserted. */
  lemma {:induction false} SortWithout(values: seq<real>, k: nat)
    requires k < |values|
    ensures Sort(values) == Insert(Sort(values[..k] + values[k + 1..]), values[k])
    decreases |values|
  {
    hide Insert;
    var before, last := values[..|values| - 1], values[|values| - 1];
    if k == |before| {
      assert values[..k] + values[k + 1..] == before;
    } else {
      SortWithout(before, k);
      var rest := before[..k] + before[k + 1..];
      assert values[..k] + values[k + 1..] == rest + [last];
      assert (rest + [last])[..|rest|] == rest;
      InsertCommutes(Sort(rest), values[k], last);
    }
  }

  function Values(order: seq<string>, f: string -> real): seq<real> {
    seq(|order|, i requires 0 <= i < |order| => f(order[i]))
  }

  ghost predicate Distinct(order: seq<string>) {
    forall i, j :: 0 <= i < j < |order| ==> order[i] != order[j]
  }

  lemma SomeMember(order: seq<string>)
    requires order != []
    ensures exists g :: g in order
  {
    assert order[0] in order;
  }

  /** Sorting a value of each group does not see the order of the groups. */
  lemma {:induction false} SortIgnoresOrder(xs: seq<string>, ys: seq<string>, f: string -> real)
    requires Distinct(xs) && Distinct(ys) && forall g :: g in xs <==> g in ys
    ensures Sort(Values(xs, f)) == Sort(Values(ys, f)) && |xs| == |ys|
    decreases |xs|
  {
    hide Sort;
    if xs == [] {
      if ys != [] {
        SomeMember(ys);
      }
    } else {
      var before, last := xs[..|xs| - 1], xs[|xs| - 1];
      assert last in xs;
      var k :| 0 <= k < |ys| && ys[k] == last;
      var rest := ys[..k] + ys[k + 1..];
      forall g ensures g in before <==> g in rest {
        WithoutOne(xs, |xs| - 1, g);
        WithoutOne(ys, k, g);
        assert xs[..|xs| - 1] + xs[|xs|..] == before;
      }
      DistinctWithout(ys, k);
      SortIgnoresOrder(before, rest, f);
      SortWithout(Values(xs, f), |xs| - 1);
      SortWithout(Values(ys, f), k);
      assert Values(xs, f)[..|xs| - 1] + Values(xs, f)[|xs|..] == Values(before, f);
      assert Values(ys, f)[..k] + Values(ys, f)[k + 1..] == Values(rest, f);
    }
  }

  lemma WithoutOne(order: seq<string>, k: nat, g: string)
    requires Distinct(order) && k < |order|
    ensures g in order[..k] + order[k + 1..] <==> g in order && g != order[k]
  {
    if g in order && g != order[k] {
      var i :| 0 <= i < |order| && order[i] == g;
      assert i < k ==> order[..k][i] == g;
      assert i > k ==> order[k + 1..][i - k - 1] == g;
    }
  }

  lemma DistinctWithout(order: seq<string>, k: nat)
    requires Distinct(order) && k < |order|
    ensures Distinct(order[..k] + order[k + 1..])
  {
  }

  lemma SameFreshest(xs: seq<Sample>, ys: seq<Sample>)
    requires xs != [] && ys != [] && AgesDiffer(xs) && forall r :: r in xs <==> r in ys
    ensures Freshest(xs) == Freshest(ys)
  {
    hide Age;
  }

  /** The quorum's rows are the same, whatever order the groups appeared in. */
  lemma SameQuorumRows(xs: seq<Sample>, ys: seq<Sample>)
    requires AgesDiffer(xs) && forall r :: r in xs <==> r in ys
    ensures forall r :: r in QuorumRows(xs) <==> r in QuorumRows(ys)
    ensures |QuorumRows(xs)| == |QuorumRows(ys)|
    ensures forall f: Sample -> real :: Sort(Measured(QuorumRows(xs), f)) == Sort(Measured(QuorumRows(ys), f))
  {
    hide ByGroup, Sort, Age, Group;
    SameGroups(xs, ys);
    GroupsKeepFreshest(xs);
    GroupsKeepFreshest(ys);
    var m, n := ByGroup(xs), ByGroup(ys);
    SameMembers(m, n);
    forall f: Sample -> real ensures Sort(Measured(QuorumRows(xs), f)) == Sort(Measured(QuorumRows(ys), f)) {
      var rows := m.rows;
      var g := (id: string) => if id in rows then f(rows[id]) else 0.0;
      SortIgnoresOrder(m.order, n.order, g);
      assert Measured(QuorumRows(xs), f) == Values(m.order, g);
      assert Measured(QuorumRows(ys), f) == Values(n.order, g);
    }
    SortIgnoresOrder(m.order, n.order, id => 0.0);
  }

  function Measured(rows: seq<Sample>, f: Sample -> real): seq<real> {
    seq(|rows|, i requires 0 <= i < |rows| => f(rows[i]))
  }

  lemma SameMembers(m: Groups, n: Groups)
    requires Listed(m) && Listed(n) && m.rows == n.rows
    ensures forall r :: r in Independent(m) <==> r in Independent(n)
  {
    forall r | r in Independent(m) ensures r in Independent(n) {
      IndependentMember(m, n, r);
    }
    forall r | r in Independent(n) ensures r in Independent(m) {
      IndependentMember(n, m, r);
    }
  }

  lemma IndependentMember(m: Groups, n: Groups, r: Sample)
    requires Listed(m) && Listed(n) && m.rows == n.rows && r in Independent(m)
    ensures r in Independent(n)
  {
    var i :| 0 <= i < |m.order| && Independent(m)[i] == r;
    var g := m.order[i];
    assert g in m.order && g in n.order;
    var j :| 0 <= j < |n.order| && n.order[j] == g;
    assert Independent(n)[j] == r;
  }

  /** Without ties in age among the valid samples, the verdict and the whole accepted
      snapshot depend on which samples there are, not on their order or repetition. */
  lemma ResolveIgnoresOrder(xs: seq<Sample>, ys: seq<Sample>, maxAge: real, maxDivergence: real, minimum: int)
    requires AgesDiffer(ValidRows(xs, maxAge)) && forall r :: r in xs <==> r in ys
    ensures var a, b := Resolve(xs, maxAge, maxDivergence, minimum), Resolve(ys, maxAge, maxDivergence, minimum);
            a.mode == b.mode && a.snapshot == b.snapshot && a.divergence == b.divergence
  {
    hide QuorumRows, Freshest, Age, Sort, Valid, Quorum, ValidRows, AuthoritativeRows, Quoted;
    var v, w := ValidRows(xs, maxAge), ValidRows(ys, maxAge);
    var a, b := AuthoritativeRows(v), AuthoritativeRows(w);
    SameEmptiness(v, w);
    SameEmptiness(a, b);
    if a != [] {
      SameFreshest(a, b);
    } else if v != [] {
      QuorumRowsSound(v, maxAge);
      QuorumRowsSound(w, maxAge);
      SameQuorumRows(v, w);
      SameQuorum(QuorumRows(v), QuorumRows(w), maxDivergence, minimum);
    }
  }

  lemma SameEmptiness(xs: seq<Sample>, ys: seq<Sample>)
    requires forall r :: r in xs <==> r in ys
    ensures xs == [] <==> ys == []
  {
    assert xs != [] ==> xs[0] in xs;
    assert ys != [] ==> ys[0] in ys;
  }

  lemma SameQuorum(p: seq<Sample>, q: seq<Sample>, maxDivergence: real, minimum: int)
    requires p != [] && q != [] && |p| == |q| && Quoted(p) && Quoted(q)
    requires Median(Prices(p)) > 0.0 && Median(Prices(q)) > 0.0
    requires AgesDiffer(p) && forall r :: r in p <==> r in q
    requires forall f: Sample -> real :: Sort(Measured(p, f)) == Sort(Measured(q, f))
    ensures var a, b := Quorum(p, maxDivergence, minimum), Quorum(q, maxDivergence, minimum);
            a.mode == b.mode && a.snapshot == b.snapshot && a.divergence == b.divergence
  {
    hide Freshest, Age, Sort, Greatest, Smallest;
    SameFreshest(p, q);
    var last := (r: Sample) => r.snapshot.last;
    var bid := (r: Sample) => if r.snapshot.bid.Some? then r.snapshot.bid.value else 0.0;
    var ask := (r: Sample) => if r.snapshot.ask.Some? then r.snapshot.ask.value else 0.0;
    assert Sort(Measured(p, last)) == Sort(Measured(q, last));
    assert Sort(Measured(p, bid)) == Sort(Measured(q, bid));
    assert Sort(Measured(p, ask)) == Sort(Measured(q, ask));
    assert Measured(p, last) == Prices(p) && Measured(q, last) == Prices(q);
    assert Measured(p, bid) == Bids(p) && Measured(q, bid) == Bids(q);
    assert Measured(p, ask) == Asks(p) && Measured(q, ask) == Asks(q);
    SameExtremes(Prices(p), Prices(q));
  }

  lemma SameExtremes(xs: seq<real>, ys: seq<real>)
    requires xs != [] && ys != [] && Sort(xs) == Sort(ys)
    ensures Greatest(xs) == Greatest(ys) && Smallest(xs) == Smallest(ys)
  {
    hide Sort;
    SortElements(xs);
    SortElements(ys);
    assert Greatest(xs) in ys && Greatest(ys) in xs && Smallest(xs) in ys && Smallest(ys) in xs;
  }

  /* ---- the age of zero ---- */

  ghost predicate Dated(rows: seq<Sample>) {
    && (forall r :: r in rows ==> r.snapshot.dataAgeSeconds.Some? && 0.0 <= r.snapshot.dataAgeSeconds.value < OLDEST)
    && (forall x, y :: x in rows && y in rows && x.snapshot.dataAgeSeconds == y.snapshot.dataAgeSeconds ==> x == y)
  }

  ghost predicate Youngest(rows: seq<Sample>, r: Sample)
    requires Dated(rows) && r in rows
  {
    forall o :: o in rows && Group(o) == Group(r) ==> r.snapshot.dataAgeSeconds.value <= o.snapshot.dataAgeSeconds.value
  }

  /** Distinct ages below 10^9 are distinct to the code as well. */
  lemma DistinctAgesDiffer(rows: seq<Sample>)
    requires Dated(rows)
    ensures AgesDiffer(rows)
  {
  }

  /** So it is enough that no two valid samples have the same age. */
  lemma ResolveIgnoresOrderOfDistinctAges(xs: seq<Sample>, ys: seq<Sample>, maxAge: real, maxDivergence: real,
                                          minimum: int)
    requires Dated(ValidRows(xs, maxAge)) && forall r :: r in xs <==> r in ys
    ensures var a, b := Resolve(xs, maxAge, maxDivergence, minimum), Resolve(ys, maxAge, maxDivergence, minimum);
            a.mode == b.mode && a.snapshot == b.snapshot && a.divergence == b.divergence
  {
    DistinctAgesDiffer(ValidRows(xs, maxAge));
    ResolveIgnoresOrder(xs, ys, maxAge, maxDivergence, minimum);
  }

  /** No sample is really younger than `r`. */
  ghost predicate YoungestOfAll(rows: seq<Sample>, r: Sample)
    requires Dated(rows) && r in rows
  {
    forall o :: o in rows ==> r.snapshot.dataAgeSeconds.value <= o.snapshot.dataAgeSeconds.value
  }

  /** A sample of age zero stands beside another sample. */
  ghost predicate ZeroBeside(rows: seq<Sample>) {
    exists z, o :: z in rows && o in rows && z != o && z.snapshot.dataAgeSeconds == Some(0.0)
  }

  /** The chosen sample is really the youngest exactly when no sample of age zero
      stands beside another. */
  lemma FreshestIsYoungestIff(rows: seq<Sample>)
    requires Dated(rows) && rows != []
    ensures YoungestOfAll(rows, Freshest(rows)) <==> !ZeroBeside(rows)
  {
    hide Freshest;
    var r := Freshest(rows);
    if ZeroBeside(rows) {
      var z, o :| z in rows && o in rows && z != o && z.snapshot.dataAgeSeconds == Some(0.0);
      assert Age(r) <= Age(o) < OLDEST;
    } else {
      forall o | o in rows ensures r.snapshot.dataAgeSeconds.value <= o.snapshot.dataAgeSeconds.value {
        assert Age(r) <= Age(o);
      }
    }
  }

  /** The same for the authoritative sample that decides a FULL_MARKET verdict. */
  lemma AuthorityIsYoungestIff(rows: seq<Sample>, maxAge: real, maxDivergence: real, minimum: int)
    requires Resolve(rows, maxAge, maxDivergence, minimum).mode == FullMarket
    requires Dated(AuthoritativeRows(ValidRows(rows, maxAge)))
    ensures var candidates := AuthoritativeRows(ValidRows(rows, maxAge));
            && candidates != []
            && Resolve(rows, maxAge, maxDivergence, minimum).snapshot == Some(Freshest(candidates).snapshot)
            && (YoungestOfAll(candidates, Freshest(candidates)) <==> !ZeroBeside(candidates))
  {
    hide DivergenceBps, Median, Freshest, ValidRows, AuthoritativeRows, QuorumRows, Dated, ZeroBeside;
    FreshestIsYoungestIff(AuthoritativeRows(ValidRows(rows, maxAge)));
  }

  /** A row of age zero shares the group with another row. */
  ghost predicate ZeroShares(rows: seq<Sample>, g: string) {
    exists z, o :: z in rows && o in rows && z != o && Group(z) == g == Group(o)
        && z.snapshot.dataAgeSeconds == Some(0.0)
  }

  lemma ZeroIsMasked(rows: seq<Sample>, g: string, r: Sample)
    requires Dated(rows) && Kept(rows, r) && Group(r) == g && ZeroShares(rows, g)
    ensures !Youngest(rows, r)
  {
    hide Group;
    var z, o :| z in rows && o in rows && z != o && Group(z) == g == Group(o) && z.snapshot.dataAgeSeconds == Some(0.0);
    assert Age(r) <= Age(o) < OLDEST;
  }

  lemma NothingMasked(rows: seq<Sample>, g: string, r: Sample)
    requires Dated(rows) && Kept(rows, r) && Group(r) == g && !ZeroShares(rows, g)
    ensures Youngest(rows, r)
  {
    hide Group;
    forall o | o in rows && Group(o) == g ensures r.snapshot.dataAgeSeconds.value <= o.snapshot.dataAgeSeconds.value {
      assert Age(r) <= Age(o);
    }
  }

  /** The row kept for a group is really its youngest exactly when no row of age zero
      shares the group with another row. */
  lemma KeptIsYoungestIff(rows: seq<Sample>, g: string)
    requires Dated(rows) && g in ByGroup(rows).rows
    ensures ByGroup(rows).rows[g] in rows
    ensures Youngest(rows, ByGroup(rows).rows[g]) <==> !ZeroShares(rows, g)
  {
    hide ByGroup, Group, Youngest, ZeroShares, Dated;
    GroupsKeepFreshest(rows);
    var r := ByGroup(rows).rows[g];
    if ZeroShares(rows, g) {
      ZeroIsMasked(rows, g, r);
    } else {
      NothingMasked(rows, g, r);
    }
  }

  function Quote(id: string, last: real, age: real): Sample {
    Sample(MarketSnapshot("SPY", last, Some(last), Some(last), None, None, None, None, None, None, None,
                          false, 0.0, Some(age), Some(id), false, false), None)
  }

  /** A sample of this very moment loses to one five seconds old. */
  lemma AgeZeroLoses()
    ensures ByGroup([Quote("YAHOO", 101.0, 0.0), Quote("YAHOO", 100.0, 5.0)]).rows
         == map["YAHOO" := Quote("YAHOO", 100.0, 5.0)]
  {
    var now, late := Quote("YAHOO", 101.0, 0.0), Quote("YAHOO", 100.0, 5.0);
    assert [now, late][..1] == [now] && [now][..0] == [];
    assert Group(now) == "YAHOO" == Group(late) && Age(now) == OLDEST && Age(late) == 5.0;
    assert ByGroup([now]).rows == map["YAHOO" := now];
  }

  /* ---- the loop ---- */

  /** `resolve_market_authority`, with the dictionary filled row by row. */
  method ResolveMarketAuthority(rows: seq<Sample>, maxAge: real, maxDivergence: real, minimum: int)
    returns (a: Authority)
    ensures a == Resolve(rows, maxAge, maxDivergence, minimum)
  {
    hide Age, Group, Quorum, Freshest, Sort, Valid;
    var valid := ValidRows(rows, maxAge);
    if valid == [] {
      return Authority(NoSample, None, [], None);
    }
    var authoritative := AuthoritativeRows(valid);
    if authoritative != [] {
      var chosen := Freshest(authoritative);
      return Authority(FullMarket, Some(chosen.snapshot), [SourceName(chosen, "AUTHORITATIVE")], Some(0.0));
    }
    var order: seq<string>, byGroup: map<string, Sample> := [], map[];
    for i := 0 to |valid|
      invariant Groups(order, byGroup) == ByGroup(valid[..i])
    {
      assert valid[..i + 1][..i] == valid[..i];
      var row := valid[i];
      var group := Group(row);
      if group !in byGroup {
        order, byGroup := order + [group], byGroup[group := row];
      } else if Age(row) < Age(byGroup[group]) {
        byGroup := byGroup[group := row];
      }
    }
    assert valid[..|valid|] == valid;
    GroupsKeepFreshest(valid);
    QuorumRowsSound(valid, maxAge);
    a := Quorum(Independent(Groups(order, byGroup)), maxDivergence, minimum);
  }
}

/** Sums over keyed tables. */
module Tables {

  ghost function Pick<T(!new)>(s: set<T>): (k: T)
    requires s != {}
    ensures k in s
  {
    var k :| k in s;
    k
  }

  /** The total of `f` over the rows of a table. */
  ghost function Sum<T>(m: map<int, T>, f: T -> real): real
    decreases m.Keys
  {
    if m.Keys == {} then 0.0
    else
      var k := Pick(m.Keys);
      f(m[k]) + Sum(m - {k}, f)
  }

  lemma {:induction false} SumRemove<T>(m: map<int, T>, f: T -> real, k: int)
    requires k in m
    ensures Sum(m, f) == f(m[k]) + Sum(m - {k}, f)
    decreases m.Keys
  {
    var k0 := Pick(m.Keys);
    if k != k0 {
      SumRemove(m - {k0}, f, k);
      SumRemove(m - {k}, f, k0);
      assert m - {k0} - {k} == m - {k} - {k0};
    }
  }

  /** Writing a row replaces its old contribution. */
  lemma SumWrite<T>(m: map<int, T>, f: T -> real, k: int, v: T)
    ensures k !in m ==> Sum(m[k := v], f) == Sum(m, f) + f(v)
    ensures k in m ==> Sum(m[k := v], f) == Sum(m, f) - f(m[k]) + f(v)
  {
    SumRemove(m[k := v], f, k);
    assert m[k := v] - {k} == m - {k};
    if k in m {
      SumRemove(m, f, k);
    } else {
      assert m - {k} == m;
    }
  }

  lemma {:induction false} SumNonNegative<T>(m: map<int, T>, f: T -> real)
    requires forall k :: k in m ==> f(m[k]) >= 0.0
    ensures Sum(m, f) >= 0.0
    decreases m.Keys
  {
    if m.Keys != {} {
      SumNonNegative(m - {Pick(m.Keys)}, f);
    }
  }

  /** Tables whose rows contribute equally have equal totals. */
  lemma {:induction false} SumPointwise<T>(m: map<int, T>, n: map<int, T>, f: T -> real)
    requires m.Keys == n.Keys
    requires forall k :: k in m ==> f(m[k]) == f(n[k])
    ensures Sum(m, f) == Sum(n, f)
    decreases m.Keys
  {
    if m.Keys != {} {
      var k := Pick(m.Keys);
      SumPointwise(m - {k}, n - {k}, f);
    }
  }

  /** Rows that contribute nothing may be left out of a sum. */
  lemma {:induction false} SumRestrict<T>(m: map<int, T>, f: T -> real, s: set<int>)
    requires forall k :: k in m && k !in s ==> f(m[k]) == 0.0
    ensures Sum(m, f) == Sum(map k | k in m && k in s :: m[k], f)
    decreases m.Keys
  {
    var n := map k | k in m && k in s :: m[k];
    if m.Keys == {} {
      assert n.Keys == {};
    } else {
      var k := Pick(m.Keys);
      SumRestrict(m - {k}, f, s);
      if k in s {
        SumRemove(n, f, k);
        assert n - {k} == map j | j in m - {k} && j in s :: (m - {k})[j];
      } else {
        assert n == map j | j in m - {k} && j in s :: (m - {k})[j];
      }
    }
  }

  ghost predicate Ascending(ids: seq<int>) {
    forall i, j :: 0 <= i < j < |ids| ==> ids[i] < ids[j]
  }

  method Least(s: set<int>) returns (least: int)
    requires s != {}
    ensures least in s && forall k :: k in s ==> least <= k
  {
    ghost var p := Pick(s);
    least :| least in s;
    var rest := s - {least};
    while rest != {}
      invariant rest <= s && least in s
      invariant forall k :: k in s && k !in rest ==> least <= k
      decreases rest
    {
      p := Pick(rest);
      var k :| k in rest;
      if k < least {
        least := k;
      }
      rest := rest - {k};
    }
  }

  /** `sorted(keys)`. */
  method SortedKeys(keys: set<int>) returns (ids: seq<int>)
    ensures Ascending(ids) && forall k :: k in ids <==> k in keys
  {
    ids := [];
    var rest := keys;
    while rest != {}
      invariant rest <= keys && Ascending(ids)
      invariant forall i, k :: 0 <= i < |ids| && k in rest ==> ids[i] < k
      invariant forall k :: k in ids <==> k in keys - rest
      decreases rest
    {
      var k := Least(rest);
      ghost var before := ids;
      ids := ids + [k];
      assert forall d :: d in ids <==> d in before || d == k;
      rest := rest - {k};
    }
  }

  /** An ascending listing is determined by its elements. */
  lemma {:induction false} AscendingUnique(a: seq<int>, b: seq<int>)
    requires Ascending(a) && Ascending(b) && forall k :: k in a <==> k in b
    ensures a == b
    decreases |a|
  {
    assert a != [] ==> a[0] in a;
    assert b != [] ==> b[0] in b;
    if a != [] {
      assert a[0] == b[0];
      forall k ensures k in a[1..] <==> k in b[1..] {
        assert k in a <==> k == a[0] || k in a[1..];
        assert k in b <==> k == b[0] || k in b[1..];
      }
      AscendingUnique(a[1..], b[1..]);
      assert a == [a[0]] + a[1..] && b == [b[0]] + b[1..];
    }
  }
}

/**
 * The two columns of the query screens: "Latest Queries" are the active
 * ones and "Resolved Queries" the others, each sorted newest first by
 * `uploadedOn`. The sort here is an insertion sort; its contract is the
 * newest-first order and the permutation, not the order of equal times.
 * `stamp` is the time `new Date(query.uploadedOn)` stands for.
 */
module QueryBoard {
  import opened Json

  /** `filter(query => query.active)` for `active`, `filter(query => !query.active)` otherwise. */
  function FilterByActive(queries: seq<Obj>, active: bool): (r: seq<Obj>)
    ensures forall i :: 0 <= i < |r| ==> Truthy(Get(r[i], "active")) == active
    ensures forall i :: 0 <= i < |queries| && Truthy(Get(queries[i], "active")) == active ==> queries[i] in r
    ensures |r| <= |queries|
  {
    if queries == [] then []
    else
      var rest := FilterByActive(queries[1..], active);
      assert forall i :: 1 <= i < |queries| ==> queries[i] == queries[1..][i - 1];
      if Truthy(Get(queries[0], "active")) == active then [queries[0]] + rest else rest
  }

  /** Every query lands in exactly one of the two columns. */
  lemma {:induction false} FilterPartition(queries: seq<Obj>)
    ensures multiset(FilterByActive(queries, true)) + multiset(FilterByActive(queries, false)) == multiset(queries)
  {
    if queries != [] {
      FilterPartition(queries[1..]);
      assert queries == [queries[0]] + queries[1..];
    }
  }

  predicate NewestFirst(s: seq<Obj>, stamp: Obj -> int) {
    forall i, j :: 0 <= i < j < |s| ==> stamp(s[i]) >= stamp(s[j])
  }

  /** Puts `x` after every query at least as recent. */
  function InsertByDate(x: Obj, s: seq<Obj>, stamp: Obj -> int): (r: seq<Obj>)
    requires NewestFirst(s, stamp)
    ensures NewestFirst(r, stamp)
    ensures multiset(r) == multiset(s) + multiset{x}
    ensures |r| == |s| + 1
    ensures r != [] && (r[0] == x || (s != [] && r[0] == s[0]))
  {
    if s == [] then [x]
    else if stamp(s[0]) >= stamp(x) then
      var rest := InsertByDate(x, s[1..], stamp);
      KeepHeadFirst(s, x, rest, stamp);
      [s[0]] + rest
    else
      PutFirst(s, x, stamp);
      [x] + s
  }

  /** A query newer than the newest goes in front. */
  lemma PutFirst(s: seq<Obj>, x: Obj, stamp: Obj -> int)
    requires s != [] && NewestFirst(s, stamp) && stamp(s[0]) < stamp(x)
    ensures NewestFirst([x] + s, stamp)
  {
    forall i, j | 0 <= i < j < |s| + 1
      ensures stamp(([x] + s)[i]) >= stamp(([x] + s)[j])
    {
      if i == 0 {
        assert stamp(s[0]) >= stamp(s[j - 1]) || j == 1;
      }
    }
  }

  /** Putting the newest query back in front of the rest, with `x` inserted, keeps the order. */
  lemma KeepHeadFirst(s: seq<Obj>, x: Obj, rest: seq<Obj>, stamp: Obj -> int)
    requires s != [] && NewestFirst(s, stamp) && stamp(s[0]) >= stamp(x)
    requires NewestFirst(rest, stamp) && multiset(rest) == multiset(s[1..]) + multiset{x}
    requires rest != [] && (rest[0] == x || (|s| > 1 && rest[0] == s[1]))
    ensures NewestFirst([s[0]] + rest, stamp)
    ensures multiset([s[0]] + rest) == multiset(s) + multiset{x}
  {
    assert s == [s[0]] + s[1..];
    forall j | 0 <= j < |rest|
      ensures stamp(s[0]) >= stamp(rest[j])
    {
      assert stamp(rest[0]) >= stamp(rest[j]) || j == 0;
    }
  }

  /** `sort((a, b) => new Date(b.uploadedOn) - new Date(a.uploadedOn))`: newest first, the same queries. */
  function SortNewestFirst(s: seq<Obj>, stamp: Obj -> int): (r: seq<Obj>)
    ensures NewestFirst(r, stamp)
    ensures multiset(r) == multiset(s)
    ensures |r| == |s|
  {
    if s == [] then []
    else
      var init := s[..|s| - 1];
      assert s == init + [s[|s| - 1]];
      InsertByDate(s[|s| - 1], SortNewestFirst(init, stamp), stamp)
  }

  datatype Board = Board(latest: seq<Obj>, resolved: seq<Obj>)

  /**
   * `latestQueries` and `resolvedQueries`: each column is newest first,
   * holds only queries of its kind, and together they hold every query once.
   */
  function Columns(queries: seq<Obj>, stamp: Obj -> int): (b: Board)
    ensures NewestFirst(b.latest, stamp) && NewestFirst(b.resolved, stamp)
    ensures forall q :: q in b.latest ==> Truthy(Get(q, "active"))
    ensures forall q :: q in b.resolved ==> !Truthy(Get(q, "active"))
    ensures multiset(b.latest) + multiset(b.resolved) == multiset(queries)
  {
    var active := FilterByActive(queries, true);
    var inactive := FilterByActive(queries, false);
    FilterPartition(queries);
    var b := Board(SortNewestFirst(active, stamp), SortNewestFirst(inactive, stamp));
    assert forall q :: q in b.latest ==> q in multiset(active);
    assert forall q :: q in b.resolved ==> q in multiset(inactive);
    b
  }

  /** The filter keeps each query where it stood: it splits over concatenation, and one query is kept iff its flag matches. */
  lemma {:induction false} FilterByActiveAppend(a: seq<Obj>, b: seq<Obj>, active: bool)
    ensures FilterByActive(a + b, active) == FilterByActive(a, active) + FilterByActive(b, active)
  {
    if a == [] {
      assert a + b == b;
    } else {
      var v, rest := a[0], a[1..];
      assert a == [v] + rest && a + b == [v] + (rest + b);
      FilterByActiveCons(v, rest, active);
      FilterByActiveCons(v, rest + b, active);
      FilterByActiveAppend(rest, b, active);
    }
  }

  lemma FilterByActiveCons(v: Obj, s: seq<Obj>, active: bool)
    ensures FilterByActive([v] + s, active) == (if Truthy(Get(v, "active")) == active then [v] else []) + FilterByActive(s, active)
  {
    var t := [v] + s;
    assert t[0] == v && t[1..] == s;
  }

  lemma FilterByActiveOne(v: Obj, active: bool)
    ensures FilterByActive([v], active) == if Truthy(Get(v, "active")) == active then [v] else []
  {
    assert [v][1..] == [];
  }
}

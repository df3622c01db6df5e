/** Removing repeated values while keeping the order of first occurrence, as `[...new Set(values)]` does. */
module Unique {
  /** Index of the first occurrence of `v`. */
  function FirstIndex<T(==,!new)>(s: seq<T>, v: T): (k: nat)
    requires v in s
    ensures k < |s| && s[k] == v && v !in s[..k]
  {
    if s[0] == v then 0 else FirstIndex(s[1..], v) + 1
  }

  lemma FirstIndexPrefix<T(!new)>(s: seq<T>, x: T, v: T)
    requires v in s
    ensures v in s + [x] && FirstIndex(s + [x], v) == FirstIndex(s, v)
  {
    var k := FirstIndex(s, v);
    var t := s + [x];
    assert t[k] == v && t[..k] == s[..k];
    FirstIndexUnique(t, v, k);
  }

  lemma FirstIndexUnique<T(!new)>(s: seq<T>, v: T, k: nat)
    requires k < |s| && s[k] == v && v !in s[..k]
    ensures FirstIndex(s, v) == k
  {
    var m := FirstIndex(s, v);
    assert forall j :: 0 <= j < k ==> s[..k][j] == s[j];
    assert forall j :: 0 <= j < m ==> s[..m][j] == s[j];
    assert !(m < k) && !(k < m);
  }

  /**
   * `[...new Set(values)]`: each value once, in the order of its first
   * occurrence.
   */
  function Distinct<T(==,!new)>(values: seq<T>): (r: seq<T>)
    ensures forall v :: v in r <==> v in values
    ensures forall i, j :: 0 <= i < j < |r| ==> r[i] != r[j]
    ensures forall i, j :: 0 <= i < j < |r| ==> FirstIndex(values, r[i]) < FirstIndex(values, r[j])
  {
    if values == [] then []
    else
      var p := values[..|values| - 1];
      var x := values[|values| - 1];
      assert values == p + [x];
      var d := Distinct(p);
      forall v | v in p
        ensures FirstIndex(values, v) == FirstIndex(p, v)
      {
        FirstIndexPrefix(p, x, v);
      }
      if x in p then d
      else
        FirstIndexUnique(values, x, |p|);
        d + [x]
  }

  /** Concatenation regroups; stated once here so that callers with heavy element facts need not prove it. */
  lemma AppendAssoc<T>(a: seq<T>, b: seq<T>, c: seq<T>)
    ensures a + (b + c) == (a + b) + c
  {
  }
}

/**
 * The list updates every admin screen applies to its in-memory list of
 * records after the server acknowledges a change: set one field on the
 * records with a given id (the status toggle), replace the records with a
 * given id (an edit), and drop the records with a given id (a delete).
 * Records are compared on one id field with `===`.
 */
module ResourceLists {
  import opened Wrappers
  import opened Json

  /** The record's `idKey` field is `target`. */
  predicate Matches(o: Obj, idKey: string, target: Value) {
    Get(o, idKey) == target
  }

  /**
   * `items.map(o => o[idKey] === target ? { ...o, [field]: v } : o)`:
   * the list keeps its length, every record whose id matches has `field` set
   * to `v` with all its other fields kept, and every other record is unchanged.
   */
  function SetWhere(items: seq<Obj>, idKey: string, target: Value, field: string, v: Value): (r: seq<Obj>)
    ensures |r| == |items|
    ensures forall i :: 0 <= i < |items| && !Matches(items[i], idKey, target) ==> r[i] == items[i]
    ensures forall i :: 0 <= i < |items| && Matches(items[i], idKey, target) ==> r[i] == items[i][field := v]
  {
    if items == [] then []
    else
      var o := items[0];
      [if Matches(o, idKey, target) then o[field := v] else o] + SetWhere(items[1..], idKey, target, field, v)
  }

  /** When no record carries the id, setting a field on it changes nothing. */
  lemma SetWhereNoMatch(items: seq<Obj>, idKey: string, target: Value, field: string, v: Value)
    requires forall i :: 0 <= i < |items| ==> !Matches(items[i], idKey, target)
    ensures SetWhere(items, idKey, target, field, v) == items
  {
  }

  /** Setting a field and then setting it back to the value it held gives the record back. */
  lemma SetFieldBack(o: Obj, field: string, v: Value, u: Value)
    requires field in o && o[field] == u
    ensures o[field := v][field := u] == o
  {
    var back := o[field := v][field := u];
    assert back.Keys == o.Keys;
    assert forall k :: k in o ==> back[k] == o[k];
  }

  /**
   * Toggling back: when every matching record held `u` in `field`, setting it
   * to `v` and then back to `u` restores the list, provided `field` is not
   * the id field itself.
   */
  lemma SetWhereRestore(items: seq<Obj>, idKey: string, target: Value, field: string, v: Value, u: Value)
    requires field != idKey
    requires forall i :: 0 <= i < |items| && Matches(items[i], idKey, target) ==> field in items[i] && items[i][field] == u
    ensures SetWhere(SetWhere(items, idKey, target, field, v), idKey, target, field, u) == items
  {
    var once := SetWhere(items, idKey, target, field, v);
    var twice := SetWhere(once, idKey, target, field, u);
    forall i | 0 <= i < |items|
      ensures twice[i] == items[i]
    {
      if Matches(items[i], idKey, target) {
        assert once[i] == items[i][field := v];
        assert Matches(once[i], idKey, target);
        SetFieldBack(items[i], field, v, u);
      }
    }
  }

  /**
   * `items.map(o => o[idKey] === target ? replacement : o)`: same length,
   * matching records replaced, the others unchanged.
   */
  function ReplaceWhere(items: seq<Obj>, idKey: string, target: Value, replacement: Obj): (r: seq<Obj>)
    ensures |r| == |items|
    ensures forall i :: 0 <= i < |items| ==>
      r[i] == (if Matches(items[i], idKey, target) then replacement else items[i])
  {
    if items == [] then []
    else
      [if Matches(items[0], idKey, target) then replacement else items[0]]
        + ReplaceWhere(items[1..], idKey, target, replacement)
  }

  /** How many records carry the id. */
  function CountWhere(items: seq<Obj>, idKey: string, target: Value): (n: nat)
    ensures n <= |items|
  {
    if items == [] then 0
    else (if Matches(items[0], idKey, target) then 1 else 0) + CountWhere(items[1..], idKey, target)
  }

  /**
   * `items.filter(o => o[idKey] !== target)`: no record with the id is left,
   * every other record stays, and exactly the matching ones are gone.
   */
  function RemoveWhere(items: seq<Obj>, idKey: string, target: Value): (r: seq<Obj>)
    ensures |r| == |items| - CountWhere(items, idKey, target)
    ensures forall i :: 0 <= i < |r| ==> !Matches(r[i], idKey, target)
    ensures forall i :: 0 <= i < |items| && !Matches(items[i], idKey, target) ==> items[i] in r
    ensures multiset(r) <= multiset(items)
  {
    if items == [] then []
    else
      var rest := RemoveWhere(items[1..], idKey, target);
      assert items == [items[0]] + items[1..];
      if Matches(items[0], idKey, target) then rest else [items[0]] + rest
  }

  /** Removal keeps order: it works piece by piece over a concatenation. */
  lemma {:induction false} RemoveWhereAppend(a: seq<Obj>, b: seq<Obj>, idKey: string, target: Value)
    ensures RemoveWhere(a + b, idKey, target) == RemoveWhere(a, idKey, target) + RemoveWhere(b, idKey, target)
  {
    if a == [] {
      assert a + b == b;
    } else {
      var ab := a + b;
      assert ab[0] == a[0] && ab[1..] == a[1..] + b;
      RemoveWhereAppend(a[1..], b, idKey, target);
      var tail := RemoveWhere(a[1..], idKey, target) + RemoveWhere(b, idKey, target);
      if Matches(a[0], idKey, target) {
        assert RemoveWhere(ab, idKey, target) == tail;
      } else {
        assert RemoveWhere(ab, idKey, target) == [a[0]] + tail;
        assert [a[0]] + tail == ([a[0]] + RemoveWhere(a[1..], idKey, target)) + RemoveWhere(b, idKey, target);
      }
    }
  }

  /** Removing an id no record carries leaves the list as it was. */
  lemma {:induction false} RemoveWhereNoMatch(items: seq<Obj>, idKey: string, target: Value)
    requires forall i :: 0 <= i < |items| ==> !Matches(items[i], idKey, target)
    ensures RemoveWhere(items, idKey, target) == items
  {
    if items != [] {
      RemoveWhereNoMatch(items[1..], idKey, target);
    }
  }

  /** `k` is the index of the first record that carries the id. */
  predicate FirstMatch(items: seq<Obj>, idKey: string, target: Value, k: int) {
    0 <= k < |items| && Matches(items[k], idKey, target) &&
    forall j :: 0 <= j < k ==> !Matches(items[j], idKey, target)
  }

  /** There is at most one first match. */
  lemma FirstMatchUnique(items: seq<Obj>, idKey: string, target: Value, k: int, m: int)
    requires FirstMatch(items, idKey, target, k) && FirstMatch(items, idKey, target, m)
    ensures k == m
  {
    assert !(k < m) && !(m < k);
  }

  /**
   * `items.find(o => o[idKey] === target)`, as the index of the record
   * found: the first record that carries the id, or none when no record does.
   */
  function FindWhere(items: seq<Obj>, idKey: string, target: Value): (r: Option<nat>)
    ensures r.Some? ==> FirstMatch(items, idKey, target, r.value)
    ensures r.None? <==> forall j :: 0 <= j < |items| ==> !Matches(items[j], idKey, target)
  {
    if items == [] then None
    else if Matches(items[0], idKey, target) then Some(0)
    else
      match FindWhere(items[1..], idKey, target)
      case None => None
      case Some(k) => Some(k + 1)
  }

  /**
   * A field of the record `find` returns, or `absent` when it returns
   * `undefined`: with a first match at `k`, the field of `items[k]`.
   */
  function FieldOfFound(items: seq<Obj>, idKey: string, target: Value, field: string, absent: Value): (v: Value)
    ensures (forall j :: 0 <= j < |items| ==> !Matches(items[j], idKey, target)) ==> v == absent
    ensures forall k :: FirstMatch(items, idKey, target, k) ==> v == Get(items[k], field)
  {
    match FindWhere(items, idKey, target)
    case None => absent
    case Some(i) =>
      assert forall k :: FirstMatch(items, idKey, target, k) ==> k == i by {
        forall k | FirstMatch(items, idKey, target, k)
          ensures k == i
        {
          FirstMatchUnique(items, idKey, target, k, i);
        }
      }
      Get(items[i], field)
  }
}

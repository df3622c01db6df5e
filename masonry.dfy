/**
 * The masonry layout of both gallery components: item `i` is pushed onto
 * column `i % 4`.
 */
module Masonry {
  const ColumnCount := 4

  /** How many of `n` items land in column `c`. */
  function ColumnSize(n: nat, c: nat): nat
    requires c < ColumnCount
  {
    (n + ColumnCount - 1 - c) / ColumnCount
  }

  /** The columns hold every item exactly once, and their heights differ by at most one. */
  lemma ColumnSizes(n: nat)
    ensures ColumnSize(n, 0) + ColumnSize(n, 1) + ColumnSize(n, 2) + ColumnSize(n, 3) == n
    ensures forall c, d :: 0 <= c < d < ColumnCount ==> 0 <= ColumnSize(n, c) - ColumnSize(n, d) <= 1
  {
    var q, r := n / 4, n % 4;
    assert n == 4 * q + r;
    assert ColumnSize(n, 0) == q + (if r >= 1 then 1 else 0) by { assert n + 3 == 4 * q + (r + 3); }
    assert ColumnSize(n, 1) == q + (if r >= 2 then 1 else 0) by { assert n + 2 == 4 * q + (r + 2); }
    assert ColumnSize(n, 2) == q + (if r >= 3 then 1 else 0) by { assert n + 1 == 4 * q + (r + 1); }
    assert ColumnSize(n, 3) == q;
  }

  /** Growing the list by one item adds it to the end of column `n % 4`. */
  lemma ColumnSizeStep(n: nat, c: nat)
    requires c < ColumnCount
    ensures ColumnSize(n + 1, c) == ColumnSize(n, c) + (if n % ColumnCount == c then 1 else 0)
    ensures n % ColumnCount == c ==> n == ColumnCount * ColumnSize(n, c) + c
  {
    var q, r := n / 4, n % 4;
    assert n == 4 * q + r;
    assert n + 4 - c == 4 * q + (r + 4 - c);
    assert n + 1 + 4 - 1 - c == 4 * q + (r + 4 - c);
  }

  /**
   * `getColumns`: four columns, where position `k` of column `c` holds item
   * `4 * k + c`, so each column keeps the items' order.
   */
  method GetColumns<T>(items: seq<T>) returns (columns: seq<seq<T>>)
    ensures |columns| == ColumnCount
    ensures forall c :: 0 <= c < ColumnCount ==> |columns[c]| == ColumnSize(|items|, c)
    ensures forall c, k :: 0 <= c < ColumnCount && 0 <= k < |columns[c]| ==>
      ColumnCount * k + c < |items| && columns[c][k] == items[ColumnCount * k + c]
  {
    columns := [[], [], [], []];
    for i := 0 to |items|
      invariant |columns| == ColumnCount
      invariant forall c :: 0 <= c < ColumnCount ==> |columns[c]| == ColumnSize(i, c)
      invariant forall c, k :: 0 <= c < ColumnCount && 0 <= k < |columns[c]| ==>
        ColumnCount * k + c < i && columns[c][k] == items[ColumnCount * k + c]
    {
      var c := i % ColumnCount;
      forall d | 0 <= d < ColumnCount
        ensures ColumnSize(i + 1, d) == ColumnSize(i, d) + (if c == d then 1 else 0)
      {
        ColumnSizeStep(i, d);
      }
      ColumnSizeStep(i, c);
      columns := columns[c := columns[c] + [items[i]]];
    }
  }

  /** Every item is in the column its index names, at the row its index names. */
  lemma ItemPlacement<T>(items: seq<T>, columns: seq<seq<T>>, i: nat)
    requires |columns| == ColumnCount && i < |items|
    requires forall c :: 0 <= c < ColumnCount ==> |columns[c]| == ColumnSize(|items|, c)
    requires forall c, k :: 0 <= c < ColumnCount && 0 <= k < |columns[c]| ==>
      ColumnCount * k + c < |items| && columns[c][k] == items[ColumnCount * k + c]
    ensures i / ColumnCount < |columns[i % ColumnCount]|
    ensures columns[i % ColumnCount][i / ColumnCount] == items[i]
  {
    var c, k := i % 4, i / 4;
    assert i == 4 * k + c;
    assert |items| + 3 - c == 4 * k + (|items| - i) + 3;
  }
}

/**
 * The two shapes of table read the data layer issues: `select ... where <condition>`
 * (rows in no promised order) and `findMany({ where, orderBy })` (rows ordered by a
 * column). A table is a map from serial primary key to row, every row carrying its own
 * key (`idOf`); the database visits the keys in ascending order.
 */
module Query {
  import Sorting

  /** Every row is stored under its own key, and every key lies in `[0, bound)`. */
  ghost predicate KeyedTable<T>(m: map<int, T>, idOf: T -> int, bound: int) {
    forall k :: k in m ==> idOf(m[k]) == k && 0 <= k < bound
  }

  /** `x` is a row of the table. */
  predicate IsRow<T(==)>(m: map<int, T>, idOf: T -> int, x: T) {
    idOf(x) in m && m[idOf(x)] == x
  }

  method Select<T(==,!new)>(m: map<int, T>, idOf: T -> int, bound: int, where: T -> bool) returns (rows: seq<T>)
    requires KeyedTable(m, idOf, bound)
    ensures forall x :: x in rows <==> IsRow(m, idOf, x) && where(x)
    ensures Sorting.AtMostOnce(rows)
  {
    rows := [];
    var i := 0;
    while i < bound
      invariant forall x :: x in rows <==> IsRow(m, idOf, x) && where(x) && idOf(x) < i
      invariant Sorting.AtMostOnce(rows)
    {
      if i in m && where(m[i]) {
        assert multiset(rows)[m[i]] == 0;
        rows := rows + [m[i]];
      }
      i := i + 1;
    }
  }

  /** As `Select`, with the selected rows then ordered by `cmp` (the `orderBy` column). */
  method SelectOrdered<T(==,!new)>(m: map<int, T>, idOf: T -> int, bound: int, where: T -> bool, cmp: (T, T) -> int)
    returns (rows: seq<T>)
    requires KeyedTable(m, idOf, bound)
    requires Sorting.TotalPreorder(cmp)
    ensures forall x :: x in rows <==> IsRow(m, idOf, x) && where(x)
    ensures Sorting.AtMostOnce(rows)
    ensures Sorting.Sorted(rows, cmp)
  {
    var selected := Select(m, idOf, bound, where);
    rows := Sorting.Sort(selected, cmp);
    Sorting.SortIsOrderedPermutation(selected, cmp);
    forall x ensures x in rows <==> x in selected {
      assert x in rows <==> x in multiset(rows);
      assert x in selected <==> x in multiset(selected);
    }
  }
}

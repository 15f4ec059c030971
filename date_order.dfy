/**
 * Ordering of Tushare trade dates. The server sorts its frames with
 * `sort_values('trade_date')`; trade dates are strings, which Python orders
 * lexicographically by code point. The sort is modelled as an insertion
 * sort on that order; only what the server relies on is claimed of it:
 * the rows come out in non-decreasing date order and none is lost or added.
 */
module DateOrder {
  import opened Common

  /** Python's `a <= b` on `str`. */
  predicate StrLe(a: string, b: string)
  {
    |a| == 0 || (|b| > 0 && (a[0] < b[0] || (a[0] == b[0] && StrLe(a[1..], b[1..]))))
  }

  lemma {:induction false} StrLeTotal(a: string, b: string)
    ensures StrLe(a, b) || StrLe(b, a)
  {
    if |a| > 0 && |b| > 0 && a[0] == b[0] {
      StrLeTotal(a[1..], b[1..]);
    }
  }

  lemma {:induction false} StrLeTransitive(a: string, b: string, c: string)
    requires StrLe(a, b) && StrLe(b, c)
    ensures StrLe(a, c)
  {
    if |a| > 0 && a[0] == b[0] && b[0] == c[0] {
      StrLeTransitive(a[1..], b[1..], c[1..]);
    }
  }

  /** A sequence of dates in non-decreasing order. */
  predicate NonDecreasing(ds: seq<string>)
  {
    forall i, j :: 0 <= i < j < |ds| ==> StrLe(ds[i], ds[j])
  }

  /** Rows in non-decreasing order of `key`. */
  predicate SortedBy<T>(rows: seq<T>, key: T -> string)
  {
    forall i, j :: 0 <= i < j < |rows| ==> StrLe(key(rows[i]), key(rows[j]))
  }

  /** Places `x` before the first row whose key is not below its own. */
  function Insert<T>(x: T, rows: seq<T>, key: T -> string): (r: seq<T>)
    ensures multiset(r) == multiset(rows) + multiset{x}
    ensures SortedBy(rows, key) ==> SortedBy(r, key)
    decreases rows
  {
    if rows == [] then [x]
    else if StrLe(key(x), key(rows[0])) then
      InsertInFront(x, rows, key);
      [x] + rows
    else
      var tail := Insert(x, rows[1..], key);
      assert rows == [rows[0]] + rows[1..];
      InsertBehind(x, rows, tail, key);
      [rows[0]] + tail
  }

  lemma InsertInFront<T>(x: T, rows: seq<T>, key: T -> string)
    requires rows != [] && StrLe(key(x), key(rows[0]))
    ensures SortedBy(rows, key) ==> SortedBy([x] + rows, key)
  {
    if SortedBy(rows, key) {
      var r := [x] + rows;
      forall i, j | 0 <= i < j < |r| ensures StrLe(key(r[i]), key(r[j])) {
        if i == 0 && j > 1 {
          StrLeTransitive(key(x), key(rows[0]), key(rows[j - 1]));
        }
      }
    }
  }

  lemma InsertBehind<T>(x: T, rows: seq<T>, tail: seq<T>, key: T -> string)
    requires rows != [] && !StrLe(key(x), key(rows[0]))
    requires multiset(tail) == multiset(rows[1..]) + multiset{x}
    requires SortedBy(rows[1..], key) ==> SortedBy(tail, key)
    ensures SortedBy(rows, key) ==> SortedBy([rows[0]] + tail, key)
  {
    if SortedBy(rows, key) {
      var r := [rows[0]] + tail;
      assert SortedBy(rows[1..], key);
      StrLeTotal(key(x), key(rows[0]));
      forall i, j | 0 <= i < j < |r| ensures StrLe(key(r[i]), key(r[j])) {
        if i == 0 {
          var y := tail[j - 1];
          assert y in multiset(tail);
          if y != x {
            assert y in multiset(rows[1..]);
            var k :| 0 <= k < |rows[1..]| && rows[1..][k] == y;
            assert rows[k + 1] == y;
          }
        } else {
          assert r[i] == tail[i - 1] && r[j] == tail[j - 1];
        }
      }
    }
  }

  /** A sorted frame's key column is a non-decreasing list of dates. */
  lemma SortedKeyColumn<T>(rows: seq<T>, key: T -> string)
    requires SortedBy(rows, key)
    ensures NonDecreasing(Map(key, rows))
  {
  }

  /** `frame.sort_values(key)`: a permutation of `rows` in non-decreasing key order. */
  function SortBy<T>(rows: seq<T>, key: T -> string): (r: seq<T>)
    ensures multiset(r) == multiset(rows)
    ensures SortedBy(r, key)
  {
    if rows == [] then []
    else
      assert rows == [rows[0]] + rows[1..];
      Insert(rows[0], SortBy(rows[1..], key), key)
  }

  /**
   * Taking a column of the sorted frame gives the same multiset of values
   * as taking it from the unsorted one: no row is dropped or duplicated.
   */
  lemma {:induction false} SortKeepsColumn<T, U>(rows: seq<T>, key: T -> string, column: T -> U)
    ensures multiset(Map(column, SortBy(rows, key))) == multiset(Map(column, rows))
  {
    if rows != [] {
      SortKeepsColumn(rows[1..], key, column);
      InsertKeepsColumn(rows[0], SortBy(rows[1..], key), key, column);
      assert Map(column, rows) == [column(rows[0])] + Map(column, rows[1..]);
    }
  }

  lemma {:induction false} InsertKeepsColumn<T, U>(x: T, rows: seq<T>, key: T -> string, column: T -> U)
    ensures multiset(Map(column, Insert(x, rows, key))) == multiset(Map(column, rows)) + multiset{column(x)}
    decreases rows
  {
    if rows == [] {
    } else if StrLe(key(x), key(rows[0])) {
      assert Map(column, [x] + rows) == [column(x)] + Map(column, rows);
    } else {
      InsertKeepsColumn(x, rows[1..], key, column);
      assert Map(column, [rows[0]] + Insert(x, rows[1..], key)) == [column(rows[0])] + Map(column, Insert(x, rows[1..], key));
      assert Map(column, rows) == [column(rows[0])] + Map(column, rows[1..]);
    }
  }
}

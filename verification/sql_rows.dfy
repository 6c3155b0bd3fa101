/**
 * What the SQL engine does to the rows of a table before the store's code
 * sees them: `WHERE` (a filter that keeps table order), `ORDER BY <column>
 * DESC` (newest first) and `LIMIT` (SQLite reads a negative limit as no
 * limit). Ties in the ordering column come out in an order SQLite does not
 * promise, so the contracts say nothing about them.
 */
module SqlRows {

  /** Rows ordered by a timestamp column, newest first. */
  predicate NewestFirst<T>(rows: seq<T>, key: T -> int) {
    forall i, j :: 0 <= i < j < |rows| ==> key(rows[i]) >= key(rows[j])
  }

  /** Places one row into a newest-first list. */
  function InsertNewestFirst<T(==)>(x: T, rows: seq<T>, key: T -> int): (r: seq<T>)
    requires NewestFirst(rows, key)
    ensures NewestFirst(r, key)
    ensures multiset(r) == multiset(rows) + multiset{x}
    ensures r[0] == x || (rows != [] && r[0] == rows[0])
    decreases |rows|
  {
    if rows == [] || key(x) >= key(rows[0]) then
      [x] + rows
    else
      var tail := InsertNewestFirst(x, rows[1..], key);
      assert rows == [rows[0]] + rows[1..];
      assert key(rows[0]) >= key(tail[0]);
      [rows[0]] + tail
  }

  /** `ORDER BY key DESC`: the same rows, newest first. */
  function SortNewestFirst<T(==)>(rows: seq<T>, key: T -> int): (r: seq<T>)
    ensures NewestFirst(r, key)
    ensures multiset(r) == multiset(rows)
    decreases |rows|
  {
    if rows == [] then []
    else
      assert rows == [rows[0]] + rows[1..];
      InsertNewestFirst(rows[0], SortNewestFirst(rows[1..], key), key)
  }

  /** `LIMIT n`: the first n rows; a negative n keeps them all. */
  function Limit<T>(rows: seq<T>, n: int): (r: seq<T>)
    ensures n >= 0 ==> |r| <= n
    ensures n < 0 || n >= |rows| ==> r == rows
    ensures r == rows[..|r|]
    ensures |r| == if n < 0 || n >= |rows| then |rows| else n
    ensures multiset(r) <= multiset(rows)
  {
    if n < 0 || n >= |rows| then rows
    else
      assert rows == rows[..n] + rows[n..];
      rows[..n]
  }

  /** `WHERE p`: the rows that satisfy p, in table order. */
  function Where<T(==,!new)>(rows: seq<T>, p: T -> bool): (r: seq<T>)
    ensures |r| <= |rows|
    ensures forall x :: x in r <==> x in rows && p(x)
    decreases |rows|
  {
    if rows == [] then []
    else
      var init := Where(rows[..|rows| - 1], p);
      var last := rows[|rows| - 1];
      assert rows == rows[..|rows| - 1] + [last];
      if p(last) then init + [last] else init
  }

  /** No row appears twice. */
  predicate Distinct<T(==)>(rows: seq<T>) {
    forall i, j :: 0 <= i < j < |rows| ==> rows[i] != rows[j]
  }

  /** A distinct list holds each row at most once. */
  lemma {:induction false} DistinctCounts<T>(rows: seq<T>)
    requires Distinct(rows)
    ensures forall x :: multiset(rows)[x] <= 1
    decreases |rows|
  {
    if rows != [] {
      var tail := rows[1..];
      assert rows == [rows[0]] + tail;
      assert Distinct(tail) by {
        forall i, j | 0 <= i < j < |tail| ensures tail[i] != tail[j] {
          assert tail[i] == rows[i + 1] && tail[j] == rows[j + 1];
        }
      }
      DistinctCounts(tail);
      assert rows[0] !in tail by {
        forall k | 0 <= k < |tail| ensures tail[k] != rows[0] {
          assert tail[k] == rows[k + 1];
        }
      }
    }
  }

  /** A list that holds each row at most once is distinct. */
  lemma CountsDistinct<T>(rows: seq<T>)
    requires forall x :: multiset(rows)[x] <= 1
    ensures Distinct(rows)
  {
    forall i, j | 0 <= i < j < |rows| ensures rows[i] != rows[j] {
      var front, back := rows[..j], rows[j..];
      assert rows == front + back;
      assert rows[i] == front[i] && rows[j] == back[0];
      assert multiset(front)[rows[i]] >= 1 && multiset(back)[rows[j]] >= 1;
      assert multiset(rows)[rows[j]] == multiset(front)[rows[j]] + multiset(back)[rows[j]];
    }
  }

  /** Taking some of the rows of a distinct list, in any order, gives a distinct list. */
  lemma FewerStayDistinct<T>(fewer: seq<T>, rows: seq<T>)
    requires multiset(fewer) <= multiset(rows) && Distinct(rows)
    ensures Distinct(fewer)
  {
    DistinctCounts(rows);
    CountsDistinct(fewer);
  }

  /**
   * The `rows.Next()` loop of a query: reads the rows in order, skipping
   * every row that cannot be scanned.
   */
  method ReadRows<T(!new)>(rows: seq<T>, readable: T -> bool) returns (found: seq<T>)
    ensures found == Where(rows, readable)
  {
    found := [];
    var i := 0;
    while i < |rows|
      invariant 0 <= i <= |rows|
      invariant found == Where(rows[..i], readable)
    {
      WhereAppend(rows[..i], rows[i], readable);
      assert rows[..i + 1] == rows[..i] + [rows[i]];
      if readable(rows[i]) {
        found := found + [rows[i]];
      }
      i := i + 1;
    }
    assert rows[..i] == rows;
  }

  /** Filtering a list extended by one row extends the filtered list by that row if it passes. */
  lemma WhereAppend<T(!new)>(rows: seq<T>, x: T, p: T -> bool)
    ensures Where(rows + [x], p) == Where(rows, p) + (if p(x) then [x] else [])
  {
    assert (rows + [x])[..|rows + [x]| - 1] == rows;
  }

  /** A filter returns no row more often than the list it filters holds it. */
  lemma {:induction false} WhereFewer<T(!new)>(rows: seq<T>, p: T -> bool)
    ensures multiset(Where(rows, p)) <= multiset(rows)
    decreases |rows|
  {
    if rows != [] {
      var front := rows[..|rows| - 1];
      assert rows == front + [rows[|rows| - 1]];
      WhereFewer(front, p);
    }
  }

  /** A filter keeps the newest-first order of what it filters. */
  lemma {:induction false} WhereKeepsOrder<T(!new)>(rows: seq<T>, p: T -> bool, key: T -> int)
    requires NewestFirst(rows, key)
    ensures NewestFirst(Where(rows, p), key)
    decreases |rows|
  {
    if rows != [] {
      var front := rows[..|rows| - 1];
      var last := rows[|rows| - 1];
      assert NewestFirst(front, key);
      WhereKeepsOrder(front, p, key);
      var init := Where(front, p);
      if p(last) {
        forall i | 0 <= i < |init| ensures key(init[i]) >= key(last) {
          assert init[i] in front;
        }
      }
    }
  }

  /**
   * A newest-first query with a limit, whose rows are then read one by one
   * skipping those that cannot be read: what comes back is newest first,
   * within the limit, readable rows of the table only, all of them when the
   * limit does not bite, and never older than a readable row left out.
   */
  lemma SelectNewest<T(!new)>(table: seq<T>, key: T -> int, limit: int, readable: T -> bool)
    ensures var r := Where(Limit(SortNewestFirst(table, key), limit), readable);
      && NewestFirst(r, key)
      && (limit >= 0 ==> |r| <= limit)
      && (forall x :: x in r ==> x in table && readable(x))
      && ((limit < 0 || limit >= |table|) ==> forall x :: x in table && readable(x) ==> x in r)
      && (forall x, y :: x in table && readable(x) && x !in r && y in r ==> key(y) >= key(x))
      && ((forall x :: x in table ==> readable(x)) ==>
            |r| == (if limit < 0 || limit >= |table| then |table| else limit))
  {
    var sorted := SortNewestFirst(table, key);
    SortedSameRows(table, key);
    PrefixKeepsOrder(sorted, limit, key);
    WhereKeepsOrder(Limit(sorted, limit), readable, key);
    LeftOutIsOlder(sorted, limit, readable, key);
    if forall x :: x in table ==> readable(x) {
      WhereAllPass(Limit(sorted, limit), readable);
    }
  }

  /**
   * A newest-first query with a limit, read skipping unreadable rows,
   * returns no row more often than the table holds it.
   */
  lemma SelectedFewer<T(!new)>(table: seq<T>, key: T -> int, limit: int, readable: T -> bool)
    ensures multiset(Where(Limit(SortNewestFirst(table, key), limit), readable)) <= multiset(table)
  {
    WhereFewer(Limit(SortNewestFirst(table, key), limit), readable);
  }

  /**
   * What a newest-first query with a limit hands to the row loop: newest
   * first, drawn from the table, exactly `limit` rows when the table has
   * more (all of them otherwise), and no row it leaves out is newer than a
   * row it hands over. Ties may be broken either way.
   */
  lemma LimitedRead<T(!new)>(table: seq<T>, key: T -> int, limit: int)
    ensures var read := Limit(SortNewestFirst(table, key), limit);
      && NewestFirst(read, key)
      && multiset(read) <= multiset(table)
      && |read| == (if limit < 0 || limit >= |table| then |table| else limit)
      && forall x, y :: x in multiset(table) - multiset(read) && y in read ==> key(y) >= key(x)
  {
    var sorted := SortNewestFirst(table, key);
    PrefixKeepsOrder(sorted, limit, key);
    CutRowsAreOlder(sorted, limit, key);
    assert multiset(table) == multiset(sorted);
  }

  /** The rows a limit cuts from a newest-first list are no newer than those it keeps. */
  lemma CutRowsAreOlder<T>(sorted: seq<T>, limit: int, key: T -> int)
    requires NewestFirst(sorted, key)
    ensures var read := Limit(sorted, limit);
      forall x, y :: x in multiset(sorted) - multiset(read) && y in read ==> key(y) >= key(x)
  {
    var read := Limit(sorted, limit);
    var rest := sorted[|read|..];
    assert sorted == read + rest;
    assert multiset(sorted) - multiset(read) == multiset(rest);
    forall x, y | x in multiset(sorted) - multiset(read) && y in read ensures key(y) >= key(x) {
      assert x in rest;
      var j :| 0 <= j < |rest| && rest[j] == x;
      var i :| 0 <= i < |read| && read[i] == y;
      assert sorted[i] == y && sorted[|read| + j] == x;
    }
  }

  /** A filter that every row passes keeps every row. */
  lemma {:induction false} WhereAllPass<T(!new)>(rows: seq<T>, p: T -> bool)
    requires forall x :: x in rows ==> p(x)
    ensures Where(rows, p) == rows
    decreases |rows|
  {
    if rows != [] {
      var front := rows[..|rows| - 1];
      assert rows == front + [rows[|rows| - 1]];
      WhereAllPass(front, p);
    }
  }

  /** Sorting keeps the number of rows and which rows there are. */
  lemma SortedSameRows<T(!new)>(table: seq<T>, key: T -> int)
    ensures |SortNewestFirst(table, key)| == |table|
    ensures forall x :: x in SortNewestFirst(table, key) <==> x in table
  {
    var sorted := SortNewestFirst(table, key);
    assert |multiset(sorted)| == |multiset(table)|;
    forall x ensures x in sorted <==> x in table {
      assert x in sorted <==> x in multiset(sorted);
      assert x in table <==> x in multiset(table);
    }
  }

  /** A limit keeps the newest-first order. */
  lemma PrefixKeepsOrder<T>(sorted: seq<T>, limit: int, key: T -> int)
    requires NewestFirst(sorted, key)
    ensures NewestFirst(Limit(sorted, limit), key)
  {
    var rows := Limit(sorted, limit);
    assert forall j :: 0 <= j < |rows| ==> rows[j] == sorted[j];
  }

  /** A readable row that a limited newest-first read leaves out is no newer than any row it returns. */
  lemma LeftOutIsOlder<T(!new)>(sorted: seq<T>, limit: int, readable: T -> bool, key: T -> int)
    requires NewestFirst(sorted, key)
    ensures var r := Where(Limit(sorted, limit), readable);
      forall x, y :: x in sorted && readable(x) && x !in r && y in r ==> key(y) >= key(x)
  {
    var rows := Limit(sorted, limit);
    var r := Where(rows, readable);
    forall x, y | x in sorted && readable(x) && x !in r && y in r ensures key(y) >= key(x) {
      var i :| 0 <= i < |rows| && rows[i] == y;
      var j :| 0 <= j < |sorted| && sorted[j] == x;
      assert x !in rows;
      assert sorted[i] == y;
    }
  }
}

/**
 * The listing queries' semantics: `SELECT ... WHERE ... ORDER BY created_at DESC
 * LIMIT limit OFFSET skip`. The WHERE clauses apply before ordering and paging, whatever
 * order the query builder's methods were called in.
 */
module Query {

  /** The rows that satisfy `keep`, in their original order. */
  function Filter<T>(rows: seq<T>, keep: T -> bool): (r: seq<T>)
    ensures |r| <= |rows|
  {
    if rows == [] then []
    else (if keep(rows[0]) then [rows[0]] else []) + Filter(rows[1..], keep)
  }

  /** Newest first: keys never increase along the sequence. */
  predicate SortedDesc<T>(rows: seq<T>, key: T -> int)
  {
    forall i, j | 0 <= i < j < |rows| :: key(rows[i]) >= key(rows[j])
  }

  /** Places `x` before the first row whose key is not greater than its own. */
  function Insert<T>(x: T, rows: seq<T>, key: T -> int): (r: seq<T>)
  {
    if rows == [] || key(x) >= key(rows[0]) then [x] + rows
    else [rows[0]] + Insert(x, rows[1..], key)
  }

  /** `ORDER BY key DESC`, stable among equal keys. */
  function SortDesc<T>(rows: seq<T>, key: T -> int): (r: seq<T>)
  {
    if rows == [] then [] else Insert(rows[0], SortDesc(rows[1..], key), key)
  }

  /** `OFFSET skip LIMIT limit` as SQLite reads them: a negative offset is zero, a negative limit is no limit. */
  function Window<T>(rows: seq<T>, skip: int, limit: int): (r: seq<T>)
  {
    var from := if skip < 0 then 0 else if skip > |rows| then |rows| else skip;
    var to := if limit < 0 || from + limit > |rows| then |rows| else from + limit;
    rows[from..to]
  }

  /** The whole query. */
  function Listing<T>(rows: seq<T>, keep: T -> bool, key: T -> int, skip: int, limit: int): seq<T>
  {
    Window(SortDesc(Filter(rows, keep), key), skip, limit)
  }

  // ---------------------------------------------------------------------------
  // Filter

  /** The filter keeps exactly the rows that satisfy the condition, each as often as it occurs. */
  lemma {:induction false} FilterContents<T>(rows: seq<T>, keep: T -> bool)
    ensures forall x | x in Filter(rows, keep) :: x in rows && keep(x)
    ensures forall x | x in rows && keep(x) :: x in Filter(rows, keep)
    ensures forall x | keep(x) :: multiset(Filter(rows, keep))[x] == multiset(rows)[x]
  {
    if rows != [] {
      FilterContents(rows[1..], keep);
      assert rows == [rows[0]] + rows[1..];
      assert multiset(rows) == multiset([rows[0]]) + multiset(rows[1..]);
    }
  }

  // ---------------------------------------------------------------------------
  // Sorting

  lemma {:induction false} InsertContents<T>(x: T, rows: seq<T>, key: T -> int)
    ensures multiset(Insert(x, rows, key)) == multiset{x} + multiset(rows)
  {
    if rows != [] && key(x) < key(rows[0]) {
      InsertContents(x, rows[1..], key);
      assert rows == [rows[0]] + rows[1..];
    }
  }

  lemma {:induction false} InsertMembers<T>(x: T, rows: seq<T>, key: T -> int)
    ensures forall y | y in Insert(x, rows, key) :: y == x || y in rows
  {
    if rows != [] && key(x) < key(rows[0]) {
      InsertMembers(x, rows[1..], key);
    }
  }

  lemma {:induction false} InsertSorted<T>(x: T, rows: seq<T>, key: T -> int)
    requires SortedDesc(rows, key)
    ensures SortedDesc(Insert(x, rows, key), key)
  {
    if rows != [] && key(x) < key(rows[0]) {
      var tail := rows[1..];
      InsertSorted(x, tail, key);
      InsertMembers(x, tail, key);
      var t := Insert(x, tail, key);
      forall y | y in t
        ensures key(rows[0]) >= key(y)
      {
        if y != x {
          var m :| 0 <= m < |tail| && tail[m] == y;
          assert tail[m] == rows[m + 1];
        }
      }
    }
  }

  /** Sorting orders the rows newest first and neither loses nor adds any. */
  lemma {:induction false} SortDescCorrect<T>(rows: seq<T>, key: T -> int)
    ensures SortedDesc(SortDesc(rows, key), key)
    ensures multiset(SortDesc(rows, key)) == multiset(rows)
  {
    if rows != [] {
      SortDescCorrect(rows[1..], key);
      InsertSorted(rows[0], SortDesc(rows[1..], key), key);
      InsertContents(rows[0], SortDesc(rows[1..], key), key);
      assert rows == [rows[0]] + rows[1..];
    }
  }

  // ---------------------------------------------------------------------------
  // Paging

  /** The page is the slice after the first `skip` rows, at most `limit` long when a limit is given. */
  lemma WindowShape<T>(rows: seq<T>, skip: int, limit: int)
    ensures var r := Window(rows, skip, limit);
      && (0 <= limit ==> |r| <= limit)
      && (0 <= skip <= |rows| ==> r <= rows[skip..])
      && (skip <= 0 && (limit < 0 || |rows| <= limit) ==> r == rows)
      && (|rows| <= skip ==> r == [])
  {
  }

  /** Consecutive pages of the same size cover the rows in order. */
  lemma WindowPages<T>(rows: seq<T>, skip: nat, size: nat)
    ensures Window(rows, skip, size) + Window(rows, skip + size, size) == Window(rows, skip, 2 * size)
  {
  }

  // ---------------------------------------------------------------------------
  // The whole query

  /**
   * Every row returned satisfies the filter and comes from the table; the rows are
   * newest first; a page holds at most `limit` rows; and asking for everything returns
   * each matching row exactly as often as the table holds it.
   */
  lemma ListingCorrect<T>(rows: seq<T>, keep: T -> bool, key: T -> int, skip: int, limit: int)
    ensures var r := Listing(rows, keep, key, skip, limit);
      && (forall x | x in r :: x in rows && keep(x))
      && SortedDesc(r, key)
      && (0 <= limit ==> |r| <= limit)
      && (skip <= 0 && limit < 0 ==> multiset(r) == multiset(Filter(rows, keep)))
  {
    var f := Filter(rows, keep);
    var s := SortDesc(f, key);
    FilterContents(rows, keep);
    SortDescCorrect(f, key);
    WindowShape(s, skip, limit);
    var r := Listing(rows, keep, key, skip, limit);
    forall x | x in r
      ensures x in rows && keep(x)
    {
      assert x in multiset(s);
    }
  }

  /** With no paging, a row is listed exactly when it is in the table and satisfies the filter. */
  lemma ListingMembers<T>(rows: seq<T>, keep: T -> bool, key: T -> int, x: T)
    ensures x in Listing(rows, keep, key, 0, -1) <==> x in rows && keep(x)
  {
    var f := Filter(rows, keep);
    FilterContents(rows, keep);
    SortDescCorrect(f, key);
    WindowShape(SortDesc(f, key), 0, -1);
    assert x in SortDesc(f, key) <==> x in multiset(SortDesc(f, key));
    assert x in f <==> x in multiset(f);
  }
}

/**
 * Rows of the input table and the two row operations the preprocessing uses:
 * sorting by timestamp and keeping the rows whose timestamp passes a test.
 * Timestamps are modelled as integers (e.g. seconds since an epoch).
 */
module Series {

  /** One row of the input table: a timestamp and the raw interest rate observed then. */
  datatype Row = Row(timestamp: int, rate: real)

  /** Timestamps do not decrease along the sequence. */
  ghost predicate SortedByTime(s: seq<Row>) {
    forall i, j :: 0 <= i < j < |s| ==> s[i].timestamp <= s[j].timestamp
  }

  /** `x` can be placed in front of every row of `s` without breaking the order. */
  ghost predicate AtOrBefore(x: Row, s: seq<Row>) {
    forall k :: 0 <= k < |s| ==> x.timestamp <= s[k].timestamp
  }

  /** A row no later than the first row of a time-sorted table can be put in front of it. */
  lemma ConsSorted(x: Row, t: seq<Row>)
    requires SortedByTime(t)
    requires |t| == 0 || x.timestamp <= t[0].timestamp
    ensures SortedByTime([x] + t)
  {
    var r := [x] + t;
    forall i, j | 0 <= i < j < |r|
      ensures r[i].timestamp <= r[j].timestamp
    {
      if i == 0 {
        assert r[j] == t[j - 1];
      } else {
        assert r[i] == t[i - 1] && r[j] == t[j - 1];
      }
    }
  }

  /** Inserts `x` into the time-sorted `s` in front of the first row not earlier than it. */
  function Insert(x: Row, s: seq<Row>): (r: seq<Row>)
    requires SortedByTime(s)
    ensures |r| == |s| + 1
    ensures r[0] == x || (|s| > 0 && r[0] == s[0])
    ensures SortedByTime(r)
    ensures multiset(r) == multiset(s) + multiset{x}
  {
    if |s| == 0 then [x]
    else if x.timestamp <= s[0].timestamp then
      ConsSorted(x, s);
      [x] + s
    else
      assert s == [s[0]] + s[1..];
      var tail := Insert(x, s[1..]);
      ConsSorted(s[0], tail);
      [s[0]] + tail
  }

  /**
   * The table sorted by timestamp (the index sort done before any range
   * filter in the continuous environment): a time-ordered permutation.
   */
  function SortByTime(rows: seq<Row>): (r: seq<Row>)
    ensures SortedByTime(r)
    ensures multiset(r) == multiset(rows)
    ensures |r| == |rows|
  {
    if |rows| == 0 then []
    else
      assert rows == [rows[0]] + rows[1..];
      Insert(rows[0], SortByTime(rows[1..]))
  }

  /** Sorting a table that is already in time order changes nothing. */
  lemma {:induction false} SortSortedIsIdentity(rows: seq<Row>)
    requires SortedByTime(rows)
    ensures SortByTime(rows) == rows
  {
    if |rows| > 0 {
      SortSortedIsIdentity(rows[1..]);
      assert SortByTime(rows[1..]) == rows[1..];
    }
  }

  /** A test on timestamps, as the range filters of the preprocessing apply them. */
  datatype TimeTest =
    | Always                          // no bound configured
    | NotBefore(bound: int)           // t >= bound
    | After(bound: int)               // t > bound
    | Before(bound: int)              // t < bound
    | Both(first: TimeTest, second: TimeTest)

  /** Whether timestamp `t` passes `test`. */
  predicate Passes(test: TimeTest, t: int) {
    match test
    case Always => true
    case NotBefore(b) => t >= b
    case After(b) => t > b
    case Before(b) => t < b
    case Both(p, q) => Passes(p, t) && Passes(q, t)
  }

  /** The rows whose timestamp passes `test`, in their original order. */
  function Keep(rows: seq<Row>, test: TimeTest): (r: seq<Row>)
    ensures forall k :: 0 <= k < |r| ==> Passes(test, r[k].timestamp)
    ensures |r| <= |rows|
  {
    if |rows| == 0 then []
    else
      assert rows == [rows[0]] + rows[1..];
      (if Passes(test, rows[0].timestamp) then [rows[0]] else []) + Keep(rows[1..], test)
  }

  /**
   * Filtering is a homomorphism of concatenation: it processes the table
   * row by row and never reorders what it keeps.
   */
  lemma {:induction false} KeepAppend(a: seq<Row>, b: seq<Row>, test: TimeTest)
    ensures Keep(a + b, test) == Keep(a, test) + Keep(b, test)
  {
    if |a| > 0 {
      assert (a + b)[1..] == a[1..] + b;
      KeepAppend(a[1..], b, test);
    } else {
      assert a + b == b;
    }
  }

  /** Each row of the table occurs in the filtered table exactly as often as before, or not at all. */
  lemma {:induction false} KeepCounts(rows: seq<Row>, test: TimeTest, x: Row)
    ensures multiset(Keep(rows, test))[x] == if Passes(test, x.timestamp) then multiset(rows)[x] else 0
  {
    if |rows| > 0 {
      KeepCounts(rows[1..], test, x);
      assert rows == [rows[0]] + rows[1..];
    }
  }

  /** A row no later than every row of a table is no later than every row it keeps. */
  lemma {:induction false} KeepAtOrBefore(y: Row, rows: seq<Row>, test: TimeTest)
    requires AtOrBefore(y, rows)
    ensures AtOrBefore(y, Keep(rows, test))
  {
    if |rows| > 0 {
      KeepAtOrBefore(y, rows[1..], test);
    }
  }

  /** Filtering a time-sorted table leaves it time-sorted. */
  lemma {:induction false} KeepSorted(rows: seq<Row>, test: TimeTest)
    requires SortedByTime(rows)
    ensures SortedByTime(Keep(rows, test))
  {
    if |rows| > 0 {
      KeepSorted(rows[1..], test);
      KeepAtOrBefore(rows[0], rows[1..], test);
      ConsSorted(rows[0], Keep(rows[1..], test));
    }
  }

  /** Filtering with a test every timestamp passes changes nothing. */
  lemma {:induction false} KeepAlways(rows: seq<Row>)
    ensures Keep(rows, Always) == rows
  {
    if |rows| > 0 {
      KeepAlways(rows[1..]);
      assert rows == [rows[0]] + rows[1..];
    }
  }

  /** Two filters in a row keep exactly the rows that pass both tests. */
  lemma {:induction false} KeepKeep(rows: seq<Row>, p: TimeTest, q: TimeTest)
    ensures Keep(Keep(rows, p), q) == Keep(rows, Both(p, q))
  {
    if |rows| > 0 {
      KeepKeep(rows[1..], p, q);
      var head := if Passes(p, rows[0].timestamp) then [rows[0]] else [];
      KeepAppend(head, Keep(rows[1..], p), q);
    }
  }
}

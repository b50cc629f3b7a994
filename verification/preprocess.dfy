/**
 * Building the series each environment reads from its input table:
 * `create_observations` of the continuous environment and
 * `create_interest_rates` of the discrete (Q-learning) environment.
 */
module Preprocess {
  import opened Common
  import opened Series
  import opened Rates
  import opened Rolling

  /** One point of the continuous environment's series: timestamp, raw rate, normalised rate. */
  datatype Observed = Observed(timestamp: int, rate: real, normalized: real)

  /** One point of the discrete environment's series: timestamp, raw rate, rolling mean of normalised rates. */
  datatype AvgRow = AvgRow(timestamp: int, rate: real, avg: real)

  /** Applies one optional range filter: an absent bound leaves the table as it is. */
  function KeepIfSet(rows: seq<Row>, bound: Option<int>, test: int -> TimeTest): seq<Row> {
    if bound.Some? then Keep(rows, test(bound.value)) else rows
  }

  /** The continuous environment's range: `start <= t < end`, each bound only when set. */
  function HalfOpenRange(start: Option<int>, end: Option<int>): (test: TimeTest)
    ensures forall t :: Passes(test, t) <==>
      (start.Some? ==> start.value <= t) && (end.Some? ==> t < end.value)
  {
    Both(if start.Some? then NotBefore(start.value) else Always,
         if end.Some? then Before(end.value) else Always)
  }

  /** The discrete environment's range: `start < t < end`, each bound only when set. */
  function OpenRange(start: Option<int>, end: Option<int>): (test: TimeTest)
    ensures forall t :: Passes(test, t) <==>
      (start.Some? ==> start.value < t) && (end.Some? ==> t < end.value)
  {
    Both(if start.Some? then After(start.value) else Always,
         if end.Some? then Before(end.value) else Always)
  }

  /** The raw rows of a normalised series. */
  function RawRows(obs: seq<Observed>): (rows: seq<Row>)
    ensures |rows| == |obs|
    ensures forall i :: 0 <= i < |obs| ==> rows[i] == Row(obs[i].timestamp, obs[i].rate)
  {
    seq(|obs|, i requires 0 <= i < |obs| => Row(obs[i].timestamp, obs[i].rate))
  }

  /** Pairs every selected row with the normalised value of its rate. */
  function NormalizeRows(rows: seq<Row>): (obs: seq<Observed>)
    ensures RawRows(obs) == rows
    ensures forall i :: 0 <= i < |obs| ==> Unscale(obs[i].normalized) == obs[i].rate
  {
    seq(|rows|, i requires 0 <= i < |rows| => Observed(rows[i].timestamp, rows[i].rate, Normalize(rows[i].rate)))
  }

  /**
   * The continuous environment's series: the table sorted by timestamp,
   * normalised, then restricted to `start <= t` (when a start is set) and to
   * `t < end` (when an end is set), in that order.
   */
  function CreateObservations(rows: seq<Row>, start: Option<int>, end: Option<int>): (obs: seq<Observed>)
    ensures |obs| <= |rows|
    ensures forall i :: 0 <= i < |obs| ==> Unscale(obs[i].normalized) == obs[i].rate
  {
    var sorted := SortByTime(rows);
    var fromStart := KeepIfSet(sorted, start, b => NotBefore(b));
    NormalizeRows(KeepIfSet(fromStart, end, b => Before(b)))
  }

  /** The continuous series is the in-range part of the time-sorted table. */
  lemma CreateObservationsIsSortedRange(rows: seq<Row>, start: Option<int>, end: Option<int>)
    ensures RawRows(CreateObservations(rows, start, end)) == Keep(SortByTime(rows), HalfOpenRange(start, end))
  {
    var sorted := SortByTime(rows);
    var p := if start.Some? then NotBefore(start.value) else Always;
    var q := if end.Some? then Before(end.value) else Always;
    var fromStart := KeepIfSet(sorted, start, b => NotBefore(b));
    KeepAlways(sorted);
    assert fromStart == Keep(sorted, p);
    KeepAlways(fromStart);
    assert KeepIfSet(fromStart, end, b => Before(b)) == Keep(fromStart, q);
    KeepKeep(sorted, p, q);
  }

  /** The continuous series is in time order. */
  lemma ObservationsSorted(rows: seq<Row>, start: Option<int>, end: Option<int>)
    ensures SortedByTime(RawRows(CreateObservations(rows, start, end)))
  {
    CreateObservationsIsSortedRange(rows, start, end);
    KeepSorted(SortByTime(rows), HalfOpenRange(start, end));
  }

  /**
   * The continuous series holds exactly the rows of the table whose
   * timestamp is in range, each as often as in the table.
   */
  lemma ObservationsCount(rows: seq<Row>, start: Option<int>, end: Option<int>, x: Row)
    ensures multiset(RawRows(CreateObservations(rows, start, end)))[x]
      == if Passes(HalfOpenRange(start, end), x.timestamp) then multiset(rows)[x] else 0
  {
    CreateObservationsIsSortedRange(rows, start, end);
    KeepCounts(SortByTime(rows), HalfOpenRange(start, end), x);
  }

  /** Every point of the continuous series is in range and carries the normalised value of its own rate. */
  lemma ObservationsPointwise(rows: seq<Row>, start: Option<int>, end: Option<int>, i: nat)
    requires i < |CreateObservations(rows, start, end)|
    ensures var o := CreateObservations(rows, start, end)[i];
      Passes(HalfOpenRange(start, end), o.timestamp) && o.normalized == Normalize(o.rate)
  {
    var obs := CreateObservations(rows, start, end);
    CreateObservationsIsSortedRange(rows, start, end);
    assert RawRows(obs)[i].timestamp == obs[i].timestamp;
    NormalizeUnscale(obs[i].normalized);
  }

  /** The discrete environment's restricted table: `t > start`, then `t < end`, each only when set. */
  function OpenRangeRows(rows: seq<Row>, start: Option<int>, end: Option<int>): (kept: seq<Row>)
    ensures kept == Keep(rows, OpenRange(start, end))
  {
    var p := if start.Some? then After(start.value) else Always;
    var q := if end.Some? then Before(end.value) else Always;
    var fromStart := KeepIfSet(rows, start, b => After(b));
    KeepAlways(rows);
    assert fromStart == Keep(rows, p);
    KeepAlways(fromStart);
    assert KeepIfSet(fromStart, end, b => Before(b)) == Keep(fromStart, q);
    KeepKeep(rows, p, q);
    KeepIfSet(fromStart, end, b => Before(b))
  }

  /** The normalised-rate column of a table. */
  function NormalizedRates(rows: seq<Row>): (n: seq<real>)
    ensures |n| == |rows|
    ensures forall i :: 0 <= i < |rows| ==> Unscale(n[i]) == rows[i].rate
  {
    seq(|rows|, i requires 0 <= i < |rows| => Normalize(rows[i].rate))
  }

  /**
   * The discrete environment's series. The table is restricted to the open
   * range (no sorting), the raw rates are normalised, the trailing rolling
   * mean over `w` points is taken, and the first `w - 1` rows, which have no
   * mean, are dropped.
   */
  function CreateInterestRates(rows: seq<Row>, start: Option<int>, end: Option<int>, w: nat): (out: seq<AvgRow>)
    requires w >= 1
    ensures |out| == RollingLength(|Keep(rows, OpenRange(start, end))|, w)
  {
    var kept := OpenRangeRows(rows, start, end);
    AlignTrailing(kept, RollingMean(NormalizedRates(kept), w), w)
  }

  /** The raw rows of a discrete series. */
  function RowsOf(out: seq<AvgRow>): (rows: seq<Row>)
    ensures |rows| == |out|
    ensures forall i :: 0 <= i < |out| ==> rows[i] == Row(out[i].timestamp, out[i].rate)
  {
    seq(|out|, i requires 0 <= i < |out| => Row(out[i].timestamp, out[i].rate))
  }

  /** Pairs each mean with the last row of its window: the rows lacking a full window are dropped. */
  function AlignTrailing(kept: seq<Row>, avg: seq<real>, w: nat): (out: seq<AvgRow>)
    requires w >= 1 && |avg| == RollingLength(|kept|, w)
    ensures |out| == |avg|
    ensures forall i :: 0 <= i < |out| ==>
      out[i] == AvgRow(kept[i + w - 1].timestamp, kept[i + w - 1].rate, avg[i])
    // exactly the first `w - 1` rows are dropped, or every row when fewer than `w` remain
    ensures |kept| < w ==> out == []
    ensures |kept| >= w ==> RowsOf(out) == kept[w - 1..]
  {
    seq(|avg|, i requires 0 <= i < |avg| => AvgRow(kept[i + w - 1].timestamp, kept[i + w - 1].rate, avg[i]))
  }

  /**
   * Row `i` of the discrete series is row `i + w - 1` of the restricted
   * table, carrying the mean of the `w` normalised rates that end at it,
   * which lies between the smallest and the largest of them.
   */
  lemma InterestRatesPointwise(rows: seq<Row>, start: Option<int>, end: Option<int>, w: nat, i: nat)
    requires w >= 1
    requires i < |CreateInterestRates(rows, start, end, w)|
    ensures var kept := Keep(rows, OpenRange(start, end));
      var o := CreateInterestRates(rows, start, end, w)[i];
      && i + w - 1 < |kept|
      && o.timestamp == kept[i + w - 1].timestamp
      && o.rate == kept[i + w - 1].rate
      && o.avg == Mean(NormalizedRates(kept)[i..i + w])
      && Min(NormalizedRates(kept)[i..i + w]) <= o.avg <= Max(NormalizedRates(kept)[i..i + w])
  {
    var kept := OpenRangeRows(rows, start, end);
    var n := NormalizedRates(kept);
    var avg := RollingMean(n, w);
    RollingMeanEntry(n, w, i);
  }
}

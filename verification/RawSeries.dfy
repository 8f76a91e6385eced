/**
 Short-range series from raw rows: windows and bucket starts (shared/analytics/types.go) and the
 raw result builder (shared/analytics/repository.go). Time is in seconds.
 */
module RawSeries {
  import opened Common

  type Time = int
  type MonitorId = int

  datatype Range = Hour1 | Hours6 | Hours24 | Days7 | Days30 | Days90 | Days365

  datatype Window = Window(start: Time, end: Time, bucket: int, displayCount: nat)

  const HOUR := 3600
  const DAY := 86400

  function DailyWindow(now: Time, days: int): Window
    requires days >= 1
  {
    Window(now - now % DAY - (days - 1) * DAY, now, DAY, days)
  }

  function ResolveWindow(range: Range, now: Time): Window {
    match range
    case Hour1 => Window(now - HOUR, now, 300, 12)
    case Hours6 => Window(now - 6 * HOUR, now, 1800, 12)
    case Hours24 => Window(now - 24 * HOUR, now, HOUR, 24)
    case Days7 => DailyWindow(now, 7)
    case Days30 => DailyWindow(now, 30)
    case Days90 => DailyWindow(now, 90)
    case Days365 => DailyWindow(now, 365)
  }

  /** The displayed buckets are consecutive and reach the window's end: exactly, for the short ranges. */
  predicate WindowOk(w: Window) {
    && w.bucket > 0 && w.displayCount > 0
    && w.start + (w.displayCount - 1) * w.bucket <= w.end <= w.start + w.displayCount * w.bucket
  }

  predicate IsShort(range: Range) { range == Hour1 || range == Hours6 || range == Hours24 }

  lemma ResolvedWindows(range: Range, now: Time)
    ensures WindowOk(ResolveWindow(range, now))
    ensures IsShort(range) ==> var w := ResolveWindow(range, now); w.end == w.start + w.displayCount * w.bucket
  {
  }

  /** The span, the bucket and the number of points of each range; the long ones start at a midnight and end today. */
  lemma WindowsMean(range: Range, now: Time)
    ensures var w := ResolveWindow(range, now);
            && w.end == now
            && (range == Hour1 ==> w.start == now - 60 * 60 && w.bucket == 5 * 60 && w.displayCount == 12)
            && (range == Hours6 ==> w.start == now - 6 * 60 * 60 && w.bucket == 30 * 60 && w.displayCount == 12)
            && (range == Hours24 ==> w.start == now - 24 * 60 * 60 && w.bucket == 60 * 60 && w.displayCount == 24)
            && (!IsShort(range) ==>
                  && w.bucket == 24 * 60 * 60 && w.start % w.bucket == 0
                  && w.start + (w.displayCount - 1) * w.bucket <= now < w.start + w.displayCount * w.bucket)
            && (range == Days7 ==> w.displayCount == 7) && (range == Days30 ==> w.displayCount == 30)
            && (range == Days90 ==> w.displayCount == 90) && (range == Days365 ==> w.displayCount == 365)
  {
  }

  function BucketAt(w: Window, k: int): Time { w.start + k * w.bucket }

  /** Walks the window to its end inclusive, then keeps as many starts as are displayed. */
  method BucketStarts(w: Window) returns (starts: seq<Time>)
    requires WindowOk(w)
    ensures |starts| == w.displayCount && forall k :: 0 <= k < |starts| ==> starts[k] == BucketAt(w, k)
  {
    starts := [];
    var cursor := w.start;
    while cursor <= w.end
      invariant cursor == BucketAt(w, |starts|) && forall k :: 0 <= k < |starts| ==> starts[k] == BucketAt(w, k)
      invariant cursor > w.end ==> |starts| >= w.displayCount
      decreases w.end - cursor
    {
      starts := starts + [cursor];
      NextBucket(w, |starts| - 1);
      cursor := cursor + w.bucket;
    }
    if |starts| > w.displayCount { starts := starts[..w.displayCount]; }
  }

  lemma NextBucket(w: Window, k: nat)
    requires WindowOk(w)
    ensures BucketAt(w, k + 1) == BucketAt(w, k) + w.bucket > BucketAt(w, k)
    ensures BucketAt(w, k + 1) > w.end ==> k + 1 >= w.displayCount
  {
    if k + 1 <= w.displayCount - 1 { assert (k + 1) * w.bucket <= (w.displayCount - 1) * w.bucket; }
    assert (k + 1) * w.bucket == k * w.bucket + w.bucket;
  }

  // ---------- Rows and buckets ----------

  datatype Status = Success | Failure | Error

  datatype Row = Row(monitor: MonitorId, createdAt: Time, status: Status, latency: Option<int>)

  function BucketForRaw(w: Window, t: Time): Time
    requires w.bucket > 0
  {
    if t < w.start then w.start else w.start + (t - w.start) / w.bucket * w.bucket
  }

  function IndexOf(w: Window, t: Time): nat
    requires w.bucket > 0
  {
    if t < w.start then 0 else (t - w.start) / w.bucket
  }

  lemma BucketIsIndexed(w: Window, t: Time, k: nat)
    requires w.bucket > 0
    ensures BucketForRaw(w, t) == BucketAt(w, k) <==> IndexOf(w, t) == k
  {
    var i := IndexOf(w, t);
    assert BucketForRaw(w, t) == BucketAt(w, i);
    if i < k { assert i * w.bucket < k * w.bucket; }
    if k < i { assert k * w.bucket < i * w.bucket; }
  }

  /** A row falls into the bucket that holds its time; an earlier one into the first. */
  lemma IndexMeans(w: Window, t: Time, k: nat)
    requires w.bucket > 0
    ensures IndexOf(w, t) == k <==> (k == 0 && t < w.start) || BucketAt(w, k) <= t < BucketAt(w, k + 1)
  {
    MultipleGrows(0, k, w.bucket);
    NextMultiple(k, w.bucket);
    if t >= w.start { QuotientHolds(t - w.start, w.bucket, k); }
  }

  lemma NextMultiple(k: int, b: int)
    ensures (k + 1) * b == k * b + b
  {
  }

  lemma QuotientHolds(x: int, b: int, k: int)
    requires b > 0
    ensures x / b == k <==> k * b <= x < k * b + b
  {
    var q := x / b;
    assert x == q * b + x % b;
    if q < k { MultipleGrows(q + 1, k, b); NextMultiple(q, b); }
    if k < q { MultipleGrows(k + 1, q, b); NextMultiple(k, b); }
  }

  lemma QuotientBelow(x: int, b: int, q: int, n: int)
    requires b > 0 && q * b <= x < q * b + b
    ensures q < n <==> x < n * b
  {
    if q < n { MultipleGrows(q + 1, n, b); } else { MultipleGrows(n, q, b); }
  }

  lemma MultipleGrows(p: int, q: int, b: int)
    requires b > 0 && p <= q
    ensures p * b <= q * b
  {
  }

  lemma BeforeEnd(w: Window, t: Time)
    requires WindowOk(w) && w.end == w.start + w.displayCount * w.bucket
    ensures IndexOf(w, t) < w.displayCount <==> t < w.end
  {
    if t >= w.start {
      QuotientBelow(t - w.start, w.bucket, (t - w.start) / w.bucket, w.displayCount);
    } else {
      MultipleGrows(0, w.displayCount, w.bucket);
    }
  }

  // ---------- Accumulators ----------

  datatype Acc = Acc(total: nat, successes: nat, latencySum: int, latencyCount: nat, latest: Option<(Status, Time)>)

  const ZERO := Acc(0, 0, 0, 0, None)

  function Consumed(acc: Acc, row: Row): Acc {
    var timed := row.status == Success && row.latency.Some?;
    Acc(acc.total + 1, acc.successes + (if row.status == Success then 1 else 0),
        acc.latencySum + (if timed then row.latency.value else 0), acc.latencyCount + (if timed then 1 else 0),
        Some((row.status, row.createdAt)))
  }

  /** What one monitor's rows in one bucket add up to. */
  function AccOf(w: Window, rows: seq<Row>, bucket: Time, m: MonitorId): Acc
    requires w.bucket > 0
  {
    if rows == [] then ZERO
    else
      var rest, row := AccOf(w, rows[..|rows| - 1], bucket, m), rows[|rows| - 1];
      if row.monitor == m && BucketForRaw(w, row.createdAt) == bucket then Consumed(rest, row) else rest
  }

  /** The rows of one monitor in one bucket, oldest first. */
  function Own(w: Window, rows: seq<Row>, bucket: Time, m: MonitorId): seq<Row>
    requires w.bucket > 0
  {
    if rows == [] then []
    else
      var rest, row := Own(w, rows[..|rows| - 1], bucket, m), rows[|rows| - 1];
      if row.monitor == m && BucketForRaw(w, row.createdAt) == bucket then rest + [row] else rest
  }

  function Latencies(rows: seq<Row>): seq<int> {
    if rows == [] then []
    else
      var row := rows[|rows| - 1];
      Latencies(rows[..|rows| - 1]) + (if row.status == Success && row.latency.Some? then [row.latency.value] else [])
  }

  function TimeSum(xs: seq<int>): int { if xs == [] then 0 else TimeSum(xs[..|xs| - 1]) + xs[|xs| - 1] }

  function Good(rows: seq<Row>): set<int> { set i | 0 <= i < |rows| && rows[i].status == Success }

  function Folded(rows: seq<Row>): Acc { if rows == [] then ZERO else Consumed(Folded(rows[..|rows| - 1]), rows[|rows| - 1]) }

  lemma FoldedNext(rows: seq<Row>, row: Row)
    ensures Folded(rows + [row]) == Consumed(Folded(rows), row)
  {
    assert (rows + [row])[..|rows|] == rows;
  }

  lemma {:induction false} AccIsFolded(w: Window, rows: seq<Row>, bucket: Time, m: MonitorId)
    requires w.bucket > 0
    ensures AccOf(w, rows, bucket, m) == Folded(Own(w, rows, bucket, m))
  {
    if rows != [] {
      AccIsFolded(w, rows[..|rows| - 1], bucket, m);
      FoldedNext(Own(w, rows[..|rows| - 1], bucket, m), rows[|rows| - 1]);
    }
  }

  /** What an accumulator says of the rows in it. */
  predicate Sums(acc: Acc, own: seq<Row>) {
    && acc.total == |own| && acc.successes == |Good(own)|
    && acc.latencySum == TimeSum(Latencies(own)) && acc.latencyCount == |Latencies(own)|
    && acc.latest == if own == [] then None else Some((own[|own| - 1].status, own[|own| - 1].createdAt))
  }

  lemma SumsNext(acc: Acc, own: seq<Row>, row: Row)
    requires Sums(acc, own)
    ensures Sums(Consumed(acc, row), own + [row])
  {
    OneMore(own, row);
  }

  lemma {:induction false} FoldedMeans(own: seq<Row>)
    ensures Sums(Folded(own), own)
  {
    if own != [] {
      var front, row := own[..|own| - 1], own[|own| - 1];
      FoldedMeans(front);
      SumsNext(Folded(front), front, row);
      assert own == front + [row];
    }
  }

  /** An accumulator says how many rows there were, how many succeeded, what those took, and how the last one went. */
  lemma AccMeans(w: Window, rows: seq<Row>, bucket: Time, m: MonitorId)
    requires w.bucket > 0
    ensures Sums(AccOf(w, rows, bucket, m), Own(w, rows, bucket, m))
  {
    AccIsFolded(w, rows, bucket, m);
    FoldedMeans(Own(w, rows, bucket, m));
  }

  lemma OneMore(rows: seq<Row>, row: Row)
    ensures |Good(rows + [row])| == |Good(rows)| + (if row.status == Success then 1 else 0)
    ensures var xs := Latencies(rows);
            && Latencies(rows + [row]) == (if row.status == Success && row.latency.Some? then xs + [row.latency.value] else xs)
            && (row.latency.Some? ==> TimeSum(xs + [row.latency.value]) == TimeSum(xs) + row.latency.value)
  {
    var next, xs := rows + [row], Latencies(rows);
    assert next[..|rows|] == rows;
    assert Good(next) == Good(rows) + (if row.status == Success then {|rows|} else {});
    if row.latency.Some? { assert (xs + [row.latency.value])[..|xs|] == xs; }
  }

  type PerBucket = map<Time, map<MonitorId, Acc>>

  function Lookup(per: PerBucket, bucket: Time, m: MonitorId): Acc {
    if bucket in per && m in per[bucket] then per[bucket][m] else ZERO
  }

  ghost predicate Tracks(w: Window, per: PerBucket, rows: seq<Row>)
    requires w.bucket > 0
  {
    forall bucket, m :: Lookup(per, bucket, m) == AccOf(w, rows, bucket, m)
  }

  /** The builder's map of maps, filled row by row. */
  class RawResultBuilder {
    const window: Window
    var perBucket: PerBucket
    var coverageStart: Option<Time>
    var isPartial: bool
    ghost var rows: seq<Row>

    ghost predicate Valid()
      reads this
    {
      && window.bucket > 0 && Tracks(window, perBucket, rows)
      && (rows == [] <==> coverageStart.None?)
      && (rows != [] ==> coverageStart == Some(rows[0].createdAt) && (isPartial <==> rows[0].createdAt > window.start))
    }

    constructor (window: Window)
      requires window.bucket > 0
      ensures Valid() && rows == [] && this.window == window && isPartial
    {
      this.window, perBucket, coverageStart, isPartial, rows := window, map[], None, true, [];
    }

    method Consume(row: Row)
      requires Valid()
      modifies this
      ensures Valid() && rows == old(rows) + [row]
    {
      if coverageStart.None? {
        coverageStart := Some(row.createdAt);
        isPartial := row.createdAt > window.start;
      }
      var bucket := BucketForRaw(window, row.createdAt);
      var accs := if bucket in perBucket then perBucket[bucket] else map[];
      var acc := if row.monitor in accs then accs[row.monitor] else ZERO;
      ghost var was, before := perBucket, rows;
      perBucket := perBucket[bucket := accs[row.monitor := Consumed(acc, row)]];
      rows := rows + [row];
      assert rows[..|rows| - 1] == before;
      forall b, m ensures Lookup(perBucket, b, m) == AccOf(window, rows, b, m) {
        assert Lookup(was, b, m) == AccOf(window, before, b, m);
      }
    }

    /** The displayed totals, bucket by bucket. */
    method SeriesTotals() returns (totals: seq<nat>)
      requires Valid() && WindowOk(window)
      ensures |totals| == window.displayCount
      ensures forall k :: 0 <= k < |totals| ==> totals[k] == InBucket(window, rows, k)
    {
      var starts := BucketStarts(window);
      totals := [];
      while |totals| < |starts|
        invariant |totals| <= |starts| && forall k :: 0 <= k < |totals| ==> totals[k] == InBucket(window, rows, k)
      {
        var n := BucketTotal(window, perBucket, rows, starts[|totals|]);
        AllMonitors(window, rows, |totals|);
        totals := totals + [n];
      }
    }
  }

  // ---------- The totals ----------

  function Monitors(rows: seq<Row>): set<MonitorId> { set r | r in rows :: r.monitor }

  /** Rows of one bucket from a set of monitors. */
  function From(w: Window, rows: seq<Row>, bucket: Time, ms: set<MonitorId>): nat
    requires w.bucket > 0
  {
    if rows == [] then 0
    else
      var row := rows[|rows| - 1];
      From(w, rows[..|rows| - 1], bucket, ms) + (if row.monitor in ms && BucketForRaw(w, row.createdAt) == bucket then 1 else 0)
  }

  lemma {:induction false} FromOneMore(w: Window, rows: seq<Row>, bucket: Time, ms: set<MonitorId>, m: MonitorId)
    requires w.bucket > 0 && m !in ms
    ensures From(w, rows, bucket, ms + {m}) == From(w, rows, bucket, ms) + AccOf(w, rows, bucket, m).total
  {
    if rows != [] { FromOneMore(w, rows[..|rows| - 1], bucket, ms, m); }
  }

  lemma {:induction false} FromNone(w: Window, rows: seq<Row>, bucket: Time)
    requires w.bucket > 0
    ensures From(w, rows, bucket, {}) == 0
  {
    if rows != [] { FromNone(w, rows[..|rows| - 1], bucket); }
  }

  /** Every monitor with a row in the bucket is among those accumulated for it. */
  lemma {:induction false} FromTracked(w: Window, rows: seq<Row>, bucket: Time, ms: set<MonitorId>)
    requires w.bucket > 0 && forall m :: m !in ms ==> AccOf(w, rows, bucket, m).total == 0
    ensures From(w, rows, bucket, ms) == From(w, rows, bucket, Monitors(rows))
  {
    FromRestrict(w, rows, bucket, ms, Monitors(rows), rows);
  }

  lemma {:induction false} FromRestrict(w: Window, rows: seq<Row>, bucket: Time, ms: set<MonitorId>, all: set<MonitorId>, whole: seq<Row>)
    requires w.bucket > 0 && rows <= whole && Monitors(whole) <= all
    requires forall m :: m !in ms ==> AccOf(w, whole, bucket, m).total == 0
    ensures From(w, rows, bucket, ms) == From(w, rows, bucket, all)
  {
    if rows != [] {
      var n := |rows| - 1;
      FromRestrict(w, rows[..n], bucket, ms, all, whole);
      assert rows[n] == whole[n] && rows[n] in whole && rows[n].monitor in Monitors(whole);
      if rows[n].monitor !in ms && BucketForRaw(w, rows[n].createdAt) == bucket { HasTotal(w, whole, bucket, n); }
    }
  }

  lemma {:induction false} HasTotal(w: Window, rows: seq<Row>, bucket: Time, i: nat)
    requires w.bucket > 0 && i < |rows| && BucketForRaw(w, rows[i].createdAt) == bucket
    ensures AccOf(w, rows, bucket, rows[i].monitor).total > 0
  {
    if i < |rows| - 1 { HasTotal(w, rows[..|rows| - 1], bucket, i); }
  }

  /** Adds up a bucket's monitors, in whatever order the map is walked. */
  method BucketTotal(w: Window, per: PerBucket, ghost rows: seq<Row>, bucket: Time) returns (total: nat)
    requires w.bucket > 0 && Tracks(w, per, rows)
    ensures total == From(w, rows, bucket, Monitors(rows))
  {
    total := 0;
    var accs := if bucket in per then per[bucket] else map[];
    var left := accs.Keys;
    FromNone(w, rows, bucket);
    assert accs.Keys - left == {};
    while left != {}
      invariant left <= accs.Keys && total == From(w, rows, bucket, accs.Keys - left)
      decreases |left|
    {
      ghost var some := Pick(left);
      var m :| m in left;
      FromOneMore(w, rows, bucket, accs.Keys - left, m);
      assert accs.Keys - left + {m} == accs.Keys - (left - {m});
      assert Lookup(per, bucket, m) == AccOf(w, rows, bucket, m);
      total := total + accs[m].total;
      left := left - {m};
    }
    assert accs.Keys - left == accs.Keys;
    forall m | m !in accs.Keys ensures AccOf(w, rows, bucket, m).total == 0 {
      assert Lookup(per, bucket, m) == AccOf(w, rows, bucket, m);
    }
    FromTracked(w, rows, bucket, accs.Keys);
  }

  function InBucket(w: Window, rows: seq<Row>, k: nat): nat
    requires w.bucket > 0
  {
    if rows == [] then 0
    else InBucket(w, rows[..|rows| - 1], k) + (if IndexOf(w, rows[|rows| - 1].createdAt) == k then 1 else 0)
  }

  lemma AllMonitors(w: Window, rows: seq<Row>, k: nat)
    requires w.bucket > 0
    ensures From(w, rows, BucketAt(w, k), Monitors(rows)) == InBucket(w, rows, k)
  {
    AllMonitorsOf(w, rows, k, Monitors(rows));
  }

  lemma {:induction false} AllMonitorsOf(w: Window, rows: seq<Row>, k: nat, all: set<MonitorId>)
    requires w.bucket > 0 && Monitors(rows) <= all
    ensures From(w, rows, BucketAt(w, k), all) == InBucket(w, rows, k)
  {
    if rows != [] {
      var front, row := rows[..|rows| - 1], rows[|rows| - 1];
      assert row in rows && row.monitor in Monitors(rows);
      assert Monitors(front) <= Monitors(rows);
      AllMonitorsOf(w, front, k, all);
      BucketIsIndexed(w, row.createdAt, k);
    }
  }

  // ---------- Conservation ----------

  function Sum(xs: seq<nat>): nat { if xs == [] then 0 else Sum(xs[..|xs| - 1]) + xs[|xs| - 1] }

  function CountBefore(rows: seq<Row>, t: Time): nat {
    if rows == [] then 0 else CountBefore(rows[..|rows| - 1], t) + (if rows[|rows| - 1].createdAt < t then 1 else 0)
  }

  function IndexBelow(w: Window, rows: seq<Row>, k: nat): nat
    requires w.bucket > 0
  {
    if rows == [] then 0
    else IndexBelow(w, rows[..|rows| - 1], k) + (if IndexOf(w, rows[|rows| - 1].createdAt) < k then 1 else 0)
  }

  lemma {:induction false} IndexBelowNext(w: Window, rows: seq<Row>, k: nat)
    requires w.bucket > 0
    ensures IndexBelow(w, rows, k + 1) == IndexBelow(w, rows, k) + InBucket(w, rows, k) && IndexBelow(w, rows, 0) == 0
  {
    if rows != [] { IndexBelowNext(w, rows[..|rows| - 1], k); }
  }

  lemma {:induction false} SumIsIndexBelow(w: Window, rows: seq<Row>, totals: seq<nat>)
    requires w.bucket > 0 && forall k :: 0 <= k < |totals| ==> totals[k] == InBucket(w, rows, k)
    ensures Sum(totals) == IndexBelow(w, rows, |totals|)
  {
    IndexBelowNext(w, rows, if |totals| == 0 then 0 else |totals| - 1);
    if totals != [] { SumIsIndexBelow(w, rows, totals[..|totals| - 1]); }
  }

  lemma {:induction false} IndexBelowIsBefore(w: Window, rows: seq<Row>)
    requires WindowOk(w) && w.end == w.start + w.displayCount * w.bucket
    ensures IndexBelow(w, rows, w.displayCount) == CountBefore(rows, w.end)
  {
    if rows != [] {
      IndexBelowIsBefore(w, rows[..|rows| - 1]);
      BeforeEnd(w, rows[|rows| - 1].createdAt);
    }
  }

  /** A short-range series adds up to the consumed rows strictly before the window's end: none lost, none twice. */
  lemma SeriesConservesRows(range: Range, now: Time, rows: seq<Row>, totals: seq<nat>)
    requires IsShort(range)
    requires var w := ResolveWindow(range, now);
             |totals| == w.displayCount && forall k :: 0 <= k < |totals| ==> totals[k] == InBucket(w, rows, k)
    ensures Sum(totals) == CountBefore(rows, now)
  {
    var w := ResolveWindow(range, now);
    ResolvedWindows(range, now);
    SumIsIndexBelow(w, rows, totals);
    IndexBelowIsBefore(w, rows);
  }
}

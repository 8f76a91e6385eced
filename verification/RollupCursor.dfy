/**
 Reading a window partly from hourly rollups and partly from raw rows: shared/analytics/rollup_cursor.go
 and the two query shapes that use its bounds.
 */
module RollupCursor {
  import opened Common
  import opened MonitorState
  import opened Recording
  import opened Protocol
  import opened RecordingSafety
  import opened LedgerSafety

  /** The completeness watermark; id is meaningful only beside a set time. */
  datatype Cursor = Cursor(lastCreatedAt: Option<Time>, lastId: int)

  function RollupEnd(c: Cursor, leadingEdgeEnd: Time, trailingEdgeStart: Time): Time {
    Min(if c.lastCreatedAt.Some? then HourOf(c.lastCreatedAt.value) else leadingEdgeEnd, trailingEdgeStart)
  }

  function RawTailStart(c: Cursor, leadingEdgeEnd: Time, trailingEdgeStart: Time): Time {
    Max(RollupEnd(c, leadingEdgeEnd, trailingEdgeStart), leadingEdgeEnd)
  }

  function RawStart(c: Cursor, startHour: Time): Time {
    if c.lastCreatedAt.Some? && c.lastCreatedAt.value > startHour then c.lastCreatedAt.value else startHour
  }

  predicate Aligned(t: Time) { t % HOUR == 0 }

  // ---------- The three regions ----------

  /** The exact window [start, end) with its leading and trailing partial hours. */
  datatype Split = Split(start: Time, leadingEdgeEnd: Time, trailingEdgeStart: Time, end: Time)

  predicate SplitOk(w: Split) {
    && Aligned(w.leadingEdgeEnd) && Aligned(w.trailingEdgeStart)
    && w.start <= w.leadingEdgeEnd <= w.trailingEdgeStart <= w.end
  }

  predicate InLeading(w: Split, t: Time) { w.start <= t < w.leadingEdgeEnd }

  predicate InRollup(w: Split, c: Cursor, t: Time) {
    w.leadingEdgeEnd <= HourOf(t) < RollupEnd(c, w.leadingEdgeEnd, w.trailingEdgeStart)
  }

  predicate InTail(w: Split, c: Cursor, t: Time) { RawTailStart(c, w.leadingEdgeEnd, w.trailingEdgeStart) <= t < w.end }

  predicate InWindow(w: Split, t: Time) { w.start <= t < w.end }

  lemma HourFacts(t: Time)
    ensures HourOf(t) <= t < HourOf(t) + HOUR && Aligned(HourOf(t))
  {
    var q := t / HOUR;
    assert HourOf(t) == q * HOUR;
  }

  lemma AlignedApart(a: Time, b: Time)
    requires Aligned(a) && Aligned(b) && a < b
    ensures a + HOUR <= b
  {
    assert a == (a / HOUR) * HOUR && b == (b / HOUR) * HOUR;
  }

  /** For every cursor, unset, lagging or ahead, the regions are disjoint and cover exactly the window. */
  lemma RegionsTile(w: Split, c: Cursor, t: Time)
    requires SplitOk(w)
    ensures InWindow(w, t) <==> InLeading(w, t) || InRollup(w, c, t) || InTail(w, c, t)
    ensures !(InLeading(w, t) && InRollup(w, c, t)) && !(InLeading(w, t) && InTail(w, c, t))
    ensures !(InRollup(w, c, t) && InTail(w, c, t))
  {
    var end := RollupEnd(c, w.leadingEdgeEnd, w.trailingEdgeStart);
    HourFacts(t);
    if c.lastCreatedAt.Some? { HourFacts(c.lastCreatedAt.value); }
    if HourOf(t) < end { AlignedApart(HourOf(t), end); }
    if HourOf(t) < w.leadingEdgeEnd { AlignedApart(HourOf(t), w.leadingEdgeEnd); }
  }

  /** An hour is read from the rollup exactly when it is a whole hour of the window and the cursor has passed its end. */
  lemma RollupHoursMean(w: Split, c: Cursor, t: Time)
    requires SplitOk(w)
    ensures InRollup(w, c, t) <==>
            && w.leadingEdgeEnd <= HourOf(t) && HourOf(t) + HOUR <= w.trailingEdgeStart
            && c.lastCreatedAt.Some? && HourOf(t) + HOUR <= c.lastCreatedAt.value
  {
    HourFacts(t);
    if c.lastCreatedAt.Some? {
      HourFacts(c.lastCreatedAt.value);
      if HourOf(t) < HourOf(c.lastCreatedAt.value) { AlignedApart(HourOf(t), HourOf(c.lastCreatedAt.value)); }
      if HourOf(t) + HOUR <= c.lastCreatedAt.value { LaterHour(HourOf(t), c.lastCreatedAt.value); }
    }
    if HourOf(t) < w.trailingEdgeStart { AlignedApart(HourOf(t), w.trailingEdgeStart); }
  }

  lemma LaterHour(hour: Time, t: Time)
    requires Aligned(hour) && hour + HOUR <= t
    ensures hour < HourOf(t)
  {
    HourFacts(t);
  }

  /** The rolling twenty-four hours up to now. */
  function Rolling(now: Time): Split {
    Split(now - DAY, HourOf(now - DAY) + HOUR, HourOf(now), now)
  }

  lemma RollingIsOk(now: Time)
    ensures SplitOk(Rolling(now))
  {
    HourFacts(now);
    HourFacts(now - DAY);
    assert HourOf(now - DAY) == HourOf(now) - DAY by { assert (now - DAY) % HOUR == now % HOUR; }
  }

  // ---------- Counting ----------

  function RawRows(results: map<Key, CheckResult>, m: MonitorId, from: Time, to: Time): set<Key> {
    set k | k in results && k.source == MonitorSource && results[k].monitor == m && from <= results[k].startedAt < to
  }

  function Rolled(rollups: map<Bucket, set<Key>>, b: Bucket): set<Key> { if b in rollups then rollups[b] else {} }

  /** SUM(total_checks) over the hours from..to. */
  function RollupSum(rollups: map<Bucket, set<Key>>, m: MonitorId, from: Time, to: Time): nat
    decreases (to - from)
  {
    if from >= to then 0 else |Rolled(rollups, Bucket(m, from))| + RollupSum(rollups, m, from + HOUR, to)
  }

  function FastCount(results: map<Key, CheckResult>, rollups: map<Bucket, set<Key>>, m: MonitorId, w: Split, c: Cursor): nat {
    |RawRows(results, m, w.start, w.leadingEdgeEnd)|
    + RollupSum(rollups, m, w.leadingEdgeEnd, RollupEnd(c, w.leadingEdgeEnd, w.trailingEdgeStart))
    + |RawRows(results, m, RawTailStart(c, w.leadingEdgeEnd, w.trailingEdgeStart), w.end)|
  }

  lemma RawSplits(results: map<Key, CheckResult>, m: MonitorId, a: Time, b: Time, c: Time)
    requires a <= b <= c
    ensures |RawRows(results, m, a, c)| == |RawRows(results, m, a, b)| + |RawRows(results, m, b, c)|
  {
    assert RawRows(results, m, a, c) == RawRows(results, m, a, b) + RawRows(results, m, b, c);
    assert RawRows(results, m, a, b) !! RawRows(results, m, b, c);
  }

  lemma HourIsBucket(results: map<Key, CheckResult>, m: MonitorId, hour: Time)
    requires Aligned(hour)
    ensures RawRows(results, m, hour, hour + HOUR) == RowsOf(results, Bucket(m, hour))
  {
    forall k | k in results ensures (hour <= results[k].startedAt < hour + HOUR) <==> HourOf(results[k].startedAt) == hour {
      var h := HourOf(results[k].startedAt);
      HourFacts(results[k].startedAt);
      if h < hour { AlignedApart(h, hour); }
      if hour < h { AlignedApart(hour, h); }
    }
  }

  predicate Subset(results: map<Key, CheckResult>, rollups: map<Bucket, set<Key>>, m: MonitorId, hour: Time) {
    Rolled(rollups, Bucket(m, hour)) <= RowsOf(results, Bucket(m, hour))
  }

  predicate Exact(results: map<Key, CheckResult>, rollups: map<Bucket, set<Key>>, m: MonitorId, hour: Time) {
    Rolled(rollups, Bucket(m, hour)) == RowsOf(results, Bucket(m, hour))
  }

  predicate Within(hour: Time, from: Time, to: Time) { Aligned(hour) && from <= hour < to }

  ghost predicate AllSubset(results: map<Key, CheckResult>, rollups: map<Bucket, set<Key>>, m: MonitorId, from: Time, to: Time) {
    forall hour :: Within(hour, from, to) ==> Subset(results, rollups, m, hour)
  }

  ghost predicate AllExact(results: map<Key, CheckResult>, rollups: map<Bucket, set<Key>>, m: MonitorId, from: Time, to: Time) {
    forall hour :: Within(hour, from, to) ==> Exact(results, rollups, m, hour)
  }

  lemma {:induction false} RollupSumOk(results: map<Key, CheckResult>, rollups: map<Bucket, set<Key>>, m: MonitorId, from: Time, to: Time)
    requires Aligned(from) && Aligned(to) && from <= to && AllSubset(results, rollups, m, from, to)
    ensures RollupSum(rollups, m, from, to) <= |RawRows(results, m, from, to)|
    ensures RollupSum(rollups, m, from, to) == |RawRows(results, m, from, to)| <==> AllExact(results, rollups, m, from, to)
    decreases (to - from)
  {
    if from < to {
      AlignedApart(from, to);
      HourIsBucket(results, m, from);
      RawSplits(results, m, from, from + HOUR, to);
      assert Aligned(from + HOUR);
      RollupSumOk(results, rollups, m, from + HOUR, to);
      assert Within(from, from, to) && Subset(results, rollups, m, from);
      SubsetSize(Rolled(rollups, Bucket(m, from)), RowsOf(results, Bucket(m, from)));
      ExactHours(results, rollups, m, from, to);
    } else {
      assert RawRows(results, m, from, to) == {};
    }
  }

  lemma ExactHours(results: map<Key, CheckResult>, rollups: map<Bucket, set<Key>>, m: MonitorId, from: Time, to: Time)
    requires Aligned(from) && Aligned(to) && from < to
    ensures AllExact(results, rollups, m, from, to) <==>
            Exact(results, rollups, m, from) && AllExact(results, rollups, m, from + HOUR, to)
  {
    assert Within(from, from, to);
    forall hour | Within(hour, from, to) ensures hour == from || Within(hour, from + HOUR, to) {
      if from < hour { AlignedApart(from, hour); }
    }
    forall hour | Within(hour, from + HOUR, to) ensures Within(hour, from, to) {}
  }

  /**
   For every cursor the combined count never exceeds the plain count of raw rows, and equals it
   exactly when every hour read from the rollup is complete.
   */
  lemma FastNeverOvercounts(results: map<Key, CheckResult>, rollups: map<Bucket, set<Key>>, m: MonitorId, w: Split, c: Cursor)
    requires SplitOk(w)
    requires AllSubset(results, rollups, m, w.leadingEdgeEnd, RollupEnd(c, w.leadingEdgeEnd, w.trailingEdgeStart))
    ensures FastCount(results, rollups, m, w, c) <= |RawRows(results, m, w.start, w.end)|
    ensures FastCount(results, rollups, m, w, c) == |RawRows(results, m, w.start, w.end)| <==>
            AllExact(results, rollups, m, w.leadingEdgeEnd, RollupEnd(c, w.leadingEdgeEnd, w.trailingEdgeStart))
  {
    var lead, end := w.leadingEdgeEnd, RollupEnd(c, w.leadingEdgeEnd, w.trailingEdgeStart);
    if c.lastCreatedAt.Some? { HourFacts(c.lastCreatedAt.value); }
    var tail := RawTailStart(c, lead, w.trailingEdgeStart);
    RawSplits(results, m, w.start, lead, w.end);
    RawSplits(results, m, lead, tail, w.end);
    if lead <= end {
      RollupSumOk(results, rollups, m, lead, end);
    } else {
      assert RawRows(results, m, lead, tail) == {};
    }
  }

  lemma RecentHour(clock: Time, now: Time, hour: Time)
    requires clock - DAY <= now && now - DAY <= hour
    ensures hour >= MarkHorizon(clock)
  {
  }

  /**
   The dashboard's rolling day in every run of the recording protocol, read at a clock at most a day
   behind the database's: the combined count is never above the plain one, and it is the plain one
   exactly when every hour of the rollup region is complete, so always when none of them is dirty.
   */
  lemma RollingDayIsExact(trace: seq<Database>, steps: seq<Step>, n: nat, m: MonitorId, now: Time, c: Cursor)
    requires IsRun(trace, steps) && n < |trace| && trace[n].clock - DAY <= now
    ensures var s, w := trace[n], Rolling(now);
            var end := RollupEnd(c, w.leadingEdgeEnd, w.trailingEdgeStart);
            && FastCount(s.results, s.rollups, m, w, c) <= |RawRows(s.results, m, now - DAY, now)|
            && (FastCount(s.results, s.rollups, m, w, c) == |RawRows(s.results, m, now - DAY, now)| <==>
                  AllExact(s.results, s.rollups, m, w.leadingEdgeEnd, end))
            && ((forall hour :: Within(hour, w.leadingEdgeEnd, end) ==> Bucket(m, hour) !in s.dirty) ==>
                  FastCount(s.results, s.rollups, m, w, c) == |RawRows(s.results, m, now - DAY, now)|)
  {
    var s, w := trace[n], Rolling(now);
    RollingIsOk(now);
    RunKeepsLedger(trace, steps, n);
    var end := RollupEnd(c, w.leadingEdgeEnd, w.trailingEdgeStart);
    forall hour | Within(hour, w.leadingEdgeEnd, end)
      ensures Subset(s.results, s.rollups, m, hour)
      ensures Bucket(m, hour) !in s.dirty ==> Exact(s.results, s.rollups, m, hour)
    {
      RecentHour(s.clock, now, hour);
      assert Bucket(m, hour) !in s.lost;
      if Bucket(m, hour) !in s.dirty { CleanHourIsExact(trace, steps, n, Bucket(m, hour)); }
    }
    FastNeverOvercounts(s.results, s.rollups, m, w, c);
  }

  // ---------- Past the cursor tuple ----------

  /** (created_at, id) > (last_created_at, last_check_result_id), or no cursor at all. */
  predicate PastCursor(c: Cursor, createdAt: Time, id: int) {
    c.lastCreatedAt.None? || createdAt > c.lastCreatedAt.value || (createdAt == c.lastCreatedAt.value && id > c.lastId)
  }

  /** A row is behind the cursor when it is older, or as old and its id is no greater; an unset cursor has nothing behind it. */
  lemma PastMeans(c: Cursor, createdAt: Time, id: int)
    ensures !PastCursor(c, createdAt, id) <==>
            c.lastCreatedAt.Some? && (createdAt < c.lastCreatedAt.value || (createdAt == c.lastCreatedAt.value && id <= c.lastId))
  {
  }

  function RowsPast(results: map<Key, CheckResult>, ids: map<Key, int>, m: MonitorId, c: Cursor, from: Time, to: Time): set<Key> {
    set k | k in RawRows(results, m, from, to) && k in ids && PastCursor(c, results[k].startedAt, ids[k])
  }

  /** Starting the scan at RawStart instead of the window drops no row past the cursor. */
  lemma RawStartDropsNothing(results: map<Key, CheckResult>, ids: map<Key, int>, m: MonitorId, c: Cursor, start: Time, end: Time)
    ensures RawStart(c, start) >= start && (c.lastCreatedAt.Some? ==> RawStart(c, start) >= c.lastCreatedAt.value)
    ensures RowsPast(results, ids, m, c, RawStart(c, start), end) == RowsPast(results, ids, m, c, start, end)
  {
  }

  /** One bar of the hourly series: all of the hour's rollup plus its raw rows past the cursor. */
  function SeriesCount(results: map<Key, CheckResult>, ids: map<Key, int>, rollups: map<Bucket, set<Key>>, m: MonitorId,
                       c: Cursor, start: Time, hour: Time): nat {
    |Rolled(rollups, Bucket(m, hour))| + |RowsPast(results, ids, m, c, Max(RawStart(c, start), hour), hour + HOUR)|
  }

  /** Rows the rollup counts although they are past the cursor, and rows it misses although they are not. */
  function Twice(results: map<Key, CheckResult>, ids: map<Key, int>, rollups: map<Bucket, set<Key>>, m: MonitorId, c: Cursor, hour: Time): set<Key> {
    Rolled(rollups, Bucket(m, hour)) * RowsPast(results, ids, m, c, hour, hour + HOUR)
  }

  function Missed(results: map<Key, CheckResult>, ids: map<Key, int>, rollups: map<Bucket, set<Key>>, m: MonitorId, c: Cursor, hour: Time): set<Key> {
    RawRows(results, m, hour, hour + HOUR) - Rolled(rollups, Bucket(m, hour)) - RowsPast(results, ids, m, c, hour, hour + HOUR)
  }

  lemma CountedTwice<T>(all: set<T>, rolled: set<T>, past: set<T>)
    requires rolled <= all && past <= all
    ensures |rolled| + |past| + |all - rolled - past| == |all| + |rolled * past|
  {
    SplitSize(all, rolled);
    assert all * rolled == rolled;
    SplitSize(all - rolled, past);
    SplitSize(past, rolled);
    assert past - rolled == (all - rolled) * past;
    assert past * rolled == rolled * past;
  }

  lemma PastFrom(results: map<Key, CheckResult>, ids: map<Key, int>, m: MonitorId, c: Cursor, start: Time, hour: Time)
    requires start <= hour
    ensures RowsPast(results, ids, m, c, Max(RawStart(c, start), hour), hour + HOUR) == RowsPast(results, ids, m, c, hour, hour + HOUR)
  {
  }

  /** The error of a bar, exactly: what is counted twice less what is missed. */
  lemma SeriesError(results: map<Key, CheckResult>, ids: map<Key, int>, rollups: map<Bucket, set<Key>>, m: MonitorId,
                    c: Cursor, start: Time, hour: Time)
    requires Aligned(hour) && start <= hour && Subset(results, rollups, m, hour)
    ensures SeriesCount(results, ids, rollups, m, c, start, hour) + |Missed(results, ids, rollups, m, c, hour)|
            == |RawRows(results, m, hour, hour + HOUR)| + |Twice(results, ids, rollups, m, c, hour)|
  {
    HourIsBucket(results, m, hour);
    PastFrom(results, ids, m, c, start, hour);
    CountedTwice(RawRows(results, m, hour, hour + HOUR), Rolled(rollups, Bucket(m, hour)), RowsPast(results, ids, m, c, hour, hour + HOUR));
  }

  /** Under the cursor contract (rolled up means at or before the cursor) every bar is the plain count. */
  lemma SeriesIsExact(results: map<Key, CheckResult>, ids: map<Key, int>, rollups: map<Bucket, set<Key>>, m: MonitorId,
                      c: Cursor, start: Time, hour: Time)
    requires Aligned(hour) && start <= hour && results.Keys <= ids.Keys
    requires forall k :: k in RawRows(results, m, hour, hour + HOUR) ==>
               (k in Rolled(rollups, Bucket(m, hour)) <==> !PastCursor(c, results[k].startedAt, ids[k]))
    requires Subset(results, rollups, m, hour)
    ensures SeriesCount(results, ids, rollups, m, c, start, hour) == |RawRows(results, m, hour, hour + HOUR)|
  {
    SeriesError(results, ids, rollups, m, c, start, hour);
    HourIsBucket(results, m, hour);
    assert Missed(results, ids, rollups, m, c, hour) == {} && Twice(results, ids, rollups, m, c, hour) == {};
  }

  // ---------- The cursor in runs ----------

  /** No retained monitor-source row is past the cursor. */
  ghost predicate Covers(c: Cursor, results: map<Key, CheckResult>, ids: map<Key, int>) {
    forall k :: k in results && k in ids && k.source == MonitorSource ==> !PastCursor(c, results[k].startedAt, ids[k])
  }

  /** The newest monitor-source row by (created_at, id). */
  ghost predicate IsNewest(results: map<Key, CheckResult>, ids: map<Key, int>, k: Key) {
    && k in results && k in ids && k.source == MonitorSource
    && Covers(Cursor(Some(results[k].startedAt), ids[k]), results, ids)
  }

  /** advanceRollupCursor: moves to the newest row, never back. */
  function Advanced(c: Cursor, createdAt: Time, id: int): Cursor {
    if PastCursor(c, createdAt, id) then Cursor(Some(createdAt), id) else c
  }

  lemma AdvanceCovers(c: Cursor, results: map<Key, CheckResult>, ids: map<Key, int>, k: Key)
    requires IsNewest(results, ids, k)
    ensures Covers(Advanced(c, results[k].startedAt, ids[k]), results, ids)
  {
  }

  /**
   In every run a bar misses a row only while its hour is dirty, and a clean bar is too high by exactly
   the hour's rows past the cursor: those published since the cursor last advanced.
   */
  lemma CleanBarError(trace: seq<Database>, steps: seq<Step>, n: nat, m: MonitorId, ids: map<Key, int>, c: Cursor, start: Time, hour: Time)
    requires IsRun(trace, steps) && n < |trace| && Aligned(hour) && start <= hour
    requires hour >= MarkHorizon(trace[n].clock) && Bucket(m, hour) !in trace[n].dirty
    ensures var s := trace[n];
            && Missed(s.results, ids, s.rollups, m, c, hour) == {}
            && SeriesCount(s.results, ids, s.rollups, m, c, start, hour)
               == |RawRows(s.results, m, hour, hour + HOUR)| + |RowsPast(s.results, ids, m, c, hour, hour + HOUR)|
  {
    var s := trace[n];
    CleanHourIsExact(trace, steps, n, Bucket(m, hour));
    HourIsBucket(s.results, m, hour);
    SeriesError(s.results, ids, s.rollups, m, c, start, hour);
    assert Missed(s.results, ids, s.rollups, m, c, hour) == {};
    assert Twice(s.results, ids, s.rollups, m, c, hour) == RowsPast(s.results, ids, m, c, hour, hour + HOUR);
  }

  /** Once the cursor has advanced over a database, every clean bar read from it is the plain count. */
  lemma AdvancedBarIsExact(trace: seq<Database>, steps: seq<Step>, n: nat, m: MonitorId, ids: map<Key, int>, c: Cursor, newest: Key, start: Time, hour: Time)
    requires IsRun(trace, steps) && n < |trace| && Aligned(hour) && start <= hour && IsNewest(trace[n].results, ids, newest)
    requires hour >= MarkHorizon(trace[n].clock) && Bucket(m, hour) !in trace[n].dirty
    ensures var s := trace[n];
            SeriesCount(s.results, ids, s.rollups, m, Advanced(c, s.results[newest].startedAt, ids[newest]), start, hour)
            == |RawRows(s.results, m, hour, hour + HOUR)|
  {
    var s := trace[n];
    var after := Advanced(c, s.results[newest].startedAt, ids[newest]);
    AdvanceCovers(c, s.results, ids, newest);
    CleanBarError(trace, steps, n, m, ids, after, start, hour);
    assert RowsPast(s.results, ids, m, after, hour, hour + HOUR) == {};
  }
}

/**
 Long-range results from daily rollups, alone (getRollupAnalytics) and batched (fillRollupBatch), both
 through buildRollupResult: shared/analytics/repository.go.
 */
module RollupBatch {
  import opened Common

  type MonitorId = int
  type Day = int
  type Time = int

  datatype DayRow = DayRow(monitor: MonitorId, day: Day, total: nat, successes: nat, latencySum: int, latencyCount: nat,
                           latestAt: Option<Time>, latestStatus: Option<string>)

  /** The primary key (monitor_id, bucket_day). */
  predicate UniqueKeys(rows: seq<DayRow>) {
    forall i, j :: 0 <= i < |rows| && 0 <= j < |rows| && rows[i].monitor == rows[j].monitor && rows[i].day == rows[j].day ==> rows[i] == rows[j]
  }

  ghost predicate SameRows(a: seq<DayRow>, b: seq<DayRow>) { forall r :: r in a <==> r in b }

  predicate Chosen(r: DayRow, ids: set<MonitorId>, first: Day, last: Day) { r.monitor in ids && first <= r.day <= last }

  function Ids(ids: seq<MonitorId>): set<MonitorId> { set m | m in ids }

  /** The rows of one scope's own query. */
  function ScopeRows(table: seq<DayRow>, ids: set<MonitorId>, first: Day, last: Day): seq<DayRow> {
    if table == [] then []
    else
      var rest, r := ScopeRows(table[..|table| - 1], ids, first, last), table[|table| - 1];
      if Chosen(r, ids, first, last) then rest + [r] else rest
  }

  /** The rows assembled from the batch load, one requested id after the other. */
  function BatchRows(table: seq<DayRow>, ids: seq<MonitorId>, first: Day, last: Day): seq<DayRow> {
    if ids == [] then []
    else BatchRows(table, ids[..|ids| - 1], first, last) + ScopeRows(table, {ids[|ids| - 1]}, first, last)
  }

  lemma {:induction false} ScopeRowsHold(table: seq<DayRow>, ids: set<MonitorId>, first: Day, last: Day, r: DayRow)
    ensures r in ScopeRows(table, ids, first, last) <==> r in table && r.monitor in ids && r.day >= first && r.day <= last
  {
    if table != [] {
      assert table == table[..|table| - 1] + [table[|table| - 1]];
      ScopeRowsHold(table[..|table| - 1], ids, first, last, r);
    }
  }

  lemma {:induction false} BatchRowsHold(table: seq<DayRow>, ids: seq<MonitorId>, first: Day, last: Day, r: DayRow)
    ensures r in BatchRows(table, ids, first, last) <==> r in table && Chosen(r, Ids(ids), first, last)
  {
    if ids != [] {
      var front, m := ids[..|ids| - 1], ids[|ids| - 1];
      assert ids == front + [m];
      BatchRowsHold(table, front, first, last, r);
      ScopeRowsHold(table, {m}, first, last, r);
    }
  }

  // ---------- The per-day series ----------

  type DayBuckets = map<Day, map<MonitorId, DayRow>>

  function Lookup(days: DayBuckets, day: Day, m: MonitorId): Option<DayRow> {
    if day in days && m in days[day] then Some(days[day][m]) else None
  }

  predicate IsKey(r: DayRow, day: Day, m: MonitorId) { r.monitor == m && r.day == day }

  /** The last row under a key wins. */
  function Stored(rows: seq<DayRow>, day: Day, m: MonitorId): Option<DayRow> {
    if rows == [] then None
    else if IsKey(rows[|rows| - 1], day, m) then Some(rows[|rows| - 1])
    else Stored(rows[..|rows| - 1], day, m)
  }

  method FillDays(rows: seq<DayRow>) returns (days: DayBuckets)
    ensures forall day, m :: Lookup(days, day, m) == Stored(rows, day, m)
  {
    days := map[];
    var n := 0;
    while n < |rows|
      invariant n <= |rows| && forall day, m :: Lookup(days, day, m) == Stored(rows[..n], day, m)
    {
      var row := rows[n];
      ghost var was := days;
      days := days[row.day := (if row.day in days then days[row.day] else map[])[row.monitor := row]];
      assert rows[..n + 1][..n] == rows[..n];
      forall day, m ensures Lookup(days, day, m) == Stored(rows[..n + 1], day, m) {
        assert Lookup(was, day, m) == Stored(rows[..n], day, m);
      }
      n := n + 1;
    }
    assert rows[..n] == rows;
  }

  lemma {:induction false} StoredHolds(rows: seq<DayRow>, day: Day, m: MonitorId)
    ensures Stored(rows, day, m).Some? ==> Stored(rows, day, m).value in rows && IsKey(Stored(rows, day, m).value, day, m)
    ensures Stored(rows, day, m).None? ==> forall r :: r in rows ==> !IsKey(r, day, m)
  {
    if rows != [] {
      assert rows == rows[..|rows| - 1] + [rows[|rows| - 1]];
      StoredHolds(rows[..|rows| - 1], day, m);
    }
  }

  lemma StoredOfSame(a: seq<DayRow>, b: seq<DayRow>, day: Day, m: MonitorId)
    requires SameRows(a, b) && UniqueKeys(a)
    ensures Stored(a, day, m) == Stored(b, day, m)
  {
    StoredHolds(a, day, m);
    StoredHolds(b, day, m);
    if Stored(a, day, m).Some? && Stored(b, day, m).Some? {
      var x, y := Stored(a, day, m).value, Stored(b, day, m).value;
      assert x in a && y in a;
      var i :| 0 <= i < |a| && a[i] == x;
      var j :| 0 <= j < |a| && a[j] == y;
    }
  }

  /** Every point of the series sees the same rows, batched or alone. */
  lemma SeriesAgree(table: seq<DayRow>, ids: seq<MonitorId>, first: Day, last: Day, day: Day, m: MonitorId)
    requires UniqueKeys(table)
    ensures Stored(BatchRows(table, ids, first, last), day, m) == Stored(ScopeRows(table, Ids(ids), first, last), day, m)
  {
    var a, b := ScopeRows(table, Ids(ids), first, last), BatchRows(table, ids, first, last);
    forall r ensures r in a <==> r in b {
      ScopeRowsHold(table, Ids(ids), first, last, r);
      BatchRowsHold(table, ids, first, last, r);
    }
    forall i, j | 0 <= i < |a| && 0 <= j < |a| && a[i].monitor == a[j].monitor && a[i].day == a[j].day ensures a[i] == a[j] {
      ScopeRowsHold(table, Ids(ids), first, last, a[i]);
      ScopeRowsHold(table, Ids(ids), first, last, a[j]);
      var x :| 0 <= x < |table| && table[x] == a[i];
      var y :| 0 <= y < |table| && table[y] == a[j];
    }
    StoredOfSame(a, b, day, m);
  }

  // ---------- The per-monitor rates ----------

  /** One counter of a row. */
  type Counter = DayRow -> int

  function Own(r: DayRow, m: MonitorId, counter: Counter): int {
    if r.monitor == m && r.total > 0 then counter(r) else 0
  }

  /** A monitor's sum over the whole window, from the rows with checks. */
  function SumOf(rows: seq<DayRow>, m: MonitorId, counter: Counter): int {
    if rows == [] then 0 else SumOf(rows[..|rows| - 1], m, counter) + Own(rows[|rows| - 1], m, counter)
  }

  lemma {:induction false} SumAppend(a: seq<DayRow>, b: seq<DayRow>, m: MonitorId, counter: Counter)
    ensures SumOf(a + b, m, counter) == SumOf(a, m, counter) + SumOf(b, m, counter)
  {
    if b == [] {
      assert a + b == a;
    } else {
      assert (a + b)[..|a + b| - 1] == a + b[..|b| - 1];
      SumAppend(a, b[..|b| - 1], m, counter);
    }
  }

  lemma {:induction false} SumOfScope(table: seq<DayRow>, ids: set<MonitorId>, first: Day, last: Day, m: MonitorId, counter: Counter)
    ensures SumOf(ScopeRows(table, ids, first, last), m, counter) ==
            if m in ids then SumOf(ScopeRows(table, {m}, first, last), m, counter) else 0
  {
    if table != [] {
      var front, r := table[..|table| - 1], table[|table| - 1];
      SumOfScope(front, ids, first, last, m, counter);
      SumWith(ScopeRows(front, ids, first, last), r, m, counter);
      SumWith(ScopeRows(front, {m}, first, last), r, m, counter);
    }
  }

  lemma SumWith(a: seq<DayRow>, r: DayRow, m: MonitorId, counter: Counter)
    ensures SumOf(a + [r], m, counter) == SumOf(a, m, counter) + Own(r, m, counter)
  {
    assert (a + [r])[..|a|] == a;
  }

  function Occurrences(ids: seq<MonitorId>, m: MonitorId): nat {
    if ids == [] then 0 else Occurrences(ids[..|ids| - 1], m) + (if ids[|ids| - 1] == m then 1 else 0)
  }

  lemma {:induction false} OccursIffIn(ids: seq<MonitorId>, m: MonitorId)
    ensures Occurrences(ids, m) > 0 <==> m in Ids(ids)
  {
    if ids != [] {
      assert ids == ids[..|ids| - 1] + [ids[|ids| - 1]];
      OccursIffIn(ids[..|ids| - 1], m);
    }
  }

  /** An id listed n times contributes its sums n times. */
  lemma {:induction false} BatchSums(table: seq<DayRow>, ids: seq<MonitorId>, first: Day, last: Day, m: MonitorId, counter: Counter)
    ensures SumOf(BatchRows(table, ids, first, last), m, counter) ==
            Occurrences(ids, m) * SumOf(ScopeRows(table, {m}, first, last), m, counter)
  {
    if ids != [] {
      var front, id := ids[..|ids| - 1], ids[|ids| - 1];
      BatchSums(table, front, first, last, m, counter);
      SumAppend(BatchRows(table, front, first, last), ScopeRows(table, {id}, first, last), m, counter);
      SumOfScope(table, {id}, first, last, m, counter);
      assert Occurrences(ids, m) == Occurrences(front, m) + (if id == m then 1 else 0);
      if id == m { Distribute(Occurrences(front, m), SumOf(ScopeRows(table, {m}, first, last), m, counter)); }
    }
  }

  lemma Distribute(n: nat, x: int)
    ensures (n + 1) * x == n * x + x
  {
  }

  function Totals(): Counter { (r: DayRow) => r.total }
  function Successes(): Counter { (r: DayRow) => r.successes }
  function LatencySums(): Counter { (r: DayRow) => r.latencySum }
  function LatencyCounts(): Counter { (r: DayRow) => r.latencyCount }

  /** part over whole, or nothing when the whole is not positive. */
  function Ratio(part: int, whole: int): Option<real> {
    if whole > 0 then Some(part as real / whole as real) else None
  }

  /** The sampled rate of a monitor, and its mean success latency. */
  function Rate(rows: seq<DayRow>, m: MonitorId): Option<real> { Ratio(SumOf(rows, m, Successes()), SumOf(rows, m, Totals())) }

  function MeanLatency(rows: seq<DayRow>, m: MonitorId): Option<real> {
    Ratio(SumOf(rows, m, LatencySums()), SumOf(rows, m, LatencyCounts()))
  }

  /** The checks of a monitor over the rows, and those that succeeded. */
  function Checks(rows: seq<DayRow>, m: MonitorId): nat {
    if rows == [] then 0 else (if rows[0].monitor == m then rows[0].total else 0) + Checks(rows[1..], m)
  }

  function Passed(rows: seq<DayRow>, m: MonitorId): nat {
    if rows == [] then 0 else (if rows[0].monitor == m && rows[0].total != 0 then rows[0].successes else 0) + Passed(rows[1..], m)
  }

  function TimeTaken(rows: seq<DayRow>, m: MonitorId): int {
    if rows == [] then 0 else (if rows[0].monitor == m && rows[0].total != 0 then rows[0].latencySum else 0) + TimeTaken(rows[1..], m)
  }

  function Timed(rows: seq<DayRow>, m: MonitorId): nat {
    if rows == [] then 0 else (if rows[0].monitor == m && rows[0].total != 0 then rows[0].latencyCount else 0) + Timed(rows[1..], m)
  }

  lemma {:induction false} SumsMean(rows: seq<DayRow>, m: MonitorId)
    ensures SumOf(rows, m, Totals()) == Checks(rows, m) && SumOf(rows, m, Successes()) == Passed(rows, m)
    ensures SumOf(rows, m, LatencySums()) == TimeTaken(rows, m) && SumOf(rows, m, LatencyCounts()) == Timed(rows, m)
  {
    if rows != [] {
      SumsMean(rows[1..], m);
      assert rows == [rows[0]] + rows[1..];
      SumAppend([rows[0]], rows[1..], m, Totals());
      SumAppend([rows[0]], rows[1..], m, Successes());
      SumAppend([rows[0]], rows[1..], m, LatencySums());
      SumAppend([rows[0]], rows[1..], m, LatencyCounts());
      assert [rows[0]][..0] == [];
    }
  }

  /** Every check weighs the same: the rate is passed checks over checks, and nothing where there are none. */
  lemma RateMeans(rows: seq<DayRow>, m: MonitorId)
    ensures Weighs(Rate(rows, m), Passed(rows, m), Checks(rows, m))
  {
    SumsMean(rows, m);
    RatioMeans(Passed(rows, m), Checks(rows, m));
  }

  /** The mean latency is the time taken over the timed checks. */
  lemma LatencyMeans(rows: seq<DayRow>, m: MonitorId)
    ensures Weighs(MeanLatency(rows, m), TimeTaken(rows, m), Timed(rows, m))
  {
    SumsMean(rows, m);
    RatioMeans(TimeTaken(rows, m), Timed(rows, m));
  }

  /** The part that a whole is multiplied by; absent where there is no whole. */
  predicate Weighs(r: Option<real>, part: int, whole: nat) {
    if whole == 0 then r.None? else r.Some? && r.value * (whole as real) == part as real
  }

  lemma RatioMeans(part: int, whole: nat)
    ensures Weighs(Ratio(part, whole), part, whole)
  {
    if whole > 0 { DivideBack(part as real, whole as real); }
  }

  lemma DivideBack(x: real, y: real)
    requires y > 0.0
    ensures (x / y) * y == x
  {
  }

  lemma Cancels(n: nat, p: int, q: int)
    requires n > 0 && q > 0
    ensures n * q > 0 && (n * p) as real / (n * q) as real == p as real / q as real
  {
    assert (n * p) as real == (n as real) * (p as real) && (n * q) as real == (n as real) * (q as real);
    var x := p as real / q as real;
    assert p as real == x * (q as real);
    assert (n * p) as real == x * ((n * q) as real);
  }

  lemma PositiveProduct(n: nat, q: int)
    requires n > 0
    ensures n * q > 0 <==> q > 0
  {
    if q <= 0 { assert n * q <= 0; }
  }

  lemma RatioAgrees(table: seq<DayRow>, ids: seq<MonitorId>, first: Day, last: Day, m: MonitorId, part: Counter, whole: Counter)
    ensures var batch, alone := BatchRows(table, ids, first, last), ScopeRows(table, Ids(ids), first, last);
            Ratio(SumOf(batch, m, part), SumOf(batch, m, whole)) == Ratio(SumOf(alone, m, part), SumOf(alone, m, whole))
  {
    var n := Occurrences(ids, m);
    var own := ScopeRows(table, {m}, first, last);
    BatchSums(table, ids, first, last, m, part);
    BatchSums(table, ids, first, last, m, whole);
    SumOfScope(table, Ids(ids), first, last, m, part);
    SumOfScope(table, Ids(ids), first, last, m, whole);
    OccursIffIn(ids, m);
    if n > 0 { RatioScales(n, SumOf(own, m, part), SumOf(own, m, whole)); }
  }

  lemma RatioScales(n: nat, p: int, q: int)
    requires n > 0
    ensures Ratio(n * p, n * q) == Ratio(p, q)
  {
    PositiveProduct(n, q);
    if q > 0 { Cancels(n, p, q); }
  }

  /** Every monitor's sampled rate and mean latency is the same, batched or alone. */
  lemma RatesAgree(table: seq<DayRow>, ids: seq<MonitorId>, first: Day, last: Day, m: MonitorId)
    ensures Rate(BatchRows(table, ids, first, last), m) == Rate(ScopeRows(table, Ids(ids), first, last), m)
    ensures MeanLatency(BatchRows(table, ids, first, last), m) == MeanLatency(ScopeRows(table, Ids(ids), first, last), m)
  {
    RatioAgrees(table, ids, first, last, m, Successes(), Totals());
    RatioAgrees(table, ids, first, last, m, LatencySums(), LatencyCounts());
  }

  // ---------- The latest status ----------

  datatype Latest = Latest(at: Option<Time>, status: Option<string>)

  function LatestOf(rows: seq<DayRow>): Latest {
    if rows == [] then Latest(None, None)
    else
      var rest, r := LatestOf(rows[..|rows| - 1]), rows[|rows| - 1];
      if r.latestAt.Some? && (rest.at.None? || r.latestAt.value > rest.at.value) then Latest(r.latestAt, r.latestStatus) else rest
  }

  predicate IsLatest(rows: seq<DayRow>, at: Time, status: Option<string>) {
    exists i :: 0 <= i < |rows| && rows[i].latestAt == Some(at) && rows[i].latestStatus == status
  }

  lemma {:induction false} LatestIsMax(rows: seq<DayRow>)
    ensures LatestOf(rows).at.None? ==> forall r :: r in rows ==> r.latestAt.None?
    ensures LatestOf(rows).at.Some? ==>
              && IsLatest(rows, LatestOf(rows).at.value, LatestOf(rows).status)
              && forall r :: r in rows && r.latestAt.Some? ==> r.latestAt.value <= LatestOf(rows).at.value
  {
    if rows != [] {
      var front := rows[..|rows| - 1];
      assert rows == front + [rows[|rows| - 1]];
      LatestIsMax(front);
      if LatestOf(front).at.Some? {
        var i :| 0 <= i < |front| && front[i].latestAt == Some(LatestOf(front).at.value) && front[i].latestStatus == LatestOf(front).status;
        assert rows[i] == front[i];
      }
    }
  }

  lemma LatestNotAfter(a: seq<DayRow>, b: seq<DayRow>)
    requires SameRows(a, b) && LatestOf(a).at.Some?
    ensures LatestOf(b).at.Some? && LatestOf(a).at.value <= LatestOf(b).at.value
  {
    LatestIsMax(a);
    LatestIsMax(b);
    var i :| 0 <= i < |a| && a[i].latestAt == LatestOf(a).at && a[i].latestStatus == LatestOf(a).status;
    assert a[i] in b;
  }

  /** The newest check time does not depend on row order. */
  lemma LatestTimeAgrees(a: seq<DayRow>, b: seq<DayRow>)
    requires SameRows(a, b)
    ensures LatestOf(a).at == LatestOf(b).at
  {
    if LatestOf(a).at.Some? { LatestNotAfter(a, b); }
    if LatestOf(b).at.Some? { LatestNotAfter(b, a); }
  }

  /** A row at the greatest check time. */
  predicate AtTop(rows: seq<DayRow>, r: DayRow) {
    r in rows && r.latestAt.Some? && forall i :: 0 <= i < |rows| && rows[i].latestAt.Some? ==> rows[i].latestAt.value <= r.latestAt.value
  }

  /** The rows at the greatest check time agree on one status. */
  ghost predicate OneTopStatus(rows: seq<DayRow>) {
    forall r, s :: AtTop(rows, r) && AtTop(rows, s) ==> r.latestStatus == s.latestStatus
  }

  /** Wherever such a row stands first, it decides. */
  lemma {:induction false} FirstDecides(r: DayRow, rows: seq<DayRow>)
    requires r.latestAt.Some? && forall i :: 0 <= i < |rows| && rows[i].latestAt.Some? ==> rows[i].latestAt.value <= r.latestAt.value
    ensures LatestOf([r] + rows) == Latest(r.latestAt, r.latestStatus)
  {
    var all := [r] + rows;
    if rows == [] {
      assert all == [r] && [r][..0] == [];
    } else {
      var front := rows[..|rows| - 1];
      assert all[..|all| - 1] == [r] + front;
      FirstDecides(r, front);
    }
  }

  lemma LatestIsTop(rows: seq<DayRow>) returns (r: DayRow)
    requires LatestOf(rows).at.Some?
    ensures AtTop(rows, r) && LatestOf(rows) == Latest(r.latestAt, r.latestStatus)
  {
    LatestIsMax(rows);
    var i :| 0 <= i < |rows| && rows[i].latestAt == LatestOf(rows).at && rows[i].latestStatus == LatestOf(rows).status;
    r := rows[i];
    forall j | 0 <= j < |rows| && rows[j].latestAt.Some? ensures rows[j].latestAt.value <= r.latestAt.value { assert rows[j] in rows; }
  }

  lemma TopOfSame(a: seq<DayRow>, b: seq<DayRow>, r: DayRow)
    requires SameRows(a, b) && AtTop(a, r)
    ensures AtTop(b, r)
  {
    forall i | 0 <= i < |b| && b[i].latestAt.Some? ensures b[i].latestAt.value <= r.latestAt.value { assert b[i] in a; }
  }

  lemma OneTopAgrees(a: seq<DayRow>, b: seq<DayRow>)
    requires SameRows(a, b) && OneTopStatus(a)
    ensures LatestOf(a) == LatestOf(b)
  {
    LatestTimeAgrees(a, b);
    if LatestOf(a).at.Some? {
      var r := LatestIsTop(a);
      var s := LatestIsTop(b);
      TopOfSame(b, a, s);
    } else {
      NoLatest(a);
      NoLatest(b);
    }
  }

  lemma {:induction false} NoLatest(rows: seq<DayRow>)
    requires LatestOf(rows).at.None?
    ensures LatestOf(rows).status.None?
  {
    if rows != [] { NoLatest(rows[..|rows| - 1]); }
  }

  /**
   Every list of the same rows, in whatever order and with whatever repetition, gives the same latest
   status exactly when the rows at the greatest check time agree on one.
   */
  lemma LatestStatusAgrees(a: seq<DayRow>)
    ensures OneTopStatus(a) <==> forall b :: SameRows(a, b) ==> LatestOf(b) == LatestOf(a)
  {
    if OneTopStatus(a) {
      forall b | SameRows(a, b) ensures LatestOf(b) == LatestOf(a) { OneTopAgrees(a, b); }
    } else {
      var r, s :| AtTop(a, r) && AtTop(a, s) && r.latestStatus != s.latestStatus;
      FirstDecides(r, a);
      FirstDecides(s, a);
      assert SameRows(a, [r] + a) && SameRows(a, [s] + a);
    }
  }

  lemma BatchSameRows(table: seq<DayRow>, ids: seq<MonitorId>, first: Day, last: Day)
    ensures SameRows(ScopeRows(table, Ids(ids), first, last), BatchRows(table, ids, first, last))
  {
    forall r ensures r in ScopeRows(table, Ids(ids), first, last) <==> r in BatchRows(table, ids, first, last) {
      ScopeRowsHold(table, Ids(ids), first, last, r);
      BatchRowsHold(table, ids, first, last, r);
    }
  }

  /** So the batch and the single query show the same latest time, and the same status where no tie disagrees. */
  lemma BatchLatestAgrees(table: seq<DayRow>, ids: seq<MonitorId>, first: Day, last: Day)
    ensures LatestOf(BatchRows(table, ids, first, last)).at == LatestOf(ScopeRows(table, Ids(ids), first, last)).at
    ensures OneTopStatus(ScopeRows(table, Ids(ids), first, last)) ==>
              LatestOf(BatchRows(table, ids, first, last)) == LatestOf(ScopeRows(table, Ids(ids), first, last))
  {
    BatchSameRows(table, ids, first, last);
    LatestTimeAgrees(ScopeRows(table, Ids(ids), first, last), BatchRows(table, ids, first, last));
    LatestStatusAgrees(ScopeRows(table, Ids(ids), first, last));
  }

  lemma LatestOfTwo(a: DayRow, b: DayRow)
    requires a.latestAt.Some? && b.latestAt == a.latestAt
    ensures LatestOf([a, b]) == Latest(a.latestAt, a.latestStatus)
  {
    assert [a, b][..1] == [a] && [a][..0] == [];
    assert LatestOf([a]) == Latest(a.latestAt, a.latestStatus);
  }

  lemma RowsOfTwo(a: DayRow, b: DayRow, ids: set<MonitorId>, first: Day, last: Day)
    ensures ScopeRows([a, b], ids, first, last) ==
            (if Chosen(a, ids, first, last) then [a] else []) + (if Chosen(b, ids, first, last) then [b] else [])
  {
    assert [a, b][..1] == [a] && [a][..0] == [];
    assert ScopeRows([a], ids, first, last) == if Chosen(a, ids, first, last) then [a] else [];
  }

  lemma BatchOfTwo(table: seq<DayRow>, m: MonitorId, n: MonitorId, first: Day, last: Day)
    ensures BatchRows(table, [m, n], first, last) == ScopeRows(table, {m}, first, last) + ScopeRows(table, {n}, first, last)
  {
    assert [m, n][..1] == [m] && [m][..0] == [];
    assert BatchRows(table, [m], first, last) == [] + ScopeRows(table, {m}, first, last);
  }

  /** Two monitors last checked at the same instant with different statuses: the batch shows one, the single query the other. */
  lemma TiedStatusDiffers(a: DayRow, b: DayRow)
    requires a.monitor != b.monitor && a.day == b.day && a.latestAt.Some? && a.latestAt == b.latestAt && a.latestStatus != b.latestStatus
    ensures UniqueKeys([a, b])
    ensures LatestOf(BatchRows([a, b], [b.monitor, a.monitor], a.day, a.day)).status == b.latestStatus
    ensures LatestOf(ScopeRows([a, b], {a.monitor, b.monitor}, a.day, a.day)).status == a.latestStatus
  {
    RowsOfTwo(a, b, {b.monitor}, a.day, a.day);
    RowsOfTwo(a, b, {a.monitor}, a.day, a.day);
    RowsOfTwo(a, b, {a.monitor, b.monitor}, a.day, a.day);
    BatchOfTwo([a, b], b.monitor, a.monitor, a.day, a.day);
    assert BatchRows([a, b], [b.monitor, a.monitor], a.day, a.day) == [b, a];
    assert ScopeRows([a, b], {a.monitor, b.monitor}, a.day, a.day) == [a, b];
    LatestOfTwo(b, a);
    LatestOfTwo(a, b);
  }
}

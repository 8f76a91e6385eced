/** A run after which an hourly bar is too high: the hour is published, the cursor has not advanced yet. */
module OverCountRun {
  import opened Common
  import opened MonitorState
  import opened Recording
  import opened Protocol
  import opened RecordingSafety
  import opened SoloRuns
  import opened RollupCursor

  const ROW := CheckResult(1, Key(7, MonitorSource), "success", 0, false)

  /** One result, recorded and rolled up. */
  lemma PublishedRow() returns (trace: seq<Database>, steps: seq<Step>, s: Database)
    ensures IsRun(trace, steps) && s == trace[|trace| - 1] && s.results == map[ROW.key := ROW] && s.dirty == map[] && s.clock == 1
  {
    var t1, p1, s1 := NewMonitor(ROW.monitor);
    var t2, p2, s2 := Deliver(t1, p1, s1, ROW);
    trace, steps, s := DrainAlone(t2, p2, s2, ROW.monitor, BucketOf(ROW));
  }

  lemma PublishedBar(results: map<Key, CheckResult>, ids: map<Key, int>, c: Cursor)
    requires results == map[ROW.key := ROW] && ids == map[ROW.key := 1] && c.lastCreatedAt.None?
    ensures |RawRows(results, ROW.monitor, 0, HOUR)| == 1 && |RowsPast(results, ids, ROW.monitor, c, 0, HOUR)| == 1
  {
    assert RawRows(results, ROW.monitor, 0, HOUR) == {ROW.key};
    assert RowsPast(results, ids, ROW.monitor, c, 0, HOUR) == {ROW.key};
  }

  /** Its bar shows two checks where there was one, although the hour is clean. */
  lemma PublishedBarOverCounts() returns (trace: seq<Database>, steps: seq<Step>, ids: map<Key, int>, c: Cursor, m: MonitorId, hour: Time)
    ensures IsRun(trace, steps) && Bucket(m, hour) !in trace[|steps|].dirty
    ensures var s := trace[|steps|];
            SeriesCount(s.results, ids, s.rollups, m, c, hour, hour) == 2 && |RawRows(s.results, m, hour, hour + HOUR)| == 1
  {
    var s;
    trace, steps, s := PublishedRow();
    ids, c, m, hour := map[ROW.key := 1], Cursor(None, 0), ROW.monitor, 0;
    PublishedBar(s.results, ids, c);
    CleanBarError(trace, steps, |steps|, m, ids, c, hour, hour);
  }
}

/**
 The downtime of a scope, loaded for one scope or assembled from a batch load:
 loadRollupDowntime, loadDowntimeByMonitor and buildScopeDowntime of shared/analytics/repository.go.
 */
module ScopeDowntime {
  import opened Downtime

  datatype Closed = Closed(monitor: MonitorId, start: Instant, end: Instant)
  datatype OpenRow = OpenRow(monitor: MonitorId, startedAt: Instant)

  function ClampTime(t: Instant, start: Instant, end: Instant): Instant {
    if t < start then start else if t > end then end else t
  }

  // ---------- Which periods a scope has ----------

  predicate Overlaps(r: Closed, start: Instant, end: Instant) { r.end >= start && r.start <= end }

  function ClosedPeriod(r: Closed, start: Instant, end: Instant): Period {
    Period(ClampTime(r.start, start, end), ClampTime(r.end, start, end), false)
  }

  function OpenPeriod(startedAt: Instant, start: Instant, end: Instant): Period {
    Period(ClampTime(startedAt, start, end), end, true)
  }

  predicate FromClosed(rows: seq<Closed>, ids: set<MonitorId>, start: Instant, end: Instant, p: Period) {
    exists i :: 0 <= i < |rows| && rows[i].monitor in ids && Overlaps(rows[i], start, end) && p == ClosedPeriod(rows[i], start, end)
  }

  predicate FromOpen(rows: seq<OpenRow>, ids: set<MonitorId>, start: Instant, end: Instant, p: Period) {
    exists i :: 0 <= i < |rows| && rows[i].monitor in ids && rows[i].startedAt <= end && p == OpenPeriod(rows[i].startedAt, start, end)
  }

  ghost predicate ScopePeriods(closed: seq<Closed>, open: seq<OpenRow>, ids: set<MonitorId>, start: Instant, end: Instant, ps: seq<Period>) {
    forall p :: p in ps <==> FromClosed(closed, ids, start, end, p) || FromOpen(open, ids, start, end, p)
  }

  /** The scope's downtime: the merge of its periods, whichever way they are listed. */
  ghost predicate IsDowntime(closed: seq<Closed>, open: seq<OpenRow>, ids: set<MonitorId>, start: Instant, end: Instant, merged: seq<Period>) {
    exists ps :: ScopePeriods(closed, open, ids, start, end, ps) && IsMerged(ps, merged)
  }

  predicate RowsProper(closed: seq<Closed>) { forall i :: 0 <= i < |closed| ==> closed[i].start <= closed[i].end }

  lemma ScopeProper(closed: seq<Closed>, open: seq<OpenRow>, ids: set<MonitorId>, start: Instant, end: Instant, ps: seq<Period>)
    requires RowsProper(closed) && start <= end && ScopePeriods(closed, open, ids, start, end, ps)
    ensures AllProper(ps)
  {
    forall i | 0 <= i < |ps| ensures Proper(ps[i]) { assert ps[i] in ps; }
  }

  function Ids(ids: seq<MonitorId>): set<MonitorId> { set m | m in ids }

  // ---------- One scope ----------

  lemma ClosedNext(rows: seq<Closed>, n: nat, ids: set<MonitorId>, start: Instant, end: Instant, p: Period)
    requires n < |rows|
    ensures FromClosed(rows[..n + 1], ids, start, end, p) <==>
            FromClosed(rows[..n], ids, start, end, p)
            || (rows[n].monitor in ids && Overlaps(rows[n], start, end) && p == ClosedPeriod(rows[n], start, end))
  {
    var a, b := rows[..n], rows[..n + 1];
    assert b[n] == rows[n] && forall i :: 0 <= i < n ==> a[i] == b[i];
    if FromClosed(a, ids, start, end, p) {
      var i :| 0 <= i < |a| && a[i].monitor in ids && Overlaps(a[i], start, end) && p == ClosedPeriod(a[i], start, end);
      assert b[i] == a[i];
    }
  }

  lemma OpenNext(rows: seq<OpenRow>, n: nat, ids: set<MonitorId>, start: Instant, end: Instant, p: Period)
    requires n < |rows|
    ensures FromOpen(rows[..n + 1], ids, start, end, p) <==>
            FromOpen(rows[..n], ids, start, end, p)
            || (rows[n].monitor in ids && rows[n].startedAt <= end && p == OpenPeriod(rows[n].startedAt, start, end))
  {
    var a, b := rows[..n], rows[..n + 1];
    assert b[n] == rows[n] && forall i :: 0 <= i < n ==> a[i] == b[i];
    if FromOpen(a, ids, start, end, p) {
      var i :| 0 <= i < |a| && a[i].monitor in ids && a[i].startedAt <= end && p == OpenPeriod(a[i].startedAt, start, end);
      assert b[i] == a[i];
    }
  }

  method LoadRollupDowntime(closed: seq<Closed>, open: seq<OpenRow>, ids: seq<MonitorId>, start: Instant, end: Instant)
    returns (merged: seq<Period>)
    requires RowsProper(closed) && start <= end
    ensures IsDowntime(closed, open, Ids(ids), start, end, merged)
  {
    var periods: seq<Period> := [];
    var n := 0;
    while n < |closed|
      invariant n <= |closed| && forall p :: p in periods <==> FromClosed(closed[..n], Ids(ids), start, end, p)
    {
      forall p { ClosedNext(closed, n, Ids(ids), start, end, p); }
      if closed[n].monitor in ids && Overlaps(closed[n], start, end) { periods := periods + [ClosedPeriod(closed[n], start, end)]; }
      n := n + 1;
    }
    assert closed[..n] == closed;
    n := 0;
    while n < |open|
      invariant n <= |open|
      invariant forall p :: p in periods <==> FromClosed(closed, Ids(ids), start, end, p) || FromOpen(open[..n], Ids(ids), start, end, p)
    {
      forall p { OpenNext(open, n, Ids(ids), start, end, p); }
      if open[n].monitor in ids && open[n].startedAt <= end { periods := periods + [OpenPeriod(open[n].startedAt, start, end)]; }
      n := n + 1;
    }
    assert open[..n] == open;
    ScopeProper(closed, open, Ids(ids), start, end, periods);
    merged := MergeDowntimePeriods(periods);
  }

  // ---------- A batch ----------

  type ClosedBy = map<MonitorId, seq<Closed>>
  type OpenBy = map<MonitorId, seq<OpenRow>>

  function RowsBy<T>(index: map<MonitorId, seq<T>>, m: MonitorId): seq<T> { if m in index then index[m] else [] }

  /** One load for the union of the scopes over the widest window, kept per monitor. */
  function ClosedOf(closed: seq<Closed>, union: set<MonitorId>, start: Instant, end: Instant, m: MonitorId): seq<Closed> {
    if closed == [] then []
    else
      var rest, r := ClosedOf(closed[..|closed| - 1], union, start, end, m), closed[|closed| - 1];
      if r.monitor == m && m in union && Overlaps(r, start, end) then rest + [r] else rest
  }

  function OpenOf(open: seq<OpenRow>, union: set<MonitorId>, end: Instant, m: MonitorId): seq<OpenRow> {
    if open == [] then []
    else
      var rest, r := OpenOf(open[..|open| - 1], union, end, m), open[|open| - 1];
      if r.monitor == m && m in union && r.startedAt <= end then rest + [r] else rest
  }

  method LoadClosedByMonitor(closed: seq<Closed>, union: set<MonitorId>, start: Instant, end: Instant) returns (index: ClosedBy)
    ensures forall m :: RowsBy(index, m) == ClosedOf(closed, union, start, end, m)
  {
    index := map[];
    var n := 0;
    while n < |closed|
      invariant n <= |closed| && forall m :: RowsBy(index, m) == ClosedOf(closed[..n], union, start, end, m)
    {
      var r := closed[n];
      assert closed[..n + 1][..n] == closed[..n];
      if r.monitor in union && Overlaps(r, start, end) { index := index[r.monitor := RowsBy(index, r.monitor) + [r]]; }
      n := n + 1;
    }
    assert closed[..n] == closed;
  }

  method LoadOpenByMonitor(open: seq<OpenRow>, union: set<MonitorId>, end: Instant) returns (index: OpenBy)
    ensures forall m :: RowsBy(index, m) == OpenOf(open, union, end, m)
  {
    index := map[];
    var n := 0;
    while n < |open|
      invariant n <= |open| && forall m :: RowsBy(index, m) == OpenOf(open[..n], union, end, m)
    {
      var r := open[n];
      assert open[..n + 1][..n] == open[..n];
      if r.monitor in union && r.startedAt <= end { index := index[r.monitor := RowsBy(index, r.monitor) + [r]]; }
      n := n + 1;
    }
    assert open[..n] == open;
  }

  lemma {:induction false} ClosedOfHolds(closed: seq<Closed>, union: set<MonitorId>, start: Instant, end: Instant, m: MonitorId, r: Closed)
    ensures r in ClosedOf(closed, union, start, end, m) <==> r in closed && r.monitor == m && m in union && Overlaps(r, start, end)
  {
    if closed != [] {
      assert closed == closed[..|closed| - 1] + [closed[|closed| - 1]];
      ClosedOfHolds(closed[..|closed| - 1], union, start, end, m, r);
    }
  }

  lemma {:induction false} OpenOfHolds(open: seq<OpenRow>, union: set<MonitorId>, end: Instant, m: MonitorId, r: OpenRow)
    ensures r in OpenOf(open, union, end, m) <==> r in open && r.monitor == m && m in union && r.startedAt <= end
  {
    if open != [] {
      assert open == open[..|open| - 1] + [open[|open| - 1]];
      OpenOfHolds(open[..|open| - 1], union, end, m, r);
    }
  }

  /** The rows of the monitors read so far. */
  ghost predicate Gathered(closed: seq<Closed>, open: seq<OpenRow>, ids: seq<MonitorId>, n: nat, start: Instant, end: Instant, ps: seq<Period>)
    requires n <= |ids|
  {
    ScopePeriods(closed, open, Ids(ids[..n]), start, end, ps)
  }

  method GatherMonitor(closed: seq<Closed>, open: seq<OpenRow>, start: Instant, end: Instant) returns (ps: seq<Period>)
    ensures forall p :: p in ps <==>
              (exists r :: r in closed && Overlaps(r, start, end) && p == ClosedPeriod(r, start, end))
              || (exists r :: r in open && r.startedAt <= end && p == OpenPeriod(r.startedAt, start, end))
  {
    ps := [];
    for n := 0 to |closed|
      invariant forall p :: p in ps <==> exists r :: r in closed[..n] && Overlaps(r, start, end) && p == ClosedPeriod(r, start, end)
    {
      assert closed[..n + 1] == closed[..n] + [closed[n]];
      if Overlaps(closed[n], start, end) { ps := ps + [ClosedPeriod(closed[n], start, end)]; }
    }
    assert closed[..|closed|] == closed;
    ghost var first := ps;
    for n := 0 to |open|
      invariant forall p :: p in ps <==> p in first || exists r :: r in open[..n] && r.startedAt <= end && p == OpenPeriod(r.startedAt, start, end)
    {
      assert open[..n + 1] == open[..n] + [open[n]];
      if open[n].startedAt <= end { ps := ps + [OpenPeriod(open[n].startedAt, start, end)]; }
    }
    assert open[..|open|] == open;
  }

  /** From the batch load a scope's downtime is put together monitor by monitor. */
  method BuildScopeDowntime(closed: seq<Closed>, open: seq<OpenRow>, union: set<MonitorId>, widest: Instant,
                            index: ClosedBy, openBy: OpenBy, ids: seq<MonitorId>, start: Instant, end: Instant)
    returns (merged: seq<Period>)
    requires RowsProper(closed) && widest <= start <= end && Ids(ids) <= union
    requires forall m :: RowsBy(index, m) == ClosedOf(closed, union, widest, end, m)
    requires forall m :: RowsBy(openBy, m) == OpenOf(open, union, end, m)
    ensures IsDowntime(closed, open, Ids(ids), start, end, merged)
  {
    var periods: seq<Period> := [];
    var n := 0;
    while n < |ids|
      invariant n <= |ids| && Gathered(closed, open, ids, n, start, end, periods)
    {
      var more := GatherMonitor(RowsBy(index, ids[n]), RowsBy(openBy, ids[n]), start, end);
      forall p ensures p in more <==> FromClosed(closed, {ids[n]}, start, end, p) || FromOpen(open, {ids[n]}, start, end, p) {
        MonitorPeriods(closed, open, union, widest, ids[n], start, end, p);
      }
      AddMonitor(closed, open, ids, n, start, end, periods, more);
      periods := periods + more;
      n := n + 1;
    }
    assert ids[..n] == ids;
    ScopeProper(closed, open, Ids(ids), start, end, periods);
    merged := MergeDowntimePeriods(periods);
  }

  lemma MonitorPeriods(closed: seq<Closed>, open: seq<OpenRow>, union: set<MonitorId>, widest: Instant, m: MonitorId,
                       start: Instant, end: Instant, p: Period)
    requires widest <= start <= end && m in union
    ensures (exists r :: r in ClosedOf(closed, union, widest, end, m) && Overlaps(r, start, end) && p == ClosedPeriod(r, start, end))
            <==> FromClosed(closed, {m}, start, end, p)
    ensures (exists r :: r in OpenOf(open, union, end, m) && r.startedAt <= end && p == OpenPeriod(r.startedAt, start, end))
            <==> FromOpen(open, {m}, start, end, p)
  {
    forall r ensures r in ClosedOf(closed, union, widest, end, m) <==> r in closed && r.monitor == m && Overlaps(r, widest, end) {
      ClosedOfHolds(closed, union, widest, end, m, r);
    }
    forall r ensures r in OpenOf(open, union, end, m) <==> r in open && r.monitor == m && r.startedAt <= end {
      OpenOfHolds(open, union, end, m, r);
    }
    if FromClosed(closed, {m}, start, end, p) {
      var i :| 0 <= i < |closed| && closed[i].monitor in {m} && Overlaps(closed[i], start, end) && p == ClosedPeriod(closed[i], start, end);
      assert closed[i] in ClosedOf(closed, union, widest, end, m);
    }
    if FromOpen(open, {m}, start, end, p) {
      var i :| 0 <= i < |open| && open[i].monitor in {m} && open[i].startedAt <= end && p == OpenPeriod(open[i].startedAt, start, end);
      assert open[i] in OpenOf(open, union, end, m);
    }
  }

  lemma AddMonitor(closed: seq<Closed>, open: seq<OpenRow>, ids: seq<MonitorId>, n: nat, start: Instant, end: Instant,
                   ps: seq<Period>, more: seq<Period>)
    requires n < |ids| && Gathered(closed, open, ids, n, start, end, ps)
    requires forall p :: p in more <==> FromClosed(closed, {ids[n]}, start, end, p) || FromOpen(open, {ids[n]}, start, end, p)
    ensures Gathered(closed, open, ids, n + 1, start, end, ps + more)
  {
    assert ids[..n + 1] == ids[..n] + [ids[n]];
    var was, now := Ids(ids[..n]), Ids(ids[..n + 1]);
    assert now == was + {ids[n]};
    forall p ensures p in ps + more <==> FromClosed(closed, now, start, end, p) || FromOpen(open, now, start, end, p) {
      assert FromClosed(closed, now, start, end, p) <==> FromClosed(closed, was, start, end, p) || FromClosed(closed, {ids[n]}, start, end, p);
      assert FromOpen(open, now, start, end, p) <==> FromOpen(open, was, start, end, p) || FromOpen(open, {ids[n]}, start, end, p);
    }
  }

  /** Batched or alone, with ids in any order and any number of times, a scope shows the same downtime. */
  lemma BatchEqualsScope(closed: seq<Closed>, open: seq<OpenRow>, ids: seq<MonitorId>, ids': seq<MonitorId>, start: Instant, end: Instant,
                         one: seq<Period>, other: seq<Period>)
    requires Ids(ids) == Ids(ids')
    requires IsDowntime(closed, open, Ids(ids), start, end, one) && IsDowntime(closed, open, Ids(ids'), start, end, other)
    ensures one == other
  {
    var ps :| ScopePeriods(closed, open, Ids(ids), start, end, ps) && IsMerged(ps, one);
    var qs :| ScopePeriods(closed, open, Ids(ids'), start, end, qs) && IsMerged(qs, other);
    MergeIsCanonical(ps, qs, one, other);
  }

  // ---------- What a scope's downtime says ----------

  predicate InClosed(closed: seq<Closed>, ids: set<MonitorId>, t: Instant) {
    exists i :: 0 <= i < |closed| && closed[i].monitor in ids && closed[i].start <= t && t <= closed[i].end
  }

  predicate InOpen(open: seq<OpenRow>, ids: set<MonitorId>, t: Instant) {
    exists i :: 0 <= i < |open| && open[i].monitor in ids && open[i].startedAt <= t
  }

  lemma ClosedMeans(closed: seq<Closed>, ids: set<MonitorId>, start: Instant, end: Instant, t: Instant)
    requires start <= end
    ensures (exists p :: FromClosed(closed, ids, start, end, p) && Within(p, t)) <==> start <= t <= end && InClosed(closed, ids, t)
  {
    if p :| FromClosed(closed, ids, start, end, p) && Within(p, t) {
      var i :| 0 <= i < |closed| && closed[i].monitor in ids && Overlaps(closed[i], start, end) && p == ClosedPeriod(closed[i], start, end);
      assert closed[i].start <= t && t <= closed[i].end;
    }
    if start <= t <= end && InClosed(closed, ids, t) {
      var i :| 0 <= i < |closed| && closed[i].monitor in ids && closed[i].start <= t && t <= closed[i].end;
      var p := ClosedPeriod(closed[i], start, end);
      assert FromClosed(closed, ids, start, end, p) && Within(p, t);
    }
  }

  lemma OpenMeans(open: seq<OpenRow>, ids: set<MonitorId>, start: Instant, end: Instant, t: Instant)
    requires start <= end
    ensures (exists p :: FromOpen(open, ids, start, end, p) && Within(p, t)) <==> start <= t <= end && InOpen(open, ids, t)
  {
    if p :| FromOpen(open, ids, start, end, p) && Within(p, t) {
      var i :| 0 <= i < |open| && open[i].monitor in ids && open[i].startedAt <= end && p == OpenPeriod(open[i].startedAt, start, end);
      assert open[i].startedAt <= t;
    }
    if start <= t <= end && InOpen(open, ids, t) {
      var i :| 0 <= i < |open| && open[i].monitor in ids && open[i].startedAt <= t;
      var p := OpenPeriod(open[i].startedAt, start, end);
      assert FromOpen(open, ids, start, end, p) && Within(p, t);
    }
  }

  /**
   An instant of the window is down exactly when a closed or an open row of one of the scope's monitors
   covers it, nothing outside the window is, and a span is open exactly when an open row begins in it.
   */
  lemma DowntimeMeans(closed: seq<Closed>, open: seq<OpenRow>, ids: set<MonitorId>, start: Instant, end: Instant, merged: seq<Period>)
    requires start <= end && IsDowntime(closed, open, ids, start, end, merged)
    ensures forall t :: Down(merged, t) <==> start <= t <= end && (InClosed(closed, ids, t) || InOpen(open, ids, t))
    ensures forall k :: 0 <= k < |merged| ==>
              (merged[k].isOpen <==>
                 exists i :: 0 <= i < |open| && open[i].monitor in ids && open[i].startedAt <= end
                             && Within(merged[k], if open[i].startedAt < start then start else open[i].startedAt))
  {
    var ps :| ScopePeriods(closed, open, ids, start, end, ps) && IsMerged(ps, merged);
    forall t ensures Down(merged, t) <==> start <= t <= end && (InClosed(closed, ids, t) || InOpen(open, ids, t)) {
      ClosedMeans(closed, ids, start, end, t);
      OpenMeans(open, ids, start, end, t);
      DownIn(ps, t);
    }
    forall k | 0 <= k < |merged|
      ensures merged[k].isOpen <==>
                exists i :: 0 <= i < |open| && open[i].monitor in ids && open[i].startedAt <= end
                            && Within(merged[k], if open[i].startedAt < start then start else open[i].startedAt)
    {
      OpenSpan(closed, open, ids, start, end, ps, merged[k]);
    }
  }

  lemma DownIn(ps: seq<Period>, t: Instant)
    ensures Down(ps, t) <==> exists p :: p in ps && Within(p, t)
  {
    if i :| 0 <= i < |ps| && Within(ps[i], t) { assert ps[i] in ps; }
    if p :| p in ps && Within(p, t) { var i :| 0 <= i < |ps| && ps[i] == p; }
  }

  lemma OpenSpan(closed: seq<Closed>, open: seq<OpenRow>, ids: set<MonitorId>, start: Instant, end: Instant, ps: seq<Period>, span: Period)
    requires start <= end && ScopePeriods(closed, open, ids, start, end, ps)
    ensures HasOpen(ps, span) <==>
            exists i :: 0 <= i < |open| && open[i].monitor in ids && open[i].startedAt <= end
                        && Within(span, if open[i].startedAt < start then start else open[i].startedAt)
  {
    if j :| 0 <= j < |ps| && ps[j].isOpen && Within(span, ps[j].start) {
      assert ps[j] in ps && FromOpen(open, ids, start, end, ps[j]);
    }
    if i :| 0 <= i < |open| && open[i].monitor in ids && open[i].startedAt <= end
            && Within(span, if open[i].startedAt < start then start else open[i].startedAt) {
      var p := OpenPeriod(open[i].startedAt, start, end);
      assert FromOpen(open, ids, start, end, p);
      assert p in ps;
      var j :| 0 <= j < |ps| && ps[j] == p;
      assert ps[j].isOpen && Within(span, ps[j].start);
    }
  }
}

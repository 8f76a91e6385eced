/** Runs in which one delivery moves its monitor twice, because retention removed its row in between. */
module RedeliveryRun {
  import opened Common
  import opened MonitorState
  import opened Recording
  import opened Protocol
  import opened RecordingSafety
  import opened SoloRuns

  // ---------- Without locations ----------

  /** One monitor, one result: recorded, rolled up, pruned forty days later, redelivered, and applied again. */
  lemma PrunedKeyRunsTwice() returns (trace: seq<Database>, steps: seq<Step>, m: MonitorId, key: Key)
    ensures IsRun(trace, steps) && m in trace[|steps|].history && key in trace[|steps|].pruned
    ensures var es := trace[|steps|].history[m]; |es| == 2 && KeyOf(es[0]) == KeyOf(es[1]) == Some(key)
  {
    m, key := 1, Key(7, MonitorSource);
    var r := CheckResult(m, key, "failure", 0, false);
    var t1, p1, s1 := NewMonitor(m);
    var t2, p2, s2 := Deliver(t1, p1, s1, r);
    var t3, p3, s3 := DrainAlone(t2, p2, s2, m, BucketOf(r));
    var t4, p4, s4 := ForgetAlone(t3, p3, s3, r);
    var s5;
    trace, steps, s5 := Deliver(t4, p4, s4, r);
    assert s5.history[m][..1] == s4.history[m] && s5.history[m][0] == s4.history[m][0];
  }

  // ---------- At a location ----------

  lemma LocatedEvent(m: Monitor, r: CheckResult, l: LocationId, now: Time, live: set<LocationId>)
    requires RunsAtLocation(m, r, l, true)
    ensures var p := PlanAtLocation(m, r, l, true, now, live);
            && p.event.Some? && p.event.value.Located? && p.event.value.key == r.key && p.event.value.location == l
            && p.event.value.startedAt == r.startedAt
            && p.after.locations == m.locations && LocationWatermark(p.after, l) == Some(r.startedAt)
  {
  }

  predicate LocatedAs(e: Event, r: CheckResult, l: LocationId) {
    e.Located? && e.key == r.key && e.location == l && e.startedAt == r.startedAt
  }

  /** Delivering a new, timely result at the location, alone. */
  lemma DeliverAt(trace: seq<Database>, steps: seq<Step>, s: Database, r: CheckResult, l: LocationId) returns (trace': seq<Database>, steps': seq<Step>, s': Database)
    requires IsRun(trace, steps) && s == trace[|trace| - 1] && Quiet(s, r.monitor)
    requires r.key !in s.results && RunsAtLocation(s.monitors[r.monitor], r, l, true)
    ensures IsRun(trace', steps') && s' == trace'[|trace'| - 1] && Quiet(s', r.monitor)
    ensures var n := |s.history[r.monitor]|;
            |s'.history[r.monitor]| == n + 1 && s'.history[r.monitor][..n] == s.history[r.monitor] && LocatedAs(s'.history[r.monitor][n], r, l)
    ensures s'.monitors[r.monitor].locations == s.monitors[r.monitor].locations
    ensures LocationWatermark(s'.monitors[r.monitor], l) == Some(r.startedAt)
    ensures s'.results == s.results[r.key := r] && s'.clock == s.clock + 1 && s'.pruned == s.pruned
    ensures s'.dirty.Keys <= s.dirty.Keys + {BucketOf(r)}
  {
    var op := RecordAtLocation(r, l);
    trace', steps' := Alone(trace, steps, s, r.monitor, op);
    s' := Done(s, r.monitor, op);
    DoneIs(s, r.monitor, op);
    LocatedEvent(s.monitors[r.monitor], r, l, s.clock, s.live);
  }

  /** The same at a location, while the monitor has it selected. */
  lemma PrunedKeyRunsTwiceAtLocation() returns (trace: seq<Database>, steps: seq<Step>, r: CheckResult, l: LocationId)
    ensures IsRun(trace, steps) && r.monitor in trace[|steps|].monitors && r.monitor in trace[|steps|].history
    ensures r.key in trace[|steps|].pruned && l in trace[|steps|].monitors[r.monitor].locations
    ensures var es := trace[|steps|].history[r.monitor]; |es| == 3 && LocatedAs(es[1], r, l) && LocatedAs(es[2], r, l)
  {
    r, l := CheckResult(1, Key(7, MonitorSource), "failure", 0, false), 5;
    var t1, p1, s1 := NewLocatedMonitor(r.monitor, l);
    var t2, p2, s2 := DeliverAt(t1, p1, s1, r, l);
    var t3, p3, s3 := DrainAlone(t2, p2, s2, r.monitor, BucketOf(r));
    var t4, p4, s4 := ForgetAlone(t3, p3, s3, r);
    var s5;
    trace, steps, s5 := DeliverAt(t4, p4, s4, r, l);
    assert s5.history[r.monitor][..2] == s4.history[r.monitor];
    assert s5.history[r.monitor][1] == s4.history[r.monitor][1];
  }

  lemma Select(trace: seq<Database>, steps: seq<Step>, s: Database, m: MonitorId, ls: set<LocationId>) returns (trace': seq<Database>, steps': seq<Step>, s': Database)
    requires IsRun(trace, steps) && s == trace[|trace| - 1] && Quiet(s, m)
    ensures IsRun(trace', steps') && s' == trace'[|trace'| - 1] && Quiet(s', m)
    ensures s'.monitors[m].locations == ls && s'.monitors[m].locationStates == Restrict(s.monitors[m].locationStates, ls)
    ensures s'.history[m] == s.history[m] + [if ls == {} then Reset(ByLocationChange) else Kept(ls)]
    ensures s'.results == s.results && s'.dirty.Keys <= s.dirty.Keys && s'.clock == s.clock + 1
  {
    trace', steps' := Alone(trace, steps, s, m, SetLocations(m, ls));
    DoneIs(s, m, SetLocations(m, ls));
    s' := Done(s, m, SetLocations(m, ls));
  }

  /** Dropping the location and selecting it again, alone. */
  lemma Reselect(trace: seq<Database>, steps: seq<Step>, s: Database, m: MonitorId, l: LocationId) returns (trace': seq<Database>, steps': seq<Step>, s': Database)
    requires IsRun(trace, steps) && s == trace[|trace| - 1] && Quiet(s, m)
    ensures IsRun(trace', steps') && s' == trace'[|trace'| - 1] && Quiet(s', m)
    ensures s'.monitors[m].locations == {l} && s'.monitors[m].locationStates == map[]
    ensures s'.history[m] == s.history[m] + [Reset(ByLocationChange), Kept({l})]
    ensures s'.results == s.results && s'.dirty.Keys <= s.dirty.Keys && s'.clock == s.clock + 2
  {
    var t1, p1, s1 := Select(trace, steps, s, m, {});
    trace', steps', s' := Select(t1, p1, s1, m, {l});
    assert s1.monitors[m].locationStates == map[];
  }

  /** Two results in order; then the location is dropped and selected again, and the older one is accepted once more. */
  lemma ClearedLocationForgets() returns (trace: seq<Database>, steps: seq<Step>, older: CheckResult, newer: CheckResult, l: LocationId)
    ensures IsRun(trace, steps) && older.monitor == newer.monitor && older.monitor in trace[|steps|].history && older.startedAt < newer.startedAt
    ensures var es := trace[|steps|].history[older.monitor];
            && |es| == 6 && LocatedAs(es[1], older, l) && LocatedAs(es[2], newer, l)
            && Clears(es[3], l) && LocatedAs(es[5], older, l)
  {
    l := 5;
    older, newer := CheckResult(1, Key(7, MonitorSource), "failure", 0, false), CheckResult(1, Key(8, MonitorSource), "success", 1, false);
    var t1, p1, s1 := NewLocatedMonitor(1, l);
    var t2, p2, s2 := DeliverAt(t1, p1, s1, older, l);
    var t3, p3, s3 := DeliverAt(t2, p2, s2, newer, l);
    assert s3.history[1][..2] == s2.history[1];
    assert BucketOf(older) == BucketOf(newer);
    var t4, p4, s4 := Reselect(t3, p3, s3, 1, l);
    var t5, p5, s5 := DrainAlone(t4, p4, s4, 1, BucketOf(older));
    var t6, p6, s6 := ForgetAlone(t5, p5, s5, older);
    var s7;
    trace, steps, s7 := DeliverAt(t6, p6, s6, older, l);
    assert s7.history[1][..5] == s6.history[1];
    assert s7.history[1][1] == s6.history[1][1] == s2.history[1][1] && s7.history[1][2] == s6.history[1][2] && s7.history[1][3] == s6.history[1][3];
  }
}

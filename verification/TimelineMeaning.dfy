/** What a recorded state counts as: the timeline query against the rows it reads. */
module TimelineMeaning {
  import opened Common
  import opened MonitorState
  import opened Recording
  import opened Multirange
  import opened Timeline
  import opened TimelineScope
  import opened TimelineRead
  import Protocol
  import RecordingSafety
  import History = TimelineHistory

  /** The row's state held at the tick; an open row holds until now. */
  predicate Held(i: Interval, t: Time, now: Time) {
    i.startedAt <= t && (if i.endedAt.None? then t < now else t < i.endedAt.value)
  }

  /** Some maintenance window of the tenant is on at the tick, for the monitor itself or for one of its groups. */
  ghost predicate UnderMaintenance(db: Tables, tenant: TenantId, m: MonitorId, t: Time) {
    exists w :: w in db.windows && w.tenant == tenant && w.startsAt <= t && t < w.endsAt
             && ((w.id, m) in db.targets || exists g :: (m, g) in db.groups && (w.id, g) in db.targets)
  }

  lemma ReachesMeans(db: Tables, w: Window, m: MonitorId)
    ensures Timeline.Reaches(db, w, m) <==> (w.id, m) in db.targets || exists g :: (m, g) in db.groups && (w.id, g) in db.targets
  {
    if p :| p in db.groups && p.0 == m && (w.id, p.1) in db.targets {
      var g := p.1;
      assert p == (m, g) && (m, g) in db.groups && (w.id, g) in db.targets;
    }
    if g :| (m, g) in db.groups && (w.id, g) in db.targets {
      var p := (m, g);
      assert p in db.groups && p.0 == m && (w.id, p.1) in db.targets;
    }
  }

  lemma MaintenanceMeans(db: Tables, tenant: TenantId, m: MonitorId, t: Time)
    ensures InMaintenanceAt(db, tenant, m, t) <==> UnderMaintenance(db, tenant, m, t)
  {
    forall w ensures Timeline.Reaches(db, w, m) <==> (w.id, m) in db.targets || exists g :: (m, g) in db.groups && (w.id, g) in db.targets {
      ReachesMeans(db, w, m);
    }
    if i :| 0 <= i < |db.windows| && ActiveFor(db, db.windows[i], tenant, m, t) { assert db.windows[i] in db.windows; }
    if w :| w in db.windows && ActiveFor(db, w, tenant, m, t) {
      var i :| 0 <= i < |db.windows| && db.windows[i] == w;
    }
  }

  /** A monitor's rows are those of its tenant and id. */
  lemma {:induction false} RowsForMeans(rows: seq<IntervalRow>, tenant: TenantId, m: MonitorId, i: Interval)
    ensures i in RowsFor(rows, tenant, m) <==> IntervalRow(tenant, m, i) in rows
  {
    if rows != [] {
      var front, last := rows[..|rows| - 1], rows[|rows| - 1];
      assert rows == front + [last];
      RowsForMeans(front, tenant, m, i);
      assert i in RowsFor(rows, tenant, m) <==> i in RowsFor(front, tenant, m) || (last.tenant == tenant && last.monitor == m && last.interval == i);
    }
  }

  /**
   What a tick of a monitor's time counts as, by the row that holds at it: down while down, or degraded where
   degraded counts as down; available while up, suspect or otherwise degraded; paused or unknown by what
   opened the unknown state; and planned where a maintenance window is on.
   */
  lemma TickMeans(db: Tables, tenant: TenantId, m: MonitorId, i: Interval, t: Time, now: Time, knob: bool)
    requires TimelineDisjoint(db, tenant, m, now) && IntervalRow(tenant, m, i) in db.intervals && Held(i, t, now)
    ensures var status := StatusAt(db, tenant, m, t, now, knob);
            && (status == PlannedDown || status == UnplannedDown <==> i.state == Down || (knob && i.state == Degraded))
            && (status == Available <==> i.state == Up || i.state == Suspect || (!knob && i.state == Degraded))
            && (status == Paused <==> i.state == Unknown && i.reason == ByPause)
            && (status == NotKnown <==> i.state == Unknown && i.reason != ByPause)
            && (status == PlannedDown ==> UnderMaintenance(db, tenant, m, t))
            && (status == UnplannedDown ==> !UnderMaintenance(db, tenant, m, t))
  {
    var ivs := RowsFor(db.intervals, tenant, m);
    RowsForMeans(db.intervals, tenant, m, i);
    MaintenanceMeans(db, tenant, m, t);
    var k :| 0 <= k < |ivs| && ivs[k] == i;
    StatusFound(ivs, k, t, now, knob, InMaintenanceAt(db, tenant, m, t));
  }

  /** A tick at which no row of the monitor holds is untracked. */
  lemma UntrackedMeans(db: Tables, tenant: TenantId, m: MonitorId, t: Time, now: Time, knob: bool)
    ensures StatusAt(db, tenant, m, t, now, knob) == Untracked <==> forall i :: IntervalRow(tenant, m, i) in db.intervals ==> !Held(i, t, now)
  {
    var ivs := RowsFor(db.intervals, tenant, m);
    StatusTracked(ivs, t, now, knob, InMaintenanceAt(db, tenant, m, t));
    forall i ensures i in ivs <==> IntervalRow(tenant, m, i) in db.intervals { RowsForMeans(db.intervals, tenant, m, i); }
    forall k | 0 <= k < |ivs| ensures ivs[k] in ivs {}
  }

  // ---------- Degraded counts as down ----------

  /** The ticks of a bucket at which the monitor was degraded. */
  ghost function DegradedTicks(db: Tables, tenant: TenantId, m: MonitorId, b: Range, now: Time): set<Time> {
    set t | t in Span(b) && DegradedAt(db, tenant, m, t, now)
  }

  ghost predicate DegradedAt(db: Tables, tenant: TenantId, m: MonitorId, t: Time, now: Time) {
    exists i :: IntervalRow(tenant, m, i) in db.intervals && Held(i, t, now) && i.state == Degraded
  }

  predicate IsDown(s: Status) { s == PlannedDown || s == UnplannedDown }

  lemma KnobAt(db: Tables, tenant: TenantId, m: MonitorId, t: Time, now: Time)
    requires TimelineDisjoint(db, tenant, m, now)
    ensures var off, on := StatusAt(db, tenant, m, t, now, false), StatusAt(db, tenant, m, t, now, true);
            if DegradedAt(db, tenant, m, t, now) then off == Available && IsDown(on) else on == off
  {
    var off, on := StatusAt(db, tenant, m, t, now, false), StatusAt(db, tenant, m, t, now, true);
    if i :| IntervalRow(tenant, m, i) in db.intervals && Held(i, t, now) && i.state == Degraded {
      TickMeans(db, tenant, m, i, t, now, false);
      TickMeans(db, tenant, m, i, t, now, true);
    } else if i :| IntervalRow(tenant, m, i) in db.intervals && Held(i, t, now) {
      TickMeans(db, tenant, m, i, t, now, false);
      TickMeans(db, tenant, m, i, t, now, true);
    } else {
      UntrackedMeans(db, tenant, m, t, now, false);
      UntrackedMeans(db, tenant, m, t, now, true);
    }
  }

  /** Counting degraded as down moves exactly the degraded time from available to down. */
  lemma KnobMovesDegraded(db: Tables, tenant: TenantId, m: MonitorId, b: Range, now: Time)
    requires TimelineDisjoint(db, tenant, m, now)
    ensures var off, on := MonitorSeconds(db, tenant, m, b, now, false), MonitorSeconds(db, tenant, m, b, now, true);
            var moved := |DegradedTicks(db, tenant, m, b, now)|;
            && on.available == off.available - moved
            && on.unplannedDown + on.plannedDown == off.unplannedDown + off.plannedDown + moved
            && on.paused == off.paused && on.unknown == off.unknown
  {
    var f, g := Meaning(db, tenant, m, now, false), Meaning(db, tenant, m, now, true);
    var d := DegradedTicks(db, tenant, m, b, now);
    IntegrationIsPointwise(db, tenant, m, b, now, false);
    IntegrationIsPointwise(db, tenant, m, b, now, true);
    forall t | t in Span(b) ensures Moved(f, g, d, t) { KnobAt(db, tenant, m, t, now); }
    KnobMoves(f, g, b, d);
  }

  lemma KnobMoves(f: Time -> Status, g: Time -> Status, b: Range, d: set<Time>)
    requires d <= Span(b) && forall t :: t in Span(b) ==> Moved(f, g, d, t)
    ensures |TicksOf(g, b, Available)| == |TicksOf(f, b, Available)| - |d|
    ensures |TicksOf(g, b, UnplannedDown)| + |TicksOf(g, b, PlannedDown)| == |TicksOf(f, b, UnplannedDown)| + |TicksOf(f, b, PlannedDown)| + |d|
    ensures TicksOf(g, b, Paused) == TicksOf(f, b, Paused) && TicksOf(g, b, NotKnown) == TicksOf(f, b, NotKnown)
  {
    forall t | t in Span(b) ensures (f(t) == Paused <==> g(t) == Paused) && (f(t) == NotKnown <==> g(t) == NotKnown) { assert Moved(f, g, d, t); }
    AvailableLoses(f, g, b, d);
    DownGains(f, g, b, d);
    DownSize(f, b);
    DownSize(g, b);
  }

  predicate Moved(f: Time -> Status, g: Time -> Status, d: set<Time>, t: Time) {
    if t in d then f(t) == Available && IsDown(g(t)) else g(t) == f(t)
  }

  lemma AvailableLoses(f: Time -> Status, g: Time -> Status, b: Range, d: set<Time>)
    requires d <= Span(b) && forall t :: t in Span(b) ==> Moved(f, g, d, t)
    ensures |TicksOf(g, b, Available)| == |TicksOf(f, b, Available)| - |d|
  {
    var was, now := TicksOf(f, b, Available), TicksOf(g, b, Available);
    forall t ensures t in was - d <==> t in now { assert t in Span(b) ==> Moved(f, g, d, t); }
    forall t | t in d ensures t in was { assert Moved(f, g, d, t); }
    SplitSize(was, d);
    assert was - d == now && was * d == d;
  }

  lemma DownGains(f: Time -> Status, g: Time -> Status, b: Range, d: set<Time>)
    requires d <= Span(b) && forall t :: t in Span(b) ==> Moved(f, g, d, t)
    ensures |DownTicks(g, b)| == |DownTicks(f, b)| + |d|
  {
    var was, now := DownTicks(f, b), DownTicks(g, b);
    forall t ensures t in now <==> t in was + d { assert t in Span(b) ==> Moved(f, g, d, t); }
    forall t | t in d ensures t !in was { assert Moved(f, g, d, t); }
    assert now == was + d && was !! d;
  }

  function DownTicks(f: Time -> Status, b: Range): set<Time> { set t | t in Span(b) && IsDown(f(t)) }

  lemma DownSize(f: Time -> Status, b: Range)
    ensures |DownTicks(f, b)| == |TicksOf(f, b, UnplannedDown)| + |TicksOf(f, b, PlannedDown)|
  {
    var parts := TicksOf(f, b, UnplannedDown) + TicksOf(f, b, PlannedDown);
    forall t ensures t in DownTicks(f, b) <==> t in parts {}
    assert DownTicks(f, b) == parts;
    assert TicksOf(f, b, UnplannedDown) !! TicksOf(f, b, PlannedDown);
  }

  // ---------- Outages ----------

  ghost predicate DownAt(db: Tables, tenant: TenantId, m: MonitorId, t: Time, now: Time, knob: bool) {
    exists i :: IntervalRow(tenant, m, i) in db.intervals && Held(i, t, now) && (i.state == Down || (knob && i.state == Degraded))
  }

  lemma DownMeans(db: Tables, tenant: TenantId, m: MonitorId, t: Time, now: Time, knob: bool)
    requires TimelineDisjoint(db, tenant, m, now)
    ensures DownAt(db, tenant, m, t, now, knob) <==> IsDown(StatusAt(db, tenant, m, t, now, knob))
  {
    if i :| IntervalRow(tenant, m, i) in db.intervals && Held(i, t, now) {
      TickMeans(db, tenant, m, i, t, now, knob);
      if j :| IntervalRow(tenant, m, j) in db.intervals && Held(j, t, now) && (j.state == Down || (knob && j.state == Degraded)) {
        TickMeans(db, tenant, m, j, t, now, knob);
      }
    } else {
      UntrackedMeans(db, tenant, m, t, now, knob);
    }
  }

  /** The monitor is down in a row that is still open and has begun before the window ends. */
  ghost predicate StillDown(db: Tables, tenant: TenantId, m: MonitorId, b: Range, now: Time, knob: bool) {
    exists i :: IntervalRow(tenant, m, i) in db.intervals && OpenDown(i, b, now, knob)
  }

  predicate OpenDown(i: Interval, b: Range, now: Time, knob: bool) {
    && i.endedAt.None? && (i.state == Down || (knob && i.state == Degraded))
    && i.startedAt < b.hi && i.startedAt < now && b.lo < now && b.lo < b.hi
  }

  lemma OpenMeans(db: Tables, tenant: TenantId, m: MonitorId, b: Range, now: Time, knob: bool)
    ensures OpenNow(RowsFor(db.intervals, tenant, m), b, now, knob) <==> StillDown(db, tenant, m, b, now, knob)
  {
    var ivs := RowsFor(db.intervals, tenant, m);
    forall i ensures i in ivs <==> IntervalRow(tenant, m, i) in db.intervals { RowsForMeans(db.intervals, tenant, m, i); }
    if k :| 0 <= k < |ivs| && Joins(ivs[k], b, now) && ClassOf(ivs[k], knob) == DownClass && ivs[k].endedAt.None? { assert ivs[k] in ivs; }
    if i :| IntervalRow(tenant, m, i) in db.intervals && OpenDown(i, b, now, knob) {
      var k :| 0 <= k < |ivs| && ivs[k] == i;
      assert Joins(ivs[k], b, now) && ClassOf(ivs[k], knob) == DownClass;
    }
  }

  /** A maximal stretch of down time inside the window, with its planned share and the two marks of a clipped outage. */
  ghost predicate IsOutage(db: Tables, tenant: TenantId, m: MonitorId, b: Range, now: Time, knob: bool, o: Outage) {
    && o.monitor == Some(m) && b.lo <= o.start < o.end <= b.hi
    && (forall t :: o.start <= t < o.end ==> DownAt(db, tenant, m, t, now, knob))
    && (o.start > b.lo ==> !DownAt(db, tenant, m, o.start - 1, now, knob))
    && (o.end < b.hi ==> !DownAt(db, tenant, m, o.end, now, knob))
    && o.planned == |set t | t in Span(Range(o.start, o.end)) && UnderMaintenance(db, tenant, m, t)|
    && (o.startedBefore <==> o.start == b.lo)
    && (o.ongoing <==> o.end == b.hi || (StillDown(db, tenant, m, b, now, knob) && o.end + SECOND >= (if now < b.hi then now else b.hi)))
  }

  lemma {:induction false} OutageOfRange(m: MonitorId, downs: Ranges, mt: Ranges, open: bool, b: Range, now: Time, k: nat)
    requires k < |MonitorOutages(m, downs, mt, open, b, now)|
    ensures k < |downs| == |MonitorOutages(m, downs, mt, open, b, now)|
    ensures MonitorOutages(m, downs, mt, open, b, now)[k] == OutageAt(Some(m), downs[k], Length(Intersect([downs[k]], mt)), open, b, now)
  {
    if k > 0 { OutageOfRange(m, downs[1..], mt, open, b, now, k - 1); } else { OutageCount(m, downs, mt, open, b, now); }
  }

  lemma {:induction false} OutageCount(m: MonitorId, downs: Ranges, mt: Ranges, open: bool, b: Range, now: Time)
    ensures |MonitorOutages(m, downs, mt, open, b, now)| == |downs|
  {
    if downs != [] { OutageCount(m, downs[1..], mt, open, b, now); }
  }

  lemma DownTicksMean(db: Tables, tenant: TenantId, m: MonitorId, b: Range, now: Time, knob: bool)
    requires TimelineDisjoint(db, tenant, m, now)
    ensures var downs := ClassRanges(db, tenant, m, b, now, knob, DownClass);
            Normal(downs) && forall t :: t in Ticks(downs) <==> Inside(b, t) && DownAt(db, tenant, m, t, now, knob)
  {
    var downs := ClassRanges(db, tenant, m, b, now, knob, DownClass);
    ClassRangesOk(db, tenant, m, b, now, knob, DownClass, 0);
    forall t ensures t in Ticks(downs) <==> Inside(b, t) && DownAt(db, tenant, m, t, now, knob) {
      ClassRangesOk(db, tenant, m, b, now, knob, DownClass, t);
      DownMeans(db, tenant, m, t, now, knob);
      MaintenanceMeans(db, tenant, m, t);
      PlannedIsMaintenance(db, tenant, m, t, now, knob);
    }
  }

  lemma PlannedMeans(db: Tables, tenant: TenantId, m: MonitorId, b: Range, r: Range)
    requires b.lo <= r.lo < r.hi <= b.hi
    ensures Length(Intersect([r], Maintenance(db, tenant, m, b))) == |set t | t in Span(r) && UnderMaintenance(db, tenant, m, t)|
  {
    var mt := Maintenance(db, tenant, m, b);
    MaintenanceOk(db, tenant, m, b, 0);
    PlannedShare(r, mt);
    forall t ensures t in Span(r) * Ticks(mt) <==> t in Span(r) && UnderMaintenance(db, tenant, m, t) {
      MaintenanceOk(db, tenant, m, b, t);
      MaintenanceMeans(db, tenant, m, t);
    }
    assert Span(r) * Ticks(mt) == set t | t in Span(r) && UnderMaintenance(db, tenant, m, t);
  }

  lemma RunIsDown(db: Tables, tenant: TenantId, m: MonitorId, b: Range, now: Time, knob: bool, r: Range)
    requires TimelineDisjoint(db, tenant, m, now) && r in ClassRanges(db, tenant, m, b, now, knob, DownClass)
    ensures b.lo <= r.lo < r.hi <= b.hi
    ensures forall t :: r.lo <= t < r.hi ==> DownAt(db, tenant, m, t, now, knob)
    ensures r.lo > b.lo ==> !DownAt(db, tenant, m, r.lo - 1, now, knob)
    ensures r.hi < b.hi ==> !DownAt(db, tenant, m, r.hi, now, knob)
  {
    var downs := ClassRanges(db, tenant, m, b, now, knob, DownClass);
    DownTicksMean(db, tenant, m, b, now, knob);
    var k :| 0 <= k < |downs| && downs[k] == r;
    RangesAreRuns(downs, k);
    assert r.lo in Span(r) && r.hi - 1 in Span(r);
    forall t | r.lo <= t < r.hi ensures DownAt(db, tenant, m, t, now, knob) { assert t in Span(r); }
  }

  lemma RunIsOutage(db: Tables, tenant: TenantId, m: MonitorId, b: Range, now: Time, knob: bool, r: Range)
    requires TimelineDisjoint(db, tenant, m, now) && r in ClassRanges(db, tenant, m, b, now, knob, DownClass)
    ensures IsOutage(db, tenant, m, b, now, knob,
                     OutageAt(Some(m), r, Length(Intersect([r], Maintenance(db, tenant, m, b))), OpenNow(RowsFor(db.intervals, tenant, m), b, now, knob), b, now))
  {
    RunIsDown(db, tenant, m, b, now, knob, r);
    PlannedMeans(db, tenant, m, b, r);
    OpenMeans(db, tenant, m, b, now, knob);
  }

  /** A monitor's outages are the maximal stretches of its down time in the window, and every down tick is in one. */
  lemma OutagesMean(db: Tables, tenant: TenantId, m: MonitorId, b: Range, now: Time, knob: bool)
    requires TimelineDisjoint(db, tenant, m, now)
    ensures forall o :: o in OutagesOf(db, tenant, m, b, now, knob) ==> IsOutage(db, tenant, m, b, now, knob, o)
    ensures forall t :: Inside(b, t) && DownAt(db, tenant, m, t, now, knob) ==>
              exists o :: o in OutagesOf(db, tenant, m, b, now, knob) && o.start <= t < o.end
  {
    var downs, mt := ClassRanges(db, tenant, m, b, now, knob, DownClass), Maintenance(db, tenant, m, b);
    var open, os := OpenNow(RowsFor(db.intervals, tenant, m), b, now, knob), OutagesOf(db, tenant, m, b, now, knob);
    DownTicksMean(db, tenant, m, b, now, knob);
    OutageCount(m, downs, mt, open, b, now);
    forall o | o in os ensures IsOutage(db, tenant, m, b, now, knob, o) {
      var k :| 0 <= k < |os| && os[k] == o;
      OutageOfRange(m, downs, mt, open, b, now, k);
      RunIsOutage(db, tenant, m, b, now, knob, downs[k]);
    }
    forall t | Inside(b, t) && DownAt(db, tenant, m, t, now, knob) ensures exists o :: o in os && o.start <= t < o.end {
      var k := TickIsInRange(downs, t);
      OutageOfRange(m, downs, mt, open, b, now, k);
      assert os[k] in os;
    }
  }

  // ---------- From the results to the figures ----------

  lemma NeverDown(db: Tables, tenant: TenantId, m: MonitorId, t: Time, now: Time, knob: bool)
    requires TimelineDisjoint(db, tenant, m, now)
    requires forall i :: IntervalRow(tenant, m, i) in db.intervals ==> i.state == Up || (i.state == Unknown && i.reason == ByCreation)
    ensures StatusAt(db, tenant, m, t, now, knob) in {Available, NotKnown, Untracked}
  {
    if i :| IntervalRow(tenant, m, i) in db.intervals && Held(i, t, now) {
      TickMeans(db, tenant, m, i, t, now, knob);
    } else {
      UntrackedMeans(db, tenant, m, t, now, knob);
    }
  }

  lemma SuccessfulRows(trace: seq<Protocol.Database>, steps: seq<Protocol.Step>, n: nat, m: MonitorId)
    requires RecordingSafety.IsRun(trace, steps) && n < |trace| && m in trace[n].monitors && m in trace[n].history
    requires History.OnlySuccesses(trace[n].history[m])
    ensures var ivs := trace[n].monitors[m].intervals;
            Chain(ivs) && forall i :: i in ivs ==> i.state == Up || (i.state == Unknown && i.reason == ByCreation)
  {
    RecordingSafety.TimelineSafety(trace, steps, n, m);
    History.TimelineIsHistory(trace, steps, n, m);
    History.SuccessesOpen(trace[n].history[m]);
  }

  /** A monitor that has accepted nothing but successes since it was created has no down time, in any window and either way. */
  lemma SuccessesHaveNoDownTime(trace: seq<Protocol.Database>, steps: seq<Protocol.Step>, n: nat, m: MonitorId,
                                db: Tables, tenant: TenantId, b: Range, now: Time, knob: bool)
    requires RecordingSafety.IsRun(trace, steps) && n < |trace| && m in trace[n].monitors && m in trace[n].history
    requires RowsFor(db.intervals, tenant, m) == trace[n].monitors[m].intervals
    requires History.OnlySuccesses(trace[n].history[m])
    ensures var x := MonitorSeconds(db, tenant, m, b, now, knob); x.unplannedDown == 0 && x.plannedDown == 0 && x.paused == 0
  {
    SuccessfulRows(trace, steps, n, m);
    ChainIsDisjoint(trace[n].monitors[m].intervals, now);
    IntegrationIsPointwise(db, tenant, m, b, now, knob);
    forall i | IntervalRow(tenant, m, i) in db.intervals ensures i.state == Up || (i.state == Unknown && i.reason == ByCreation) {
      RowsForMeans(db.intervals, tenant, m, i);
    }
    forall t ensures StatusAt(db, tenant, m, t, now, knob) in {Available, NotKnown, Untracked} { NeverDown(db, tenant, m, t, now, knob); }
    var f := Meaning(db, tenant, m, now, knob);
    assert TicksOf(f, b, UnplannedDown) == {} && TicksOf(f, b, PlannedDown) == {} && TicksOf(f, b, Paused) == {};
  }
}

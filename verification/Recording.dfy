/**
 The tables written while a result is recorded, and what each writer of monitor state does to them
 while it holds the monitor row lock (shared/monitorstate/record.go, shared/monitorstate/intervals.go
 and the writers that call them).
 */
module Recording {
  import opened Common
  import opened MonitorState

  type MonitorId = int
  type JobId = int

  const HOUR: Time := 3600 * SECOND
  const DAY: Time := 24 * HOUR
  const RAW_RETENTION_DAYS := 30

  // ---------- Rows ----------

  datatype Source = MonitorSource | PlatformSource

  /** Identity of a piece of evidence: the unique index (job_id, result_source). */
  datatype Key = Key(job: JobId, source: Source)

  datatype CheckResult = CheckResult(monitor: MonitorId, key: Key, status: string, startedAt: Time, synthetic: bool)

  datatype Reason = ByResult | ByWatchdog | ByPause | ByResume | ByLocationChange | ByCreation

  datatype Interval = Interval(state: State, reason: Reason, startedAt: Time, endedAt: Option<Time>)

  /** A monitors row together with its child rows: memberships, per-location states, timeline. */
  datatype Monitor = Monitor(
    state: State, failures: int,
    threshold: int, quorum: int, intervalSeconds: int, enabled: bool,
    watermark: Option<Time>, lastResultAt: Option<Time>, createdAt: Time,
    locations: set<LocationId>, locationStates: map<LocationId, LocationState>,
    intervals: seq<Interval>)

  /** A rollup bucket: one monitor, one clock hour. */
  datatype Bucket = Bucket(monitor: MonitorId, hour: Time)

  function HourOf(t: Time): Time { t - t % HOUR }

  function BucketOf(r: CheckResult): Bucket { Bucket(r.monitor, HourOf(r.startedAt)) }

  /** RollupMarkHorizonSQL and RawPruneCutoffSQL at a database clock reading. */
  function MarkHorizon(now: Time): Time { HourOf(now - RAW_RETENTION_DAYS * DAY) }

  function PruneCutoff(now: Time): Time { MarkHorizon(now) - HOUR }

  // ---------- The timeline (RecordIntervalTx) ----------

  /** Close the open interval no earlier than its own start, and open the next one exactly there. */
  function RecordInterval(ivs: seq<Interval>, now: Time, state: State, reason: Reason): seq<Interval> {
    if ivs != [] && ivs[|ivs| - 1].endedAt.None? then
      var open := ivs[|ivs| - 1];
      var end := Max(now, open.startedAt);
      ivs[..|ivs| - 1] + [open.(endedAt := Some(end)), Interval(state, reason, end, None)]
    else
      ivs + [Interval(state, reason, now, None)]
  }

  /** A closed row ends at or after its start and exactly where the next row starts. */
  predicate Linked(a: Interval, b: Interval) {
    a.endedAt.Some? && a.startedAt <= a.endedAt.value && a.endedAt.value == b.startedAt
  }

  /** A monotone gap-free chain whose last row, and only that one, is open. */
  predicate Chain(ivs: seq<Interval>) {
    && ivs != []
    && ivs[|ivs| - 1].endedAt.None?
    && forall i :: 0 <= i < |ivs| - 1 ==> Linked(ivs[i], ivs[i + 1])
  }

  function Open(ivs: seq<Interval>): Interval
    requires ivs != []
  {
    ivs[|ivs| - 1]
  }

  /** The chain survives a close-and-open at any clock reading, however old; history is kept. */
  lemma RecordIntervalKeepsChain(ivs: seq<Interval>, now: Time, state: State, reason: Reason)
    requires ivs == [] || Chain(ivs)
    ensures Chain(RecordInterval(ivs, now, state, reason))
    ensures Open(RecordInterval(ivs, now, state, reason)).state == state
    ensures ivs != [] ==> Open(RecordInterval(ivs, now, state, reason)).startedAt == Max(now, Open(ivs).startedAt)
    ensures ivs != [] ==> ivs[..|ivs| - 1] <= RecordInterval(ivs, now, state, reason)
  {
    var out := RecordInterval(ivs, now, state, reason);
    if ivs != [] {
      var n := |ivs|;
      assert out[n - 1].startedAt == ivs[n - 1].startedAt;
      forall i | 0 <= i < |out| - 1 ensures Linked(out[i], out[i + 1]) {
        if i < n - 1 { assert Linked(ivs[i], ivs[i + 1]); }
      }
    }
  }

  // ---------- What a recorded result does to the result and ledger tables (insertResult) ----------

  predicate Marks(r: CheckResult, now: Time) {
    r.key.source == MonitorSource && HourOf(r.startedAt) >= MarkHorizon(now)
  }

  /** marked_at of an upserted mark: the column default NOW() for a new row, the wall clock on conflict. */
  function MarkTime(dirty: map<Bucket, Time>, b: Bucket, now: Time, clock: Time): Time {
    if b in dirty then clock else now
  }

  function WithRow(results: map<Key, CheckResult>, r: CheckResult): map<Key, CheckResult> {
    if r.key in results then results else results[r.key := r]
  }

  function WithMark(dirty: map<Bucket, Time>, r: CheckResult, inserted: bool, now: Time, clock: Time): map<Bucket, Time> {
    if inserted && Marks(r, now) then dirty[BucketOf(r) := MarkTime(dirty, BucketOf(r), now, clock)] else dirty
  }

  // ---------- What each writer does to a locked monitor ----------

  /** What an aggregation reads besides the location rows: who votes, the quorum, the interval and the clock. */
  datatype Poll = Poll(voters: set<LocationId>, quorum: int, intervalSeconds: int, now: Time)

  /** What changed a monitor's state or its location rows: kept as history beside the tables. */
  datatype Event =
    | Applied(key: Key, evidence: Evidence, startedAt: Time, synthetic: bool)
    | Located(key: Key, location: LocationId, evidence: Evidence, startedAt: Time, poll: Poll)
    | Reaggregated(poll: Poll)
    | Reset(reason: Reason)
    | Kept(locations: set<LocationId>)

  datatype Plan = Plan(after: Monitor, event: Option<Event>)

  predicate Late(watermark: Option<Time>, r: CheckResult) {
    watermark.Some? && r.startedAt < watermark.value
  }

  /** Record, after the insert: S-E5 first, then the duplicate check, then the S-O2 guard, then Apply. */
  predicate RunsMachine(m: Monitor, r: CheckResult, inserted: bool) {
    m.locations == {} && inserted && (r.synthetic || !Late(m.watermark, r))
  }

  function Move(m: Monitor, state: State, failures: int, now: Time, reason: Reason): Monitor {
    m.(state := state, failures := failures,
       intervals := if state != m.state then RecordInterval(m.intervals, now, state, reason) else m.intervals)
  }

  function PlanRecord(m: Monitor, r: CheckResult, inserted: bool, now: Time): Plan {
    if !RunsMachine(m, r, inserted) then Plan(m, None)
    else
      var t := Apply(Snapshot(m.state, m.failures), IsFailureStatus(r.status), m.threshold);
      Plan(Move(m, t.to, t.failures, now, ByResult)
           .(lastResultAt := Some(now), watermark := if r.synthetic then m.watermark else Some(r.startedAt)),
           Some(Applied(r.key, Evidence(IsFailureStatus(r.status), m.threshold), r.startedAt, r.synthetic)))
  }

  /** The transition Record reports to its caller. */
  function ReportRecord(m: Monitor, r: CheckResult, inserted: bool): Transition {
    var still := Transition(m.state, m.state, m.failures, false, false, false, false, false);
    if m.locations != {} then still.(historyOnly := true)
    else if !inserted then still.(duplicate := true)
    else if !RunsMachine(m, r, inserted) then still.(historyOnly := true)
    else Apply(Snapshot(m.state, m.failures), IsFailureStatus(r.status), m.threshold)
  }

  /** The selected locations that still exist and are enabled vote. */
  function PollOf(m: Monitor, now: Time, live: set<LocationId>): Poll {
    Poll(m.locations * live, m.quorum, m.intervalSeconds, now)
  }

  /** The aggregate over the fresh location rows, and the largest failure count among them. */
  function Polled(rows: map<LocationId, LocationState>, p: Poll): Snapshot {
    var states := FreshStates(rows, p.now, p.intervalSeconds);
    Snapshot(Aggregate(states, p.voters, p.quorum), MaxFailures(rows, p.voters * states.Keys))
  }

  function LocationSnapshot(m: Monitor, l: LocationId): Snapshot {
    if l in m.locationStates then Snapshot(m.locationStates[l].state, m.locationStates[l].failures) else START
  }

  function LocationWatermark(m: Monitor, l: LocationId): Option<Time> {
    if l in m.locationStates then m.locationStates[l].watermark else None
  }

  /** persistAtLocation, after the insert: the duplicate check, the selection, then the location's own S-O2 guard. */
  predicate RunsAtLocation(m: Monitor, r: CheckResult, l: LocationId, inserted: bool) {
    inserted && l in m.locations && !Late(LocationWatermark(m, l), r)
  }

  function PlanAtLocation(m: Monitor, r: CheckResult, l: LocationId, inserted: bool, now: Time, live: set<LocationId>): Plan {
    if !RunsAtLocation(m, r, l, inserted) then Plan(m, None)
    else
      var s := Advance(LocationSnapshot(m, l), Evidence(IsFailureStatus(r.status), m.threshold));
      var rows := m.locationStates[l := LocationState(s.state, s.failures, Some(r.startedAt), now)];
      var polled := Polled(rows, PollOf(m, now, live));
      Plan(Move(m, polled.state, polled.failures, now, ByResult).(locationStates := rows, lastResultAt := Some(now)),
           Some(Located(r.key, l, Evidence(IsFailureStatus(r.status), m.threshold), r.startedAt, PollOf(m, now, live))))
  }

  /** The watchdog's locked re-check: enabled, known, and silent for longer than the freshness window. */
  predicate Stale(m: Monitor, now: Time) {
    && m.enabled && m.state != Unknown
    && (if m.lastResultAt.Some? then m.lastResultAt.value else m.createdAt)
       < now - FreshnessHorizonSeconds(m.intervalSeconds) * SECOND
  }

  function PlanMarkStale(m: Monitor, now: Time): Plan {
    if Stale(m, now) then Plan(Move(m, Unknown, 0, now, ByWatchdog), Some(Reset(ByWatchdog))) else Plan(m, None)
  }

  function PlanReaggregate(m: Monitor, now: Time, live: set<LocationId>): Plan {
    var polled := Polled(m.locationStates, PollOf(m, now, live));
    if !m.enabled || polled.state == m.state then Plan(m, None)
    else Plan(Move(m, polled.state, polled.failures, now, ByWatchdog), Some(Reaggregated(PollOf(m, now, live))))
  }

  /** A real toggle always opens an `unknown` interval, even when the monitor already was unknown. */
  function PlanToggle(m: Monitor, enabled: bool, now: Time): Plan {
    if m.enabled == enabled then Plan(m, None)
    else
      var reason := if enabled then ByResume else ByPause;
      Plan(m.(enabled := enabled, state := Unknown, failures := 0, locationStates := map[],
              intervals := RecordInterval(m.intervals, now, Unknown, reason)),
           Some(Reset(reason)))
  }

  function Restrict(rows: map<LocationId, LocationState>, keep: set<LocationId>): map<LocationId, LocationState> {
    map l | l in rows && l in keep :: rows[l]
  }

  function PlanSetLocations(m: Monitor, locations: set<LocationId>, now: Time): Plan {
    var kept := m.(locations := locations, locationStates := Restrict(m.locationStates, locations));
    if locations == {} then Plan(Move(kept, Unknown, 0, now, ByLocationChange), Some(Reset(ByLocationChange)))
    else Plan(kept, Some(Kept(locations)))
  }

  function PlanLoseLocation(m: Monitor, l: LocationId, now: Time): Plan {
    var left := m.locations - {l};
    var kept := m.(locations := left, locationStates := m.locationStates - {l}, quorum := Max(1, Min(m.quorum, |left|)));
    if left == {} then Plan(Move(kept, Unknown, 0, now, ByLocationChange), Some(Reset(ByLocationChange)))
    else Plan(kept, Some(Kept(left)))
  }

  // ---------- What each of these writers leaves behind ----------

  /** A toggle that changes nothing changes nothing; a real one forgets what was observed and opens an interval. */
  lemma ToggleMeans(m: Monitor, enabled: bool, now: Time)
    ensures var p := PlanToggle(m, enabled, now);
            && p.after.enabled == enabled && (m.enabled == enabled <==> p.event.None?)
            && (m.enabled == enabled ==> p.after == m)
            && (m.enabled != enabled ==>
                  && p.after.state == Unknown && p.after.failures == 0 && p.after.locationStates == map[]
                  && p.after.intervals == RecordInterval(m.intervals, now, Unknown, if enabled then ByResume else ByPause)
                  && p.after.watermark == m.watermark && p.after.locations == m.locations && p.after.threshold == m.threshold
                  && p.after.quorum == m.quorum)
  {
  }

  /** The watchdog silences an enabled monitor that was last heard of longer than three intervals, and ninety seconds, ago. */
  lemma StaleMeans(m: Monitor, now: Time)
    ensures var p := PlanMarkStale(m, now);
            var heard := if m.lastResultAt.Some? then m.lastResultAt.value else m.createdAt;
            && (p.event.Some? <==>
                  && m.enabled && m.state != Unknown
                  && now - heard > 3 * m.intervalSeconds * SECOND && now - heard > 90 * SECOND)
            && (p.event.Some? ==> p.after.state == Unknown && p.after.failures == 0 && p.after.locationStates == m.locationStates)
            && (p.event.None? ==> p.after == m)
  {
    assert FreshnessHorizonSeconds(m.intervalSeconds) == if 3 * m.intervalSeconds > 90 then 3 * m.intervalSeconds else 90;
  }

  /** Selecting locations keeps the rows of those that stay; without any the monitor starts afresh. */
  lemma SelectMeans(m: Monitor, locations: set<LocationId>, now: Time)
    ensures var p := PlanSetLocations(m, locations, now);
            && p.after.locations == locations && p.after.quorum == m.quorum && p.after.enabled == m.enabled
            && (forall l :: l in p.after.locationStates <==> l in m.locationStates && l in locations)
            && (forall l :: l in p.after.locationStates ==> p.after.locationStates[l] == m.locationStates[l])
            && (if locations == {} then p.after.state == Unknown && p.after.failures == 0
                else p.after.state == m.state && p.after.failures == m.failures && p.after.intervals == m.intervals)
  {
  }

  /** A deleted location takes its row along, and the quorum stays within what is left. */
  lemma LoseMeans(m: Monitor, l: LocationId, now: Time)
    requires l in m.locations
    ensures var p := PlanLoseLocation(m, l, now);
            && (forall k :: k in p.after.locations <==> k in m.locations && k != l)
            && l !in p.after.locationStates
            && (forall k :: k in m.locationStates && k != l ==> k in p.after.locationStates && p.after.locationStates[k] == m.locationStates[k])
            && 1 <= p.after.quorum && (p.after.locations != {} ==> p.after.quorum <= |p.after.locations|)
            && (1 <= m.quorum <= |p.after.locations| ==> p.after.quorum == m.quorum)
            && (m.quorum > |p.after.locations| && p.after.locations != {} ==> p.after.quorum == |p.after.locations|)
            && (if p.after.locations == {} then p.after.state == Unknown && p.after.failures == 0
                else p.after.state == m.state && p.after.failures == m.failures && p.after.intervals == m.intervals)
  {
    var left := m.locations - {l};
    if left != {} {
      var k := Pick(left);
      NonEmpty(k, left);
    }
  }

  /** A re-aggregation of an enabled monitor makes it show what its poll shows. */
  lemma ReaggregateMeans(m: Monitor, now: Time, live: set<LocationId>)
    ensures var p := PlanReaggregate(m, now, live);
            && p.after.locationStates == m.locationStates && p.after.locations == m.locations
            && (m.enabled ==> p.after.state == Polled(m.locationStates, PollOf(m, now, live)).state)
            && (p.event.Some? ==> p.after.failures == Polled(m.locationStates, PollOf(m, now, live)).failures)
            && (p.event.None? ==> p.after == m) && (!m.enabled ==> p.event.None?)
  {
  }

  /** The two horizons on hours: thirty days back, rounded down to the hour, and an hour before that. */
  lemma HorizonsMean(now: Time)
    ensures MarkHorizon(now) % HOUR == 0
    ensures MarkHorizon(now) <= now - 30 * 24 * 3600 * SECOND < MarkHorizon(now) + 3600 * SECOND
    ensures PruneCutoff(now) == MarkHorizon(now) - 3600 * SECOND
  {
  }

  // ---------- The store a recording transaction works on ----------

  /**
   Record as the code runs it: statement by statement against the tables, with `now` the fixed
   transaction time and `clock` the wall clock at the ledger statement.
   */
  class Store {
    var monitors: map<MonitorId, Monitor>
    var results: map<Key, CheckResult>
    var dirty: map<Bucket, Time>

    constructor ()
      ensures monitors == map[] && results == map[] && dirty == map[]
    {
      monitors, results, dirty := map[], map[], map[];
    }

    /** INSERT .. ON CONFLICT DO NOTHING, then the conditional ledger upsert. */
    method InsertResult(r: CheckResult, now: Time, clock: Time) returns (inserted: bool)
      modifies this`results, this`dirty
      ensures inserted <==> r.key !in old(results)
      ensures results == WithRow(old(results), r)
      ensures dirty == WithMark(old(dirty), r, inserted, now, clock)
    {
      inserted := r.key !in results;
      if inserted {
        results := results[r.key := r];
      }
      if inserted && r.key.source == MonitorSource {
        var hour := HourOf(r.startedAt);
        if hour >= MarkHorizon(now) {
          var b := Bucket(r.monitor, hour);
          if b in dirty {
            dirty := dirty[b := clock];
          } else {
            dirty := dirty[b := now];
          }
        }
      }
    }

    /** The one statement that closes the open interval and opens the next. */
    method RecordIntervalTx(id: MonitorId, now: Time, state: State, reason: Reason)
      requires id in monitors
      modifies this`monitors
      ensures monitors == old(monitors)[id := old(monitors)[id].(
                            intervals := RecordInterval(old(monitors)[id].intervals, now, state, reason))]
    {
      var ivs := monitors[id].intervals;
      var start := now;
      if ivs != [] && ivs[|ivs| - 1].endedAt.None? {
        var last := ivs[|ivs| - 1];
        start := if now < last.startedAt then last.startedAt else now;
        ivs := ivs[..|ivs| - 1] + [last.(endedAt := Some(start))];
      }
      ivs := ivs + [Interval(state, reason, start, None)];
      assert ivs == RecordInterval(monitors[id].intervals, now, state, reason);
      monitors := monitors[id := monitors[id].(intervals := ivs)];
    }

    /** Record: lock and read, insert, guards, Apply, update, interval. */
    method Record(r: CheckResult, now: Time, clock: Time) returns (out: Outcome<Transition, string>)
      modifies this
      ensures out.Err? <==> r.monitor !in old(monitors)
      ensures out.Err? ==> unchanged(this)
      ensures out.Ok? ==>
                var m := old(monitors)[r.monitor];
                var inserted := r.key !in old(results);
                && monitors == old(monitors)[r.monitor := PlanRecord(m, r, inserted, now).after]
                && out.value == ReportRecord(m, r, inserted)
                && results == WithRow(old(results), r)
                && dirty == WithMark(old(dirty), r, inserted, now, clock)
    {
      if r.monitor !in monitors {
        return Err("lock monitor state");
      }
      var row := monitors[r.monitor];
      var still := Transition(row.state, row.state, row.failures, false, false, false, false, false);
      if row.locations != {} {
        var _ := InsertResult(r, now, clock);
        assert monitors[r.monitor := row] == monitors;
        return Ok(still.(historyOnly := true));
      }
      var inserted := InsertResult(r, now, clock);
      if !inserted {
        assert monitors[r.monitor := row] == monitors;
        return Ok(still.(duplicate := true));
      }
      if !r.synthetic && row.watermark.Some? && r.startedAt < row.watermark.value {
        assert monitors[r.monitor := row] == monitors;
        return Ok(still.(historyOnly := true));
      }
      var t := Apply(Snapshot(row.state, row.failures), IsFailureStatus(r.status), row.threshold);
      monitors := monitors[r.monitor := row.(
        state := t.to, failures := t.failures, lastResultAt := Some(now),
        watermark := if r.synthetic then row.watermark else Some(r.startedAt))];
      if t.changed {
        RecordIntervalTx(r.monitor, now, t.to, ByResult);
      }
      return Ok(t);
    }
  }
}

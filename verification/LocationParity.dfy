/**
 Single-location parity over runs (S-A7 of docs/state-semantics.md): a monitor with one selected location,
 written by the per-location transaction, against a location-less one fed the same results, swept by the
 same watchdog and paused and resumed alike.
 */
module LocationParity {
  import opened Common
  import opened MonitorState
  import opened Recording

  // ---------- The two monitors ----------

  datatype Action =
    | Deliver(result: CheckResult, inserted: bool)
    | Watch
    | Switch(enabled: bool)

  /** What happens to both at one transaction time, with the threshold in force and the live locations. */
  datatype Turn = Turn(action: Action, now: Time, threshold: int, live: set<LocationId>)

  /** The location-less monitor: Record, and the watchdog's pass over silent monitors. */
  function PlainTurn(p: Monitor, t: Turn): Monitor {
    var m := p.(threshold := t.threshold);
    match t.action
    case Deliver(r, inserted) => PlanRecord(m, r, inserted, t.now).after
    case Watch => PlanMarkStale(m, t.now).after
    case Switch(enabled) => PlanToggle(m, enabled, t.now).after
  }

  /** The one-location monitor: the per-location transaction, and the watchdog's re-aggregation. */
  function LocatedTurn(q: Monitor, l: LocationId, t: Turn): Monitor {
    var m := q.(threshold := t.threshold);
    match t.action
    case Deliver(r, inserted) => PlanAtLocation(m, r, l, inserted, t.now, t.live).after
    case Watch => PlanReaggregate(m, t.now, t.live).after
    case Switch(enabled) => PlanToggle(m, enabled, t.now).after
  }

  function Plain(p: Monitor, ts: seq<Turn>): Monitor {
    if ts == [] then p else PlainTurn(Plain(p, ts[..|ts| - 1]), ts[|ts| - 1])
  }

  function Located(q: Monitor, l: LocationId, ts: seq<Turn>): Monitor {
    if ts == [] then q else LocatedTurn(Located(q, l, ts[..|ts| - 1]), l, ts[|ts| - 1])
  }

  /** Worker results, in clock order, while the location exists. */
  predicate Timely(ts: seq<Turn>, l: LocationId, clock: Time) {
    ts == [] ||
    (var t := ts[|ts| - 1];
     Timely(ts[..|ts| - 1], l, clock) && TurnOk(t, l) && ClockOf(ts[..|ts| - 1], clock) <= t.now)
  }

  predicate TurnOk(t: Turn, l: LocationId) { l in t.live && (t.action.Deliver? ==> !t.action.result.synthetic) }

  function ClockOf(ts: seq<Turn>, clock: Time): Time { if ts == [] then clock else ts[|ts| - 1].now }

  /** What a reader sees of a monitor. */
  predicate Same(p: Monitor, q: Monitor) {
    p.state == q.state && p.failures == q.failures && p.intervals == q.intervals && p.lastResultAt == q.lastResultAt
  }

  // ---------- What ties them together ----------

  predicate RowOk(row: LocationState) {
    row.state != Unknown && row.state != Degraded && row.failures >= 0 && (row.failures == 0 <==> row.state == Up)
  }

  predicate NotNewer(a: Option<Time>, b: Option<Time>) { a.None? || (b.Some? && a.value <= b.value) }

  /**
   The location's row is the monitor's own state, unless the watchdog has made the monitor unknown: then the
   row still holds what it held, and is too old to vote.
   */
  predicate Kin(p: Monitor, q: Monitor, l: LocationId, clock: Time) {
    && p.locations == {} && q.locations == {l} && q.locationStates.Keys <= {l}
    && p.intervalSeconds == q.intervalSeconds && p.enabled == q.enabled
    && Same(p, q) && p.state != Degraded && (p.state == Unknown ==> p.failures == 0)
    && NotNewer(LocationWatermark(q, l), p.watermark)
    && (p.state != Unknown ==> l in q.locationStates && LocationSnapshot(q, l) == Snapshot(p.state, p.failures))
    && (l in q.locationStates ==>
          && RowOk(q.locationStates[l]) && p.lastResultAt == Some(q.locationStates[l].lastCheckAt)
          && (p.state == Unknown ==> !Fresh(q.locationStates[l], clock, q.intervalSeconds)))
  }

  /** A monitor that has not heard anything yet, with and without its location. */
  lemma FreshKin(p: Monitor, l: LocationId, quorum: int, clock: Time)
    requires p.locations == {} && p.locationStates == map[] && p.state == Unknown && p.failures == 0
    ensures Kin(p, p.(locations := {l}, quorum := quorum), l, clock)
  {
  }

  // ---------- One turn ----------

  /** A poll of one location is that location's own snapshot while it is fresh, and nothing once it is stale. */
  lemma PollOfOne(rows: map<LocationId, LocationState>, l: LocationId, p: Poll)
    requires rows.Keys <= {l} && p.voters == {l} && (l in rows ==> RowOk(rows[l]))
    ensures Polled(rows, p) == if l in rows && Fresh(rows[l], p.now, p.intervalSeconds) then Snapshot(rows[l].state, rows[l].failures) else START
  {
    var states := FreshStates(rows, p.now, p.intervalSeconds);
    SingleLocation(states, l, p.quorum);
    assert p.voters * states.Keys == if l in states then {l} else {};
    assert Least({l}) == l && {l} - {l} == {};
    assert MaxFailures(rows, {}) == 0;
  }

  /**
   A turn after which the two differ: evidence that both accept, failing, at a location that counts failures
   from before a silence; or evidence that only the location accepts, because a pause made it forget its
   evidence time, unless it changes nothing that is shown.
   */
  predicate Diverges(p: Monitor, q: Monitor, l: LocationId, t: Turn) {
    && t.action.Deliver? && RunsAtLocation(q, t.action.result, l, t.action.inserted)
    && var e := Evidence(IsFailureStatus(t.action.result.status), t.threshold);
       if RunsMachine(p, t.action.result, t.action.inserted) then
         e.failing && p.state == Unknown && l in q.locationStates && q.locationStates[l].failures > 0
       else Advance(LocationSnapshot(q, l), e) != Snapshot(p.state, p.failures) || p.lastResultAt != Some(t.now)
  }

  /** The location's row after it accepted a result. */
  function RowAfter(q: Monitor, l: LocationId, t: Turn): LocationState
    requires t.action.Deliver?
  {
    var s := Advance(LocationSnapshot(q, l), Evidence(IsFailureStatus(t.action.result.status), t.threshold));
    LocationState(s.state, s.failures, Some(t.action.result.startedAt), t.now)
  }

  lemma AcceptedAtLocation(q: Monitor, l: LocationId, t: Turn)
    requires TurnOk(t, l) && t.action.Deliver? && RunsAtLocation(q, t.action.result, l, t.action.inserted)
    requires q.locations == {l} && q.locationStates.Keys <= {l} && (l in q.locationStates ==> RowOk(q.locationStates[l]))
    ensures var row, q' := RowAfter(q, l, t), LocatedTurn(q, l, t);
            && RowOk(row)
            && q' == Move(q.(threshold := t.threshold), row.state, row.failures, t.now, ByResult)
                     .(locationStates := q.locationStates[l := row], lastResultAt := Some(t.now))
  {
    var rows := q.locationStates[l := RowAfter(q, l, t)];
    assert q.locations * t.live == {l};
    PollOfOne(rows, l, PollOf(q, t.now, t.live));
  }

  lemma DeliverTurn(p: Monitor, q: Monitor, l: LocationId, clock: Time, t: Turn)
    requires Kin(p, q, l, clock) && TurnOk(t, l) && clock <= t.now && t.action.Deliver?
    ensures Same(PlainTurn(p, t), LocatedTurn(q, l, t)) <==> !Diverges(p, q, l, t)
    ensures !Diverges(p, q, l, t) ==> Kin(PlainTurn(p, t), LocatedTurn(q, l, t), l, t.now)
  {
    if !RunsAtLocation(q, t.action.result, l, t.action.inserted) {
      assert !RunsMachine(p, t.action.result, t.action.inserted);
    } else if RunsMachine(p, t.action.result, t.action.inserted) {
      BothAccept(p, q, l, clock, t);
    } else {
      OnlyLocationAccepts(p, q, l, clock, t);
    }
  }

  lemma BothAccept(p: Monitor, q: Monitor, l: LocationId, clock: Time, t: Turn)
    requires Kin(p, q, l, clock) && TurnOk(t, l) && t.action.Deliver?
    requires RunsAtLocation(q, t.action.result, l, t.action.inserted) && RunsMachine(p, t.action.result, t.action.inserted)
    ensures Same(PlainTurn(p, t), LocatedTurn(q, l, t)) <==> !Diverges(p, q, l, t)
    ensures !Diverges(p, q, l, t) ==> Kin(PlainTurn(p, t), LocatedTurn(q, l, t), l, t.now)
  {
    AcceptedAtLocation(q, l, t);
  }

  lemma OnlyLocationAccepts(p: Monitor, q: Monitor, l: LocationId, clock: Time, t: Turn)
    requires Kin(p, q, l, clock) && TurnOk(t, l) && t.action.Deliver?
    requires RunsAtLocation(q, t.action.result, l, t.action.inserted) && !RunsMachine(p, t.action.result, t.action.inserted)
    ensures Same(PlainTurn(p, t), LocatedTurn(q, l, t)) <==> !Diverges(p, q, l, t)
    ensures !Diverges(p, q, l, t) ==> Kin(PlainTurn(p, t), LocatedTurn(q, l, t), l, t.now)
  {
    AcceptedAtLocation(q, l, t);
  }

  lemma WatchTurn(p: Monitor, q: Monitor, l: LocationId, clock: Time, t: Turn)
    requires Kin(p, q, l, clock) && TurnOk(t, l) && clock <= t.now && t.action.Watch?
    ensures Kin(PlainTurn(p, t), LocatedTurn(q, l, t), l, t.now)
  {
    assert q.locations * t.live == {l};
    PollOfOne(q.locationStates, l, PollOf(q, t.now, t.live));
  }

  lemma SwitchTurn(p: Monitor, q: Monitor, l: LocationId, clock: Time, t: Turn)
    requires Kin(p, q, l, clock) && clock <= t.now && t.action.Switch?
    ensures Kin(PlainTurn(p, t), LocatedTurn(q, l, t), l, t.now)
  {
  }

  lemma TurnKeepsKin(p: Monitor, q: Monitor, l: LocationId, clock: Time, t: Turn)
    requires Kin(p, q, l, clock) && TurnOk(t, l) && clock <= t.now
    ensures Same(PlainTurn(p, t), LocatedTurn(q, l, t)) <==> !Diverges(p, q, l, t)
    ensures !Diverges(p, q, l, t) ==> Kin(PlainTurn(p, t), LocatedTurn(q, l, t), l, t.now)
  {
    match t.action
    case Deliver(_, _) => DeliverTurn(p, q, l, clock, t);
    case Watch => WatchTurn(p, q, l, clock, t);
    case Switch(_) => SwitchTurn(p, q, l, clock, t);
  }

  // ---------- Whole runs ----------

  /** The two look the same after every prefix. */
  predicate SameThroughout(p: Monitor, q: Monitor, l: LocationId, ts: seq<Turn>) {
    Same(Plain(p, ts), Located(q, l, ts)) && (ts != [] ==> SameThroughout(p, q, l, ts[..|ts| - 1]))
  }

  predicate NeverDiverges(p: Monitor, q: Monitor, l: LocationId, ts: seq<Turn>) {
    ts == [] ||
    (var front, t := ts[..|ts| - 1], ts[|ts| - 1];
     NeverDiverges(p, q, l, front) && !Diverges(Plain(p, front), Located(q, l, front), l, t))
  }

  /** The two look the same throughout a run if and only if no turn of it is one that diverges. */
  lemma {:induction false} ParityExactly(p: Monitor, q: Monitor, l: LocationId, clock: Time, ts: seq<Turn>)
    requires Kin(p, q, l, clock) && Timely(ts, l, clock)
    ensures SameThroughout(p, q, l, ts) <==> NeverDiverges(p, q, l, ts)
    ensures NeverDiverges(p, q, l, ts) ==> Kin(Plain(p, ts), Located(q, l, ts), l, ClockOf(ts, clock))
  {
    if ts != [] {
      var front, t := ts[..|ts| - 1], ts[|ts| - 1];
      ParityExactly(p, q, l, clock, front);
      if NeverDiverges(p, q, l, front) { TurnKeepsKin(Plain(p, front), Located(q, l, front), l, ClockOf(front, clock), t); }
    }
  }

  // ---------- Results alone ----------

  predicate OnlyResults(ts: seq<Turn>) { forall i :: 0 <= i < |ts| ==> ts[i].action.Deliver? }

  /** Nothing was silenced or forgotten. */
  predicate InStep(p: Monitor, q: Monitor, l: LocationId) {
    LocationWatermark(q, l) == p.watermark && (p.state == Unknown ==> l !in q.locationStates)
  }

  lemma ResultKeepsStep(p: Monitor, q: Monitor, l: LocationId, clock: Time, t: Turn)
    requires Kin(p, q, l, clock) && InStep(p, q, l) && TurnOk(t, l) && clock <= t.now && t.action.Deliver?
    ensures !Diverges(p, q, l, t) && InStep(PlainTurn(p, t), LocatedTurn(q, l, t), l)
  {
    if RunsAtLocation(q, t.action.result, l, t.action.inserted) { AcceptedAtLocation(q, l, t); }
  }

  /** Under any redelivery and reordering of results alone the two never differ, whatever the quorum. */
  lemma {:induction false} SingleLocationParity(p: Monitor, q: Monitor, l: LocationId, clock: Time, ts: seq<Turn>)
    requires Kin(p, q, l, clock) && InStep(p, q, l) && Timely(ts, l, clock) && OnlyResults(ts)
    ensures SameThroughout(p, q, l, ts) && NeverDiverges(p, q, l, ts) && InStep(Plain(p, ts), Located(q, l, ts), l)
  {
    ParityExactly(p, q, l, clock, ts);
    if ts != [] {
      var front, t := ts[..|ts| - 1], ts[|ts| - 1];
      SingleLocationParity(p, q, l, clock, front);
      ParityExactly(p, q, l, clock, front);
      ResultKeepsStep(Plain(p, front), Located(q, l, front), l, ClockOf(front, clock), t);
    }
  }

  // ---------- Two runs that diverge ----------

  /** A new monitor that needs two failures to be down. */
  function New(): Monitor {
    Monitor(Unknown, 0, 2, 1, 60, true, None, None, 0, {}, map[], RecordInterval([], 0, Unknown, ByCreation))
  }

  function Result(job: JobId, status: string, startedAt: Time, now: Time, l: LocationId): Turn {
    Turn(Deliver(CheckResult(1, Key(job, MonitorSource), status, startedAt, false), true), now, 2, {l})
  }

  lemma PlainNext(p: Monitor, ts: seq<Turn>, t: Turn)
    ensures Plain(p, ts + [t]) == PlainTurn(Plain(p, ts), t)
  {
    assert (ts + [t])[..|ts|] == ts;
  }

  lemma LocatedNext(q: Monitor, l: LocationId, ts: seq<Turn>, t: Turn)
    ensures Located(q, l, ts + [t]) == LocatedTurn(Located(q, l, ts), l, t)
  {
    assert (ts + [t])[..|ts|] == ts;
  }

  lemma TimelyNext(ts: seq<Turn>, t: Turn, l: LocationId, clock: Time)
    requires Timely(ts, l, clock) && TurnOk(t, l) && ClockOf(ts, clock) <= t.now
    ensures Timely(ts + [t], l, clock)
  {
    assert (ts + [t])[..|ts|] == ts;
  }

  /** What a failing result leaves of both. */
  lemma FailureOf(p: Monitor, q: Monitor, l: LocationId, t: Turn)
    requires t.action.Deliver? && t.action.inserted && IsFailureStatus(t.action.result.status) && !t.action.result.synthetic
    requires p.locations == {} && !Late(p.watermark, t.action.result) && l in q.locations && !Late(LocationWatermark(q, l), t.action.result)
    ensures var p', q' := PlainTurn(p, t), LocatedTurn(q, l, t);
            && p'.locations == {} && p'.watermark == Some(t.action.result.startedAt) && p'.state != Unknown
            && p'.lastResultAt == Some(t.now) && p'.enabled == p.enabled && p'.intervalSeconds == p.intervalSeconds
            && q'.locations == q.locations && q'.locationStates.Keys == q.locationStates.Keys + {l} && LocationWatermark(q', l) == Some(t.action.result.startedAt)
            && q'.locationStates[l].failures == LocationSnapshot(q, l).failures + 1
            && (q'.locationStates[l].state == Suspect || q'.locationStates[l].state == Down)
  {
  }

  /** What a silence leaves of both. */
  lemma SilentOf(p: Monitor, q: Monitor, l: LocationId, t: Turn)
    requires t.action.Watch? && p.enabled && p.state != Unknown && p.intervalSeconds == 60 && p.lastResultAt == Some(t.now - DAY)
    ensures var p' := PlainTurn(p, t); p'.state == Unknown && p'.failures == 0 && p'.watermark == p.watermark && p'.locations == p.locations
    ensures var q' := LocatedTurn(q, l, t); q'.locations == q.locations && q'.locationStates == q.locationStates
  {
  }

  /** One failure. */
  lemma FailureFirst(p: Monitor, q: Monitor, l: LocationId) returns (ts: seq<Turn>)
    requires p == New() && q == New().(locations := {l})
    ensures Timely(ts, l, 0) && ClockOf(ts, 0) == 0
    ensures var p', q' := Plain(p, ts), Located(q, l, ts);
            && p'.locations == {} && p'.watermark == Some(0) && p'.state != Unknown && p'.lastResultAt == Some(0) && p'.enabled && p'.intervalSeconds == 60
            && q'.locations == {l} && q'.locationStates.Keys == {l} && LocationWatermark(q', l) == Some(0)
            && RowOk(q'.locationStates[l]) && q'.locationStates[l].failures == 1
  {
    var fail := Result(1, "failure", 0, 0, l);
    TimelyNext([], fail, l, 0);
    PlainNext(p, [], fail);
    LocatedNext(q, l, [], fail);
    FailureOf(p, q, l, fail);
    ts := [] + [fail];
  }

  /** Then a silence of a day that makes both unknown. */
  lemma SilenceOf(p: Monitor, q: Monitor, l: LocationId) returns (ts: seq<Turn>)
    requires p == New() && q == New().(locations := {l})
    ensures Timely(ts, l, 0) && ClockOf(ts, 0) == DAY
    ensures var p', q' := Plain(p, ts), Located(q, l, ts);
            && p'.locations == {} && p'.state == Unknown && p'.failures == 0 && p'.watermark == Some(0)
            && q'.locations == {l} && q'.locationStates.Keys == {l} && LocationWatermark(q', l) == Some(0)
            && RowOk(q'.locationStates[l]) && q'.locationStates[l].failures == 1
  {
    var watch := Turn(Watch, DAY, 2, {l});
    var before := FailureFirst(p, q, l);
    TimelyNext(before, watch, l, 0);
    PlainNext(p, before, watch);
    LocatedNext(q, l, before, watch);
    SilentOf(Plain(p, before), Located(q, l, before), l, watch);
    ts := before + [watch];
  }

  lemma SecondFailure(p: Monitor, q: Monitor, l: LocationId, t: Turn)
    requires TurnOk(t, l) && t.action.Deliver? && t.action.inserted && IsFailureStatus(t.action.result.status) && t.threshold == 2
    requires p.locations == {} && p.state == Unknown && p.failures == 0 && !Late(p.watermark, t.action.result)
    requires q.locations == {l} && q.locationStates.Keys == {l} && !Late(LocationWatermark(q, l), t.action.result)
    requires RowOk(q.locationStates[l]) && q.locationStates[l].failures == 1
    ensures PlainTurn(p, t).state == Suspect && LocatedTurn(q, l, t).state == Down
  {
    AcceptedAtLocation(q, l, t);
  }

  /** The next failure is the first of the location-less monitor and the second of the location: suspect here, down there. */
  lemma SilenceBreaksParity(l: LocationId) returns (ts: seq<Turn>)
    ensures Kin(New(), New().(locations := {l}), l, 0) && Timely(ts, l, 0)
    ensures Plain(New(), ts).state == Suspect && Located(New().(locations := {l}), l, ts).state == Down
  {
    var p, q := New(), New().(locations := {l});
    var before := SilenceOf(p, q, l);
    var fail := Result(2, "failure", DAY, DAY, l);
    TimelyNext(before, fail, l, 0);
    PlainNext(p, before, fail);
    LocatedNext(q, l, before, fail);
    SecondFailure(Plain(p, before), Located(q, l, before), l, fail);
    ts := before + [fail];
  }

  /** One success at time five, then a pause and a resume. */
  lemma PauseOf(l: LocationId) returns (ts: seq<Turn>)
    ensures Timely(ts, l, 0) && ClockOf(ts, 0) == 7
    ensures var p, q := Plain(New(), ts), Located(New().(locations := {l}), l, ts);
            && p.locations == {} && p.state == Unknown && p.failures == 0 && p.watermark == Some(5)
            && q.locations == {l} && q.locationStates == map[]
  {
    var p, q := New(), New().(locations := {l});
    var good, off, on := Result(1, "success", 5, 5, l), Turn(Switch(false), 6, 2, {l}), Turn(Switch(true), 7, 2, {l});
    assert Plain(p, []) == p && Located(q, l, []) == q && Timely([], l, 0);
    TimelyNext([], good, l, 0);
    PlainNext(p, [], good);
    LocatedNext(q, l, [], good);
    ts := [] + [good];
    TimelyNext(ts, off, l, 0);
    PlainNext(p, ts, off);
    LocatedNext(q, l, ts, off);
    ts := ts + [off];
    TimelyNext(ts, on, l, 0);
    PlainNext(p, ts, on);
    LocatedNext(q, l, ts, on);
    ts := ts + [on];
  }

  /** An older result arrives late: the location-less monitor still knows better, the location accepts it. */
  lemma ResumeBreaksParity(l: LocationId) returns (ts: seq<Turn>)
    ensures Kin(New(), New().(locations := {l}), l, 0) && Timely(ts, l, 0)
    ensures Plain(New(), ts).state == Unknown && Located(New().(locations := {l}), l, ts).state == Up
  {
    var p, q := New(), New().(locations := {l});
    var before := PauseOf(l);
    var late := Result(2, "success", 3, 8, l);
    TimelyNext(before, late, l, 0);
    PlainNext(p, before, late);
    LocatedNext(q, l, before, late);
    AcceptedAtLocation(Located(q, l, before), l, late);
    ts := before + [late];
  }
}

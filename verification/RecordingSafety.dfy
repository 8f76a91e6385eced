/**
 What every interleaving of the recording protocol keeps: the timeline stays a chain that ends in the
 current state, the stored state is the fold of the accepted evidence, no evidence runs the machine
 twice while its row is retained, and the evidence watermark never goes back.
 */
module RecordingSafety {
  import opened Common
  import opened MonitorState
  import opened Recording
  import opened Protocol

  // ---------- The timeline ----------

  /** The timeline is a chain whose open row carries current_state and started no later than now. */
  predicate TimelineOk(m: Monitor, clock: Time) {
    && Chain(m.intervals)
    && Open(m.intervals).state == m.state
    && Open(m.intervals).startedAt <= clock
  }

  lemma MoveKeepsTimeline(m: Monitor, state: State, failures: int, now: Time, reason: Reason, clock: Time)
    requires TimelineOk(m, clock) && now <= clock
    ensures TimelineOk(Move(m, state, failures, now, reason), clock)
  {
    RecordIntervalKeepsChain(m.intervals, now, state, reason);
  }

  lemma PlanKeepsTimeline(op: Op, m: Monitor, inserted: bool, now: Time, live: set<LocationId>, clock: Time)
    requires TimelineOk(m, clock) && now <= clock
    ensures TimelineOk(PlanOf(op, m, inserted, now, live).after, clock)
  {
    match op {
      case RecordResult(r) =>
        var t := Apply(Snapshot(m.state, m.failures), IsFailureStatus(r.status), m.threshold);
        MoveKeepsTimeline(m, t.to, t.failures, now, ByResult, clock);
      case RecordAtLocation(r, l) =>
        var s := Advance(LocationSnapshot(m, l), Evidence(IsFailureStatus(r.status), m.threshold));
        var rows := m.locationStates[l := LocationState(s.state, s.failures, Some(r.startedAt), now)];
        var polled := Polled(rows, PollOf(m, now, live));
        MoveKeepsTimeline(m, polled.state, polled.failures, now, ByResult, clock);
      case MarkStale(_) => MoveKeepsTimeline(m, Unknown, 0, now, ByWatchdog, clock);
      case Reaggregate(_) =>
        var polled := Polled(m.locationStates, PollOf(m, now, live));
        MoveKeepsTimeline(m, polled.state, polled.failures, now, ByWatchdog, clock);
      case Toggle(_, enabled) =>
        RecordIntervalKeepsChain(m.intervals, now, Unknown, if enabled then ByResume else ByPause);
      case SetLocations(_, ls) =>
        MoveKeepsTimeline(m.(locations := ls, locationStates := Restrict(m.locationStates, ls)), Unknown, 0, now, ByLocationChange, clock);
      case DeleteLocation(l) =>
        var left := m.locations - {l};
        MoveKeepsTimeline(m.(locations := left, locationStates := m.locationStates - {l}, quorum := Max(1, Min(m.quorum, |left|))),
                          Unknown, 0, now, ByLocationChange, clock);
    }
  }

  // ---------- The history a monitor's row is the fold of ----------

  /** Events that delete a location's row; a watchdog reset leaves the rows alone. */
  predicate Clears(e: Event, l: LocationId) {
    (e.Reset? && e.reason != ByWatchdog) || (e.Kept? && l !in e.locations)
  }

  function RowsBy(rows: map<LocationId, LocationState>, e: Event): map<LocationId, LocationState> {
    match e
    case Located(_, l, evidence, startedAt, poll) =>
      var s := Advance(if l in rows then Snapshot(rows[l].state, rows[l].failures) else START, evidence);
      rows[l := LocationState(s.state, s.failures, Some(startedAt), poll.now)]
    case Reset(reason) => if reason == ByWatchdog then rows else map[]
    case Kept(locations) => Restrict(rows, locations)
    case _ => rows
  }

  /** The location rows a history leads to. */
  function Rows(es: seq<Event>): map<LocationId, LocationState> {
    if es == [] then map[] else RowsBy(Rows(es[..|es| - 1]), es[|es| - 1])
  }

  /** One event moves the monitor: by its own evidence, by a poll of the location rows it leads to, or to the start. */
  function AdvanceBy(s: Snapshot, rows: map<LocationId, LocationState>, e: Event): Snapshot {
    match e
    case Applied(_, evidence, _, _) => Advance(s, evidence)
    case Located(_, _, _, _, poll) => Polled(rows, poll)
    case Reaggregated(poll) => Polled(rows, poll)
    case Reset(_) => START
    case Kept(_) => s
  }

  function Replay(es: seq<Event>): Snapshot {
    if es == [] then START else AdvanceBy(Replay(es[..|es| - 1]), Rows(es), es[|es| - 1])
  }

  /** Evidence time of the newest applied result that carries the reporter's clock. */
  function Newest(es: seq<Event>): Option<Time> {
    if es == [] then None
    else
      var e := es[|es| - 1];
      if e.Applied? && !e.synthetic then Some(e.startedAt) else Newest(es[..|es| - 1])
  }

  predicate NotAfter(a: Option<Time>, b: Option<Time>) { a.None? || (b.Some? && a.value <= b.value) }

  /** Applied evidence in lock order never steps back in evidence time. */
  predicate InOrder(es: seq<Event>) {
    es == [] || (InOrder(es[..|es| - 1]) && NotAfter(Newest(es[..|es| - 1]), Newest(es)))
  }

  /** A restart of the machine: a reset, or a poll in which nobody votes. */
  predicate Restarts(e: Event) { e.Reset? || (e.Reaggregated? && e.poll.voters == {}) }

  /** Since its last restart the monitor was moved by location-less evidence only. */
  predicate EvidenceOnly(es: seq<Event>) {
    es == [] || Restarts(es[|es| - 1]) || (es[|es| - 1].Applied? && EvidenceOnly(es[..|es| - 1]))
  }

  function SinceRestart(es: seq<Event>): seq<Evidence>
    requires EvidenceOnly(es)
  {
    if es == [] || Restarts(es[|es| - 1]) then [] else SinceRestart(es[..|es| - 1]) + [es[|es| - 1].evidence]
  }

  // ---------- What a history says about one location ----------

  /** The evidence accepted at a location since its row was last cleared. */
  function AcceptedAt(es: seq<Event>, l: LocationId): seq<Evidence> {
    if es == [] then []
    else
      var e, before := es[|es| - 1], AcceptedAt(es[..|es| - 1], l);
      if e.Located? && e.location == l then before + [e.evidence] else if Clears(e, l) then [] else before
  }

  /** The evidence time of the newest of it. */
  function NewestAt(es: seq<Event>, l: LocationId): Option<Time> {
    if es == [] then None
    else
      var e := es[|es| - 1];
      if e.Located? && e.location == l then Some(e.startedAt) else if Clears(e, l) then None else NewestAt(es[..|es| - 1], l)
  }

  /** The transaction time at which it was accepted. */
  function HeardAt(es: seq<Event>, l: LocationId): Option<Time> {
    if es == [] then None
    else
      var e := es[|es| - 1];
      if e.Located? && e.location == l then Some(e.poll.now) else if Clears(e, l) then None else HeardAt(es[..|es| - 1], l)
  }

  /** Evidence accepted at a location never steps back in evidence time. */
  predicate LocatedInOrder(es: seq<Event>) {
    es == [] ||
    (var e, before := es[|es| - 1], es[..|es| - 1];
     LocatedInOrder(before) && (e.Located? ==> NotAfter(NewestAt(before, e.location), Some(e.startedAt))))
  }

  /** The location has a row exactly when it accepted evidence, and the row is the fold of that evidence. */
  predicate Folds(rows: map<LocationId, LocationState>, l: LocationId, accepted: seq<Evidence>, newest: Option<Time>, heard: Option<Time>) {
    && (l in rows <==> accepted != [])
    && (l in rows ==> Snapshot(rows[l].state, rows[l].failures) == Run(START, accepted) && rows[l].watermark == newest)
    && (if l in rows then heard == Some(rows[l].lastCheckAt) else newest == None && heard == None)
  }

  /** A location has a row exactly when it accepted evidence since its last clearing, and the row is the fold of it. */
  lemma {:induction false} RowIsFold(es: seq<Event>, l: LocationId)
    ensures Folds(Rows(es), l, AcceptedAt(es, l), NewestAt(es, l), HeardAt(es, l))
  {
    if es != [] {
      var before, e := es[..|es| - 1], es[|es| - 1];
      RowIsFold(before, l);
      var accepted, newest, heard := AcceptedAt(before, l), NewestAt(before, l), HeardAt(before, l);
      if e.Located? && e.location == l {
        FoldGrows(Rows(before), e, accepted, newest, heard);
      } else {
        FoldStays(Rows(before), e, l, accepted, newest, heard);
      }
    }
  }

  lemma FoldGrows(rows: map<LocationId, LocationState>, e: Event, accepted: seq<Evidence>, newest: Option<Time>, heard: Option<Time>)
    requires e.Located? && Folds(rows, e.location, accepted, newest, heard)
    ensures Folds(RowsBy(rows, e), e.location, accepted + [e.evidence], Some(e.startedAt), Some(e.poll.now))
  {
    var ev := accepted + [e.evidence];
    assert ev[..|ev| - 1] == accepted;
  }

  lemma FoldStays(rows: map<LocationId, LocationState>, e: Event, l: LocationId, accepted: seq<Evidence>, newest: Option<Time>, heard: Option<Time>)
    requires !(e.Located? && e.location == l) && Folds(rows, l, accepted, newest, heard)
    ensures if Clears(e, l) then Folds(RowsBy(rows, e), l, [], None, None) else Folds(RowsBy(rows, e), l, accepted, newest, heard)
  {
  }

  // ---------- The history invariant ----------

  predicate HistoryOk(m: Monitor, es: seq<Event>) {
    && Replay(es) == Snapshot(m.state, m.failures)
    && Rows(es) == m.locationStates && m.locationStates.Keys <= m.locations
    && Newest(es) == m.watermark
    && InOrder(es) && LocatedInOrder(es)
    && (m.locations == {} ==> EvidenceOnly(es))
  }

  function Extended(es: seq<Event>, e: Option<Event>): seq<Event> {
    if e.Some? then es + [e.value] else es
  }

  /** A poll in which nobody votes is the start of the machine. */
  lemma NoVoters(rows: map<LocationId, LocationState>, p: Poll)
    requires p.voters == {}
    ensures Polled(rows, p) == START
  {
    var states := FreshStates(rows, p.now, p.intervalSeconds);
    forall s ensures Voting(states, p.voters, s) == {} {}
    assert p.voters * states.Keys == {};
  }

  /** The watermarks and the order of evidence after one more event. */
  predicate Follows(m: Monitor, e: Event, after: Monitor) {
    && (if e.Applied? && !e.synthetic then after.watermark == Some(e.startedAt) && NotAfter(m.watermark, after.watermark)
        else after.watermark == m.watermark)
    && (e.Located? ==> NotAfter(LocationWatermark(m, e.location), Some(e.startedAt)))
  }

  lemma ExtendHistory(m: Monitor, after: Monitor, es: seq<Event>, e: Event)
    requires HistoryOk(m, es) && Follows(m, e, after)
    requires RowsBy(m.locationStates, e) == after.locationStates && after.locationStates.Keys <= after.locations
    requires AdvanceBy(Snapshot(m.state, m.failures), after.locationStates, e) == Snapshot(after.state, after.failures)
    requires after.locations == {} ==> Restarts(e) || (e.Applied? && m.locations == {})
    ensures HistoryOk(after, es + [e])
  {
    var out := es + [e];
    assert out[..|out| - 1] == es && out[|out| - 1] == e;
    if e.Located? { RowIsFold(es, e.location); }
  }

  lemma PlanKeepsHistory(op: Op, m: Monitor, inserted: bool, now: Time, live: set<LocationId>, es: seq<Event>)
    requires HistoryOk(m, es)
    ensures var p := PlanOf(op, m, inserted, now, live); HistoryOk(p.after, Extended(es, p.event))
  {
    var p := PlanOf(op, m, inserted, now, live);
    if p.event.Some? {
      if op.RecordAtLocation? {
        LocatedKeepsHistory(m, op.result, op.location, inserted, now, live, es);
      } else {
        if op.SetLocations? { RestrictIsKept(m.locationStates, op.locations); }
        if op.DeleteLocation? { RestrictIsKept(m.locationStates, m.locations - {op.location}); }
        if op.DeleteLocation? { LoseIsRestrict(m.locationStates, m.locations, op.location); }
        ExtendHistory(m, p.after, es, p.event.value);
      }
    }
  }

  lemma LocatedKeepsHistory(m: Monitor, r: CheckResult, l: LocationId, inserted: bool, now: Time, live: set<LocationId>, es: seq<Event>)
    requires HistoryOk(m, es)
    ensures var p := PlanAtLocation(m, r, l, inserted, now, live); HistoryOk(p.after, Extended(es, p.event))
  {
    var p := PlanAtLocation(m, r, l, inserted, now, live);
    if p.event.Some? { ExtendHistory(m, p.after, es, p.event.value); }
  }

  lemma RestrictIsKept(rows: map<LocationId, LocationState>, keep: set<LocationId>)
    ensures Restrict(rows, keep).Keys <= keep
    ensures keep == {} ==> Restrict(rows, keep) == map[]
  {
  }

  lemma LoseIsRestrict(rows: map<LocationId, LocationState>, locations: set<LocationId>, l: LocationId)
    requires rows.Keys <= locations
    ensures rows - {l} == Restrict(rows, locations - {l})
  {
  }

  // ---------- Once per key ----------

  function KeyOf(e: Event): Option<Key> {
    match e
    case Applied(k, _, _, _) => Some(k)
    case Located(k, _, _, _, _) => Some(k)
    case _ => None
  }

  /** Every result that moved a monitor is still in the table, or was pruned. */
  ghost predicate Recorded(s: Database) {
    forall m, i :: m in s.history && 0 <= i < |s.history[m]| && KeyOf(s.history[m][i]).Some? ==>
      KeyOf(s.history[m][i]).value in s.results || KeyOf(s.history[m][i]).value in s.pruned
  }

  /** Two runs of a machine on one key mean retention removed the row in between. */
  ghost predicate Once(s: Database) {
    forall m, i, n, j ::
      && m in s.history && 0 <= i < |s.history[m]| && n in s.history && 0 <= j < |s.history[n]|
      && (m, i) != (n, j) && KeyOf(s.history[m][i]).Some? && KeyOf(s.history[m][i]) == KeyOf(s.history[n][j])
      ==> KeyOf(s.history[m][i]).value in s.pruned
  }

  lemma PlannedKeyIsStaged(op: Op, m: Monitor, inserted: bool, now: Time, live: set<LocationId>)
    ensures var e := PlanOf(op, m, inserted, now, live).event;
            e.Some? && KeyOf(e.value).Some? ==> inserted && CarriesResult(op) && KeyOf(e.value).value == op.result.key
  {
  }

  // ---------- The invariant and its preservation ----------

  ghost predicate TimelinesOk(s: Database) {
    forall m :: m in s.monitors ==> TimelineOk(s.monitors[m], s.clock)
  }

  ghost predicate HistoriesOk(s: Database) {
    forall m :: m in s.monitors && m in s.history ==> HistoryOk(s.monitors[m], s.history[m])
  }

  ghost predicate Inv(s: Database) {
    LocksOk(s) && TimelinesOk(s) && HistoriesOk(s) && Recorded(s) && Once(s)
  }

  lemma CommitKeepsMonitors(s: Database, t: TxId)
    requires LocksOk(s) && TimelinesOk(s) && HistoriesOk(s) && Enabled(s, Commit(t))
    ensures TimelinesOk(Post(s, Commit(t))) && HistoriesOk(Post(s, Commit(t)))
  {
    var s' := Post(s, Commit(t));
    var tx := s.txs[t];
    var g := tx.staged.value;
    assert StagedOk(s, t);
    forall m | m in s'.monitors ensures TimelineOk(s'.monitors[m], s'.clock) && HistoryOk(s'.monitors[m], s'.history[m]) {
      if m in g.plans {
        PlanKeepsTimeline(tx.op, g.before[m], g.row.Some?, tx.now, g.live, s.clock);
        PlanKeepsHistory(tx.op, g.before[m], g.row.Some?, tx.now, g.live, s.history[m]);
      }
    }
  }

  /** The event a commit appends for a monitor, if any. */
  function Appended(g: Staged, m: MonitorId): Option<Event> {
    if m in g.plans then g.plans[m].event else None
  }

  lemma CommitAppends(s: Database, t: TxId, m: MonitorId, i: int)
    requires LocksOk(s) && Enabled(s, Commit(t))
    requires m in s.history && 0 <= i < |Post(s, Commit(t)).history[m]|
    ensures var es, es' := s.history[m], Post(s, Commit(t)).history[m];
            var e := Appended(s.txs[t].staged.value, m);
            if i < |es| then es'[i] == es[i] else e.Some? && i == |es| && es'[i] == e.value
  {
  }

  lemma CommitKeepsOnce(s: Database, t: TxId)
    requires LocksOk(s) && Recorded(s) && Once(s) && Enabled(s, Commit(t))
    ensures Recorded(Post(s, Commit(t))) && Once(Post(s, Commit(t)))
  {
    var s' := Post(s, Commit(t));
    var tx := s.txs[t];
    var g := tx.staged.value;
    assert StagedOk(s, t);
    forall m, i | m in s'.history && 0 <= i < |s'.history[m]| && KeyOf(s'.history[m][i]).Some?
      ensures KeyOf(s'.history[m][i]).value in s'.results || KeyOf(s'.history[m][i]).value in s'.pruned
    {
      CommitAppends(s, t, m, i);
      if i >= |s.history[m]| { PlannedKeyIsStaged(tx.op, g.before[m], g.row.Some?, tx.now, g.live); }
    }
    forall m, i, n, j |
      && m in s'.history && 0 <= i < |s'.history[m]| && n in s'.history && 0 <= j < |s'.history[n]|
      && (m, i) != (n, j) && KeyOf(s'.history[m][i]).Some? && KeyOf(s'.history[m][i]) == KeyOf(s'.history[n][j])
      ensures KeyOf(s'.history[m][i]).value in s'.pruned
    {
      CommitAppends(s, t, m, i);
      CommitAppends(s, t, n, j);
      if i >= |s.history[m]| { PlannedKeyIsStaged(tx.op, g.before[m], g.row.Some?, tx.now, g.live); }
      if j >= |s.history[n]| { PlannedKeyIsStaged(tx.op, g.before[n], g.row.Some?, tx.now, g.live); }
      if i < |s.history[m]| && j < |s.history[n]| {
        assert KeyOf(s.history[m][i]).value in s.pruned;
      } else if i < |s.history[m]| {
        assert KeyOf(s.history[m][i]).value in s.results || KeyOf(s.history[m][i]).value in s.pruned;
      } else if j < |s.history[n]| {
        assert KeyOf(s.history[n][j]).value in s.results || KeyOf(s.history[n][j]).value in s.pruned;
      }
    }
  }

  lemma PruneKeepsOnce(s: Database, ks: set<Key>)
    requires Recorded(s) && Once(s) && Enabled(s, Prune(ks))
    ensures Recorded(Post(s, Prune(ks))) && Once(Post(s, Prune(ks)))
  {
  }

  lemma CreateKeeps(s: Database, step: Step)
    requires Inv(s) && step.Create? && Enabled(s, step)
    ensures TimelinesOk(Post(s, step)) && HistoriesOk(Post(s, step)) && Recorded(Post(s, step)) && Once(Post(s, step))
  {
  }

  /** Steps that leave histories, and forget no key, keep the once-per-key facts. */
  lemma OnceFrame(s: Database, s': Database)
    requires Recorded(s) && Once(s)
    requires s'.history == s.history && s.pruned == s'.pruned
    requires s.results.Keys <= s'.results.Keys
    ensures Recorded(s') && Once(s')
  {
  }

  lemma MonitorsFrame(s: Database, s': Database)
    requires TimelinesOk(s) && HistoriesOk(s)
    requires s'.monitors == s.monitors && s'.history == s.history && s.clock <= s'.clock
    ensures TimelinesOk(s') && HistoriesOk(s')
  {
  }

  /** Every step of every writer, of the consumer and of retention keeps the invariant. */
  lemma KeepsInv(s: Database, step: Step)
    requires Inv(s) && Enabled(s, step)
    ensures Inv(Post(s, step))
  {
    KeepsLocks(s, step);
    var s' := Post(s, step);
    match step {
      case Commit(t) => CommitKeepsMonitors(s, t); CommitKeepsOnce(s, t);
      case Create(_, _, _, _, _) => CreateKeeps(s, step);
      case Configure(_, _, _, _) => OnceFrame(s, s');
      case Prune(ks) => PruneKeepsOnce(s, ks); MonitorsFrame(s, s');
      case _ => OnceFrame(s, s'); MonitorsFrame(s, s');
    }
  }

  // ---------- Whole runs ----------

  /** `trace` is a run: it starts from empty tables and every step was enabled where it was taken. */
  ghost predicate IsRun(trace: seq<Database>, steps: seq<Step>) {
    && |trace| == |steps| + 1
    && trace[0] == Initial(trace[0].clock)
    && forall i :: 0 <= i < |steps| ==> Enabled(trace[i], steps[i]) && trace[i + 1] == Post(trace[i], steps[i])
  }

  lemma {:induction false} RunKeepsInv(trace: seq<Database>, steps: seq<Step>, n: nat)
    requires IsRun(trace, steps) && n < |trace|
    ensures Inv(trace[n])
  {
    if n > 0 {
      RunKeepsInv(trace, steps, n - 1);
      KeepsInv(trace[n - 1], steps[n - 1]);
    }
  }

  /**
   In every interleaving, at every moment: each monitor's intervals are a monotone gap-free chain with
   exactly one open row, and that row's state is current_state.
   */
  lemma TimelineSafety(trace: seq<Database>, steps: seq<Step>, n: nat, m: MonitorId)
    requires IsRun(trace, steps) && n < |trace| && m in trace[n].monitors
    ensures var ivs := trace[n].monitors[m].intervals;
            && Chain(ivs)
            && (forall i :: 0 <= i < |ivs| ==> (ivs[i].endedAt.None? <==> i == |ivs| - 1))
            && Open(ivs).state == trace[n].monitors[m].state
  {
    RunKeepsInv(trace, steps, n);
    var ivs := trace[n].monitors[m].intervals;
    assert TimelineOk(trace[n].monitors[m], trace[n].clock);
    forall i | 0 <= i < |ivs| - 1 ensures ivs[i].endedAt.Some? { assert Linked(ivs[i], ivs[i + 1]); }
  }

  lemma {:induction false} ReplayIsRun(es: seq<Event>)
    requires EvidenceOnly(es)
    ensures Replay(es) == Run(START, SinceRestart(es))
  {
    if es != [] && !Restarts(es[|es| - 1]) {
      ReplayIsRun(es[..|es| - 1]);
      var ev := SinceRestart(es);
      assert ev[..|ev| - 1] == SinceRestart(es[..|es| - 1]);
    } else if es != [] && es[|es| - 1].Reaggregated? {
      NoVoters(Rows(es), es[|es| - 1].poll);
    }
  }

  /** The history up to the last event that moved the monitor. */
  function Moved(es: seq<Event>): seq<Event> {
    if es != [] && es[|es| - 1].Kept? then Moved(es[..|es| - 1]) else es
  }

  lemma {:induction false} ReplayMoved(es: seq<Event>)
    ensures Replay(Moved(es)) == Replay(es)
  {
    if es != [] && es[|es| - 1].Kept? { ReplayMoved(es[..|es| - 1]); }
  }

  predicate Polls(e: Event) { e.Located? || e.Reaggregated? }

  /**
   In every interleaving the stored state and the stored location rows are the fold of what was accepted
   in lock order. A location-less monitor is down exactly when its failures since the last restart were
   confirmed at some step; a monitor last moved by a poll shows the aggregate of the rows polled then.
   */
  lemma StateSafety(trace: seq<Database>, steps: seq<Step>, n: nat, m: MonitorId)
    requires IsRun(trace, steps) && n < |trace| && m in trace[n].monitors
    ensures m in trace[n].history
    ensures var row, es := trace[n].monitors[m], trace[n].history[m];
            && Snapshot(row.state, row.failures) == Replay(es) && row.locationStates == Rows(es)
            && row.watermark == Newest(es) && InOrder(es)
            && (row.locations == {} ==>
                  && EvidenceOnly(es)
                  && (row.state == Down <==> Confirmed(SinceRestart(es)))
                  && row.failures == TrailingFailures(SinceRestart(es)))
            && (var moved := Moved(es);
                moved != [] && Polls(moved[|moved| - 1]) ==>
                  Snapshot(row.state, row.failures) == Polled(Rows(moved), moved[|moved| - 1].poll))
  {
    RunKeepsInv(trace, steps, n);
    var row, es := trace[n].monitors[m], trace[n].history[m];
    assert HistoryOk(row, es);
    ReplayMoved(es);
    if row.locations == {} {
      ReplayIsRun(es);
      RunFromStart(SinceRestart(es));
    }
  }

  // ---------- What a poll means ----------

  /** A row is heard at a poll when it was written within three check intervals, and at least within ninety seconds. */
  predicate HeardBy(heard: Option<Time>, p: Poll) {
    heard.Some? && heard.value >= p.now - SECOND * (if 3 * p.intervalSeconds > 90 then 3 * p.intervalSeconds else 90)
  }

  predicate Reports(rows: map<LocationId, LocationState>, p: Poll, l: LocationId, s: State) {
    l in p.voters && l in rows && HeardBy(Some(rows[l].lastCheckAt), p) && rows[l].state == s
  }

  /** As many voters as the quorum asks for, between one and all of them. */
  predicate Enough(d: set<LocationId>, p: Poll) {
    d <= p.voters && (p.quorum < 1 ==> |d| == 1) && (1 <= p.quorum <= |p.voters| ==> |d| == p.quorum)
    && (p.quorum >= 1 && p.quorum > |p.voters| ==> d == p.voters)
  }

  ghost predicate ManyDown(rows: map<LocationId, LocationState>, p: Poll) {
    exists d :: Enough(d, p) && forall l :: l in d ==> Reports(rows, p, l, Down)
  }

  ghost predicate SomeReport(rows: map<LocationId, LocationState>, p: Poll, s: State) { exists l :: Reports(rows, p, l, s) }

  lemma EnoughSize(d: set<LocationId>, p: Poll)
    requires p.voters != {} && d <= p.voters
    ensures Enough(d, p) <==> |d| == Min(Max(p.quorum, 1), |p.voters|)
  {
    var one := Pick(p.voters);
    NonEmpty(one, p.voters);
    if |d| == |p.voters| { SubsetSize(d, p.voters); }
  }

  /** What a poll shows, by the rows its voters have, and the greatest failure count among those that are heard. */
  lemma PollMeans(rows: map<LocationId, LocationState>, p: Poll)
    requires p.voters != {}
    ensures var shown := Polled(rows, p).state;
            && (shown == Down <==> ManyDown(rows, p))
            && (shown == Degraded <==> SomeReport(rows, p, Down) && !ManyDown(rows, p))
            && (shown == Suspect <==> !SomeReport(rows, p, Down) && SomeReport(rows, p, Suspect))
            && (shown == Up <==> !SomeReport(rows, p, Down) && !SomeReport(rows, p, Suspect) && SomeReport(rows, p, Up))
            && (shown == Unknown <==> !SomeReport(rows, p, Down) && !SomeReport(rows, p, Suspect) && !SomeReport(rows, p, Up))
  {
    var states, n := FreshStates(rows, p.now, p.intervalSeconds), Min(Max(p.quorum, 1), |p.voters|);
    VerdictsMean(states, p.voters, p.quorum);
    forall l, s ensures Reports(rows, p, l, s) <==> l in p.voters && l in states && states[l] == s {}
    if d :| Quorate(states, p.voters, d, n) {
      EnoughSize(d, p);
      assert forall l :: l in d ==> Reports(rows, p, l, Down);
    }
    if d :| Enough(d, p) && forall l :: l in d ==> Reports(rows, p, l, Down) {
      EnoughSize(d, p);
      assert forall l :: l in d ==> l in states && states[l] == Down;
      assert Quorate(states, p.voters, d, n);
    }
    forall s ensures SomeReport(rows, p, s) <==> exists l :: l in p.voters && l in states && states[l] == s {
      if l :| l in p.voters && l in states && states[l] == s { assert Reports(rows, p, l, s); }
    }
  }

  /** The location was heard in time, and its accepted failures were confirmed. */
  predicate Failing(es: seq<Event>, p: Poll, l: LocationId) { HeardBy(HeardAt(es, l), p) && Confirmed(AcceptedAt(es, l)) }

  /**
   In every interleaving a monitor last moved by a poll is down exactly when as many voters as its quorum asks
   for had each been heard in time and had confirmed failures, by the evidence accepted there.
   */
  lemma QuorumSafety(trace: seq<Database>, steps: seq<Step>, n: nat, m: MonitorId)
    requires IsRun(trace, steps) && n < |trace| && m in trace[n].monitors && m in trace[n].history
    requires var moved := Moved(trace[n].history[m]);
             moved != [] && Polls(moved[|moved| - 1]) && moved[|moved| - 1].poll.voters != {}
    ensures var moved := Moved(trace[n].history[m]);
            var p := moved[|moved| - 1].poll;
            trace[n].monitors[m].state == Down <==>
            exists d :: Enough(d, p) && forall l :: l in d ==> Failing(moved, p, l)
  {
    StateSafety(trace, steps, n, m);
    PollOfHistory(Moved(trace[n].history[m]));
  }

  lemma {:induction false} PollOfHistory(es: seq<Event>)
    requires es != [] && Polls(es[|es| - 1]) && es[|es| - 1].poll.voters != {}
    ensures var p := es[|es| - 1].poll;
            Polled(Rows(es), p).state == Down <==> exists d :: Enough(d, p) && forall l :: l in d ==> Failing(es, p, l)
  {
    var p := es[|es| - 1].poll;
    PollMeans(Rows(es), p);
    forall l | l in p.voters ensures Reports(Rows(es), p, l, Down) <==> Failing(es, p, l) {
      RowIsFold(es, l);
      RunFromStart(AcceptedAt(es, l));
    }
  }

  /** A poll asks the selected locations that are live, with the monitor's own quorum and interval, at the transaction's time. */
  lemma PollIsCurrent(op: Op, m: Monitor, inserted: bool, now: Time, live: set<LocationId>)
    ensures var e := PlanOf(op, m, inserted, now, live).event;
            e.Some? && Polls(e.value) ==>
              && (forall l :: l in e.value.poll.voters <==> l in m.locations && l in live)
              && e.value.poll.quorum == m.quorum && e.value.poll.intervalSeconds == m.intervalSeconds && e.value.poll.now == now
  {
  }

  /**
   In every interleaving a location has a row exactly when it is selected and accepted evidence since its
   row was last cleared; the row is the machine run over that evidence, in evidence order.
   */
  lemma LocationSafety(trace: seq<Database>, steps: seq<Step>, n: nat, m: MonitorId, l: LocationId)
    requires IsRun(trace, steps) && n < |trace| && m in trace[n].monitors
    ensures m in trace[n].history
    ensures var row, es := trace[n].monitors[m], trace[n].history[m];
            && LocatedInOrder(es)
            && (l in row.locationStates <==> AcceptedAt(es, l) != [])
            && (l in row.locationStates ==>
                  && l in row.locations
                  && row.locationStates[l].watermark == NewestAt(es, l)
                  && row.locationStates[l].failures == TrailingFailures(AcceptedAt(es, l))
                  && (row.locationStates[l].state == Down <==> Confirmed(AcceptedAt(es, l)))
                  && row.locationStates[l].state != Degraded && row.locationStates[l].state != Unknown)
  {
    RunKeepsInv(trace, steps, n);
    assert HistoryOk(trace[n].monitors[m], trace[n].history[m]);
    RowIsFold(trace[n].history[m], l);
    RunFromStart(AcceptedAt(trace[n].history[m], l));
  }

  /** So no recorded monitor's severity ever rises because evidence went stale. */
  lemma RecordedStaleNeverRaises(trace: seq<Database>, steps: seq<Step>, n: nat, m: MonitorId, live: set<LocationId>, earlier: Time, later: Time)
    requires IsRun(trace, steps) && n < |trace| && m in trace[n].monitors && earlier <= later
    ensures var row := trace[n].monitors[m];
            Severity(Polled(row.locationStates, PollOf(row, later, live)).state)
            <= Severity(Polled(row.locationStates, PollOf(row, earlier, live)).state)
  {
    var row := trace[n].monitors[m];
    forall l | l in row.locationStates ensures row.locationStates[l].state != Degraded { LocationSafety(trace, steps, n, m, l); }
    StaleNeverRaises(row.locationStates, row.locations * live, row.quorum, row.intervalSeconds, earlier, later);
  }

  /** Under any redelivery and reordering, a retained key has moved at most one monitor at most once. */
  lemma MachineRunsOnce(trace: seq<Database>, steps: seq<Step>, n: nat, m: MonitorId, i: nat, m': MonitorId, i': nat)
    requires IsRun(trace, steps) && n < |trace|
    requires m in trace[n].history && i < |trace[n].history[m]|
    requires m' in trace[n].history && i' < |trace[n].history[m']|
    requires KeyOf(trace[n].history[m][i]).Some? && KeyOf(trace[n].history[m][i]) == KeyOf(trace[n].history[m'][i'])
    requires KeyOf(trace[n].history[m][i]).value !in trace[n].pruned
    ensures m == m' && i == i'
    ensures KeyOf(trace[n].history[m][i]).value in trace[n].results
  {
    RunKeepsInv(trace, steps, n);
    assert Once(trace[n]) && Recorded(trace[n]);
  }

  lemma StepKeepsWatermark(s: Database, step: Step, m: MonitorId)
    requires Inv(s) && Enabled(s, step) && m in s.monitors
    ensures m in Post(s, step).monitors
    ensures NotAfter(s.monitors[m].watermark, Post(s, step).monitors[m].watermark)
  {
    if step.Commit? {
      CommitKeepsMonitors(s, step.tx);
      var s' := Post(s, step);
      var es, es' := s.history[m], s'.history[m];
      assert HistoryOk(s.monitors[m], es) && HistoryOk(s'.monitors[m], es');
      if es' != es { assert es'[..|es'| - 1] == es; }
    }
  }

  /** The evidence watermark never goes back. */
  lemma {:induction false} WatermarkMonotone(trace: seq<Database>, steps: seq<Step>, a: nat, b: nat, m: MonitorId)
    requires IsRun(trace, steps) && a <= b < |trace| && m in trace[a].monitors
    ensures m in trace[b].monitors
    ensures NotAfter(trace[a].monitors[m].watermark, trace[b].monitors[m].watermark)
  {
    if a < b {
      WatermarkMonotone(trace, steps, a, b - 1, m);
      RunKeepsInv(trace, steps, b - 1);
      StepKeepsWatermark(trace[b - 1], steps[b - 1], m);
    }
  }

  lemma PlanKeepsLocationWatermark(op: Op, m: Monitor, inserted: bool, now: Time, live: set<LocationId>, l: LocationId)
    requires l in m.locationStates && l in PlanOf(op, m, inserted, now, live).after.locationStates
    ensures NotAfter(m.locationStates[l].watermark, PlanOf(op, m, inserted, now, live).after.locationStates[l].watermark)
  {
  }

  lemma StepKeepsLocationWatermark(s: Database, step: Step, m: MonitorId, l: LocationId)
    requires Inv(s) && Enabled(s, step) && m in s.monitors && m in Post(s, step).monitors
    requires l in s.monitors[m].locationStates && l in Post(s, step).monitors[m].locationStates
    ensures NotAfter(s.monitors[m].locationStates[l].watermark, Post(s, step).monitors[m].locationStates[l].watermark)
  {
    if step.Commit? {
      var tx := s.txs[step.tx];
      var g := tx.staged.value;
      assert StagedOk(s, step.tx);
      if m in g.plans { PlanKeepsLocationWatermark(tx.op, g.before[m], g.row.Some?, tx.now, g.live, l); }
    }
  }

  lemma LocationWatermarkStep(trace: seq<Database>, steps: seq<Step>, n: nat, m: MonitorId, l: LocationId)
    requires IsRun(trace, steps) && n + 1 < |trace| && HasRow(trace[n], m, l) && HasRow(trace[n + 1], m, l)
    ensures NotAfter(MarkAt(trace[n], m, l), MarkAt(trace[n + 1], m, l))
  {
    RunKeepsInv(trace, steps, n);
    StepKeepsLocationWatermark(trace[n], steps[n], m, l);
  }

  predicate HasRow(s: Database, m: MonitorId, l: LocationId) { m in s.monitors && l in s.monitors[m].locationStates }

  function MarkAt(s: Database, m: MonitorId, l: LocationId): Option<Time>
    requires HasRow(s, m, l)
  {
    s.monitors[m].locationStates[l].watermark
  }

  /** While a location keeps its row, its watermark never goes back. */
  lemma {:induction false} LocationWatermarkMonotone(trace: seq<Database>, steps: seq<Step>, a: nat, b: nat, m: MonitorId, l: LocationId)
    requires IsRun(trace, steps) && a <= b < |trace|
    requires forall n :: a <= n <= b ==> HasRow(trace[n], m, l)
    ensures NotAfter(MarkAt(trace[a], m, l), MarkAt(trace[b], m, l))
  {
    if a < b {
      LocationWatermarkMonotone(trace, steps, a, b - 1, m, l);
      LocationWatermarkStep(trace, steps, b - 1, m, l);
    }
  }

  lemma {:induction false} AppliedNotAfterNewest(es: seq<Event>, i: nat)
    requires InOrder(es) && i < |es| && es[i].Applied? && !es[i].synthetic
    ensures NotAfter(Some(es[i].startedAt), Newest(es))
  {
    if i < |es| - 1 {
      assert es[..|es| - 1][i] == es[i];
      AppliedNotAfterNewest(es[..|es| - 1], i);
    }
  }

  /**
   What once-per-key rests on: redelivering a result that already moved its monitor runs the machine
   again exactly when its row is gone, the monitor has no selected locations, and the result is either
   synthetic or still the newest evidence applied.
   */
  lemma {:induction false} RedeliveryRunsAgain(trace: seq<Database>, steps: seq<Step>, n: nat, r: CheckResult, i: nat)
    requires IsRun(trace, steps) && n < |trace|
    requires r.monitor in trace[n].monitors && r.monitor in trace[n].history && i < |trace[n].history[r.monitor]|
    requires trace[n].history[r.monitor][i].Applied?
    requires trace[n].history[r.monitor][i].startedAt == r.startedAt
    requires trace[n].history[r.monitor][i].synthetic == r.synthetic
    ensures var m := trace[n].monitors[r.monitor];
            RunsMachine(m, r, r.key !in trace[n].results) <==>
            && r.key !in trace[n].results
            && m.locations == {}
            && (r.synthetic || m.watermark == Some(r.startedAt))
  {
    RunKeepsInv(trace, steps, n);
    AppliedAgain(trace[n].monitors[r.monitor], trace[n].history[r.monitor], r, i);
  }

  lemma {:induction false} AppliedAgain(m: Monitor, es: seq<Event>, r: CheckResult, i: nat)
    requires HistoryOk(m, es) && i < |es| && es[i].Applied? && es[i].startedAt == r.startedAt && es[i].synthetic == r.synthetic
    ensures r.synthetic || !Late(m.watermark, r) <==> r.synthetic || m.watermark == Some(r.startedAt)
  {
    if !r.synthetic { AppliedNotAfterNewest(es, i); }
  }

  /** The location's row was cleared since event i, and its watermark with it. */
  predicate ClearedAfter(es: seq<Event>, i: nat, l: LocationId) { exists j :: i < j < |es| && Clears(es[j], l) }

  lemma {:induction false} LocatedNotAfterNewest(es: seq<Event>, i: nat)
    requires LocatedInOrder(es) && i < |es| && es[i].Located? && !ClearedAfter(es, i, es[i].location)
    ensures NotAfter(Some(es[i].startedAt), NewestAt(es, es[i].location))
  {
    if i < |es| - 1 {
      var front := es[..|es| - 1];
      assert front[i] == es[i] && forall j :: i < j < |front| ==> front[j] == es[j];
      LocatedNotAfterNewest(front, i);
    }
  }

  /**
   The same for a result recorded at a location: redelivering it moves the location's row and its monitor
   again exactly when its own row is gone, the location is selected, and nothing newer was accepted there
   since the location was last cleared. Without a clearing in between that means it is still the newest.
   */
  lemma {:induction false} RedeliveryRunsAgainAtLocation(trace: seq<Database>, steps: seq<Step>, n: nat, r: CheckResult, l: LocationId, i: nat)
    requires IsRun(trace, steps) && n < |trace|
    requires r.monitor in trace[n].monitors && r.monitor in trace[n].history && i < |trace[n].history[r.monitor]|
    requires trace[n].history[r.monitor][i].Located? && trace[n].history[r.monitor][i].location == l
    requires trace[n].history[r.monitor][i].startedAt == r.startedAt
    ensures var m, es := trace[n].monitors[r.monitor], trace[n].history[r.monitor];
            && (RunsAtLocation(m, r, l, r.key !in trace[n].results) <==>
                r.key !in trace[n].results && l in m.locations && NotAfter(NewestAt(es, l), Some(r.startedAt)))
            && (!ClearedAfter(es, i, l) ==>
                (RunsAtLocation(m, r, l, r.key !in trace[n].results) <==>
                 r.key !in trace[n].results && LocationWatermark(m, l) == Some(r.startedAt)))
  {
    RunKeepsInv(trace, steps, n);
    LocatedAgain(trace[n].monitors[r.monitor], trace[n].history[r.monitor], r, l, i);
  }

  lemma {:induction false} LocatedAgain(m: Monitor, es: seq<Event>, r: CheckResult, l: LocationId, i: nat)
    requires HistoryOk(m, es) && i < |es| && es[i].Located? && es[i].location == l && es[i].startedAt == r.startedAt
    ensures l in m.locations && !Late(LocationWatermark(m, l), r) <==> l in m.locations && NotAfter(NewestAt(es, l), Some(r.startedAt))
    ensures !ClearedAfter(es, i, l) ==>
              (l in m.locations && !Late(LocationWatermark(m, l), r) <==> LocationWatermark(m, l) == Some(r.startedAt))
  {
    RowIsFold(es, l);
    if !ClearedAfter(es, i, l) { LocatedNotAfterNewest(es, i); }
  }
}

/** Runs of the recording protocol in which one writer works at a time, as building blocks for examples. */
module SoloRuns {
  import opened Common
  import opened MonitorState
  import opened Recording
  import opened Protocol
  import opened RecordingSafety

  lemma ExtendRun(trace: seq<Database>, steps: seq<Step>, step: Step)
    requires IsRun(trace, steps) && Enabled(trace[|trace| - 1], step)
    ensures IsRun(trace + [Post(trace[|trace| - 1], step)], steps + [step])
  {
    var longer, more := trace + [Post(trace[|trace| - 1], step)], steps + [step];
    forall i | 0 <= i < |more| ensures Enabled(longer[i], more[i]) && longer[i + 1] == Post(longer[i], more[i]) {
      if i < |steps| { assert longer[i] == trace[i] && longer[i + 1] == trace[i + 1] && more[i] == steps[i]; }
    }
  }

  /** Nobody is at work. */
  predicate Quiet(s: Database, m: MonitorId) { s.txs == map[] && s.consumer.None? && m in s.monitors && m in s.history }

  predicate OnlyTarget(op: Op, m: MonitorId) { !op.DeleteLocation? && Targets(op, map[]) == {m} }

  function Begun(s: Database, op: Op): Database { s.(txs := map[1 := Tx(s.clock, op, None)]) }

  /** The transaction holds its lock and has staged its writes. */
  function Ready(s: Database, m: MonitorId, op: Op): Database
    requires Quiet(s, m) && OnlyTarget(op, m)
  {
    s.(clock := s.clock + 1, txs := map[1 := Tx(s.clock, op, Some(Stage(s, Tx(s.clock, op, None), s.clock + 1)))])
  }

  function Done(s: Database, m: MonitorId, op: Op): Database
    requires Quiet(s, m) && OnlyTarget(op, m)
  {
    Settle(Ready(s, m, op), Stage(s, Tx(s.clock, op, None), s.clock + 1)).(txs := map[])
  }

  lemma BeginIs(s: Database, m: MonitorId, op: Op)
    requires Quiet(s, m) && OnlyTarget(op, m)
    ensures Enabled(s, Begin(1, op)) && Post(s, Begin(1, op)) == Begun(s, op)
  {
  }

  lemma AcquireIs(s: Database, m: MonitorId, op: Op)
    requires Quiet(s, m) && OnlyTarget(op, m)
    ensures var at := s.clock + 1; Enabled(Begun(s, op), Acquire(1, at)) && Post(Begun(s, op), Acquire(1, at)) == Ready(s, m, op)
  {
    assert Stage(Begun(s, op), Tx(s.clock, op, None), s.clock + 1) == Stage(s, Tx(s.clock, op, None), s.clock + 1);
  }

  lemma CommitIs(s: Database, m: MonitorId, op: Op)
    requires Quiet(s, m) && OnlyTarget(op, m)
    ensures Enabled(Ready(s, m, op), Commit(1)) && Post(Ready(s, m, op), Commit(1)) == Done(s, m, op)
  {
    assert Ready(s, m, op).txs - {1} == map[];
  }

  /** Begin, lock and commit one transaction, alone. */
  lemma Alone(trace: seq<Database>, steps: seq<Step>, s: Database, m: MonitorId, op: Op) returns (trace': seq<Database>, steps': seq<Step>)
    requires IsRun(trace, steps) && s == trace[|trace| - 1] && Quiet(s, m) && OnlyTarget(op, m)
    ensures IsRun(trace', steps') && trace'[|trace'| - 1] == Done(s, m, op)
  {
    BeginIs(s, m, op);
    AcquireIs(s, m, op);
    CommitIs(s, m, op);
    trace', steps' := trace + [Begun(s, op)], steps + [Begin(1, op)];
    ExtendRun(trace, steps, Begin(1, op));
    ExtendRun(trace', steps', Acquire(1, s.clock + 1));
    trace', steps' := trace' + [Ready(s, m, op)], steps' + [Acquire(1, s.clock + 1)];
    ExtendRun(trace', steps', Commit(1));
    trace', steps' := trace' + [Done(s, m, op)], steps' + [Commit(1)];
  }

  predicate Inserts(s: Database, op: Op) { CarriesResult(op) && op.result.key !in s.results }

  /** What such a transaction leaves behind. */
  lemma DoneIs(s: Database, m: MonitorId, op: Op)
    requires Quiet(s, m) && OnlyTarget(op, m)
    ensures var s', p := Done(s, m, op), PlanOf(op, s.monitors[m], Inserts(s, op), s.clock, s.live);
            && Quiet(s', m) && s'.monitors[m] == p.after && s'.history[m] == Extended(s.history[m], p.event)
            && s'.results == (if Inserts(s, op) then s.results[op.result.key := op.result] else s.results)
            && s'.clock == s.clock + 1 && s'.live == s.live && s'.rollups == s.rollups && s'.pruned == s.pruned
            && s'.dirty.Keys <= s.dirty.Keys + (if Inserts(s, op) then {BucketOf(op.result)} else {})
  {
  }

  lemma AppliedEvent(m: Monitor, r: CheckResult, now: Time)
    requires RunsMachine(m, r, true) && !r.synthetic
    ensures var p := PlanRecord(m, r, true, now);
            p.event.Some? && KeyOf(p.event.value) == Some(r.key) && p.after.locations == {} && p.after.watermark == Some(r.startedAt)
  {
  }

  /** Delivering a new, timely result, alone. */
  lemma Deliver(trace: seq<Database>, steps: seq<Step>, s: Database, r: CheckResult) returns (trace': seq<Database>, steps': seq<Step>, s': Database)
    requires IsRun(trace, steps) && s == trace[|trace| - 1] && Quiet(s, r.monitor)
    requires r.key !in s.results && RunsMachine(s.monitors[r.monitor], r, true) && !r.synthetic
    ensures IsRun(trace', steps') && s' == trace'[|trace'| - 1] && Quiet(s', r.monitor)
    ensures var n := |s.history[r.monitor]|;
            |s'.history[r.monitor]| == n + 1 && s'.history[r.monitor][..n] == s.history[r.monitor] && KeyOf(s'.history[r.monitor][n]) == Some(r.key)
    ensures s'.monitors[r.monitor].locations == {} && s'.monitors[r.monitor].watermark == Some(r.startedAt)
    ensures s'.results == s.results[r.key := r] && s'.clock == s.clock + 1 && s'.pruned == s.pruned && s'.rollups == s.rollups
    ensures s'.dirty.Keys <= s.dirty.Keys + {BucketOf(r)}
  {
    var op := RecordResult(r);
    trace', steps' := Alone(trace, steps, s, r.monitor, op);
    s' := Done(s, r.monitor, op);
    DoneIs(s, r.monitor, op);
    AppliedEvent(s.monitors[r.monitor], r, s.clock);
  }

  /** The consumer drains a ledger that holds at most one mark, alone. */
  lemma DrainAlone(trace: seq<Database>, steps: seq<Step>, s: Database, m: MonitorId, b: Bucket) returns (trace': seq<Database>, steps': seq<Step>, s': Database)
    requires IsRun(trace, steps) && s == trace[|trace| - 1] && Quiet(s, m) && s.dirty.Keys <= {b}
    ensures IsRun(trace', steps') && s' == trace'[|trace'| - 1] && Quiet(s', m) && s'.dirty == map[]
    ensures s'.results == s.results && s'.history == s.history && s'.monitors == s.monitors && s'.clock == s.clock && s'.live == s.live
  {
    if s.dirty.Keys == {} {
      assert s.dirty == map[];
      trace', steps', s' := trace, steps, s;
    } else {
      var load, rebuild := Load({b}), Rebuild(b);
      var s1 := Post(s, load);
      ExtendRun(trace, steps, load);
      var s2 := Post(s1, rebuild);
      ExtendRun(trace + [s1], steps + [load], rebuild);
      assert Enabled(s2, Publish);
      s' := Post(s2, Publish);
      ExtendRun(trace + [s1] + [s2], steps + [load] + [rebuild], Publish);
      trace', steps' := trace + [s1] + [s2] + [s'], steps + [load] + [rebuild] + [Publish];
      assert s'.dirty.Keys == {};
    }
  }

  /** Forty days later retention removes the row. */
  lemma ForgetAlone(trace: seq<Database>, steps: seq<Step>, s: Database, r: CheckResult) returns (trace': seq<Database>, steps': seq<Step>, s': Database)
    requires IsRun(trace, steps) && s == trace[|trace| - 1] && Quiet(s, r.monitor) && s.dirty == map[]
    requires r.key in s.results && s.results[r.key] == r && r.startedAt <= s.clock
    ensures IsRun(trace', steps') && s' == trace'[|trace'| - 1] && Quiet(s', r.monitor)
    ensures r.key !in s'.results && r.key in s'.pruned && s'.history == s.history && s'.monitors == s.monitors && s'.live == s.live
  {
    var tick, prune := Tick(s.clock + 40 * DAY), Prune({r.key});
    var s1 := Post(s, tick);
    ExtendRun(trace, steps, tick);
    var s2 := Post(s1, ReadCutoff);
    ExtendRun(trace + [s1], steps + [tick], ReadCutoff);
    CutoffPasses(s1.clock, r.startedAt);
    assert Enabled(s2, prune);
    s' := Post(s2, prune);
    ExtendRun(trace + [s1] + [s2], steps + [tick] + [ReadCutoff], prune);
    trace', steps' := trace + [s1] + [s2] + [s'], steps + [tick] + [ReadCutoff] + [prune];
  }

  lemma CutoffPasses(clock: Time, t: Time)
    requires t <= clock - 40 * DAY
    ensures t < PruneCutoff(clock)
  {
  }

  /** A database that holds one new monitor. */
  lemma NewMonitor(m: MonitorId) returns (trace: seq<Database>, steps: seq<Step>, s: Database)
    ensures IsRun(trace, steps) && s == trace[|trace| - 1] && Quiet(s, m)
    ensures s.clock == 0 && s.results == map[] && s.dirty == map[] && s.rollups == map[] && s.history[m] == []
    ensures s.monitors[m].locations == {} && s.monitors[m].locationStates == map[] && s.monitors[m].watermark == None
  {
    var s0, create := Initial(0), Create(m, 0, 1, 1, 60);
    assert IsRun([s0], []);
    ExtendRun([s0], [], create);
    s := Post(s0, create);
    trace, steps := [s0] + [s], [] + [create];
  }

  /** A database that holds one new monitor with one live location. */
  lemma NewLocatedMonitor(m: MonitorId, l: LocationId) returns (trace: seq<Database>, steps: seq<Step>, s: Database)
    ensures IsRun(trace, steps) && s == trace[|trace| - 1] && Quiet(s, m)
    ensures s.clock == 1 && s.results == map[] && s.dirty == map[] && s.live == {l} && s.history[m] == [Kept({l})]
    ensures s.monitors[m].locations == {l} && s.monitors[m].locationStates == map[]
  {
    var t1, p1, s1 := NewMonitor(m);
    var live := SetLive({l});
    ExtendRun(t1, p1, live);
    var s2 := Post(s1, live);
    trace, steps := Alone(t1 + [s2], p1 + [live], s2, m, SetLocations(m, {l}));
    DoneIs(s2, m, SetLocations(m, {l}));
    s := Done(s2, m, SetLocations(m, {l}));
    assert s.dirty == map[];
    assert Extended([], Some(Kept({l}))) == [Kept({l})];
  }
}

/** The recorded timeline, interval by interval, is the history of the fold: which states it went through and why. */
module TimelineHistory {
  import opened Common
  import opened MonitorState
  import opened Recording
  import opened Protocol
  import opened RecordingSafety

  datatype Opening = Opening(state: State, reason: Reason)

  function ReasonOf(e: Event): Reason {
    match e
    case Applied(_, _, _, _) => ByResult
    case Located(_, _, _, _, _) => ByResult
    case Reaggregated(_) => ByWatchdog
    case Reset(reason) => reason
    case Kept(_) => ByLocationChange
  }

  /** A change of state opens an interval, and so does every pause and resume. */
  function Openings(es: seq<Event>): seq<Opening> {
    if es == [] then [Opening(Unknown, ByCreation)]
    else
      var front, e := es[..|es| - 1], es[|es| - 1];
      if Replay(es).state != Replay(front).state || (e.Reset? && (e.reason == ByPause || e.reason == ByResume))
      then Openings(front) + [Opening(Replay(es).state, ReasonOf(e))] else Openings(front)
  }

  predicate Follow(ivs: seq<Interval>, os: seq<Opening>) {
    |ivs| == |os| && forall i :: 0 <= i < |ivs| ==> ivs[i].state == os[i].state && ivs[i].reason == os[i].reason
  }

  lemma OpenFollows(ivs: seq<Interval>, os: seq<Opening>, now: Time, state: State, reason: Reason)
    requires Follow(ivs, os) && Chain(ivs)
    ensures Follow(RecordInterval(ivs, now, state, reason), os + [Opening(state, reason)])
  {
  }

  lemma OpeningsNext(es: seq<Event>, e: Event)
    ensures Openings(es + [e]) ==
            if Replay(es + [e]).state != Replay(es).state || (e.Reset? && (e.reason == ByPause || e.reason == ByResume))
            then Openings(es) + [Opening(Replay(es + [e]).state, ReasonOf(e))] else Openings(es)
  {
    assert (es + [e])[..|es|] == es;
  }

  predicate OpenedBy(m: Monitor, after: Monitor, e: Event, now: Time) {
    if after.state != m.state || (e.Reset? && (e.reason == ByPause || e.reason == ByResume))
    then after.intervals == RecordInterval(m.intervals, now, after.state, ReasonOf(e))
    else after.intervals == m.intervals
  }

  lemma PlanOpens(op: Op, m: Monitor, inserted: bool, now: Time, live: set<LocationId>)
    ensures var p := PlanOf(op, m, inserted, now, live);
            if p.event.Some? then OpenedBy(m, p.after, p.event.value, now) else p.after.intervals == m.intervals
  {
  }

  lemma PlanFollows(op: Op, m: Monitor, inserted: bool, now: Time, live: set<LocationId>, es: seq<Event>)
    requires HistoryOk(m, es) && Chain(m.intervals) && Follow(m.intervals, Openings(es))
    ensures var p := PlanOf(op, m, inserted, now, live); Follow(p.after.intervals, Openings(Extended(es, p.event)))
  {
    var p := PlanOf(op, m, inserted, now, live);
    PlanOpens(op, m, inserted, now, live);
    PlanKeepsHistory(op, m, inserted, now, live, es);
    if p.event.Some? {
      OpeningsNext(es, p.event.value);
      OpenFollows(m.intervals, Openings(es), now, p.after.state, ReasonOf(p.event.value));
    }
  }

  ghost predicate AllFollow(s: Database) {
    forall m :: m in s.monitors && m in s.history ==> Follow(s.monitors[m].intervals, Openings(s.history[m]))
  }

  lemma CommitFollows(s: Database, t: TxId)
    requires Inv(s) && AllFollow(s) && Enabled(s, Commit(t))
    ensures AllFollow(Post(s, Commit(t)))
  {
    var s', tx := Post(s, Commit(t)), s.txs[t];
    var g := tx.staged.value;
    assert StagedOk(s, t);
    forall m | m in s'.monitors ensures Follow(s'.monitors[m].intervals, Openings(s'.history[m])) {
      if m in g.plans {
        assert TimelineOk(s.monitors[m], s.clock) && HistoryOk(s.monitors[m], s.history[m]);
        PlanFollows(tx.op, g.before[m], g.row.Some?, tx.now, g.live, s.history[m]);
      }
    }
  }

  lemma StepFollows(s: Database, step: Step)
    requires Inv(s) && AllFollow(s) && Enabled(s, step)
    ensures AllFollow(Post(s, step))
  {
    match step
    case Commit(t) => CommitFollows(s, t);
    case Create(m, now, _, _, _) =>
      assert Openings([]) == [Opening(Unknown, ByCreation)];
    case _ =>
  }

  /**
   In every interleaving a monitor's intervals are, one by one, the states its accepted history went through
   and what moved it: evidence, the watchdog, a pause, a resume or a change of its locations.
   */
  lemma {:induction false} TimelineIsHistory(trace: seq<Database>, steps: seq<Step>, n: nat, m: MonitorId)
    requires IsRun(trace, steps) && n < |trace| && m in trace[n].monitors
    ensures m in trace[n].history && Follow(trace[n].monitors[m].intervals, Openings(trace[n].history[m]))
  {
    RunKeepsInv(trace, steps, n);
    RunFollows(trace, steps, n);
  }

  lemma {:induction false} RunFollows(trace: seq<Database>, steps: seq<Step>, n: nat)
    requires IsRun(trace, steps) && n < |trace|
    ensures AllFollow(trace[n])
  {
    if n > 0 {
      RunFollows(trace, steps, n - 1);
      RunKeepsInv(trace, steps, n - 1);
      StepFollows(trace[n - 1], steps[n - 1]);
    }
  }

  // ---------- Successes only ----------

  predicate OnlySuccesses(es: seq<Event>) { forall i :: 0 <= i < |es| ==> es[i].Applied? && !es[i].evidence.failing }

  lemma {:induction false} SuccessesOpen(es: seq<Event>)
    requires OnlySuccesses(es)
    ensures Replay(es).state == if es == [] then Unknown else Up
    ensures Openings(es) == if es == [] then [Opening(Unknown, ByCreation)] else [Opening(Unknown, ByCreation), Opening(Up, ByResult)]
  {
    if es != [] {
      var front := es[..|es| - 1];
      assert forall i :: 0 <= i < |front| ==> front[i] == es[i];
      SuccessesOpen(front);
    }
  }
}

/**
 The monitor state machine of shared/monitorstate/state.go: the temporal rule
 (Apply), the spatial rule (AggregateLocations), and the fresh per-location
 counts of shared/monitorstate/freshness.go that feed it.
 */
module MonitorState {
  import opened Common

  datatype State = Unknown | Up | Suspect | Down | Degraded

  datatype Snapshot = Snapshot(state: State, failures: int)

  datatype Transition = Transition(
    from: State, to: State, failures: int,
    changed: bool, openedOutage: bool, closedOutage: bool,
    duplicate: bool, historyOnly: bool)

  const START := Snapshot(Unknown, 0)

  function Clamp(threshold: int): int { Max(threshold, 1) }

  function Apply(current: Snapshot, failing: bool, threshold: int): Transition {
    if !failing then
      Transition(current.state, Up, 0, current.state != Up, false, current.state == Down, false, false)
    else
      var n := current.failures + 1;
      var to := if current.state == Down || n >= Clamp(threshold) then Down else Suspect;
      Transition(current.state, to, n, to != current.state, to == Down && current.state != Down, false, false, false)
  }

  predicate IsFailureStatus(status: string) { status == "failure" || status == "error" }

  // ---------- The temporal rule over whole runs ----------

  /** One result as the machine reads it: its verdict and the threshold in force at that step. */
  datatype Evidence = Evidence(failing: bool, threshold: int)

  function Advance(s: Snapshot, e: Evidence): Snapshot {
    var t := Apply(s, e.failing, e.threshold);
    Snapshot(t.to, t.failures)
  }

  /** Folding the machine over a run of results. */
  function Run(s: Snapshot, es: seq<Evidence>): Snapshot {
    if es == [] then s else Advance(Run(s, es[..|es| - 1]), es[|es| - 1])
  }

  /** Length of the failing run a sequence of results ends with. */
  function TrailingFailures(es: seq<Evidence>): (k: nat)
    ensures k <= |es|
  {
    if es == [] || !es[|es| - 1].failing then 0 else 1 + TrailingFailures(es[..|es| - 1])
  }

  /** The j-th failure of the trailing run already met the threshold read at that very step. */
  predicate ConfirmedAt(es: seq<Evidence>, j: nat)
    requires 1 <= j <= TrailingFailures(es)
  {
    j >= es[|es| - TrailingFailures(es) + j - 1].threshold
  }

  predicate Confirmed(es: seq<Evidence>) {
    exists j: nat :: 1 <= j <= TrailingFailures(es) && ConfirmedAt(es, j)
  }

  /**
   A run from `unknown` is down exactly when some prefix of its trailing failure run reached the
   threshold in force at that step; every other outcome is determined by the last result.
   */
  lemma {:induction false} RunFromStart(es: seq<Evidence>)
    ensures Run(START, es).failures == TrailingFailures(es)
    ensures Run(START, es).state == Down <==> Confirmed(es)
    ensures Run(START, es).state == Up <==> es != [] && !es[|es| - 1].failing
    ensures Run(START, es).state == Unknown <==> es == []
    ensures Run(START, es).state != Degraded
  {
    if es != [] {
      var n := |es|;
      var before := es[..n - 1];
      RunFromStart(before);
      if es[n - 1].failing {
        var k := TrailingFailures(before);
        assert TrailingFailures(es) == k + 1;
        forall j: nat | 1 <= j <= k ensures ConfirmedAt(es, j) == ConfirmedAt(before, j) {
          assert es[n - (k + 1) + j - 1] == before[n - 1 - k + j - 1];
        }
        assert ConfirmedAt(es, k + 1) <==> k + 1 >= es[n - 1].threshold;
      }
    }
  }

  // ---------- What is reported about an outage ----------

  /** An outage is opened by the step into down and closed by the step out of it. */
  lemma TransitionMeans(s: Snapshot, failing: bool, threshold: int)
    ensures var t := Apply(s, failing, threshold);
            && t.from == s.state && !t.duplicate && !t.historyOnly
            && (t.changed <==> t.from != t.to)
            && (t.openedOutage <==> t.from != Down && t.to == Down)
            && (t.closedOutage <==> t.from == Down && t.to != Down)
  {
  }

  /** How often a run of results reports an outage opened, and closed. */
  function Opened(s: Snapshot, es: seq<Evidence>): nat {
    if es == [] then 0
    else
      var e := es[|es| - 1];
      Opened(s, es[..|es| - 1])
      + (if Apply(Run(s, es[..|es| - 1]), e.failing, e.threshold).openedOutage then 1 else 0)
  }

  function Closed(s: Snapshot, es: seq<Evidence>): nat {
    if es == [] then 0
    else
      var e := es[|es| - 1];
      Closed(s, es[..|es| - 1])
      + (if Apply(Run(s, es[..|es| - 1]), e.failing, e.threshold).closedOutage then 1 else 0)
  }

  /** Over any run the reports balance: one more opened than closed exactly while the monitor is down. */
  lemma {:induction false} OutagesBalance(es: seq<Evidence>)
    ensures Opened(START, es) == Closed(START, es) + (if Run(START, es).state == Down then 1 else 0)
  {
    if es != [] {
      var front, e := es[..|es| - 1], es[|es| - 1];
      OutagesBalance(front);
      TransitionMeans(Run(START, front), e.failing, e.threshold);
    }
  }

  // ---------- The spatial rule ----------

  datatype LocationCounts = LocationCounts(down: nat, suspect: nat, up: nat, selected: nat)

  function EffectiveQuorum(selected: nat, quorum: int): int {
    var q := Max(quorum, 1);
    if q > selected && selected > 0 then selected else q
  }

  function AggregateLocations(c: LocationCounts, quorum: int): State {
    if c.down >= EffectiveQuorum(c.selected, quorum) then Down
    else if c.down > 0 then Degraded
    else if c.suspect > 0 then Suspect
    else if c.up > 0 then Up
    else Unknown
  }

  function Severity(s: State): nat {
    match s
    case Unknown => 0
    case Up => 1
    case Suspect => 2
    case Degraded => 3
    case Down => 4
  }

  type LocationId = int

  /** The state a location votes with; one that has no (fresh) evidence votes for nothing. */
  function Vote(states: map<LocationId, State>, l: LocationId): State {
    if l in states then states[l] else Unknown
  }

  function Voting(states: map<LocationId, State>, selected: set<LocationId>, s: State): set<LocationId> {
    set l | l in selected && Vote(states, l) == s
  }

  function CountLocations(states: map<LocationId, State>, selected: set<LocationId>): LocationCounts {
    LocationCounts(|Voting(states, selected, Down)|, |Voting(states, selected, Suspect)|,
                   |Voting(states, selected, Up)|, |selected|)
  }

  function Aggregate(states: map<LocationId, State>, selected: set<LocationId>, quorum: int): State {
    AggregateLocations(CountLocations(states, selected), quorum)
  }

  /** Per-location machines never leave these states (S-A8). */
  predicate LocationStates(states: map<LocationId, State>) {
    forall l :: l in states ==> states[l] != Degraded
  }

  lemma NonEmpty<T>(x: T, s: set<T>)
    requires x in s
    ensures |s| > 0
  {
  }

  /** Worsening any per-location states never improves the aggregate. */
  lemma SeverityMonotone(a: map<LocationId, State>, b: map<LocationId, State>, selected: set<LocationId>, quorum: int)
    requires LocationStates(a) && LocationStates(b)
    requires forall l :: l in selected ==> Severity(Vote(a, l)) <= Severity(Vote(b, l))
    ensures Severity(Aggregate(a, selected, quorum)) <= Severity(Aggregate(b, selected, quorum))
  {
    SubsetSize(Voting(a, selected, Down), Voting(b, selected, Down));
    if l :| l in Voting(a, selected, Suspect) {
      assert l in Voting(b, selected, Suspect) || l in Voting(b, selected, Down);
      if l in Voting(b, selected, Suspect) { NonEmpty(l, Voting(b, selected, Suspect)); }
      else { NonEmpty(l, Voting(b, selected, Down)); }
    }
    if l :| l in Voting(a, selected, Up) {
      assert Severity(Vote(b, l)) >= 1;
      if l in Voting(b, selected, Up) { NonEmpty(l, Voting(b, selected, Up)); }
      else if l in Voting(b, selected, Suspect) { NonEmpty(l, Voting(b, selected, Suspect)); }
      else { NonEmpty(l, Voting(b, selected, Down)); }
    }
  }

  /** Asking for a larger quorum never worsens the aggregate. */
  lemma QuorumAntitone(c: LocationCounts, low: int, high: int)
    requires low <= high
    ensures Severity(AggregateLocations(c, high)) <= Severity(AggregateLocations(c, low))
  {
    assert EffectiveQuorum(c.selected, low) <= EffectiveQuorum(c.selected, high);
  }

  /** That many of the selected locations, all down. */
  predicate Quorate(states: map<LocationId, State>, selected: set<LocationId>, d: set<LocationId>, n: int) {
    d <= selected && |d| == n && forall l :: l in d ==> l in states && states[l] == Down
  }

  lemma {:induction false} PickSome<T(!new)>(s: set<T>, n: nat) returns (d: set<T>)
    requires n <= |s|
    ensures d <= s && |d| == n
  {
    if n == 0 {
      d := {};
    } else {
      var x :| x in s;
      d := PickSome(s - {x}, n - 1);
      d := d + {x};
    }
  }

  /**
   What each verdict means, by locations: down when as many as the quorum are down, at least one and at most
   all of them; degraded when some are, but fewer; otherwise the worst of what the locations report.
   */
  lemma VerdictsMean(states: map<LocationId, State>, selected: set<LocationId>, quorum: int)
    requires selected != {}
    ensures var verdict := Aggregate(states, selected, quorum);
            var met := exists d :: Quorate(states, selected, d, Min(Max(quorum, 1), |selected|));
            var someDown := exists l :: l in selected && l in states && states[l] == Down;
            var someSuspect := exists l :: l in selected && l in states && states[l] == Suspect;
            var someUp := exists l :: l in selected && l in states && states[l] == Up;
            && (verdict == Down <==> met)
            && (verdict == Degraded <==> someDown && !met)
            && (verdict == Suspect <==> !someDown && someSuspect)
            && (verdict == Up <==> !someDown && !someSuspect && someUp)
            && (verdict == Unknown <==> !someDown && !someSuspect && !someUp)
  {
    var down := Voting(states, selected, Down);
    var n := Min(Max(quorum, 1), |selected|);
    var one := Pick(selected);
    NonEmpty(one, selected);
    if |down| >= n {
      var d := PickSome(down, n);
      assert Quorate(states, selected, d, n);
    }
    if d :| Quorate(states, selected, d, n) { SubsetSize(d, down); }
    VotingSome(states, selected, Down);
    VotingSome(states, selected, Suspect);
    VotingSome(states, selected, Up);
    if met :| Quorate(states, selected, met, n) { assert met != {}; }
  }

  lemma VotingSome(states: map<LocationId, State>, selected: set<LocationId>, s: State)
    requires s != Unknown
    ensures |Voting(states, selected, s)| > 0 <==> exists l :: l in selected && l in states && states[l] == s
  {
    var voting := Voting(states, selected, s);
    if l :| l in selected && l in states && states[l] == s { NonEmpty(l, voting); }
    if |voting| > 0 {
      var l :| l in voting;
      assert l in selected && l in states && states[l] == s;
    }
  }

  // ---------- Freshness ----------

  type Time = int
  const SECOND: Time := 1_000_000
  const STALE_MULTIPLIER := 3
  const MIN_FRESHNESS_SECONDS := 90

  function FreshnessHorizonSeconds(intervalSeconds: int): int {
    Max(intervalSeconds * STALE_MULTIPLIER, MIN_FRESHNESS_SECONDS)
  }

  datatype LocationState = LocationState(state: State, failures: int, watermark: Option<Time>, lastCheckAt: Time)

  predicate Fresh(l: LocationState, now: Time, intervalSeconds: int) {
    l.lastCheckAt >= now - FreshnessHorizonSeconds(intervalSeconds) * SECOND
  }

  function FreshStates(rows: map<LocationId, LocationState>, now: Time, intervalSeconds: int): map<LocationId, State> {
    map l | l in rows && Fresh(rows[l], now, intervalSeconds) :: rows[l].state
  }

  /** The largest failure count among the fresh selected locations, 0 when there is none. */
  function MaxFailures(rows: map<LocationId, LocationState>, selected: set<LocationId>): int
    decreases |selected|
  {
    if selected == {} then 0
    else
      var l := Least(selected);
      var rest := MaxFailures(rows, selected - {l});
      if l in rows then Max(rows[l].failures, rest) else rest
  }

  lemma {:induction false} HasLeast(s: set<int>)
    requires s != {}
    ensures exists x :: x in s && forall y :: y in s ==> x <= y
    decreases |s|
  {
    var x := Pick(s);
    var rest := s - {x};
    assert s == rest + {x};
    if rest != {} {
      HasLeast(rest);
      var m :| m in rest && forall y :: y in rest ==> m <= y;
      var least := if x < m then x else m;
      assert forall y :: y in s ==> least <= y;
    }
  }

  function Least(s: set<int>): (x: int)
    requires s != {}
    ensures x in s && forall y :: y in s ==> x <= y
  {
    HasLeast(s);
    var x :| x in s && forall y :: y in s ==> x <= y;
    x
  }

  /** Letting time pass with no new evidence never raises the aggregate's severity. */
  lemma StaleNeverRaises(rows: map<LocationId, LocationState>, selected: set<LocationId>, quorum: int,
                         intervalSeconds: int, earlier: Time, later: Time)
    requires earlier <= later
    requires forall l :: l in rows ==> rows[l].state != Degraded
    ensures Severity(Aggregate(FreshStates(rows, later, intervalSeconds), selected, quorum))
         <= Severity(Aggregate(FreshStates(rows, earlier, intervalSeconds), selected, quorum))
  {
    SeverityMonotone(FreshStates(rows, later, intervalSeconds), FreshStates(rows, earlier, intervalSeconds), selected, quorum);
  }

  /** One selected location: the aggregate is that location's own vote, whatever the quorum. */
  lemma SingleLocation(states: map<LocationId, State>, l: LocationId, quorum: int)
    requires LocationStates(states)
    ensures Aggregate(states, {l}, quorum) == Vote(states, l)
  {
    forall s ensures |Voting(states, {l}, s)| == if Vote(states, l) == s then 1 else 0 {
      assert Voting(states, {l}, s) == if Vote(states, l) == s then {l} else {};
    }
  }
}

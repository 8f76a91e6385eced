/** Operator labels on a stored analysis: ResolveIncidentAnswers of shared/ai/labels.go. */
module Labels {
  import opened Common
  import opened Decisions
  import opened BestChoice
  import opened EvidenceRules
  import opened Analyzer

  datatype LabelSource = Operator | ConfirmedModel | Propagated

  datatype LabelAnswer = LabelAnswer(cause: string, source: LabelSource)

  datatype LabelError = NotLabelable | InvalidLabel | UndecodableEvidence

  /** A stored decision; evidence that does not decode is None. */
  datatype SnapshotDecision = SnapshotDecision(
    id: string, task: string, choices: set<string>, evidence: Option<Evidence>, final: string)

  datatype Snapshot = Snapshot(decisions: seq<SnapshotDecision>, hypothesis: string)

  datatype Verdict = Confirmed | Corrected | OtherVerdict

  predicate Labelable(d: SnapshotDecision) { d.task == TASK && d.id != "" && d.final != "" }

  /** The incident label a verdict stands for, or the error it is rejected with. */
  function IncidentLabel(snap: Snapshot, verdict: Verdict, cause: string): Outcome<string, LabelError> {
    match verdict
    case Confirmed =>
      if snap.hypothesis == "" then Err(NotLabelable)
      else if cause != "" && cause != snap.hypothesis then Err(InvalidLabel)
      else Ok(snap.hypothesis)
    case Corrected =>
      if cause == "" || (exists i :: 0 <= i < |snap.decisions| && cause !in snap.decisions[i].choices) then Err(InvalidLabel)
      else Ok(cause)
    case OtherVerdict => Err(InvalidLabel)
  }

  /** A confirmation stands for the analysis's own cause and for no other; a correction for a cause that every decision could have named. */
  lemma IncidentLabelMeans(snap: Snapshot, verdict: Verdict, cause: string)
    ensures var r := IncidentLabel(snap, verdict, cause);
            && (verdict == Confirmed ==>
                  && (r == Ok(snap.hypothesis) <==> snap.hypothesis != "" && cause in {"", snap.hypothesis})
                  && (r == Err(NotLabelable) <==> snap.hypothesis == "")
                  && (r == Err(InvalidLabel) <==> snap.hypothesis != "" && cause !in {"", snap.hypothesis}))
            && (verdict == Corrected ==>
                  && (r == Ok(cause) <==> cause != "" && forall d :: d in snap.decisions ==> cause in d.choices)
                  && (r.Ok? || r == Err(InvalidLabel)))
            && (verdict == OtherVerdict ==> r == Err(InvalidLabel))
  {
    if forall d :: d in snap.decisions ==> cause in d.choices {
      forall i | 0 <= i < |snap.decisions| ensures cause in snap.decisions[i].choices { assert snap.decisions[i] in snap.decisions; }
    }
  }

  /** The answer one decision gets. */
  function AnswerFor(d: SnapshotDecision, verdict: Verdict, cause: string, overrides: map<string, string>): Outcome<LabelAnswer, LabelError> {
    if d.id in overrides then Ok(LabelAnswer(overrides[d.id], Operator))
    else if verdict == Confirmed then Ok(LabelAnswer(d.final, ConfirmedModel))
    else if d.evidence.None? then Err(UndecodableEvidence)
    else Ok(LabelAnswer(if Supports(d.evidence.value, cause) then cause else INSUFFICIENT, Propagated))
  }

  predicate Usable(snap: Snapshot) {
    snap.decisions != [] && forall i :: 0 <= i < |snap.decisions| ==> Labelable(snap.decisions[i])
  }

  predicate LastWithId(ds: seq<SnapshotDecision>, id: string, i: nat)
    requires i < |ds|
  {
    ds[i].id == id && forall j :: i < j < |ds| ==> ds[j].id != id
  }

  predicate IsOverride(ds: seq<SnapshotDecision>, id: string, key: string) {
    exists i :: 0 <= i < |ds| && LastWithId(ds, id, i) && key in ds[i].choices
  }

  predicate OverridesOk(ds: seq<SnapshotDecision>, overrides: map<string, string>) {
    forall id :: id in overrides ==> IsOverride(ds, id, overrides[id])
  }

  predicate AllAnswerable(ds: seq<SnapshotDecision>, verdict: Verdict, cause: string, overrides: map<string, string>) {
    forall i :: 0 <= i < |ds| ==> AnswerFor(ds[i], verdict, cause, overrides).Ok?
  }

  /** Each id carries the answer of the last decision stored under it. */
  ghost predicate AnswersOf(answers: map<string, LabelAnswer>, ds: seq<SnapshotDecision>,
                            verdict: Verdict, cause: string, overrides: map<string, string>) {
    && (forall id :: id in answers <==> exists i :: 0 <= i < |ds| && ds[i].id == id)
    && (forall i :: 0 <= i < |ds| && LastWithId(ds, ds[i].id, i) ==>
          ds[i].id in answers && AnswerFor(ds[i], verdict, cause, overrides) == Ok(answers[ds[i].id]))
  }

  /** The map from id to the last decision stored under it. */
  ghost predicate Indexes(byId: map<string, SnapshotDecision>, ds: seq<SnapshotDecision>) {
    && (forall id :: id in byId <==> Mentions(ds, id))
    && (forall i :: 0 <= i < |ds| && LastWithId(ds, ds[i].id, i) ==> ds[i].id in byId && byId[ds[i].id] == ds[i])
  }

  predicate Mentions(ds: seq<SnapshotDecision>, id: string) { exists i :: 0 <= i < |ds| && ds[i].id == id }

  lemma IndexNext(byId: map<string, SnapshotDecision>, ds: seq<SnapshotDecision>, d: SnapshotDecision, now: seq<SnapshotDecision>)
    requires Indexes(byId, ds) && now == ds + [d]
    ensures Indexes(byId[d.id := d], now)
  {
    var next := byId[d.id := d];
    forall id ensures id in next <==> Mentions(now, id) {
      if id in byId {
        assert Mentions(ds, id);
        var i :| 0 <= i < |ds| && ds[i].id == id;
        assert now[i].id == id;
      }
      if id == d.id { assert now[|ds|].id == id; }
      if i :| 0 <= i < |now| && now[i].id == id && i < |ds| { assert ds[i].id == id; }
    }
    forall i | 0 <= i < |now| && LastWithId(now, now[i].id, i) ensures now[i].id in next && next[now[i].id] == now[i] {
      if i < |ds| {
        assert now[|ds|].id != now[i].id;
        assert forall j :: i < j < |ds| ==> ds[j] == now[j];
        assert LastWithId(ds, ds[i].id, i);
      }
    }
  }

  function IndexOf(ds: seq<SnapshotDecision>): map<string, SnapshotDecision> {
    if ds == [] then map[] else IndexOf(ds[..|ds| - 1])[ds[|ds| - 1].id := ds[|ds| - 1]]
  }

  lemma {:induction false} IndexOfOk(ds: seq<SnapshotDecision>)
    ensures Indexes(IndexOf(ds), ds)
  {
    if ds != [] {
      var front, last := ds[..|ds| - 1], ds[|ds| - 1];
      IndexOfOk(front);
      IndexNext(IndexOf(front), front, last, ds);
    } else {
      IndexEmpty();
    }
  }

  lemma IndexEmpty()
    ensures Indexes(map[], [])
  {
  }

  method ById(ds: seq<SnapshotDecision>) returns (byId: map<string, SnapshotDecision>)
    ensures Indexes(byId, ds)
  {
    byId := map[];
    var n := 0;
    while n < |ds|
      invariant n <= |ds| && byId == IndexOf(ds[..n])
    {
      assert ds[..n + 1][..n] == ds[..n];
      byId := byId[ds[n].id := ds[n]];
      n := n + 1;
    }
    assert ds[..n] == ds;
    IndexOfOk(ds);
  }

  lemma {:induction false} LastExists(ds: seq<SnapshotDecision>, id: string, i: nat, n: nat) returns (k: nat)
    requires i < n <= |ds| && ds[i].id == id && forall j :: n <= j < |ds| ==> ds[j].id != id
    ensures k < |ds| && LastWithId(ds, id, k)
    decreases n
  {
    if ds[n - 1].id == id { k := n - 1; } else { k := LastExists(ds, id, i, n - 1); }
  }

  lemma OverrideChecked(ds: seq<SnapshotDecision>, byId: map<string, SnapshotDecision>, id: string, key: string)
    requires Indexes(byId, ds)
    ensures IsOverride(ds, id, key) <==> id in byId && key in byId[id].choices
  {
    if id in byId {
      assert Mentions(ds, id);
      var i :| 0 <= i < |ds| && ds[i].id == id;
      var k := LastExists(ds, id, i, |ds|);
      assert byId[ds[k].id] == ds[k];
      if key in byId[id].choices { assert LastWithId(ds, id, k) && key in ds[k].choices; }
    }
    if IsOverride(ds, id, key) {
      var k :| 0 <= k < |ds| && LastWithId(ds, id, k) && key in ds[k].choices;
      assert ds[k].id in byId;
    }
  }

  method CheckOverrides(ds: seq<SnapshotDecision>, overrides: map<string, string>) returns (ok: bool)
    ensures ok <==> OverridesOk(ds, overrides)
  {
    var byId := ById(ds);
    var left := overrides.Keys;
    while left != {}
      invariant left <= overrides.Keys
      invariant forall id :: id in overrides && id !in left ==> IsOverride(ds, id, overrides[id])
      decreases |left|
    {
      var id :| id in left;
      OverrideChecked(ds, byId, id, overrides[id]);
      if id !in byId || overrides[id] !in byId[id].choices { return false; }
      left := left - {id};
    }
    return true;
  }

  method CollectAnswers(ds: seq<SnapshotDecision>, verdict: Verdict, cause: string, overrides: map<string, string>)
    returns (r: Outcome<map<string, LabelAnswer>, LabelError>)
    ensures r.Ok? <==> AllAnswerable(ds, verdict, cause, overrides)
    ensures r.Ok? ==> AnswersOf(r.value, ds, verdict, cause, overrides)
    ensures r.Err? ==> r.error == UndecodableEvidence
  {
    var answers: map<string, LabelAnswer> := map[];
    var n := 0;
    while n < |ds|
      invariant n <= |ds| && AllAnswerable(ds[..n], verdict, cause, overrides)
      invariant AnswersOf(answers, ds[..n], verdict, cause, overrides)
    {
      var d := ds[n];
      var a := LabelAnswer("", Operator);
      if d.id in overrides {
        a := LabelAnswer(overrides[d.id], Operator);
      } else if verdict == Confirmed {
        a := LabelAnswer(d.final, ConfirmedModel);
      } else if d.evidence.None? {
        return Err(UndecodableEvidence);
      } else {
        a := LabelAnswer(if Supports(d.evidence.value, cause) then cause else INSUFFICIENT, Propagated);
      }
      CollectNext(answers, ds, n, a, verdict, cause, overrides);
      answers := answers[d.id := a];
      n := n + 1;
    }
    assert ds[..n] == ds;
    return Ok(answers);
  }

  lemma CollectNext(answers: map<string, LabelAnswer>, ds: seq<SnapshotDecision>, n: nat, a: LabelAnswer,
                    verdict: Verdict, cause: string, overrides: map<string, string>)
    requires n < |ds| && AllAnswerable(ds[..n], verdict, cause, overrides) && AnswersOf(answers, ds[..n], verdict, cause, overrides)
    requires AnswerFor(ds[n], verdict, cause, overrides) == Ok(a)
    ensures AllAnswerable(ds[..n + 1], verdict, cause, overrides)
    ensures AnswersOf(answers[ds[n].id := a], ds[..n + 1], verdict, cause, overrides)
  {
    var next, now, was := answers[ds[n].id := a], ds[..n + 1], ds[..n];
    assert now == was + [ds[n]];
    forall id ensures id in next <==> exists i :: 0 <= i < |now| && now[i].id == id {
      if id in answers {
        var i :| 0 <= i < |was| && was[i].id == id;
        assert now[i].id == id;
      }
      if id == ds[n].id { assert now[n].id == id; }
      if i :| 0 <= i < |now| && now[i].id == id && i < n { assert was[i].id == id; }
    }
    forall i | 0 <= i < |now| && LastWithId(now, now[i].id, i)
      ensures now[i].id in next && AnswerFor(now[i], verdict, cause, overrides) == Ok(next[now[i].id])
    {
      if i < n {
        assert now[n].id != now[i].id;
        assert forall j :: i < j < |was| ==> was[j] == now[j];
        assert LastWithId(was, was[i].id, i);
      }
    }
  }

  /** An operator verdict as one answer per stored decision; the first failing check decides the error. */
  method ResolveIncidentAnswers(snap: Snapshot, verdict: Verdict, cause: string, overrides: map<string, string>)
    returns (r: Outcome<(map<string, LabelAnswer>, string), LabelError>)
    ensures r.Ok? <==>
            && Usable(snap) && IncidentLabel(snap, verdict, cause).Ok? && OverridesOk(snap.decisions, overrides)
            && AllAnswerable(snap.decisions, verdict, cause, overrides)
    ensures r.Ok? ==>
              && Ok(r.value.1) == IncidentLabel(snap, verdict, cause)
              && AnswersOf(r.value.0, snap.decisions, verdict, cause, overrides)
    ensures r.Err? && r.error == NotLabelable <==> !Usable(snap) || (verdict == Confirmed && snap.hypothesis == "")
  {
    if snap.decisions == [] { return Err(NotLabelable); }
    var i := 0;
    while i < |snap.decisions|
      invariant i <= |snap.decisions| && forall j :: 0 <= j < i ==> Labelable(snap.decisions[j])
    {
      if !Labelable(snap.decisions[i]) { return Err(NotLabelable); }
      i := i + 1;
    }
    var incident := IncidentLabel(snap, verdict, cause);
    if incident.Err? { return Err(incident.error); }
    var known := CheckOverrides(snap.decisions, overrides);
    if !known { return Err(InvalidLabel); }
    var answers := CollectAnswers(snap.decisions, verdict, cause, overrides);
    if answers.Err? { return Err(answers.error); }
    return Ok((answers.value, incident.value));
  }

  // ---------- Labels teach only what the evidence supports ----------

  /** The stored form of a recorded decision. */
  function Stored(r: Recorded): SnapshotDecision {
    SnapshotDecision(r.decision.id, r.decision.task, r.decision.choices, Some(r.evidence), r.final)
  }

  function StoredAll(rs: seq<Recorded>): seq<SnapshotDecision> { seq(|rs|, i requires 0 <= i < |rs| => Stored(rs[i])) }

  /** Confirmed and propagated answers stay within the evidence of the decision they answer. */
  lemma DerivedLabelIsSupported(ms: seq<MonitorContext>, ds: seq<Decision>, threshold: real, tops: seq<Top>, rs: seq<Recorded>, i: nat,
                                verdict: Verdict, cause: string, overrides: map<string, string>)
    requires AllRecorded(rs, ms, ds, threshold, tops) && i < |rs|
    ensures var a := AnswerFor(Stored(rs[i]), verdict, cause, overrides);
            a.Ok? && (a.value.source != Operator ==> Supports(rs[i].evidence, a.value.cause))
  {
    assert IsRecorded(rs[i], ms[i], ds[i], threshold, tops[i]);
    FinalIsSupported(rs[i], ms[i], ds[i], threshold, tops[i]);
    AbstentionIsSupported(rs[i].evidence);
  }

  predicate DistinctStored(ds: seq<SnapshotDecision>) { forall i, j :: 0 <= i < j < |ds| ==> ds[i].id != ds[j].id }

  /**
   The answer stored under a decision's id is that of the last decision j with the id. It stays within the
   evidence of decision i exactly when: for a confirmation, i's evidence supports j's verdict; for a
   correction, i's evidence supports the new cause if j's does.
   */
  predicate Covered(rs: seq<Recorded>, i: nat, j: nat, verdict: Verdict, cause: string)
    requires i < |rs| && j < |rs|
  {
    if verdict == Confirmed then Supports(rs[i].evidence, rs[j].final)
    else Supports(rs[j].evidence, cause) ==> Supports(rs[i].evidence, cause)
  }

  /** From analysis to labels: whose answer every un-overridden decision gets, and exactly when its own evidence supports it. */
  lemma LabelsAreSupported(ms: seq<MonitorContext>, ds: seq<Decision>, threshold: real, tops: seq<Top>, rs: seq<Recorded>, i: nat, j: nat,
                           answers: map<string, LabelAnswer>, verdict: Verdict, cause: string, overrides: map<string, string>)
    requires AllRecorded(rs, ms, ds, threshold, tops) && i < |rs| && j < |rs|
    requires LastWithId(StoredAll(rs), rs[i].decision.id, j) && rs[i].decision.id !in overrides
    requires AnswersOf(answers, StoredAll(rs), verdict, cause, overrides)
    ensures rs[i].decision.id in answers && answers[rs[i].decision.id].source != Operator
    ensures Supports(rs[i].evidence, answers[rs[i].decision.id].cause) <==> Covered(rs, i, j, verdict, cause)
    ensures i == j ==> Covered(rs, i, j, verdict, cause)
  {
    DerivedLabelIsSupported(ms, ds, threshold, tops, rs, j, verdict, cause, overrides);
    var stored := StoredAll(rs);
    assert stored[j] == Stored(rs[j]) && LastWithId(stored, stored[j].id, j);
    AbstentionIsSupported(rs[i].evidence);
  }

  /** With distinct ids every decision answers for itself, so every label but the operator's own is supported. */
  lemma DistinctLabelsAreSupported(ms: seq<MonitorContext>, ds: seq<Decision>, threshold: real, tops: seq<Top>, rs: seq<Recorded>, i: nat,
                                   answers: map<string, LabelAnswer>, verdict: Verdict, cause: string, overrides: map<string, string>)
    requires AllRecorded(rs, ms, ds, threshold, tops) && i < |rs| && DistinctStored(StoredAll(rs))
    requires AnswersOf(answers, StoredAll(rs), verdict, cause, overrides)
    ensures rs[i].decision.id in answers
    ensures var a := answers[rs[i].decision.id];
            if rs[i].decision.id in overrides then a == LabelAnswer(overrides[rs[i].decision.id], Operator)
            else a.source != Operator && Supports(rs[i].evidence, a.cause)
  {
    var stored := StoredAll(rs);
    assert stored[i] == Stored(rs[i]) && LastWithId(stored, stored[i].id, i);
    if rs[i].decision.id !in overrides {
      LabelsAreSupported(ms, ds, threshold, tops, rs, i, i, answers, verdict, cause, overrides);
    }
  }

  /** One call's decisions have distinct ids, because a valid reply says so: up to fifty monitors nothing more is needed. */
  lemma OneCallHasDistinctIds(ds: seq<Decision>, replies: seq<Option<Reply>>, rs: seq<Recorded>)
    requires ChunksOk(ds, replies) && 0 < |ds| <= BATCH && |rs| == |ds| && forall i :: 0 <= i < |rs| ==> rs[i].decision == ds[i]
    ensures DistinctStored(StoredAll(rs))
  {
    assert ChunkOk(ds, replies, 0);
    assert Chunk(ds, 0) == ds;
  }
}

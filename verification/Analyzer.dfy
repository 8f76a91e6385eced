/** Incident analysis: Analyze of shared/ai/analyzer.go. */
module Analyzer {
  import opened Common
  import opened Decisions
  import opened BestChoice
  import opened EvidenceRules

  datatype MonitorContext = MonitorContext(ref: string, affected: bool, summary: Evidence, recent: seq<Check>)

  /** What the service returns for one call. */
  datatype Reply = Reply(model: Model, thresholds: map<string, real>, results: seq<DecisionResult>)

  datatype Recorded = Recorded(ref: string, decision: Decision, evidence: Evidence,
                               probabilities: map<string, real>, predicted: string, final: string)

  datatype Analysis = Analysis(recorded: seq<Recorded>, hypothesis: string, score: real)

  const TASK := "rca"

  // ---------- The monitors that are asked about ----------

  predicate UsesRecent(m: MonitorContext) { m.summary.checks == 0 && m.recent != [] }

  ghost predicate IsSummary(e: Evidence, m: MonitorContext) {
    if UsesRecent(m) then Summarizes(e, m.recent) else e == m.summary
  }

  function Affected(ms: seq<MonitorContext>): seq<MonitorContext> {
    if ms == [] then []
    else
      var rest, m := Affected(ms[..|ms| - 1]), ms[|ms| - 1];
      if m.affected then rest + [m] else rest
  }

  ghost predicate AllSummaries(es: seq<Evidence>, ms: seq<MonitorContext>) {
    |es| == |ms| && forall i :: 0 <= i < |ms| ==> IsSummary(es[i], ms[i])
  }

  method Gather(ms: seq<MonitorContext>) returns (affected: seq<MonitorContext>, evidence: seq<Evidence>)
    ensures affected == Affected(ms) && AllSummaries(evidence, affected)
  {
    affected, evidence := [], [];
    var i := 0;
    while i < |ms|
      invariant i <= |ms| && affected == Affected(ms[..i]) && AllSummaries(evidence, affected)
    {
      assert ms[..i + 1][..i] == ms[..i];
      if ms[i].affected {
        var e := ms[i].summary;
        if e.checks == 0 && ms[i].recent != [] { e := SummarizeChecks(ms[i].recent); }
        affected, evidence := affected + [ms[i]], evidence + [e];
      }
      i := i + 1;
    }
    assert ms[..i] == ms;
  }

  // ---------- Chunks of fifty ----------

  /** A result answers its decision, whatever the calibration. */
  ghost predicate Fits(r: DecisionResult, d: Decision) {
    r.id == d.id && r.probabilities.Keys == d.choices && InRange(r.probabilities) && SumsToOne(r.probabilities)
  }

  ghost predicate AllFit(rs: seq<DecisionResult>, ds: seq<Decision>) {
    |rs| == |ds| && forall i :: 0 <= i < |rs| ==> Fits(rs[i], ds[i])
  }

  predicate OneTask(ds: seq<Decision>) { forall i :: 0 <= i < |ds| ==> ds[i].task == TASK }

  method DecideChunk(ds: seq<Decision>, reply: Reply) returns (ok: bool, results: seq<DecisionResult>)
    requires ds != [] && OneTask(ds)
    ensures ok ==> AllFit(results, ds) && ThresholdOk(reply.thresholds, TASK)
    ensures ok ==> forall r :: r in results ==> r in reply.results
    ensures ok <==> |ds| <= BATCH && IdentityOk(reply.model) && ValidReply(ds, reply.thresholds, reply.results)
  {
    var a := new DecisionResult[|reply.results|](i requires 0 <= i < |reply.results| => reply.results[i]);
    assert a[..] == reply.results;
    ok := Decide(ds, reply.model, reply.thresholds, a);
    results := a[..];
    if ok { assert Answers(results[0], ds[0], reply.thresholds); }
  }

  lemma FitAppend(xs: seq<DecisionResult>, ys: seq<DecisionResult>, ds: seq<Decision>, start: nat, end: nat)
    requires start <= end <= |ds| && AllFit(xs, ds[..start]) && AllFit(ys, ds[start..end])
    ensures AllFit(xs + ys, ds[..end])
  {
    forall i | 0 <= i < |xs + ys| ensures Fits((xs + ys)[i], ds[..end][i]) {
      if i >= |xs| { assert Fits(ys[i - |xs|], ds[start..end][i - |xs|]); } else { assert Fits(xs[i], ds[..start][i]); }
    }
  }

  /** The decisions of one call. */
  function Chunk(ds: seq<Decision>, c: nat): seq<Decision>
    requires c * BATCH <= |ds|
  {
    ds[c * BATCH..Min(c * BATCH + BATCH, |ds|)]
  }

  /** A call's reply is valid for its chunk and comes from the model and threshold of the first. */
  ghost predicate ChunkOk(ds: seq<Decision>, replies: seq<Option<Reply>>, c: nat)
    requires c * BATCH <= |ds|
  {
    && c < |replies| && replies[c].Some?
    && IdentityOk(replies[c].value.model) && ValidReply(Chunk(ds, c), replies[c].value.thresholds, replies[c].value.results)
    && ThresholdOk(replies[c].value.thresholds, TASK)
    && replies[0].Some? && replies[c].value.model == replies[0].value.model
    && TASK in replies[0].value.thresholds && replies[c].value.thresholds[TASK] == replies[0].value.thresholds[TASK]
  }

  ghost predicate ChunksOk(ds: seq<Decision>, replies: seq<Option<Reply>>) {
    forall c: nat :: c * BATCH < |ds| ==> ChunkOk(ds, replies, c)
  }

  /** The i-th result came back in the reply to the i-th decision's own call. */
  predicate FromReplies(rs: seq<DecisionResult>, replies: seq<Option<Reply>>) {
    forall i :: 0 <= i < |rs| ==> i / BATCH < |replies| && replies[i / BATCH].Some? && rs[i] in replies[i / BATCH].value.results
  }

  lemma FromAppend(xs: seq<DecisionResult>, ys: seq<DecisionResult>, replies: seq<Option<Reply>>, c: nat)
    requires FromReplies(xs, replies) && |xs| == c * BATCH && |ys| <= BATCH
    requires c < |replies| && replies[c].Some? && forall r :: r in ys ==> r in replies[c].value.results
    ensures FromReplies(xs + ys, replies)
  {
    forall i | 0 <= i < |xs + ys|
      ensures i / BATCH < |replies| && replies[i / BATCH].Some? && (xs + ys)[i] in replies[i / BATCH].value.results
    {
      if i >= |xs| {
        assert i / BATCH == c;
        assert (xs + ys)[i] == ys[i - |xs|];
      } else {
        assert (xs + ys)[i] == xs[i];
      }
    }
  }

  predicate FirstReply(replies: seq<Option<Reply>>, model: Model, threshold: real) {
    && replies != [] && replies[0].Some? && replies[0].value.model == model
    && TASK in replies[0].value.thresholds && replies[0].value.thresholds[TASK] == threshold
  }

  /** Succeeds exactly when every chunk was answered validly by one model with one threshold. */
  method DecideAll(ds: seq<Decision>, replies: seq<Option<Reply>>)
    returns (r: Outcome<(seq<DecisionResult>, real), string>)
    requires OneTask(ds) && ds != []
    ensures r.Ok? <==> ChunksOk(ds, replies)
    ensures r.Ok? ==> AllFit(r.value.0, ds) && FromReplies(r.value.0, replies)
    ensures r.Ok? ==> r.value.1 == ThresholdFrom(replies) > 0.0
  {
    var results: seq<DecisionResult> := [];
    var start, call := 0, 0;
    var model, threshold := Model("", "", "", ""), 0.0;
    while start < |ds|
      invariant start == Min(call * BATCH, |ds|) && AllFit(results, ds[..start]) && FromReplies(results, replies)
      invariant forall c: nat :: c < call ==> c * BATCH < |ds| && ChunkOk(ds, replies, c)
      invariant call > 0 ==> FirstReply(replies, model, threshold)
      decreases |ds| - start
    {
      var end := Min(start + BATCH, |ds|);
      if call >= |replies| || replies[call].None? {
        assert !ChunkOk(ds, replies, call);
        return Err("unavailable");
      }
      var reply := replies[call].value;
      assert ds[start..end] == Chunk(ds, call);
      var ok, chunk := DecideChunk(ds[start..end], reply);
      if !ok {
        assert !ChunkOk(ds, replies, call);
        return Err("invalid reply");
      }
      if start == 0 {
        model, threshold := reply.model, reply.thresholds[TASK];
      } else if model != reply.model || threshold != reply.thresholds[TASK] {
        assert !ChunkOk(ds, replies, call);
        return Err("model changed");
      }
      assert ChunkOk(ds, replies, call);
      FitAppend(results, chunk, ds, start, end);
      FromAppend(results, chunk, replies, call);
      results := results + chunk;
      start, call := end, call + 1;
    }
    assert ds[..start] == ds;
    return Ok((results, threshold));
  }

  // ---------- One verdict per monitor ----------

  function Final(e: Evidence, top: Top, threshold: real): string {
    if top.score < threshold || !Supports(e, top.key) then INSUFFICIENT else top.key
  }

  ghost predicate IsRecorded(r: Recorded, m: MonitorContext, d: Decision, threshold: real, top: Top) {
    && r.ref == m.ref && r.decision == d && IsSummary(r.evidence, m)
    && r.probabilities.Keys == d.choices && InRange(r.probabilities) && SumsToOne(r.probabilities)
    && r.predicted == top.key && r.final == Final(r.evidence, top, threshold)
    && ("" !in d.choices && d.choices != {} ==> IsBest(r.probabilities, top))
  }

  ghost predicate AllRecorded(rs: seq<Recorded>, ms: seq<MonitorContext>, ds: seq<Decision>, threshold: real, tops: seq<Top>) {
    |rs| == |ms| == |ds| == |tops| && forall i :: 0 <= i < |rs| ==> IsRecorded(rs[i], ms[i], ds[i], threshold, tops[i])
  }

  /** The recorded probabilities are those of the results, in order. */
  predicate Records(recorded: seq<Recorded>, rs: seq<DecisionResult>) {
    |recorded| == |rs| && forall i :: 0 <= i < |rs| ==> recorded[i].probabilities == rs[i].probabilities
  }

  method Judge(ms: seq<MonitorContext>, es: seq<Evidence>, ds: seq<Decision>, rs: seq<DecisionResult>, threshold: real)
    returns (recorded: seq<Recorded>, tops: seq<Top>)
    requires AllSummaries(es, ms) && |ds| == |ms| && AllFit(rs, ds)
    ensures AllRecorded(recorded, ms, ds, threshold, tops)
    ensures Records(recorded, rs)
  {
    recorded, tops := [], [];
    var i := 0;
    while i < |rs|
      invariant i <= |rs| && AllRecorded(recorded, ms[..i], ds[..i], threshold, tops)
      invariant Records(recorded, rs[..i])
    {
      assert Fits(rs[i], ds[i]);
      var m := rs[i].probabilities;
      var top := Best(m);
      var verdict := top.key;
      if top.score < threshold || !Supports(es[i], top.key) { verdict := INSUFFICIENT; }
      var r := Recorded(ms[i].ref, ds[i], es[i], m, top.key, verdict);
      assert IsRecorded(r, ms[i], ds[i], threshold, top);
      RecordNext(recorded, r, ms, ds, threshold, tops, top);
      recorded, tops := recorded + [r], tops + [top];
      i := i + 1;
    }
    assert ms[..i] == ms && ds[..i] == ds && rs[..i] == rs;
  }

  lemma RecordNext(rs: seq<Recorded>, r: Recorded, ms: seq<MonitorContext>, ds: seq<Decision>, threshold: real,
                   tops: seq<Top>, top: Top)
    requires |rs| < |ms| && |rs| < |ds| && AllRecorded(rs, ms[..|rs|], ds[..|rs|], threshold, tops)
    requires IsRecorded(r, ms[|rs|], ds[|rs|], threshold, top)
    ensures AllRecorded(rs + [r], ms[..|rs| + 1], ds[..|rs| + 1], threshold, tops + [top])
  {
    forall i | 0 <= i < |rs| + 1
      ensures IsRecorded((rs + [r])[i], ms[..|rs| + 1][i], ds[..|rs| + 1][i], threshold, (tops + [top])[i])
    {
      if i < |rs| { assert IsRecorded(rs[i], ms[..|rs|][i], ds[..|rs|][i], threshold, tops[i]); }
    }
  }

  /** No verdict goes beyond its own evidence. */
  lemma FinalIsSupported(r: Recorded, m: MonitorContext, d: Decision, threshold: real, top: Top)
    requires IsRecorded(r, m, d, threshold, top)
    ensures Supports(r.evidence, r.final)
    ensures r.final != INSUFFICIENT ==> r.final == r.predicted && top.score >= threshold
  {
    AbstentionIsSupported(r.evidence);
  }

  // ---------- The incident's cause ----------

  function Votes(rs: seq<Recorded>, h: string): nat {
    if rs == [] then 0 else Votes(rs[..|rs| - 1], h) + (if rs[|rs| - 1].final == h then 1 else 0)
  }

  lemma {:induction false} VotesPositive(rs: seq<Recorded>, h: string)
    ensures Votes(rs, h) > 0 <==> exists i :: 0 <= i < |rs| && rs[i].final == h
    ensures Votes(rs, h) <= |rs|
  {
    if rs != [] {
      var front := rs[..|rs| - 1];
      VotesPositive(front, h);
      if i :| 0 <= i < |front| && front[i].final == h { assert rs[i].final == h; }
      if i :| 0 <= i < |rs| && rs[i].final == h && i < |front| { assert front[i].final == h; }
    }
  }

  /** The one cause every diagnosed monitor agrees on, with at least half of the monitors behind it. */
  predicate IsCause(rs: seq<Recorded>, h: string) {
    && h != INSUFFICIENT && Votes(rs, h) > 0 && Votes(rs, h) * 2 >= |rs|
    && forall i :: 0 <= i < |rs| ==> rs[i].final == h || rs[i].final == INSUFFICIENT
  }

  ghost predicate Tallied(votes: map<string, nat>, rs: seq<Recorded>) {
    forall h :: Votes(rs, h) == if h in votes then votes[h] else 0
  }

  predicate NoZeros(votes: map<string, nat>) { forall h :: h in votes ==> votes[h] > 0 }

  function ScoreSum(rs: seq<Recorded>, tops: seq<Top>, h: string): real
    requires |tops| == |rs|
  {
    if rs == [] then 0.0
    else
      ScoreSum(rs[..|rs| - 1], tops[..|rs| - 1], h) + (if rs[|rs| - 1].final == h then tops[|rs| - 1].score else 0.0)
  }

  lemma {:induction false} ScoreAtLeast(rs: seq<Recorded>, tops: seq<Top>, h: string, threshold: real)
    requires |tops| == |rs| && h != INSUFFICIENT
    requires forall i :: 0 <= i < |rs| && rs[i].final == h ==> tops[i].score >= threshold
    ensures ScoreSum(rs, tops, h) >= threshold * (Votes(rs, h) as real)
  {
    if rs != [] { ScoreAtLeast(rs[..|rs| - 1], tops[..|rs| - 1], h, threshold); }
  }

  ghost predicate Scored(scores: map<string, real>, rs: seq<Recorded>, tops: seq<Top>)
    requires |tops| == |rs|
  {
    forall h :: ScoreSum(rs, tops, h) == if h in scores then scores[h] else 0.0
  }

  method CountVotes(rs: seq<Recorded>, tops: seq<Top>) returns (votes: map<string, nat>, scores: map<string, real>)
    requires |tops| == |rs|
    ensures Tallied(votes, rs) && NoZeros(votes) && Scored(scores, rs, tops)
  {
    votes, scores := map[], map[];
    var i := 0;
    while i < |rs|
      invariant i <= |rs| && Tallied(votes, rs[..i]) && NoZeros(votes) && Scored(scores, rs[..i], tops[..i])
    {
      assert rs[..i + 1][..i] == rs[..i] && tops[..i + 1][..i] == tops[..i];
      var h := rs[i].final;
      votes := votes[h := (if h in votes then votes[h] else 0) + 1];
      scores := scores[h := (if h in scores then scores[h] else 0.0) + tops[i].score];
      i := i + 1;
    }
    assert rs[..i] == rs && tops[..i] == tops;
  }

  /** A cause is named exactly when it is the sole supported one and covers half the monitors. */
  method NameCause(rs: seq<Recorded>, tops: seq<Top>) returns (h: string, score: real)
    requires |tops| == |rs|
    ensures h != INSUFFICIENT ==> IsCause(rs, h) && score == ScoreSum(rs, tops, h) / (Votes(rs, h) as real)
    ensures h == INSUFFICIENT ==> score == 0.0 && forall x :: !IsCause(rs, x)
  {
    var votes, scores := CountVotes(rs, tops);
    var keys := votes.Keys - {INSUFFICIENT};
    forall x | IsCause(rs, x) ensures keys == {x} && votes[x] * 2 >= |rs| { CauseIsSole(rs, votes, keys, x); }
    if |keys| == 1 {
      var k :| k in keys;
      SoleIsCause(rs, votes, keys, k);
      if votes[k] * 2 >= |rs| { return k, (if k in scores then scores[k] else 0.0) / (votes[k] as real); }
    }
    return INSUFFICIENT, 0.0;
  }

  lemma FinalsAreKeys(rs: seq<Recorded>, votes: map<string, nat>, i: nat)
    requires Tallied(votes, rs) && i < |rs|
    ensures rs[i].final in votes
  {
    VotesPositive(rs, rs[i].final);
  }

  lemma SoleIsCause(rs: seq<Recorded>, votes: map<string, nat>, keys: set<string>, k: string)
    requires Tallied(votes, rs) && NoZeros(votes) && keys == votes.Keys - {INSUFFICIENT} && k in keys && |keys| == 1
    ensures Votes(rs, k) == votes[k] > 0
    ensures IsCause(rs, k) <==> votes[k] * 2 >= |rs|
  {
    SubsetSize({k}, keys);
    forall i | 0 <= i < |rs| ensures rs[i].final == k || rs[i].final == INSUFFICIENT {
      FinalsAreKeys(rs, votes, i);
      assert rs[i].final in keys + {INSUFFICIENT};
    }
  }

  lemma CauseIsSole(rs: seq<Recorded>, votes: map<string, nat>, keys: set<string>, x: string)
    requires Tallied(votes, rs) && NoZeros(votes) && keys == votes.Keys - {INSUFFICIENT} && IsCause(rs, x)
    ensures keys == {x} && votes[x] == Votes(rs, x)
  {
    forall y | y in keys ensures y == x {
      assert Votes(rs, y) > 0;
      VotesPositive(rs, y);
      var i :| 0 <= i < |rs| && rs[i].final == y;
    }
    assert x in keys;
  }

  // ---------- Analyze ----------

  function DecisionsFor(ids: seq<string>, choices: set<string>, n: nat): seq<Decision>
    requires n <= |ids|
  {
    seq(n, i requires 0 <= i < n => Decision(ids[i], TASK, choices))
  }

  /** One recorded decision per affected monitor, in order, and the cause they establish. */
  ghost predicate IsAnalysis(a: Analysis, ms: seq<MonitorContext>, ds: seq<Decision>, threshold: real, tops: seq<Top>) {
    && AllRecorded(a.recorded, ms, ds, threshold, tops)
    && (a.hypothesis != INSUFFICIENT ==>
          IsCause(a.recorded, a.hypothesis) && a.score == ScoreSum(a.recorded, tops, a.hypothesis) / (Votes(a.recorded, a.hypothesis) as real))
    && (a.hypothesis == INSUFFICIENT ==> forall h :: !IsCause(a.recorded, h))
  }

  /** The model's threshold, as the first reply gives it. */
  function ThresholdFrom(replies: seq<Option<Reply>>): real {
    if replies != [] && replies[0].Some? && TASK in replies[0].value.thresholds then replies[0].value.thresholds[TASK] else 0.0
  }

  /** The analysis of the affected monitors: probabilities straight from the replies, verdicts and cause by the rules. */
  ghost predicate Analyzes(a: Analysis, ms: seq<MonitorContext>, ds: seq<Decision>, replies: seq<Option<Reply>>) {
    && (exists tops :: IsAnalysis(a, ms, ds, ThresholdFrom(replies), tops))
    && (exists rs :: FromReplies(rs, replies) && AllFit(rs, ds) && Records(a.recorded, rs))
  }

  /** ids is the supply of fresh decision ids; replies are what the service answers, call by call. */
  method Analyze(monitors: seq<MonitorContext>, choices: set<string>, ids: seq<string>, replies: seq<Option<Reply>>)
    returns (r: Outcome<Analysis, string>)
    requires |ids| >= |monitors|
    ensures |Affected(monitors)| <= |ids|
    ensures r.Ok? <==> ChunksOk(DecisionsFor(ids, choices, |Affected(monitors)|), replies)
    ensures r.Ok? ==> Analyzes(r.value, Affected(monitors), DecisionsFor(ids, choices, |Affected(monitors)|), replies)
  {
    AffectedShorter(monitors);
    var affected, evidence := Gather(monitors);
    var ds := DecisionsFor(ids, choices, |affected|);
    if |ds| == 0 {
      NothingToAnalyze(affected, ds, replies);
      return Ok(Analysis([], INSUFFICIENT, 0.0));
    }
    var decided := DecideAll(ds, replies);
    if decided.Err? { return Err(decided.error); }
    var recorded, best := Judge(affected, evidence, ds, decided.value.0, decided.value.1);
    var h, score := NameCause(recorded, best);
    var analysis := Analysis(recorded, h, score);
    assert IsAnalysis(analysis, affected, ds, ThresholdFrom(replies), best);
    return Ok(analysis);
  }

  lemma NothingToAnalyze(ms: seq<MonitorContext>, ds: seq<Decision>, replies: seq<Option<Reply>>)
    requires ms == [] && ds == []
    ensures Analyzes(Analysis([], INSUFFICIENT, 0.0), ms, ds, replies) && ChunksOk(ds, replies)
  {
    var a, none: seq<Top>, rs: seq<DecisionResult> := Analysis([], INSUFFICIENT, 0.0), [], [];
    assert IsAnalysis(a, ms, ds, ThresholdFrom(replies), none);
    assert FromReplies(rs, replies) && AllFit(rs, ds) && Records(a.recorded, rs);
  }

  lemma {:induction false} AffectedShorter(ms: seq<MonitorContext>)
    ensures |Affected(ms)| <= |ms|
  {
    if ms != [] { AffectedShorter(ms[..|ms| - 1]); }
  }

  /** The reported score of a named cause is never below the model's own threshold. */
  lemma CauseScore(a: Analysis, ms: seq<MonitorContext>, ds: seq<Decision>, threshold: real, tops: seq<Top>)
    requires IsAnalysis(a, ms, ds, threshold, tops) && a.hypothesis != INSUFFICIENT
    ensures a.score >= threshold
  {
    forall i | 0 <= i < |a.recorded| && a.recorded[i].final == a.hypothesis ensures tops[i].score >= threshold {
      assert IsRecorded(a.recorded[i], ms[i], ds[i], threshold, tops[i]);
      FinalIsSupported(a.recorded[i], ms[i], ds[i], threshold, tops[i]);
    }
    AverageAtLeast(a.recorded, tops, a.hypothesis, threshold);
  }

  lemma AverageAtLeast(rs: seq<Recorded>, tops: seq<Top>, h: string, threshold: real)
    requires |tops| == |rs| && h != INSUFFICIENT && Votes(rs, h) > 0
    requires forall i :: 0 <= i < |rs| && rs[i].final == h ==> tops[i].score >= threshold
    ensures ScoreSum(rs, tops, h) / (Votes(rs, h) as real) >= threshold
  {
    ScoreAtLeast(rs, tops, h, threshold);
    DivideKeeps(ScoreSum(rs, tops, h), threshold, Votes(rs, h) as real);
  }

  lemma DivideKeeps(sum: real, low: real, n: real)
    requires n > 0.0 && sum >= low * n
    ensures sum / n >= low
  {
    assert (sum / n) * n == sum;
  }
}

/** An analysis over two calls that draw one id twice: what confirming it then teaches. */
module SharedIds {
  import opened Common
  import opened Decisions
  import opened BestChoice
  import opened EvidenceRules
  import opened Analyzer
  import opened Labels

  /** The rca choices of shared/ai/catalogue.json. */
  const CHOICES := {"dns_failure", "connection_failure", "tls_problem", "protocol_error", "latency_degradation",
                    "resource_pressure", "upstream_failure", "maintenance_downtime", "insufficient_evidence"}

  const CAUSE := "connection_failure"

  // ---------- Evidence ----------

  /** A monitor whose only check failed in the given domain. */
  function Failing(category: Category): Evidence {
    EMPTY.(checks := 1, failures := 1,
           domains := DomainCounts(if category == Dns then 1 else 0, if category == Connection then 1 else 0, 0, 0))
  }

  lemma FailingSummarizes(category: Category)
    requires category == Dns || category == Connection
    ensures Summarizes(Failing(category), [Check(Failure, category, None, None)])
  {
    var checks := [Check(Failure, category, None, None)];
    assert checks[..0] == [];
    assert Baselines(checks) == [];
  }

  lemma WhatIsSupported()
    ensures Supports(Failing(Connection), CAUSE) && !Supports(Failing(Dns), CAUSE)
  {
  }

  // ---------- Answers ----------

  /** The model is sure of the cause. */
  function Sure(): map<string, real> { map k | k in CHOICES :: if k == CAUSE then 1.0 else 0.0 }

  lemma {:induction false} SureSums(order: seq<string>)
    requires Distinct(order) && forall k :: k in order ==> k in CHOICES
    ensures Total(Sure(), order) == if CAUSE in order then 1.0 else 0.0
  {
    if order != [] {
      var front, last := order[..|order| - 1], order[|order| - 1];
      assert order == front + [last] && last !in front;
      SureSums(front);
    }
  }

  lemma SureIsDistribution()
    ensures InRange(Sure()) && SumsToOne(Sure()) && Sure().Keys == CHOICES && IsBest(Sure(), Top(CAUSE, 1.0))
  {
    assert CAUSE in CHOICES;
    forall order | Walks(order, Sure().Keys) ensures Total(Sure(), order) == 1.0 { SureSums(order); }
  }

  // ---------- The input ----------

  const MANY := 51

  /** Fifty different ids, and then the first one again. */
  function IdAt(i: nat): string { seq(i % BATCH + 1, _ => 'x') }

  function Ids(): seq<string> { seq(MANY, i requires 0 <= i < MANY => IdAt(i)) }

  lemma IdsRepeat(i: nat, j: nat)
    requires i < j < MANY
    ensures IdAt(i) == IdAt(j) <==> i == 0 && j == BATCH
  {
    assert |IdAt(i)| == i % BATCH + 1 && |IdAt(j)| == j % BATCH + 1;
  }

  /** The first monitor failed in DNS, the others to connect. */
  function DomainAt(i: nat): Category { if i == 0 then Dns else Connection }

  function MonitorAt(i: nat): MonitorContext { MonitorContext("m", true, EMPTY, [Check(Failure, DomainAt(i), None, None)]) }

  function Monitors(n: nat): seq<MonitorContext> { seq(n, i requires 0 <= i < n => MonitorAt(i)) }

  lemma {:induction false} AllAffected(n: nat)
    ensures Affected(Monitors(n)) == Monitors(n)
  {
    if n > 0 {
      assert Monitors(n)[..n - 1] == Monitors(n - 1);
      AllAffected(n - 1);
      assert Monitors(n) == Monitors(n - 1) + [MonitorAt(n - 1)];
    }
  }

  function ResultAt(i: nat): DecisionResult { DecisionResult(IdAt(i), Sure()) }

  const SERVICE := Model(ENGINE, "1", seq(64, _ => '0'), CATALOGUE)

  const THRESHOLDS: map<string, real> := map[TASK := 0.5]

  function ReplyFor(from: nat, to: nat): Option<Reply>
    requires from <= to
  {
    Some(Reply(SERVICE, THRESHOLDS, seq(to - from, i requires 0 <= i < to - from => ResultAt(from + i))))
  }

  function Replies(): seq<Option<Reply>> { [ReplyFor(0, BATCH), ReplyFor(BATCH, MANY)] }

  function Asked(): seq<Decision> { DecisionsFor(Ids(), CHOICES, MANY) }

  // ---------- Both calls are answered validly ----------

  lemma AnswerIsValid(i: nat)
    ensures Answers(ResultAt(i), Decision(IdAt(i), TASK, CHOICES), THRESHOLDS)
  {
    SureIsDistribution();
  }

  lemma CallIsValid(from: nat, to: nat, ds: seq<Decision>, rs: seq<DecisionResult>)
    requires from < to <= MANY && (from == 0 ==> to <= BATCH) && |ds| == |rs| == to - from
    requires forall i :: 0 <= i < to - from ==> ds[i] == Decision(IdAt(from + i), TASK, CHOICES) && rs[i] == ResultAt(from + i)
    ensures ValidReply(ds, THRESHOLDS, rs)
  {
    forall i | 0 <= i < to - from ensures AnswersSome(rs[i], ds, THRESHOLDS) {
      AnswerIsValid(from + i);
      assert Answers(rs[i], ds[i], THRESHOLDS);
    }
    forall i, j | 0 <= i < j < to - from ensures ds[i].id != ds[j].id && rs[i].id != rs[j].id { IdsRepeat(from + i, from + j); }
  }

  lemma CallsAreValid()
    ensures ChunksOk(Asked(), Replies())
  {
    CallIsValid(0, BATCH, Asked()[0..BATCH], ReplyFor(0, BATCH).value.results);
    CallIsValid(BATCH, MANY, Asked()[BATCH..MANY], ReplyFor(BATCH, MANY).value.results);
    forall c: nat | c * BATCH < |Asked()| ensures ChunkOk(Asked(), Replies(), c) {
      assert c == 0 || c == 1;
      assert Chunk(Asked(), c) == if c == 0 then Asked()[0..BATCH] else Asked()[BATCH..MANY];
    }
  }

  // ---------- The analysis ----------

  function RecordedAt(i: nat): Recorded {
    Recorded("m", Decision(IdAt(i), TASK, CHOICES), Failing(DomainAt(i)), Sure(), CAUSE, if i == 0 then INSUFFICIENT else CAUSE)
  }

  function RecordedUpTo(n: nat): seq<Recorded> { seq(n, i requires 0 <= i < n => RecordedAt(i)) }

  function Tops(n: nat): seq<Top> { seq(n, i requires 0 <= i < n => Top(CAUSE, 1.0)) }

  lemma AllAreRecorded()
    ensures AllRecorded(RecordedUpTo(MANY), Monitors(MANY), Asked(), 0.5, Tops(MANY))
  {
    SureIsDistribution();
    WhatIsSupported();
    forall i | 0 <= i < MANY ensures IsRecorded(RecordedUpTo(MANY)[i], Monitors(MANY)[i], Asked()[i], 0.5, Tops(MANY)[i]) {
      FailingSummarizes(DomainAt(i));
    }
  }

  /** All but the first vote for the cause. */
  lemma {:induction false} CauseVotes(n: nat)
    requires n > 0
    ensures Votes(RecordedUpTo(n), CAUSE) == n - 1 && ScoreSum(RecordedUpTo(n), Tops(n), CAUSE) == (n - 1) as real
  {
    var rs, ts := RecordedUpTo(n), Tops(n);
    if n == 1 {
      assert rs[..0] == [];
    } else {
      assert rs[..n - 1] == RecordedUpTo(n - 1) && ts[..n - 1] == Tops(n - 1);
      CauseVotes(n - 1);
    }
  }

  function Result(): Analysis { Analysis(RecordedUpTo(MANY), CAUSE, 1.0) }

  lemma CauseIsNamed()
    ensures IsCause(RecordedUpTo(MANY), CAUSE)
    ensures ScoreSum(RecordedUpTo(MANY), Tops(MANY), CAUSE) / (Votes(RecordedUpTo(MANY), CAUSE) as real) == 1.0
  {
    CauseVotes(MANY);
    assert CAUSE[0] == 'c' && INSUFFICIENT[0] == 'i';
  }

  lemma ResultIsAnalysis(ms: seq<MonitorContext>, ds: seq<Decision>, tops: seq<Top>)
    requires AllRecorded(Result().recorded, ms, ds, 0.5, tops) && tops == Tops(MANY)
    ensures IsAnalysis(Result(), ms, ds, 0.5, tops)
  {
    CauseIsNamed();
    assert CAUSE[0] == 'c' && INSUFFICIENT[0] == 'i';
  }

  lemma ResultAnalyzes()
    ensures Analyzes(Result(), Monitors(MANY), Asked(), Replies())
  {
    AllAreRecorded();
    ResultIsAnalysis(Monitors(MANY), Asked(), Tops(MANY));
    assert ThresholdFrom(Replies()) == 0.5;
    ResultsFit();
  }

  lemma ResultsFit()
    ensures exists rs :: FromReplies(rs, Replies()) && AllFit(rs, Asked()) && Records(Result().recorded, rs)
  {
    var rs := seq(MANY, i requires 0 <= i < MANY => ResultAt(i));
    SureIsDistribution();
    forall i | 0 <= i < MANY ensures rs[i] in Replies()[i / BATCH].value.results {
      var c := i / BATCH;
      assert Replies()[c].value.results[i - c * BATCH] == rs[i];
    }
    assert FromReplies(rs, Replies()) && AllFit(rs, Asked()) && Records(Result().recorded, rs);
  }

  lemma StoredFacts()
    ensures var rs := RecordedUpTo(MANY);
            && Usable(Snapshot(StoredAll(rs), CAUSE)) && LastWithId(StoredAll(rs), IdAt(0), 50)
            && !Covered(rs, 0, 50, Confirmed, "")
  {
    var ds := StoredAll(RecordedUpTo(MANY));
    assert forall i :: 0 <= i < MANY ==> ds[i] == Stored(RecordedAt(i));
    forall i | 0 <= i < MANY ensures Labelable(ds[i]) { assert |IdAt(i)| > 0; }
    IdsRepeat(0, BATCH);
    WhatIsSupported();
  }

  /**
   Fifty-one affected monitors take two calls, each answered validly. The id of the first decision is drawn
   again for the last; the cause is named by fifty votes, the first monitor abstains. Confirming the
   analysis stores the cause under that id, which the first monitor's evidence does not support.
   */
  lemma SharedIdMislabels() returns (ms: seq<MonitorContext>, ids: seq<string>, replies: seq<Option<Reply>>, a: Analysis)
    ensures |ms| == |ids| == MANY && Affected(ms) == ms
    ensures ChunksOk(DecisionsFor(ids, CHOICES, MANY), replies) && Analyzes(a, ms, DecisionsFor(ids, CHOICES, MANY), replies)
    ensures a.hypothesis == CAUSE && Usable(Snapshot(StoredAll(a.recorded), a.hypothesis))
    ensures |a.recorded| == MANY && ids[0] == ids[50] && LastWithId(StoredAll(a.recorded), ids[0], 50)
    ensures !Covered(a.recorded, 0, 50, Confirmed, "")
  {
    ms, ids, replies, a := Monitors(MANY), Ids(), Replies(), Result();
    AllAffected(MANY);
    CallsAreValid();
    ResultAnalyzes();
    IdsRepeat(0, BATCH);
    StoredFacts();
  }
}

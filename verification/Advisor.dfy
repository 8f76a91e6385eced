/** The dependency advisor's loops: shared/ai/dependencies.go. */
module Advisor {
  import opened Common
  import opened Text
  import opened Dependencies
  import opened Candidates

  type Pairs = map<(Ref, Ref), Evidence>

  // ---------- Co-firing rows ----------

  lemma {:induction false} TimingNone(ps: seq<CoFiring>, refs: set<Ref>, k: (Ref, Ref))
    ensures Timing(ps, refs, k).coFires >= 0
    ensures Timing(ps, refs, k).coFires == 0 ==> Timing(ps, refs, k) == NONE
    ensures !Timing(ps, refs, k).commonUpstream
  {
    if ps != [] { TimingNone(ps[..|ps| - 1], refs, k); }
  }

  predicate TimingAt(pairs: Pairs, ps: seq<CoFiring>, refs: set<Ref>, k: (Ref, Ref)) {
    && (k in pairs <==> Timing(ps, refs, k).coFires > 0)
    && (k in pairs ==> pairs[k] == Timing(ps, refs, k))
  }

  ghost predicate TimingOk(pairs: Pairs, ps: seq<CoFiring>, refs: set<Ref>) {
    forall k :: TimingAt(pairs, ps, refs, k)
  }

  lemma TimingStep(pairs: Pairs, ps: seq<CoFiring>, refs: set<Ref>, i: nat, pairs': Pairs)
    requires i < |ps| && TimingOk(pairs, ps[..i], refs)
    requires var k := Key(ps[i].earlier, ps[i].later);
             pairs' == if Counts(ps[i], refs) then pairs[k := Folded(if k in pairs then pairs[k] else NONE, ps[i], k)] else pairs
    ensures TimingOk(pairs', ps[..i + 1], refs)
  {
    assert ps[..i + 1][..i] == ps[..i];
    forall k {:trigger k in pairs'} ensures TimingAt(pairs', ps[..i + 1], refs, k) {
      assert TimingAt(pairs, ps[..i], refs, k);
      TimingNone(ps[..i], refs, k);
    }
  }

  method TimingPairs(ps: seq<CoFiring>, refs: set<Ref>) returns (pairs: Pairs)
    ensures TimingOk(pairs, ps, refs)
  {
    pairs := map[];
    var i := 0;
    while i < |ps|
      invariant i <= |ps| && TimingOk(pairs, ps[..i], refs)
    {
      var p := ps[i];
      ghost var before := pairs;
      if p.earlier != p.later && p.times >= 1 && p.earlier in refs && p.later in refs {
        var k := Key(p.earlier, p.later);
        var e := if k in pairs then pairs[k] else NONE;
        if e.coFires > 0 {
          e := e.(reverse := e.reverse + p.times);
        } else {
          e := e.(coFires := p.times, reverse := p.reverse, aLeads := p.lead);
          if p.earlier != k.0 { e := e.(aLeads := -e.aLeads); }
        }
        pairs := pairs[k := e];
      }
      TimingStep(before, ps, refs, i, pairs);
      i := i + 1;
    }
    assert ps[..i] == ps;
  }

  // ---------- Corroboration, pair by pair ----------

  function KeyAt(ms: seq<Monitor>, x: nat, y: nat): (Ref, Ref)
    requires x < |ms| && y < |ms|
  {
    Key(ms[x].ref, ms[y].ref)
  }

  function EvidenceAt(input: Input, x: nat, y: nat): Evidence
    requires x < |input.monitors| && y < |input.monitors|
  {
    PairEvidence(Monitors(input), Existing(input), input.coFiring, input.monitors[x], input.monitors[y])
  }

  predicate DoneAt(input: Input, pairs: Pairs, x: nat, y: nat)
    requires x < |input.monitors| && y < |input.monitors|
  {
    var k := KeyAt(input.monitors, x, y);
    && (k in pairs <==> Relevant(EvidenceAt(input, x, y)))
    && (k in pairs ==> pairs[k] == EvidenceAt(input, x, y))
  }

  predicate ToDoAt(input: Input, pairs: Pairs, x: nat, y: nat)
    requires x < |input.monitors| && y < |input.monitors|
  {
    TimingAt(pairs, input.coFiring, Refs(Monitors(input)), KeyAt(input.monitors, x, y))
  }

  predicate Visited(x: nat, y: nat, i: nat, j: nat) { x < i || (x == i && y < j) }

  predicate PairsOk(input: Input, pairs: Pairs, i: nat, j: nat) {
    forall x, y | 0 <= x < y < |input.monitors| ::
      if Visited(x, y, i, j) then DoneAt(input, pairs, x, y) else ToDoAt(input, pairs, x, y)
  }

  predicate KeyIsPair(ms: seq<Monitor>, k: (Ref, Ref)) {
    exists x, y | 0 <= x < y < |ms| :: k == KeyAt(ms, x, y)
  }

  predicate KeysOk(ms: seq<Monitor>, pairs: Pairs) { forall k :: k in pairs ==> KeyIsPair(ms, k) }

  lemma KeyIsInjective(ms: seq<Monitor>, x: nat, y: nat, x': nat, y': nat)
    requires DistinctRefs(ms) && x < y < |ms| && x' < y' < |ms| && (x, y) != (x', y')
    ensures KeyAt(ms, x, y) != KeyAt(ms, x', y')
  {
    if x != x' && x != y' { assert ms[x].ref != ms[x'].ref && ms[x].ref != ms[y'].ref; }
    else if y != x' && y != y' { assert ms[y].ref != ms[x'].ref && ms[y].ref != ms[y'].ref; }
  }

  lemma PairStep(input: Input, pairs: Pairs, i: nat, j: nat, pairs': Pairs)
    requires DistinctRefs(input.monitors) && i < j < |input.monitors| && PairsOk(input, pairs, i, j)
    requires var k := KeyAt(input.monitors, i, j);
             var e := Corroborated(if k in pairs then pairs[k] else NONE, input.monitors[i], input.monitors[j], Existing(input));
             pairs' == if Relevant(e) then pairs[k := e] else pairs
    ensures PairsOk(input, pairs', i, j + 1)
  {
    var k := KeyAt(input.monitors, i, j);
    TimingNone(input.coFiring, Refs(Monitors(input)), k);
    assert !Visited(i, j, i, j) && ToDoAt(input, pairs, i, j);
    forall x, y | 0 <= x < y < |input.monitors|
      ensures if Visited(x, y, i, j + 1) then DoneAt(input, pairs', x, y) else ToDoAt(input, pairs', x, y)
    {
      if (x, y) != (i, j) {
        assert Visited(x, y, i, j) <==> Visited(x, y, i, j + 1);
        KeyIsInjective(input.monitors, x, y, i, j);
      }
    }
  }

  lemma PairStepKeys(ms: seq<Monitor>, pairs: Pairs, i: nat, j: nat, e: Evidence)
    requires i < j < |ms| && KeysOk(ms, pairs)
    ensures KeysOk(ms, pairs[KeyAt(ms, i, j) := e])
  {
    assert KeyIsPair(ms, KeyAt(ms, i, j));
  }

  lemma {:induction false} TimingKeys(ms: seq<Monitor>, ps: seq<CoFiring>, refs: set<Ref>, k: (Ref, Ref))
    requires refs == Refs(set m | m in ms) && Timing(ps, refs, k).coFires > 0
    ensures KeyIsPair(ms, k)
  {
    if ps != [] {
      var p := ps[|ps| - 1];
      if Timing(ps[..|ps| - 1], refs, k).coFires > 0 {
        TimingKeys(ms, ps[..|ps| - 1], refs, k);
      } else {
        var a :| a in ms && a.ref == p.earlier;
        var b :| b in ms && b.ref == p.later;
        var x :| 0 <= x < |ms| && ms[x] == a;
        var y :| 0 <= y < |ms| && ms[y] == b;
        LessTotal(a.ref, b.ref);
        assert k == KeyAt(ms, x, y) == KeyAt(ms, y, x);
        if x < y { assert KeyIsPair(ms, k); }
      }
    }
  }

  lemma TimingKeysOk(input: Input, pairs: Pairs)
    requires TimingOk(pairs, input.coFiring, Refs(Monitors(input)))
    ensures KeysOk(input.monitors, pairs) && PairsOk(input, pairs, 0, 1)
  {
    forall k | k in pairs ensures KeyIsPair(input.monitors, k) {
      assert TimingAt(pairs, input.coFiring, Refs(Monitors(input)), k);
      TimingKeys(input.monitors, input.coFiring, Refs(Monitors(input)), k);
    }
  }

  method CorroboratedPairs(input: Input, timing: Pairs) returns (pairs: Pairs)
    requires TimingOk(timing, input.coFiring, Refs(Monitors(input)))
    ensures KeysOk(input.monitors, pairs)
    ensures DistinctRefs(input.monitors) ==> PairsOk(input, pairs, |input.monitors|, 0)
  {
    var ms, edges := input.monitors, Existing(input);
    pairs := timing;
    TimingKeysOk(input, pairs);
    var i := 0;
    while i < |ms|
      invariant i <= |ms| && KeysOk(ms, pairs)
      invariant DistinctRefs(ms) ==> PairsOk(input, pairs, i, i + 1)
    {
      var j := i + 1;
      while j < |ms|
        invariant i < j <= |ms| && KeysOk(ms, pairs)
        invariant DistinctRefs(ms) ==> PairsOk(input, pairs, i, j)
      {
        var k := Key(ms[i].ref, ms[j].ref);
        ghost var before := pairs;
        var e := Corroborated(if k in pairs then pairs[k] else NONE, ms[i], ms[j], edges);
        if Relevant(e) {
          PairStepKeys(ms, pairs, i, j, e);
          pairs := pairs[k := e];
        }
        if DistinctRefs(ms) { PairStep(input, before, i, j, pairs); }
        j := j + 1;
      }
      assert DistinctRefs(ms) ==> PairsOk(input, pairs, i + 1, i + 2) by {
        assert forall x: nat, y: nat :: x < y < |ms| ==> (Visited(x, y, i, j) <==> Visited(x, y, i + 1, i + 2));
      }
      i := i + 1;
    }
  }

  // ---------- Collecting and ranking ----------

  predicate Holds(pairs: Pairs, c: Candidate) { (c.a, c.b) in pairs && pairs[(c.a, c.b)] == c.e }

  function InsertRanked(cs: seq<Candidate>, c: Candidate): seq<Candidate> {
    if cs == [] || Before(c, cs[0]) then [c] + cs else [cs[0]] + InsertRanked(cs[1..], c)
  }

  lemma {:induction false} InsertRankedOk(cs: seq<Candidate>, c: Candidate)
    requires Ranked(cs) && forall i :: 0 <= i < |cs| ==> (cs[i].a, cs[i].b) != (c.a, c.b)
    ensures Ranked(InsertRanked(cs, c)) && forall d :: d in InsertRanked(cs, c) <==> d in cs || d == c
  {
    if cs == [] {
    } else if Before(c, cs[0]) {
      forall i | 0 <= i < |cs| ensures Before(c, cs[i]) {
        if i > 0 { BeforeIsTransitive(c, cs[0], cs[i]); }
      }
    } else {
      InsertRankedOk(cs[1..], c);
      BeforeIsStrict(c, cs[0]);
      var rest := InsertRanked(cs[1..], c);
      assert forall d :: d in cs <==> d == cs[0] || d in cs[1..];
      forall i | 0 <= i < |rest| ensures Before(cs[0], rest[i]) {
        assert rest[i] in rest;
        if rest[i] != c {
          var j :| 0 <= j < |cs[1..]| && cs[1..][j] == rest[i];
          assert rest[i] == cs[j + 1];
        }
      }
    }
  }

  ghost predicate Collected(pairs: Pairs, left: set<(Ref, Ref)>, out: seq<Candidate>) {
    forall c :: c in out <==> Holds(pairs, c) && (c.a, c.b) !in left
  }

  /** Whatever order the map is walked in, the sorted list is the same. */
  method Collect(pairs: Pairs) returns (out: seq<Candidate>)
    ensures Ranked(out) && forall c :: c in out <==> Holds(pairs, c)
  {
    out := [];
    var left := pairs.Keys;
    while left != {}
      invariant left <= pairs.Keys && Ranked(out) && Collected(pairs, left, out)
      decreases |left|
    {
      var k :| k in left;
      var c := Candidate(k.0, k.1, pairs[k]);
      ghost var before, was := out, left;
      forall i | 0 <= i < |out| ensures (out[i].a, out[i].b) != k { assert out[i] in out; }
      InsertRankedOk(out, c);
      out := InsertRanked(out, c);
      left := left - {k};
      forall d ensures d in out <==> Holds(pairs, d) && (d.a, d.b) !in left {
        assert d in before <==> Holds(pairs, d) && (d.a, d.b) !in was;
      }
    }
  }

  lemma HoldsIsCandidate(input: Input, pairs: Pairs, c: Candidate)
    requires DistinctRefs(input.monitors) && KeysOk(input.monitors, pairs) && PairsOk(input, pairs, |input.monitors|, 0)
    requires Holds(pairs, c)
    ensures IsCandidate(input, c)
  {
    var ms := input.monitors;
    assert KeyIsPair(ms, (c.a, c.b));
    var x, y :| 0 <= x < y < |ms| && (c.a, c.b) == KeyAt(ms, x, y);
    assert Visited(x, y, |ms|, 0) && DoneAt(input, pairs, x, y);
    LessTotal(ms[x].ref, ms[y].ref);
    if Less(ms[x].ref, ms[y].ref) {
      assert Backs(input, c, ms[x], ms[y]);
    } else {
      assert ms[x].ref != ms[y].ref;
      SignalsAreSymmetric(Timing(input.coFiring, Refs(Monitors(input)), KeyAt(ms, x, y)), ms[x], ms[y], Existing(input));
      assert KeyAt(ms, x, y) == KeyAt(ms, y, x);
      assert Backs(input, c, ms[y], ms[x]);
    }
  }

  lemma CandidateIsHeld(input: Input, pairs: Pairs, c: Candidate)
    requires DistinctRefs(input.monitors) && PairsOk(input, pairs, |input.monitors|, 0)
    requires IsCandidate(input, c)
    ensures Holds(pairs, c)
  {
    var ms := input.monitors;
    var a, b :| Backs(input, c, a, b);
    var x :| 0 <= x < |ms| && ms[x] == a;
    var y :| 0 <= y < |ms| && ms[y] == b;
    LessTotal(a.ref, b.ref);
    if x < y {
      assert Visited(x, y, |ms|, 0) && DoneAt(input, pairs, x, y);
    } else {
      SignalsAreSymmetric(Timing(input.coFiring, Refs(Monitors(input)), KeyAt(ms, x, y)), a, b, Existing(input));
      assert KeyAt(ms, x, y) == KeyAt(ms, y, x);
      assert Visited(y, x, |ms|, 0) && DoneAt(input, pairs, y, x);
    }
  }

  method AllCandidatePairs(input: Input) returns (out: seq<Candidate>)
    ensures Ranked(out)
    ensures DistinctRefs(input.monitors) ==> IsCandidateList(input, out)
  {
    var timing := TimingPairs(input.coFiring, Refs(Monitors(input)));
    var pairs := CorroboratedPairs(input, timing);
    out := Collect(pairs);
    if DistinctRefs(input.monitors) {
      forall c ensures c in out <==> IsCandidate(input, c) {
        if Holds(pairs, c) { HoldsIsCandidate(input, pairs, c); }
        if IsCandidate(input, c) { CandidateIsHeld(input, pairs, c); }
      }
    }
  }

  /** The advisor's request: the best candidates that fit the budget, and none ranked below a dropped one. */
  method CandidatePairs(input: Input) returns (out: seq<Candidate>)
    ensures |out| <= BUDGET && Ranked(out)
    ensures DistinctRefs(input.monitors) ==> exists all ::
              && IsCandidateList(input, all) && out == all[..Min(BUDGET, |all|)]
    ensures |out| <= 50 && forall i, j :: 0 <= i < j < |out| ==> NoWorse(out[i], out[j])
    ensures DistinctRefs(input.monitors) ==>
              && (forall c :: c in out ==> IsCandidate(input, c))
              && (forall d :: IsCandidate(input, d) && d !in out ==> |out| == 50 && forall k :: k in out ==> NoWorse(k, d))
  {
    var all := AllCandidatePairs(input);
    out := if |all| > BUDGET then all[..BUDGET] else all;
    assert out == all[..Min(BUDGET, |all|)];
    forall i, j | 0 <= i < j < |all| ensures NoWorse(all[i], all[j]) { BeforeMeans(all[i], all[j]); }
    forall k, d | k in out && d in all && d !in out ensures |out| == 50 && NoWorse(k, d) { DroppedIsNoBetter(all, k, d); }
  }

  lemma DroppedIsNoBetter(all: seq<Candidate>, k: Candidate, d: Candidate)
    requires forall i, j :: 0 <= i < j < |all| ==> NoWorse(all[i], all[j])
    requires k in all[..Min(BUDGET, |all|)] && d in all && d !in all[..Min(BUDGET, |all|)]
    ensures |all| > BUDGET && NoWorse(k, d)
  {
    var out := all[..Min(BUDGET, |all|)];
    var i :| 0 <= i < |out| && out[i] == k;
    var j :| 0 <= j < |all| && all[j] == d;
    assert forall x :: 0 <= x < |out| ==> out[x] == all[x] && out[x] != d;
    assert all[i] == k;
  }

  /** Operator labels see the evidence the advisor would send, whichever way round the pair is named. */
  method PairDecisionFor(input: Input, x: Ref, y: Ref) returns (r: Option<Candidate>)
    ensures r.Some? ==> x != y && (r.value.a, r.value.b) == Key(x, y)
    ensures DistinctRefs(input.monitors) ==>
              forall c :: IsCandidate(input, c) && x != y && (c.a, c.b) == Key(x, y) ==> r == Some(c)
    ensures DistinctRefs(input.monitors) && r.Some? ==> IsCandidate(input, r.value)
  {
    if x == y { return None; }
    var k := Key(x, y);
    var all := AllCandidatePairs(input);
    var i := 0;
    while i < |all|
      invariant i <= |all| && forall j :: 0 <= j < i ==> (all[j].a, all[j].b) != k
    {
      if (all[i].a, all[i].b) == k {
        if DistinctRefs(input.monitors) {
          forall c | IsCandidate(input, c) && (c.a, c.b) == k ensures c == all[i] {
            SamePair(input, c, all[i]);
          }
        }
        return Some(all[i]);
      }
      i := i + 1;
    }
    return None;
  }

  lemma SamePair(input: Input, c: Candidate, d: Candidate)
    requires DistinctRefs(input.monitors) && IsCandidate(input, c) && IsCandidate(input, d) && (c.a, c.b) == (d.a, d.b)
    ensures c == d
  {
    var a, b :| Backs(input, c, a, b);
    var a', b' :| Backs(input, d, a', b');
    RefIsUnique(input.monitors, a, a');
    RefIsUnique(input.monitors, b, b');
  }

  // ---------- Suggestions ----------

  datatype Hypothesis = ADependsOnB | BDependsOnA | NoDependency

  /** The best choice of one decision and its score. */
  datatype Answer = Answer(hypothesis: Hypothesis, score: real)

  /** The suggestion an answer makes about a pair: the monitor that depends, and its upstream. */
  predicate Proposes(c: Candidate, h: Hypothesis, e: Edge) {
    (h == ADependsOnB && e.monitor == c.a && e.dependsOn == c.b) || (h == BDependsOnA && e.monitor == c.b && e.dependsOn == c.a)
  }

  /** The answer is confident, and the evidence bears it out: repeated, one-sided, corroborated, and led by the proposed upstream. */
  predicate Qualifies(c: Candidate, r: Answer, threshold: real) {
    && r.score >= threshold
    && c.e.coFires >= 2 && c.e.reverse == 0 && (c.e.sharedService || c.e.sharedGroup)
    && !c.e.commonUpstream
    && (r.hypothesis == ADependsOnB ==> c.e.aLeads < 0) && (r.hypothesis == BDependsOnA ==> c.e.aLeads > 0)
    && r.hypothesis != NoDependency
  }

  predicate Distinct<T(==)>(s: seq<T>) { forall i, j :: 0 <= i < j < |s| ==> s[i] != s[j] }

  predicate FromQualified(pairs: seq<Candidate>, answers: seq<Answer>, threshold: real, e: Edge)
    requires |answers| == |pairs|
  {
    exists i :: 0 <= i < |pairs| && Qualifies(pairs[i], answers[i], threshold) && Proposes(pairs[i], answers[i].hypothesis, e)
  }

  /** A qualified proposal is in the graph, or adding it would close a cycle. */
  ghost predicate Settled(edges: seq<Edge>, e: Edge) { e in edges || Reaches(edges, e.dependsOn, e.monitor) }

  lemma SettledGrows(edges: seq<Edge>, e: Edge, more: seq<Edge>)
    requires Settled(edges, e)
    ensures Settled(edges + more, e)
  {
    if e !in edges { ReachesGrows(edges, more, e.dependsOn, e.monitor); }
  }

  /**
   For every model answer the graph with the suggestions stays acyclic and gains no duplicate; every
   suggestion is a qualified proposal, and every qualified proposal left out would close a cycle.
   */
  method SuggestDependencies(existing: seq<Edge>, pairs: seq<Candidate>, answers: seq<Answer>, threshold: real)
    returns (suggested: seq<Edge>, abstained: nat)
    requires |answers| == |pairs|
    ensures Acyclic(existing) ==> Acyclic(existing + suggested)
    ensures Distinct(suggested) && forall e :: e in suggested ==> e !in existing && FromQualified(pairs, answers, threshold, e)
    ensures forall i, e :: 0 <= i < |pairs| && Qualifies(pairs[i], answers[i], threshold) && Proposes(pairs[i], answers[i].hypothesis, e) ==>
                             Settled(existing + suggested, e)
    ensures |suggested| + abstained == |pairs|
  {
    suggested, abstained := [], 0;
    var edges := existing;
    var known := set e | e in existing;
    var i := 0;
    while i < |pairs|
      invariant i <= |pairs| && edges == existing + suggested && known == (set e | e in edges)
      invariant Acyclic(existing) ==> Acyclic(edges)
      invariant Distinct(suggested) && forall e :: e in suggested ==> e !in existing && FromQualified(pairs, answers, threshold, e)
      invariant forall j, e :: 0 <= j < i && Qualifies(pairs[j], answers[j], threshold) && Proposes(pairs[j], answers[j].hypothesis, e) ==>
                                 Settled(edges, e)
      invariant |suggested| + abstained == i
    {
      var p, h := pairs[i], answers[i].hypothesis;
      var monitor, upstream := p.a, p.b;
      if h == BDependsOnA { monitor, upstream := p.b, p.a; }
      var e := Edge(monitor, upstream);
      var supported := p.e.coFires >= 2 && p.e.reverse == 0 && (p.e.sharedService || p.e.sharedGroup) && p.e.aLeads != 0 && !p.e.commonUpstream;
      var direction := (h == ADependsOnB && p.e.aLeads < 0) || (h == BDependsOnA && p.e.aLeads > 0);
      var cycle := WouldCycle(edges, monitor, upstream);
      assert supported && direction && answers[i].score >= threshold <==> Qualifies(p, answers[i], threshold);
      assert direction ==> forall f :: Proposes(p, h, f) <==> f == e;
      if answers[i].score < threshold || !supported || !direction || e in known || cycle {
        abstained := abstained + 1;
      } else {
        assert FromQualified(pairs, answers, threshold, e);
        if Acyclic(edges) { AddEdgeAcyclic(edges, e.monitor, e.dependsOn); }
        forall j, f | 0 <= j < i && Qualifies(pairs[j], answers[j], threshold) && Proposes(pairs[j], answers[j].hypothesis, f)
          ensures Settled(edges + [e], f)
        {
          SettledGrows(edges, f, [e]);
        }
        assert existing + (suggested + [e]) == edges + [e];
        edges := edges + [e];
        suggested := suggested + [e];
        known := known + {e};
      }
      i := i + 1;
    }
  }

  /**
   The upstream of a suggestion is the monitor whose alerts came first: the earlier one of the pair's first
   co-firing row, or the later one where that row's median lead is negative. The pair fired together at
   least twice in that row, and never the other way round or again.
   */
  lemma UpstreamCameFirst(input: Input, c: Candidate, r: Answer, threshold: real, e: Edge) returns (i: nat)
    requires DistinctRefs(input.monitors) && IsCandidate(input, c) && Qualifies(c, r, threshold) && Proposes(c, r.hypothesis, e)
    ensures i < |input.coFiring| && FiredFirst(input, i, c.a, c.b)
    ensures var p := input.coFiring[i];
            && p.lead != 0 && p.times > 1 && p.reverse + FiredAfter(input.coFiring[i + 1..], c.a, c.b) == 0
            && (p.lead > 0 ==> e == Edge(p.later, p.earlier)) && (p.lead < 0 ==> e == Edge(p.earlier, p.later))
  {
    var a, b :| Backs(input, c, a, b);
    assert Known(input, c.a) && Known(input, c.b);
    LessTotal(c.a, c.b);
    TimingIs(input, |input.coFiring|, c.a, c.b);
    assert input.coFiring[..|input.coFiring|] == input.coFiring;
    var t := Timing(input.coFiring, Refs(Monitors(input)), (c.a, c.b));
    i :| i < |input.coFiring| && TimedFrom(input, i, |input.coFiring|, c.a, c.b, t);
    assert input.coFiring[i + 1..|input.coFiring|] == input.coFiring[i + 1..];
  }
}

/** One batch of model decisions: shared/ai/provider.go and the ranking of one answer in shared/ai/catalogue.go. */
module Decisions {
  import opened Common
  import opened Text

  datatype Decision = Decision(id: string, task: string, choices: set<string>)

  datatype DecisionResult = DecisionResult(id: string, probabilities: map<string, real>)

  datatype Model = Model(engine: string, version: string, sha256: string, catalogue: string)

  const ENGINE := "laya-cpu"
  const CATALOGUE := "probara-evidence-v1"
  const BATCH := 50
  const TOLERANCE := 0.0001

  predicate IsHex(s: string) {
    forall i :: 0 <= i < |s| ==> '0' <= s[i] <= '9' || 'a' <= s[i] <= 'f' || 'A' <= s[i] <= 'F'
  }

  predicate IdentityOk(m: Model) {
    m.engine == ENGINE && m.version != "" && |m.sha256| == 64 && IsHex(m.sha256) && m.catalogue == CATALOGUE
  }

  /** The service names itself, its version, a checksum of 64 hexadecimal digits and the catalogue. */
  lemma IdentityMeans(m: Model)
    ensures IdentityOk(m) <==>
            && m.engine == "laya-cpu" && m.catalogue == "probara-evidence-v1" && m.version != ""
            && |m.sha256| == 64 && forall i :: 0 <= i < 64 ==> m.sha256[i] in "0123456789abcdefABCDEF"
  {
    forall c: char ensures ('0' <= c <= '9' || 'a' <= c <= 'f' || 'A' <= c <= 'F') <==> c in "0123456789abcdefABCDEF" { HexDigits(c); }
  }

  lemma HexDigits(c: char)
    ensures ('0' <= c <= '9' || 'a' <= c <= 'f' || 'A' <= c <= 'F') <==> c in "0123456789abcdefABCDEF"
  {
    var all := "0123456789abcdefABCDEF";
    assert forall k :: 0 <= k < 10 ==> all[k] as int == '0' as int + k;
    assert forall k :: 10 <= k < 16 ==> all[k] as int == 'a' as int + k - 10;
    assert forall k :: 16 <= k < 22 ==> all[k] as int == 'A' as int + k - 16;
    if '0' <= c <= '9' { assert all[c as int - '0' as int] == c; }
    if 'a' <= c <= 'f' { assert all[c as int - 'a' as int + 10] == c; }
    if 'A' <= c <= 'F' { assert all[c as int - 'A' as int + 16] == c; }
  }

  // ---------- The sum of one answer ----------

  /** The sum of a finite map's values over the given keys, in list order. */
  function Total(m: map<string, real>, order: seq<string>): real
    requires forall k :: k in order ==> k in m
  {
    if order == [] then 0.0 else Total(m, order[..|order| - 1]) + m[order[|order| - 1]]
  }

  predicate Distinct<T(==)>(s: seq<T>) { forall i, j :: 0 <= i < j < |s| ==> s[i] != s[j] }

  /** A list of every key exactly once: one way to walk the map. */
  ghost predicate Walks(order: seq<string>, keys: set<string>) {
    Distinct(order) && forall k :: k in order <==> k in keys
  }

  lemma {:induction false} TotalAppend(m: map<string, real>, a: seq<string>, b: seq<string>)
    requires forall k :: k in a + b ==> k in m
    ensures (forall k :: k in a ==> k in a + b) && (forall k :: k in b ==> k in a + b)
    ensures Total(m, a + b) == Total(m, a) + Total(m, b)
  {
    assert forall k :: k in a ==> k in a + b;
    assert forall k :: k in b ==> k in a + b;
    if b == [] {
      assert a + b == a;
    } else {
      var front := b[..|b| - 1];
      assert (a + b)[..|a + b| - 1] == a + front;
      assert forall k :: k in a + front ==> k in a + b;
      TotalAppend(m, a, front);
    }
  }

  lemma TotalWithout(m: map<string, real>, s: seq<string>, i: nat)
    requires i < |s| && forall k :: k in s ==> k in m
    ensures (forall k :: k in s[..i] + s[i + 1..] ==> k in m) && s[i] in m
    ensures Total(m, s) == Total(m, s[..i] + s[i + 1..]) + m[s[i]]
  {
    var pre, post := s[..i], s[i + 1..];
    assert s == pre + ([s[i]] + post);
    TotalAppend(m, pre, [s[i]] + post);
    TotalAppend(m, [s[i]], post);
    TotalAppend(m, pre, post);
    assert [s[i]][..0] == [];
  }

  lemma WalkHead(order: seq<string>, keys: set<string>)
    requires Walks(order, keys)
    ensures order != [] ==> order[0] in keys
  {
    assert order != [] ==> order[0] in order;
  }

  /** Any two walks of the map give the same sum. */
  lemma {:induction false} TotalIsOrderFree(m: map<string, real>, a: seq<string>, b: seq<string>, keys: set<string>)
    requires Walks(a, keys) && Walks(b, keys) && keys <= m.Keys
    ensures Total(m, a) == Total(m, b)
    decreases |a|
  {
    WalkHead(b, keys);
    if a != [] {
      var last := a[|a| - 1];
      assert last in a && last in b;
      var i :| 0 <= i < |b| && b[i] == last;
      TotalWithout(m, b, i);
      DropWalk(a, keys, |a| - 1);
      DropWalk(b, keys, i);
      assert a[..|a| - 1] + a[|a| - 1 + 1..] == a[..|a| - 1];
      TotalIsOrderFree(m, a[..|a| - 1], b[..i] + b[i + 1..], keys - {last});
    }
  }

  lemma DropWalk(s: seq<string>, keys: set<string>, i: nat)
    requires Walks(s, keys) && i < |s|
    ensures Walks(s[..i] + s[i + 1..], keys - {s[i]})
  {
    var t := s[..i] + s[i + 1..];
    forall k ensures k in t <==> k in keys - {s[i]} {
      if k in t {
        var j :| 0 <= j < |t| && t[j] == k;
        assert k == s[if j < i then j else j + 1];
      }
      if k in keys - {s[i]} {
        var j :| 0 <= j < |s| && s[j] == k;
        assert k == t[if j < i then j else j - 1];
      }
    }
  }

  /** The sum misses one by a ten-thousandth at most, however the map is walked. */
  ghost predicate SumsToOne(m: map<string, real>) {
    forall order :: Walks(order, m.Keys) ==> 0.9999 <= Total(m, order) <= 1.0001
  }

  // ---------- A valid reply ----------

  predicate DistinctIds(ds: seq<Decision>) { forall i, j :: 0 <= i < j < |ds| ==> ds[i].id != ds[j].id }

  predicate DistinctResultIds(rs: seq<DecisionResult>) { forall i, j :: 0 <= i < j < |rs| ==> rs[i].id != rs[j].id }

  predicate InRange(m: map<string, real>) { forall k :: k in m ==> 0.0 <= m[k] <= 1.0 }

  predicate ThresholdOk(thresholds: map<string, real>, task: string) {
    task in thresholds && 0.0 < thresholds[task] <= 1.0
  }

  /** One result answers one decision: exactly its choices, a distribution, and a usable threshold. */
  ghost predicate Answers(r: DecisionResult, d: Decision, thresholds: map<string, real>) {
    && r.id == d.id && r.probabilities.Keys == d.choices && InRange(r.probabilities)
    && SumsToOne(r.probabilities) && ThresholdOk(thresholds, d.task)
  }

  ghost predicate AnswersSome(r: DecisionResult, ds: seq<Decision>, thresholds: map<string, real>) {
    exists i :: 0 <= i < |ds| && Answers(r, ds[i], thresholds)
  }

  ghost predicate ValidReply(ds: seq<Decision>, thresholds: map<string, real>, rs: seq<DecisionResult>) {
    && |rs| == |ds| && DistinctIds(ds) && DistinctResultIds(rs)
    && forall j :: 0 <= j < |rs| ==> AnswersSome(rs[j], ds, thresholds)
  }

  /** The results in request order. */
  ghost predicate Aligned(ds: seq<Decision>, thresholds: map<string, real>, rs: seq<DecisionResult>) {
    |rs| == |ds| && forall i :: 0 <= i < |ds| ==> Answers(rs[i], ds[i], thresholds)
  }

  ghost predicate SameResults(xs: seq<DecisionResult>, ys: seq<DecisionResult>) { forall r :: r in xs <==> r in ys }

  /** Whatever order the service answers in, the aligned results are the same. */
  lemma AlignmentIsUnique(ds: seq<Decision>, thresholds: map<string, real>, reply: seq<DecisionResult>,
                          xs: seq<DecisionResult>, ys: seq<DecisionResult>)
    requires DistinctResultIds(reply) && SameResults(xs, reply) && SameResults(ys, reply)
    requires Aligned(ds, thresholds, xs) && Aligned(ds, thresholds, ys)
    ensures xs == ys
  {
    forall i | 0 <= i < |ds| ensures xs[i] == ys[i] {
      assert xs[i] in xs && ys[i] in ys && xs[i].id == ys[i].id;
      var a :| 0 <= a < |reply| && reply[a] == xs[i];
      var b :| 0 <= b < |reply| && reply[b] == ys[i];
      assert a == b;
    }
  }

  // ---------- decide ----------

  predicate HasId(d: Decision, ds: seq<Decision>, id: string) { d in ds && d.id == id }

  /** The map from id to decision. */
  predicate Indexes(all: map<string, Decision>, ds: seq<Decision>) {
    && (forall i :: 0 <= i < |ds| ==> ds[i].id in all && all[ds[i].id] == ds[i])
    && (forall id :: id in all ==> HasId(all[id], ds, id))
  }

  /** A repeated decision id is an error. */
  method Expect(ds: seq<Decision>) returns (r: Option<map<string, Decision>>)
    ensures r.Some? <==> DistinctIds(ds)
    ensures r.Some? ==> Indexes(r.value, ds)
  {
    var expected: map<string, Decision> := map[];
    var i := 0;
    while i < |ds|
      invariant i <= |ds| && DistinctIds(ds[..i]) && Indexes(expected, ds[..i])
    {
      if ds[i].id in expected {
        RepeatedId(ds, i, expected);
        return None;
      }
      IndexNext(ds, i, expected);
      expected := expected[ds[i].id := ds[i]];
      i := i + 1;
    }
    assert ds[..i] == ds;
    return Some(expected);
  }

  lemma RepeatedId(ds: seq<Decision>, i: nat, expected: map<string, Decision>)
    requires i < |ds| && Indexes(expected, ds[..i]) && ds[i].id in expected
    ensures !DistinctIds(ds)
  {
    var d := expected[ds[i].id];
    assert HasId(d, ds[..i], ds[i].id);
    var j :| 0 <= j < i && ds[..i][j] == d;
    assert ds[j].id == ds[i].id;
  }

  lemma IndexNext(ds: seq<Decision>, i: nat, expected: map<string, Decision>)
    requires i < |ds| && Indexes(expected, ds[..i]) && ds[i].id !in expected && DistinctIds(ds[..i])
    ensures Indexes(expected[ds[i].id := ds[i]], ds[..i + 1]) && DistinctIds(ds[..i + 1])
  {
    assert ds[..i + 1] == ds[..i] + [ds[i]];
    var next := expected[ds[i].id := ds[i]];
    forall j | 0 <= j < i ensures ds[j].id in next && next[ds[j].id] == ds[j] { assert ds[..i][j].id in expected; }
    forall id | id in next ensures HasId(next[id], ds[..i + 1], id) {
      if id != ds[i].id { assert HasId(expected[id], ds[..i], id); }
    }
    forall j | 0 <= j < i ensures ds[j].id != ds[i].id { assert ds[..i][j].id in expected; }
  }

  lemma WalkNext(m: map<string, real>, order: seq<string>, left: set<string>, k: string)
    requires left <= m.Keys && Walks(order, m.Keys - left) && k in left
    ensures Walks(order + [k], m.Keys - (left - {k})) && Total(m, order + [k]) == Total(m, order) + m[k]
  {
    var next := order + [k];
    assert next[..|order|] == order;
    assert forall x :: x in next <==> x in order || x == k;
  }

  /** The inner loop over one answer's probabilities, in whatever order the map is walked. */
  method CheckProbabilities(d: Decision, probabilities: map<string, real>) returns (ok: bool)
    ensures ok <==> probabilities.Keys == d.choices && InRange(probabilities) && SumsToOne(probabilities)
  {
    if |probabilities| != |d.choices| { return false; }
    var total := 0.0;
    var left := probabilities.Keys;
    ghost var order: seq<string> := [];
    while left != {}
      invariant left <= probabilities.Keys && Walks(order, probabilities.Keys - left)
      invariant total == Total(probabilities, order)
      invariant forall k :: k in probabilities && k !in left ==> k in d.choices && 0.0 <= probabilities[k] <= 1.0
      decreases |left|
    {
      var k :| k in left;
      if k !in d.choices || probabilities[k] < 0.0 || probabilities[k] > 1.0 { return false; }
      WalkNext(probabilities, order, left, k);
      order := order + [k];
      total := total + probabilities[k];
      left := left - {k};
    }
    assert probabilities.Keys - left == probabilities.Keys;
    SubsetSize(probabilities.Keys, d.choices);
    forall other | Walks(other, probabilities.Keys) ensures Total(probabilities, other) == total {
      TotalIsOrderFree(probabilities, order, other, probabilities.Keys);
    }
    return -TOLERANCE <= total - 1.0 <= TOLERANCE;
  }

  predicate Fresh(rs: seq<DecisionResult>, id: string) { forall i :: 0 <= i < |rs| ==> rs[i].id != id }

  /** The expected decisions that no result so far has answered. */
  ghost predicate Remaining(expected: map<string, Decision>, all: map<string, Decision>, rs: seq<DecisionResult>) {
    && (forall id :: id in expected <==> id in all && Fresh(rs, id))
    && (forall id :: id in expected ==> expected[id] == all[id])
  }

  ghost predicate AllAnswer(ds: seq<Decision>, thresholds: map<string, real>, rs: seq<DecisionResult>) {
    DistinctResultIds(rs) && forall j :: 0 <= j < |rs| ==> AnswersSome(rs[j], ds, thresholds)
  }

  method CheckResults(ds: seq<Decision>, all: map<string, Decision>, thresholds: map<string, real>, rs: seq<DecisionResult>)
    returns (ok: bool)
    requires Indexes(all, ds)
    ensures ok <==> AllAnswer(ds, thresholds, rs)
  {
    var expected := all;
    var j := 0;
    while j < |rs|
      invariant j <= |rs| && Remaining(expected, all, rs[..j]) && AllAnswer(ds, thresholds, rs[..j])
    {
      var r := rs[j];
      if r.id !in expected {
        NotExpected(ds, all, expected, thresholds, rs, j);
        return false;
      }
      var d := expected[r.id];
      var distribution := CheckProbabilities(d, r.probabilities);
      if !distribution || d.task !in thresholds || thresholds[d.task] <= 0.0 || thresholds[d.task] > 1.0 {
        OnlyItsDecision(ds, all, thresholds, rs, j);
        return false;
      }
      CheckNext(ds, all, expected, thresholds, rs, j);
      expected := expected - {r.id};
      j := j + 1;
    }
    assert rs[..j] == rs;
    return true;
  }

  lemma NotExpected(ds: seq<Decision>, all: map<string, Decision>, expected: map<string, Decision>,
                    thresholds: map<string, real>, rs: seq<DecisionResult>, j: nat)
    requires j < |rs| && Remaining(expected, all, rs[..j]) && rs[j].id !in expected && Indexes(all, ds)
    ensures !AllAnswer(ds, thresholds, rs)
  {
    assert forall i :: 0 <= i < j ==> rs[..j][i] == rs[i];
  }

  lemma OnlyItsDecision(ds: seq<Decision>, all: map<string, Decision>, thresholds: map<string, real>,
                        rs: seq<DecisionResult>, j: nat)
    requires Indexes(all, ds) && j < |rs| && rs[j].id in all && !Answers(rs[j], all[rs[j].id], thresholds)
    ensures !AllAnswer(ds, thresholds, rs)
  {
  }

  lemma CheckNext(ds: seq<Decision>, all: map<string, Decision>, expected: map<string, Decision>,
                  thresholds: map<string, real>, rs: seq<DecisionResult>, j: nat)
    requires Indexes(all, ds) && j < |rs| && Remaining(expected, all, rs[..j]) && AllAnswer(ds, thresholds, rs[..j])
    requires rs[j].id in expected && Answers(rs[j], expected[rs[j].id], thresholds)
    ensures Remaining(expected - {rs[j].id}, all, rs[..j + 1]) && AllAnswer(ds, thresholds, rs[..j + 1])
  {
    RemainingNext(all, expected, rs, j);
    assert AnswersSome(rs[j], ds, thresholds) by {
      assert HasId(all[rs[j].id], ds, rs[j].id);
      var i :| 0 <= i < |ds| && ds[i] == all[rs[j].id];
    }
    AllAnswerNext(ds, thresholds, rs, j);
  }

  lemma RemainingNext(all: map<string, Decision>, expected: map<string, Decision>, rs: seq<DecisionResult>, j: nat)
    requires j < |rs| && Remaining(expected, all, rs[..j])
    ensures Remaining(expected - {rs[j].id}, all, rs[..j + 1])
  {
    var next := rs[..j + 1];
    assert next == rs[..j] + [rs[j]];
    assert forall id :: Fresh(next, id) <==> Fresh(rs[..j], id) && id != rs[j].id;
  }

  lemma AllAnswerNext(ds: seq<Decision>, thresholds: map<string, real>, rs: seq<DecisionResult>, j: nat)
    requires j < |rs| && AllAnswer(ds, thresholds, rs[..j]) && Fresh(rs[..j], rs[j].id) && AnswersSome(rs[j], ds, thresholds)
    ensures AllAnswer(ds, thresholds, rs[..j + 1])
  {
    var next := rs[..j + 1];
    assert next == rs[..j] + [rs[j]];
    forall k | 0 <= k < |next| ensures AnswersSome(next[k], ds, thresholds) {
      if k < j { assert next[k] == rs[..j][k]; }
    }
    forall x, y | 0 <= x < y < |next| ensures next[x].id != next[y].id {
      if y == j { assert rs[..j][x].id != rs[j].id; } else { assert rs[..j][x].id != rs[..j][y].id; }
    }
  }

  /** Validates a reply and puts it in request order in place; a rejected reply is left as it came. */
  method Decide(ds: seq<Decision>, model: Model, thresholds: map<string, real>, results: array<DecisionResult>)
    returns (ok: bool)
    modifies results
    ensures ok <==> 1 <= |ds| <= BATCH && IdentityOk(model) && ValidReply(ds, thresholds, old(results[..]))
    ensures ok ==> Aligned(ds, thresholds, results[..]) && SameResults(results[..], old(results[..]))
    ensures !ok ==> results[..] == old(results[..])
  {
    if |ds| == 0 || |ds| > BATCH { return false; }
    if !IdentityOk(model) || results.Length != |ds| { return false; }
    var all := Expect(ds);
    if all.None? { return false; }
    ok := CheckResults(ds, all.value, thresholds, results[..]);
    if ok { Reorder(ds, thresholds, results); }
  }

  method Reorder(ds: seq<Decision>, thresholds: map<string, real>, results: array<DecisionResult>)
    requires ValidReply(ds, thresholds, results[..])
    modifies results
    ensures Aligned(ds, thresholds, results[..]) && SameResults(results[..], old(results[..]))
  {
    ghost var was := results[..];
    var byId := Index(results[..]);
    Answered(ds, thresholds, was);
    ByIdAnswers(ds, thresholds, was, byId);
    ghost var wanted := Ordered(byId, ds);
    NothingLost(ds, thresholds, was, byId, wanted);
    Place(ds, byId, results);
  }

  method Place(ds: seq<Decision>, byId: map<string, DecisionResult>, results: array<DecisionResult>)
    requires |ds| == results.Length && forall i :: 0 <= i < |ds| ==> ds[i].id in byId
    modifies results
    ensures results[..] == Ordered(byId, ds)
  {
    var i := 0;
    while i < |ds|
      invariant i <= |ds| && results[..i] == Ordered(byId, ds)[..i]
    {
      results[i] := byId[ds[i].id];
      i := i + 1;
    }
    assert results[..] == results[..i];
  }

  function Ordered(byId: map<string, DecisionResult>, ds: seq<Decision>): seq<DecisionResult>
    requires forall i :: 0 <= i < |ds| ==> ds[i].id in byId
  {
    seq(|ds|, i requires 0 <= i < |ds| => byId[ds[i].id])
  }

  ghost predicate Finds(byId: map<string, DecisionResult>, ds: seq<Decision>, thresholds: map<string, real>,
                        was: seq<DecisionResult>, i: nat)
    requires i < |ds|
  {
    ds[i].id in byId && byId[ds[i].id] in was && Answers(byId[ds[i].id], ds[i], thresholds)
  }

  lemma ByIdAnswers(ds: seq<Decision>, thresholds: map<string, real>, was: seq<DecisionResult>, byId: map<string, DecisionResult>)
    requires forall j :: 0 <= j < |was| ==> was[j].id in byId && byId[was[j].id] == was[j]
    requires forall i :: 0 <= i < |ds| ==> IsAnswered(was, ds[i], thresholds)
    ensures forall i :: 0 <= i < |ds| ==> Finds(byId, ds, thresholds, was, i)
  {
    forall i | 0 <= i < |ds| ensures Finds(byId, ds, thresholds, was, i) {
      assert IsAnswered(was, ds[i], thresholds);
      var j :| 0 <= j < |was| && Answers(was[j], ds[i], thresholds);
      assert byId[was[j].id] == was[j];
    }
  }

  lemma NothingLost(ds: seq<Decision>, thresholds: map<string, real>, was: seq<DecisionResult>,
                    byId: map<string, DecisionResult>, now: seq<DecisionResult>)
    requires ValidReply(ds, thresholds, was) && |now| == |ds|
    requires forall j :: 0 <= j < |was| ==> was[j].id in byId && byId[was[j].id] == was[j]
    requires forall i :: 0 <= i < |ds| ==> Finds(byId, ds, thresholds, was, i) && now[i] == byId[ds[i].id]
    ensures Aligned(ds, thresholds, now) && SameResults(now, was)
  {
    forall i | 0 <= i < |ds| ensures Answers(now[i], ds[i], thresholds) && now[i] in was {
      assert Finds(byId, ds, thresholds, was, i);
    }
    forall r | r in was ensures r in now {
      var j :| 0 <= j < |was| && was[j] == r;
      assert AnswersSome(was[j], ds, thresholds);
      var k :| 0 <= k < |ds| && Answers(was[j], ds[k], thresholds);
      assert now[k] == byId[was[j].id];
    }
  }

  method Index(rs: seq<DecisionResult>) returns (byId: map<string, DecisionResult>)
    requires DistinctResultIds(rs)
    ensures forall j :: 0 <= j < |rs| ==> rs[j].id in byId && byId[rs[j].id] == rs[j]
  {
    byId := map[];
    var j := 0;
    while j < |rs|
      invariant j <= |rs| && forall i :: 0 <= i < j ==> rs[i].id in byId && byId[rs[i].id] == rs[i]
    {
      byId := byId[rs[j].id := rs[j]];
      j := j + 1;
    }
  }

  function ResultIds(rs: seq<DecisionResult>): set<string> { set r | r in rs :: r.id }

  lemma {:induction false} DistinctSize(rs: seq<DecisionResult>)
    requires DistinctResultIds(rs)
    ensures |ResultIds(rs)| == |rs|
  {
    if rs != [] {
      var front, last := rs[..|rs| - 1], rs[|rs| - 1];
      assert rs == front + [last];
      assert ResultIds(rs) == ResultIds(front) + {last.id};
      DistinctSize(front);
    }
  }

  function DecisionIds(ds: seq<Decision>): set<string> { set d | d in ds :: d.id }

  lemma {:induction false} DecisionIdsSize(ds: seq<Decision>)
    ensures |DecisionIds(ds)| <= |ds|
  {
    if ds != [] {
      var front, last := ds[..|ds| - 1], ds[|ds| - 1];
      assert ds == front + [last];
      assert DecisionIds(ds) == DecisionIds(front) + {last.id};
      DecisionIdsSize(front);
    }
  }

  ghost predicate IsAnswered(rs: seq<DecisionResult>, d: Decision, thresholds: map<string, real>) {
    exists j :: 0 <= j < |rs| && Answers(rs[j], d, thresholds)
  }

  /** As many distinct answers as questions, each to a question: every question is answered. */
  lemma Answered(ds: seq<Decision>, thresholds: map<string, real>, rs: seq<DecisionResult>)
    requires ValidReply(ds, thresholds, rs)
    ensures forall i :: 0 <= i < |ds| ==> IsAnswered(rs, ds[i], thresholds)
  {
    DistinctSize(rs);
    DecisionIdsSize(ds);
    forall id | id in ResultIds(rs) ensures id in DecisionIds(ds) {
      var r :| r in rs && r.id == id;
      assert AnswersSome(r, ds, thresholds);
      var i :| 0 <= i < |ds| && Answers(r, ds[i], thresholds);
      assert ds[i] in ds;
    }
    SubsetSize(ResultIds(rs), DecisionIds(ds));
    forall i | 0 <= i < |ds| ensures IsAnswered(rs, ds[i], thresholds) {
      assert ds[i] in ds && ds[i].id in ResultIds(rs);
      var r :| r in rs && r.id == ds[i].id;
      var j :| 0 <= j < |rs| && rs[j] == r;
      assert AnswersSome(rs[j], ds, thresholds);
      var k :| 0 <= k < |ds| && Answers(rs[j], ds[k], thresholds);
      assert k == i;
    }
  }
}

/** The candidate pairs of the dependency advisor: shared/ai/dependencies.go. */
module Candidates {
  import opened Common
  import opened Text
  import opened Dependencies

  datatype Monitor = Monitor(ref: Ref, name: string, tags: seq<string>, groups: seq<string>)

  datatype CoFiring = CoFiring(earlier: Ref, later: Ref, times: int, lead: int, reverse: int)

  datatype Evidence = Evidence(coFires: int, aLeads: int, reverse: int,
                               sharedService: bool, sharedGroup: bool, naming: bool, commonUpstream: bool)

  datatype Candidate = Candidate(a: Ref, b: Ref, e: Evidence)

  datatype Input = Input(monitors: seq<Monitor>, existing: seq<Edge>, coFiring: seq<CoFiring>)

  const NONE := Evidence(0, 0, 0, false, false, false, false)
  const BUDGET := 50

  // ---------- Naming and tag signals ----------

  function LowerChar(c: char): char { if 'A' <= c <= 'Z' then (c as int + 32) as char else c }

  function Lower(s: string): string { seq(|s|, i requires 0 <= i < |s| => LowerChar(s[i])) }

  const GENERIC := {"prod", "production", "dev", "staging", "test"}
  const COMMON_TOKENS := {"http", "tcp", "dns", "api", "db", "prod", "dev", "server", "monitor"}

  predicate Separator(c: char) { c == '-' || c == '_' || c == ' ' || c == '.' }

  /** The maximal runs of non-separators; current is the run being read. */
  function Fields(s: string, current: string): seq<string> {
    if s == [] then (if current == [] then [] else [current])
    else if Separator(s[0]) then (if current == [] then Fields(s[1..], []) else [current] + Fields(s[1..], []))
    else Fields(s[1..], current + [s[0]])
  }

  function Tokens(name: string): seq<string> { Fields(Lower(name), []) }

  predicate Telling(x: string) { |x| >= 3 && x !in COMMON_TOKENS }

  predicate SharedToken(a: string, b: string) {
    exists x :: x in Tokens(a) && Telling(x) && x in Tokens(b)
  }

  predicate Intersects(a: seq<string>, b: seq<string>, ignoreGeneric: bool) {
    exists x :: x in a && x in b && x != [] && !(ignoreGeneric && Lower(x) in GENERIC)
  }

  predicate CommonUpstream(edges: set<Edge>, a: Ref, b: Ref) {
    exists e :: e in edges && e.monitor == a && Edge(b, e.dependsOn) in edges
  }

  // ---------- The evidence of one pair ----------

  function Key(a: Ref, b: Ref): (Ref, Ref) { if Less(b, a) then (b, a) else (a, b) }

  predicate Counts(p: CoFiring, refs: set<Ref>) {
    p.earlier != p.later && p.times >= 1 && p.earlier in refs && p.later in refs
  }

  /** One co-firing row folded into the evidence of its pair. */
  function Folded(e: Evidence, p: CoFiring, k: (Ref, Ref)): Evidence {
    if e.coFires > 0 then e.(reverse := e.reverse + p.times)
    else e.(coFires := p.times, reverse := p.reverse, aLeads := if p.earlier != k.0 then -p.lead else p.lead)
  }

  /** What the co-firing rows say about one pair: the rows of other pairs do not matter. */
  function Timing(ps: seq<CoFiring>, refs: set<Ref>, k: (Ref, Ref)): Evidence {
    if ps == [] then NONE
    else
      var p := ps[|ps| - 1];
      var e := Timing(ps[..|ps| - 1], refs, k);
      if Counts(p, refs) && Key(p.earlier, p.later) == k then Folded(e, p, k) else e
  }

  function Corroborated(e: Evidence, a: Monitor, b: Monitor, edges: set<Edge>): Evidence {
    e.(sharedService := Intersects(a.tags, b.tags, true), sharedGroup := Intersects(a.groups, b.groups, false),
       naming := SharedToken(a.name, b.name), commonUpstream := e.commonUpstream || CommonUpstream(edges, a.ref, b.ref))
  }

  predicate Relevant(e: Evidence) { e.coFires > 0 || e.sharedService || e.sharedGroup || e.naming }

  function Refs(ms: set<Monitor>): set<Ref> { set m | m in ms :: m.ref }

  /** The evidence of a pair, from the monitors and edges as sets. */
  function PairEvidence(ms: set<Monitor>, edges: set<Edge>, ps: seq<CoFiring>, a: Monitor, b: Monitor): Evidence {
    Corroborated(Timing(ps, Refs(ms), Key(a.ref, b.ref)), a, b, edges)
  }

  function Monitors(input: Input): set<Monitor> { set m | m in input.monitors }
  function Existing(input: Input): set<Edge> { set e | e in input.existing }

  predicate Backs(input: Input, c: Candidate, a: Monitor, b: Monitor) {
    && a in Monitors(input) && b in Monitors(input) && a.ref == c.a && b.ref == c.b && Less(c.a, c.b)
    && c.e == PairEvidence(Monitors(input), Existing(input), input.coFiring, a, b) && Relevant(c.e)
  }

  ghost predicate IsCandidate(input: Input, c: Candidate) { exists a, b :: Backs(input, c, a, b) }

  predicate DistinctRefs(ms: seq<Monitor>) {
    forall i, j :: 0 <= i < j < |ms| ==> ms[i].ref != ms[j].ref
  }

  /** Neither the signals nor the evidence depend on which monitor of a pair is named first. */
  lemma SignalsAreSymmetric(e: Evidence, a: Monitor, b: Monitor, edges: set<Edge>)
    ensures Corroborated(e, a, b, edges) == Corroborated(e, b, a, edges)
  {
    if CommonUpstream(edges, a.ref, b.ref) { UpstreamIsSymmetric(edges, a.ref, b.ref); }
    if CommonUpstream(edges, b.ref, a.ref) { UpstreamIsSymmetric(edges, b.ref, a.ref); }
  }

  lemma UpstreamIsSymmetric(edges: set<Edge>, a: Ref, b: Ref)
    requires CommonUpstream(edges, a, b)
    ensures CommonUpstream(edges, b, a)
  {
    var e :| e in edges && e.monitor == a && Edge(b, e.dependsOn) in edges;
    assert Edge(a, e.dependsOn) in edges;
    var f := Edge(b, e.dependsOn);
    assert f in edges && f.monitor == b && Edge(a, f.dependsOn) in edges;
  }

  // ---------- What the signals mean ----------

  const UPPER := "ABCDEFGHIJKLMNOPQRSTUVWXYZ"
  const LOWER := "abcdefghijklmnopqrstuvwxyz"

  lemma Alphabet(k: nat)
    requires k < 26
    ensures UPPER[k] as int == 'A' as int + k && LOWER[k] as int == 'a' as int + k
  {
  }

  /** Lower-casing changes the capital letters, each to its own small letter, and nothing else. */
  lemma LowerMeans(s: string, i: nat)
    requires i < |s|
    ensures |Lower(s)| == |s|
    ensures forall k :: 0 <= k < 26 && s[i] == UPPER[k] ==> Lower(s)[i] == LOWER[k]
    ensures (forall k :: 0 <= k < 26 ==> s[i] != UPPER[k]) ==> Lower(s)[i] == s[i]
  {
    forall k | 0 <= k < 26 && s[i] == UPPER[k] ensures Lower(s)[i] == LOWER[k] { Alphabet(k); }
    if 'A' <= s[i] <= 'Z' { Alphabet(s[i] as int - 'A' as int); }
  }

  predicate Cuts(c: char) { c in "-_ ." }

  /** A maximal stretch without a separator. */
  predicate IsRun(s: string, i: nat, j: nat) {
    && i < j <= |s| && (i == 0 || Cuts(s[i - 1])) && (j == |s| || Cuts(s[j]))
    && forall k :: i <= k < j ==> !Cuts(s[k])
  }

  ghost predicate HasRun(s: string, x: string) { exists i: nat, j: nat :: IsRun(s, i, j) && s[i..j] == x }

  predicate Uncut(s: string) { forall k :: 0 <= k < |s| ==> !Cuts(s[k]) }

  lemma OneRun(s: string, x: string)
    requires Uncut(s)
    ensures HasRun(s, x) <==> s != [] && x == s
  {
    if s != [] { assert IsRun(s, 0, |s|) && s[0..|s|] == s; }
    if i: nat, j: nat :| IsRun(s, i, j) && s[i..j] == x { assert i == 0 && j == |s| && s[0..|s|] == s; }
  }

  lemma RunAfter(a: string, c: char, b: string, i: nat, j: nat)
    requires i < j <= |b|
    ensures var s, n := a + [c] + b, |a| + 1;
            s[i + n..j + n] == b[i..j] && (Cuts(c) ==> (IsRun(b, i, j) <==> IsRun(s, i + n, j + n)))
  {
    var s, n := a + [c] + b, |a| + 1;
    assert forall k :: 0 <= k < |b| ==> s[k + n] == b[k];
    if IsRun(s, i + n, j + n) {
      forall k | i <= k < j ensures !Cuts(b[k]) { assert b[k] == s[k + n]; }
    }
    if IsRun(b, i, j) {
      forall k | i + n <= k < j + n ensures !Cuts(s[k]) { assert s[k] == b[k - n]; }
    }
    assert s[n - 1] == c;
  }

  lemma RunBefore(a: string, c: char, b: string, i: nat, j: nat)
    requires Uncut(a) && Cuts(c)
    ensures var s := a + [c] + b; IsRun(s, i, j) ==> i > |a| || (i == 0 && j == |a| && s[i..j] == a)
    ensures a != [] ==> IsRun(a + [c] + b, 0, |a|) && (a + [c] + b)[0..|a|] == a
  {
    var s := a + [c] + b;
    assert s[|a|] == c && forall k :: 0 <= k < |a| ==> s[k] == a[k];
    assert s[0..|a|] == a;
  }

  lemma RunIsEither(a: string, c: char, b: string, i: nat, j: nat)
    requires Uncut(a) && Cuts(c) && IsRun(a + [c] + b, i, j)
    ensures var x := (a + [c] + b)[i..j]; (a != [] && x == a) || HasRun(b, x)
  {
    var s, n := a + [c] + b, |a| + 1;
    RunBefore(a, c, b, i, j);
    if i > |a| {
      RunAfter(a, c, b, i - n, j - n);
      assert IsRun(b, i - n, j - n) && b[i - n..j - n] == s[i..j];
    }
  }

  lemma RunsSplit(a: string, c: char, b: string, x: string)
    requires Uncut(a) && Cuts(c)
    ensures HasRun(a + [c] + b, x) <==> (a != [] && x == a) || HasRun(b, x)
  {
    var s, n := a + [c] + b, |a| + 1;
    RunBefore(a, c, b, 0, |a|);
    if i: nat, j: nat :| IsRun(b, i, j) && b[i..j] == x {
      RunAfter(a, c, b, i, j);
      assert IsRun(s, i + n, j + n) && s[i + n..j + n] == x;
    }
    if i: nat, j: nat :| IsRun(s, i, j) && s[i..j] == x { RunIsEither(a, c, b, i, j); }
  }

  /** The tokens of a name are its maximal stretches between separators. */
  lemma {:induction false} FieldsAreRuns(s: string, current: string, x: string)
    requires Uncut(current)
    ensures x in Fields(s, current) <==> HasRun(current + s, x)
    decreases |s|
  {
    if s == [] {
      assert current + s == current;
      OneRun(current, x);
    } else if Cuts(s[0]) {
      assert current + s == current + [s[0]] + s[1..] && [] + s[1..] == s[1..];
      RunsSplit(current, s[0], s[1..], x);
      FieldsAreRuns(s[1..], [], x);
    } else {
      assert current + s == (current + [s[0]]) + s[1..];
      FieldsAreRuns(s[1..], current + [s[0]], x);
    }
  }

  /** Two names hint at each other when, in small letters, they share a token of three letters or more that is no common word. */
  ghost predicate NamesHint(a: string, b: string) {
    exists x :: HasRun(Lower(a), x) && HasRun(Lower(b), x) && |x| > 2
             && x != "http" && x != "tcp" && x != "dns" && x != "api" && x != "db" && x != "prod" && x != "dev"
             && x != "server" && x != "monitor"
  }

  lemma NamingMeans(a: string, b: string)
    ensures SharedToken(a, b) <==> NamesHint(a, b)
  {
    forall s: string, x ensures x in Fields(s, []) <==> HasRun(s, x) {
      FieldsAreRuns(s, [], x);
      assert [] + s == s;
    }
    if x :| x in Tokens(a) && Telling(x) && x in Tokens(b) { assert HasRun(Lower(a), x); }
    if x :| HasRun(Lower(a), x) && HasRun(Lower(b), x) && Telling(x) { assert x in Tokens(a); }
  }

  /** A tag that both carry and that does not merely name an environment. */
  ghost predicate TagsHint(a: Monitor, b: Monitor) {
    exists x :: x in a.tags && x in b.tags && x != ""
             && Lower(x) != "prod" && Lower(x) != "production" && Lower(x) != "dev" && Lower(x) != "staging" && Lower(x) != "test"
  }

  ghost predicate GroupsHint(a: Monitor, b: Monitor) { exists g :: g in a.groups && g in b.groups && g != "" }

  /** A co-firing row of two different known monitors, whichever fired first. */
  predicate Fired(input: Input, i: nat, a: Ref, b: Ref)
    requires i < |input.coFiring|
  {
    var p := input.coFiring[i];
    p.times > 0 && ((p.earlier == a && p.later == b) || (p.earlier == b && p.later == a))
  }

  predicate FiredFirst(input: Input, i: nat, a: Ref, b: Ref)
    requires i < |input.coFiring|
  {
    Fired(input, i, a, b) && forall j :: 0 <= j < i ==> !Fired(input, j, a, b)
  }

  /** How often the pair fired again in later rows. */
  function FiredAfter(ps: seq<CoFiring>, a: Ref, b: Ref): int {
    if ps == [] then 0
    else
      var p := ps[0];
      (if p.times > 0 && ((p.earlier == a && p.later == b) || (p.earlier == b && p.later == a)) then p.times else 0)
      + FiredAfter(ps[1..], a, b)
  }

  predicate Known(input: Input, r: Ref) { exists m :: m in input.monitors && m.ref == r }

  lemma KnownIs(input: Input, r: Ref)
    ensures Known(input, r) <==> r in Refs(Monitors(input))
  {
    if Known(input, r) {
      var m :| m in input.monitors && m.ref == r;
      assert m in Monitors(input);
    }
  }

  lemma CountsIs(input: Input, i: nat, a: Ref, b: Ref)
    requires i < |input.coFiring| && Known(input, a) && Known(input, b) && Less(a, b)
    ensures var p := input.coFiring[i];
            Fired(input, i, a, b) <==> Counts(p, Refs(Monitors(input))) && Key(p.earlier, p.later) == (a, b)
  {
    var p := input.coFiring[i];
    KnownIs(input, a);
    KnownIs(input, b);
    LessTotal(a, b);
    LessTotal(p.earlier, p.later);
  }

  lemma {:induction false} FiredAfterAppend(ps: seq<CoFiring>, p: CoFiring, a: Ref, b: Ref)
    ensures FiredAfter(ps + [p], a, b) == FiredAfter(ps, a, b) + FiredAfter([p], a, b)
  {
    if ps == [] {
      assert ps + [p] == [p];
    } else {
      assert (ps + [p])[0] == ps[0] && (ps + [p])[1..] == ps[1..] + [p];
      FiredAfterAppend(ps[1..], p, a, b);
    }
  }

  predicate NeverFired(input: Input, n: nat, a: Ref, b: Ref)
    requires n <= |input.coFiring|
  {
    forall i :: 0 <= i < n ==> !Fired(input, i, a, b)
  }

  /** The first row of a pair decides, and later rows count as the reverse order. */
  predicate TimedFrom(input: Input, i: nat, n: nat, a: Ref, b: Ref, e: Evidence)
    requires i < n <= |input.coFiring|
  {
    var p := input.coFiring[i];
    && FiredFirst(input, i, a, b)
    && e.coFires == p.times && e.aLeads == (if p.earlier == a then p.lead else -p.lead)
    && e.reverse == p.reverse + FiredAfter(input.coFiring[i + 1..n], a, b) && !e.commonUpstream
  }

  /** The timing of a pair from the first n rows. */
  ghost predicate TimingMeans(input: Input, n: nat, a: Ref, b: Ref, e: Evidence)
    requires n <= |input.coFiring|
  {
    if NeverFired(input, n, a, b) then e == NONE else exists i: nat :: i < n && TimedFrom(input, i, n, a, b, e)
  }

  lemma TimedLonger(input: Input, i: nat, n: nat, a: Ref, b: Ref, e: Evidence)
    requires i < n < |input.coFiring| && TimedFrom(input, i, n, a, b, e)
    ensures e.coFires > 0
    ensures TimedFrom(input, i, n + 1, a, b, if Fired(input, n, a, b) then e.(reverse := e.reverse + input.coFiring[n].times) else e)
  {
    var later, p := input.coFiring[i + 1..n], input.coFiring[n];
    assert input.coFiring[i + 1..n + 1] == later + [p];
    FiredAfterAppend(later, p, a, b);
    assert [p][1..] == [] && FiredAfter([p], a, b) == if Fired(input, n, a, b) then p.times else 0;
  }

  lemma TimedFirst(input: Input, n: nat, a: Ref, b: Ref, e: Evidence)
    requires n < |input.coFiring| && NeverFired(input, n, a, b) && Fired(input, n, a, b)
    requires e == Folded(NONE, input.coFiring[n], (a, b))
    ensures TimedFrom(input, n, n + 1, a, b, e)
  {
    assert input.coFiring[n + 1..n + 1] == [];
  }

  lemma TimingNext(input: Input, n: nat, a: Ref, b: Ref, e: Evidence)
    requires n < |input.coFiring| && TimingMeans(input, n, a, b, e)
    ensures TimingMeans(input, n + 1, a, b, if Fired(input, n, a, b) then Folded(e, input.coFiring[n], (a, b)) else e)
  {
    if NeverFired(input, n, a, b) {
      if Fired(input, n, a, b) { TimedFirst(input, n, a, b, Folded(e, input.coFiring[n], (a, b))); }
    } else {
      var i: nat :| i < n && TimedFrom(input, i, n, a, b, e);
      TimedLonger(input, i, n, a, b, e);
      assert Fired(input, i, a, b);
    }
  }

  lemma {:induction false} TimingIs(input: Input, n: nat, a: Ref, b: Ref)
    requires n <= |input.coFiring| && Known(input, a) && Known(input, b) && Less(a, b)
    ensures TimingMeans(input, n, a, b, Timing(input.coFiring[..n], Refs(Monitors(input)), (a, b)))
  {
    if n > 0 {
      TimingIs(input, n - 1, a, b);
      CountsIs(input, n - 1, a, b);
      var ps, refs := input.coFiring[..n], Refs(Monitors(input));
      assert ps[..n - 1] == input.coFiring[..n - 1] && ps[n - 1] == input.coFiring[n - 1];
      TimingNext(input, n - 1, a, b, Timing(input.coFiring[..n - 1], refs, (a, b)));
    }
  }

  ghost predicate EverFired(input: Input, a: Ref, b: Ref) { exists i: nat :: i < |input.coFiring| && Fired(input, i, a, b) }

  /** A pair is a candidate exactly when it fired together or something hints at it, and its evidence is then true. */
  lemma CandidatesMean(input: Input, a: Monitor, b: Monitor, c: Candidate)
    requires DistinctRefs(input.monitors) && a in input.monitors && b in input.monitors && Less(a.ref, b.ref)
    requires c.a == a.ref && c.b == b.ref
    ensures IsCandidate(input, c) ==>
              && (c.e.sharedService <==> TagsHint(a, b)) && (c.e.sharedGroup <==> GroupsHint(a, b))
              && (c.e.naming <==> NamesHint(a.name, b.name))
              && (c.e.commonUpstream <==> exists u :: Edge(c.a, u) in input.existing && Edge(c.b, u) in input.existing)
              && (c.e.coFires > 0 <==> EverFired(input, c.a, c.b))
    ensures (exists e :: IsCandidate(input, Candidate(a.ref, b.ref, e))) <==>
            EverFired(input, a.ref, b.ref) || TagsHint(a, b) || GroupsHint(a, b) || NamesHint(a.name, b.name)
  {
    var e := PairEvidence(Monitors(input), Existing(input), input.coFiring, a, b);
    EvidenceMeans(input, a, b);
    if IsCandidate(input, c) { OnlyEvidence(input, a, b, c); }
    if e' :| IsCandidate(input, Candidate(a.ref, b.ref, e')) { OnlyEvidence(input, a, b, Candidate(a.ref, b.ref, e')); }
    if Relevant(e) { assert Backs(input, Candidate(a.ref, b.ref, e), a, b); }
  }

  lemma OnlyEvidence(input: Input, a: Monitor, b: Monitor, c: Candidate)
    requires DistinctRefs(input.monitors) && a in input.monitors && b in input.monitors && c.a == a.ref && c.b == b.ref && IsCandidate(input, c)
    ensures c.e == PairEvidence(Monitors(input), Existing(input), input.coFiring, a, b) && Relevant(c.e)
  {
    var x, y :| Backs(input, c, x, y);
    RefIsUnique(input.monitors, a, x);
    RefIsUnique(input.monitors, b, y);
  }

  lemma EvidenceMeans(input: Input, a: Monitor, b: Monitor)
    requires a in input.monitors && b in input.monitors && Less(a.ref, b.ref)
    ensures var e := PairEvidence(Monitors(input), Existing(input), input.coFiring, a, b);
            && (e.sharedService <==> TagsHint(a, b)) && (e.sharedGroup <==> GroupsHint(a, b))
            && (e.naming <==> NamesHint(a.name, b.name))
            && (e.commonUpstream <==> exists u :: Edge(a.ref, u) in input.existing && Edge(b.ref, u) in input.existing)
            && (e.coFires > 0 <==> EverFired(input, a.ref, b.ref))
            && (Relevant(e) <==> EverFired(input, a.ref, b.ref) || TagsHint(a, b) || GroupsHint(a, b) || NamesHint(a.name, b.name))
  {
    assert Known(input, a.ref) && Known(input, b.ref);
    NamingMeans(a.name, b.name);
    TimingFires(input, a.ref, b.ref);
    UpstreamIs(input, a.ref, b.ref);
  }

  lemma TimingFires(input: Input, a: Ref, b: Ref)
    requires Known(input, a) && Known(input, b) && Less(a, b)
    ensures var e := Timing(input.coFiring, Refs(Monitors(input)), Key(a, b));
            (e.coFires > 0 <==> EverFired(input, a, b)) && !e.commonUpstream
  {
    LessTotal(a, b);
    TimingIs(input, |input.coFiring|, a, b);
    assert input.coFiring[..|input.coFiring|] == input.coFiring;
  }

  lemma UpstreamIs(input: Input, a: Ref, b: Ref)
    ensures CommonUpstream(Existing(input), a, b) <==> exists u :: Edge(a, u) in input.existing && Edge(b, u) in input.existing
  {
    if e :| e in Existing(input) && e.monitor == a && Edge(b, e.dependsOn) in Existing(input) {
      assert e == Edge(a, e.dependsOn);
    }
    if u :| Edge(a, u) in input.existing && Edge(b, u) in input.existing {
      assert Edge(a, u) in Existing(input) && Edge(b, u) in Existing(input) && Edge(a, u).monitor == a;
    }
  }

  // ---------- The ranking ----------

  function Rank(e: Evidence): int {
    (if e.sharedService then 4 else 0) + (if e.sharedGroup then 2 else 0) + (if e.naming then 1 else 0)
  }

  predicate Before(x: Candidate, y: Candidate) {
    if x.e.coFires != y.e.coFires then x.e.coFires > y.e.coFires
    else if Rank(x.e) != Rank(y.e) then Rank(x.e) > Rank(y.e)
    else if x.a != y.a then Less(x.a, y.a)
    else Less(x.b, y.b)
  }

  /** Best evidence first: more co-firings, then a shared service, then a shared group, then a naming hint, then the refs. */
  predicate NoWorse(x: Candidate, y: Candidate) {
    && x.e.coFires >= y.e.coFires
    && (x.e.coFires == y.e.coFires ==>
          && (y.e.sharedService ==> x.e.sharedService)
          && (x.e.sharedService == y.e.sharedService ==>
                && (y.e.sharedGroup ==> x.e.sharedGroup)
                && (x.e.sharedGroup == y.e.sharedGroup ==>
                      && (y.e.naming ==> x.e.naming)
                      && (x.e.naming == y.e.naming ==> x.a == y.a || Less(x.a, y.a))
                      && (x.e.naming == y.e.naming && x.a == y.a ==> x.b == y.b || Less(x.b, y.b)))))
  }

  lemma BeforeMeans(x: Candidate, y: Candidate)
    requires Before(x, y)
    ensures NoWorse(x, y)
  {
  }

  lemma BeforeIsStrict(x: Candidate, y: Candidate)
    ensures !(Before(x, y) && Before(y, x)) && !Before(x, x)
    ensures (x.a, x.b) != (y.a, y.b) ==> Before(x, y) || Before(y, x)
  {
    LessTotal(x.a, y.a);
    LessTotal(x.b, y.b);
    LessIrreflexive(x.b);
  }

  lemma BeforeIsTransitive(x: Candidate, y: Candidate, z: Candidate)
    requires Before(x, y) && Before(y, z)
    ensures Before(x, z)
  {
    if Less(x.a, y.a) && Less(y.a, z.a) { LessTransitive(x.a, y.a, z.a); }
    if Less(x.b, y.b) && Less(y.b, z.b) { LessTransitive(x.b, y.b, z.b); }
    LessTotal(x.a, z.a);
  }

  predicate Ranked(cs: seq<Candidate>) { forall i, j :: 0 <= i < j < |cs| ==> Before(cs[i], cs[j]) }

  /** A ranked list is determined by what it holds. */
  lemma {:induction false} RankedIsUnique(xs: seq<Candidate>, ys: seq<Candidate>)
    requires Ranked(xs) && Ranked(ys) && forall c :: c in xs <==> c in ys
    ensures xs == ys
  {
    assert ys != [] ==> ys[0] in ys && ys[0] in xs;
    if xs != [] {
      assert xs[0] in ys;
      assert ys[0] in xs;
      assert xs[0] == ys[0] by {
        if xs[0] != ys[0] {
          var i :| 0 <= i < |ys| && ys[i] == xs[0];
          var j :| 0 <= j < |xs| && xs[j] == ys[0];
          BeforeIsStrict(xs[0], ys[0]);
        }
      }
      TailHolds(xs, ys);
      TailHolds(ys, xs);
      RankedIsUnique(xs[1..], ys[1..]);
    }
  }

  lemma TailHolds(xs: seq<Candidate>, ys: seq<Candidate>)
    requires xs != [] && ys != [] && xs[0] == ys[0] && Ranked(xs) && forall c :: c in xs ==> c in ys
    ensures forall c :: c in xs[1..] ==> c in ys[1..]
  {
    forall c | c in xs[1..] ensures c in ys[1..] {
      var i :| 0 <= i < |xs[1..]| && xs[1..][i] == c;
      assert xs[i + 1] == c && Before(xs[0], xs[i + 1]);
      BeforeIsStrict(c, c);
      assert c in ys;
      assert ys == [ys[0]] + ys[1..];
    }
  }

  // ---------- Candidate lists ----------

  ghost predicate IsCandidateList(input: Input, out: seq<Candidate>) {
    Ranked(out) && forall c :: c in out <==> IsCandidate(input, c)
  }

  /** The list depends on the monitors and the existing edges only as sets. */
  lemma OrderDoesNotMatter(input: Input, other: Input, out: seq<Candidate>, out': seq<Candidate>)
    requires Monitors(input) == Monitors(other) && Existing(input) == Existing(other) && input.coFiring == other.coFiring
    requires IsCandidateList(input, out) && IsCandidateList(other, out')
    ensures out == out'
  {
    forall c ensures IsCandidate(input, c) <==> IsCandidate(other, c) {
      if a, b :| Backs(input, c, a, b) { assert Backs(other, c, a, b); }
      if a, b :| Backs(other, c, a, b) { assert Backs(input, c, a, b); }
    }
    RankedIsUnique(out, out');
  }

  lemma RefIsUnique(ms: seq<Monitor>, a: Monitor, b: Monitor)
    requires DistinctRefs(ms) && a in ms && b in ms && a.ref == b.ref
    ensures a == b
  {
    var i :| 0 <= i < |ms| && ms[i] == a;
    var j :| 0 <= j < |ms| && ms[j] == b;
  }

  /** With distinct refs each pair is listed once, smaller ref first. */
  lemma PairsAppearOnce(input: Input, out: seq<Candidate>, i: nat, j: nat)
    requires DistinctRefs(input.monitors) && IsCandidateList(input, out) && i < j < |out|
    ensures Less(out[i].a, out[i].b) && (out[i].a, out[i].b) != (out[j].a, out[j].b)
  {
    assert out[i] in out && out[j] in out;
    var a, b :| Backs(input, out[i], a, b);
    var a', b' :| Backs(input, out[j], a', b');
    if (out[i].a, out[i].b) == (out[j].a, out[j].b) {
      RefIsUnique(input.monitors, a, a');
      RefIsUnique(input.monitors, b, b');
      BeforeIsStrict(out[i], out[j]);
    }
  }
}

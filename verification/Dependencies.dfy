/** The dependency graph and its cycle check: WouldCycle and SuggestDependencies of shared/ai/dependencies.go. */
module Dependencies {

  type Ref = string

  /** Monitor depends on dependsOn. */
  datatype Edge = Edge(monitor: Ref, dependsOn: Ref)

  // ---------- Paths ----------

  predicate IsPath(edges: seq<Edge>, p: seq<Ref>) {
    p != [] && forall i :: 0 <= i < |p| - 1 ==> Edge(p[i], p[i + 1]) in edges
  }

  predicate Joins(edges: seq<Edge>, p: seq<Ref>, a: Ref, b: Ref) {
    IsPath(edges, p) && p[0] == a && p[|p| - 1] == b
  }

  ghost predicate Reaches(edges: seq<Edge>, a: Ref, b: Ref) { exists p :: Joins(edges, p, a, b) }

  /** No monitor depends on itself through one or more edges. */
  ghost predicate Acyclic(edges: seq<Edge>) {
    forall p :: IsPath(edges, p) && |p| >= 2 ==> p[0] != p[|p| - 1]
  }

  lemma ReachesSelf(edges: seq<Edge>, a: Ref)
    ensures Reaches(edges, a, a)
  {
    assert Joins(edges, [a], a, a);
  }

  lemma ReachesEdge(edges: seq<Edge>, a: Ref, b: Ref, c: Ref)
    requires Edge(a, b) in edges && Reaches(edges, b, c)
    ensures Reaches(edges, a, c)
  {
    var p :| Joins(edges, p, b, c);
    var q := [a] + p;
    forall i | 0 <= i < |q| - 1 ensures Edge(q[i], q[i + 1]) in edges {
      if i > 0 { assert Edge(p[i - 1], p[i - 1 + 1]) in edges; }
    }
    assert Joins(edges, q, a, c);
  }

  lemma ReachesThrough(edges: seq<Edge>, a: Ref, b: Ref, c: Ref)
    requires Reaches(edges, a, b) && Reaches(edges, b, c)
    ensures Reaches(edges, a, c)
  {
    var p :| Joins(edges, p, a, b);
    PathThrough(edges, p, c);
  }

  lemma {:induction false} PathThrough(edges: seq<Edge>, p: seq<Ref>, c: Ref)
    requires IsPath(edges, p) && Reaches(edges, p[|p| - 1], c)
    ensures Reaches(edges, p[0], c)
  {
    if |p| > 1 {
      TailIsPath(edges, p);
      PathThrough(edges, p[1..], c);
      ReachesEdge(edges, p[0], p[1], c);
    }
  }

  lemma TailIsPath(edges: seq<Edge>, p: seq<Ref>)
    requires IsPath(edges, p) && |p| > 1
    ensures IsPath(edges, p[1..]) && Edge(p[0], p[1]) in edges
  {
    assert Edge(p[0], p[0 + 1]) in edges;
    forall i | 0 <= i < |p[1..]| - 1 ensures Edge(p[1..][i], p[1..][i + 1]) in edges {
      assert Edge(p[i + 1], p[i + 1 + 1]) in edges;
    }
  }

  lemma ReachesGrows(edges: seq<Edge>, more: seq<Edge>, a: Ref, b: Ref)
    requires Reaches(edges, a, b)
    ensures Reaches(edges + more, a, b)
  {
    var p :| Joins(edges, p, a, b);
    assert Joins(edges + more, p, a, b);
  }

  /** A set closed under the edges is never left. */
  lemma {:induction false} ClosedIsNeverLeft(edges: seq<Edge>, p: seq<Ref>, inside: set<Ref>)
    requires IsPath(edges, p) && p[0] in inside
    requires forall e :: e in edges && e.monitor in inside ==> e.dependsOn in inside
    ensures p[|p| - 1] in inside
  {
    if |p| > 1 {
      TailIsPath(edges, p);
      ClosedIsNeverLeft(edges, p[1..], inside);
    }
  }

  // ---------- Adding one edge ----------

  /** A path after adding an edge either avoids it, or runs to its start and on from its end. */
  lemma {:induction false} PathWithEdge(edges: seq<Edge>, e: Edge, p: seq<Ref>)
    requires IsPath(edges + [e], p)
    ensures IsPath(edges, p) || (Reaches(edges, p[0], e.monitor) && Reaches(edges, e.dependsOn, p[|p| - 1]))
  {
    if |p| > 1 {
      TailIsPath(edges + [e], p);
      var q := p[1..];
      PathWithEdge(edges, e, q);
      if Edge(p[0], p[1]) in edges {
        if IsPath(edges, q) { PrependOk(edges, p); } else { ReachesEdge(edges, p[0], p[1], e.monitor); }
      } else {
        ReachesSelf(edges, p[0]);
        if IsPath(edges, q) { assert Joins(edges, q, e.dependsOn, p[|p| - 1]); }
      }
    }
  }

  lemma PrependOk(edges: seq<Edge>, p: seq<Ref>)
    requires |p| > 1 && Edge(p[0], p[1]) in edges && IsPath(edges, p[1..])
    ensures IsPath(edges, p)
  {
    forall i | 0 <= i < |p| - 1 ensures Edge(p[i], p[i + 1]) in edges {
      if i > 0 { assert Edge(p[1..][i - 1], p[1..][i - 1 + 1]) in edges; }
    }
  }

  /** The question WouldCycle answers: an acyclic graph stays acyclic exactly when the new upstream does not lead back. */
  lemma AddEdgeAcyclic(edges: seq<Edge>, monitor: Ref, upstream: Ref)
    requires Acyclic(edges)
    ensures Acyclic(edges + [Edge(monitor, upstream)]) <==> !Reaches(edges, upstream, monitor)
  {
    var e := Edge(monitor, upstream);
    if Reaches(edges, upstream, monitor) {
      var p :| Joins(edges, p, upstream, monitor);
      var q := [monitor] + p;
      assert q[1..] == p;
      assert IsPath(edges + [e], q[1..]);
      PrependOk(edges + [e], q);
      assert q[0] == q[|q| - 1];
    } else {
      forall p | IsPath(edges + [e], p) && |p| >= 2 ensures p[0] != p[|p| - 1] {
        PathWithEdge(edges, e, p);
        if p[0] == p[|p| - 1] && !IsPath(edges, p) { ReachesThrough(edges, upstream, p[0], monitor); }
      }
    }
  }

  // ---------- The worklist ----------

  /** The adjacency list of one monitor, in edge order. */
  function Upstreams(edges: seq<Edge>, n: Ref): seq<Ref> {
    if edges == [] then []
    else
      var rest := Upstreams(edges[..|edges| - 1], n);
      if edges[|edges| - 1].monitor == n then rest + [edges[|edges| - 1].dependsOn] else rest
  }

  lemma {:induction false} UpstreamsAreEdges(edges: seq<Edge>, n: Ref, u: Ref)
    ensures u in Upstreams(edges, n) <==> Edge(n, u) in edges
  {
    if edges != [] {
      var front := edges[..|edges| - 1];
      assert edges == front + [edges[|edges| - 1]];
      UpstreamsAreEdges(front, n, u);
    }
  }

  ghost predicate IsGraph(graph: map<Ref, seq<Ref>>, edges: seq<Edge>) {
    forall n :: (if n in graph then graph[n] else []) == Upstreams(edges, n)
  }

  method BuildGraph(edges: seq<Edge>) returns (graph: map<Ref, seq<Ref>>)
    ensures IsGraph(graph, edges)
  {
    graph := map[];
    var i := 0;
    while i < |edges|
      invariant i <= |edges| && IsGraph(graph, edges[..i])
    {
      var e := edges[i];
      assert edges[..i + 1][..i] == edges[..i];
      graph := graph[e.monitor := (if e.monitor in graph then graph[e.monitor] else []) + [e.dependsOn]];
      i := i + 1;
    }
    assert edges[..i] == edges;
  }

  function Targets(edges: seq<Edge>): set<Ref> { set e | e in edges :: e.dependsOn }

  ghost predicate AllReached(edges: seq<Edge>, upstream: Ref, ns: seq<Ref>) {
    forall n :: n in ns ==> Reaches(edges, upstream, n)
  }

  predicate Explored(edges: seq<Edge>, visited: set<Ref>, todo: seq<Ref>) {
    forall e :: e in edges && e.monitor in visited ==> e.dependsOn in visited || e.dependsOn in todo
  }

  lemma ReachesNext(edges: seq<Edge>, upstream: Ref, n: Ref)
    requires Reaches(edges, upstream, n)
    ensures AllReached(edges, upstream, Upstreams(edges, n))
  {
    forall u | u in Upstreams(edges, n) ensures Reaches(edges, upstream, u) {
      UpstreamsAreEdges(edges, n, u);
      ReachesSelf(edges, u);
      ReachesEdge(edges, n, u, u);
      ReachesThrough(edges, upstream, n, u);
    }
  }

  lemma NextAreTargets(edges: seq<Edge>, n: Ref)
    ensures forall u :: u in Upstreams(edges, n) <==> Edge(n, u) in edges
    ensures forall u :: u in Upstreams(edges, n) ==> u in Targets(edges)
  {
    forall u ensures u in Upstreams(edges, n) <==> Edge(n, u) in edges { UpstreamsAreEdges(edges, n, u); }
  }

  lemma NeverReached(edges: seq<Edge>, visited: set<Ref>, upstream: Ref, monitor: Ref)
    requires Explored(edges, visited, []) && upstream in visited && monitor !in visited
    ensures !Reaches(edges, upstream, monitor)
  {
    if p :| Joins(edges, p, upstream, monitor) { ClosedIsNeverLeft(edges, p, visited); }
  }

  lemma PopShrinks(nodes: set<Ref>, visited: set<Ref>, n: Ref)
    requires n in nodes && n !in visited
    ensures |nodes - (visited + {n})| < |nodes - visited|
  {
    assert nodes - visited == (nodes - (visited + {n})) + {n};
  }

  lemma ExploredNext(edges: seq<Edge>, visited: set<Ref>, todo: seq<Ref>, n: Ref)
    requires Explored(edges, visited, todo + [n])
    ensures n in visited ==> Explored(edges, visited, todo)
    ensures Explored(edges, visited + {n}, todo + Upstreams(edges, n))
  {
    NextAreTargets(edges, n);
    var next := todo + Upstreams(edges, n);
    forall e | e in edges && e.monitor in visited + {n} ensures e.dependsOn in visited + {n} || e.dependsOn in next {
      if e.monitor == n { assert Edge(n, e.dependsOn) in edges; }
    }
  }

  /** Does the monitor already lie upstream of its proposed upstream? */
  method WouldCycle(edges: seq<Edge>, monitor: Ref, upstream: Ref) returns (cycle: bool)
    ensures cycle <==> Reaches(edges, upstream, monitor)
  {
    var graph := BuildGraph(edges);
    var visited: set<Ref> := {};
    var todo := [upstream];
    ghost var nodes := Targets(edges) + {upstream};
    ReachesSelf(edges, upstream);
    while |todo| > 0
      invariant visited <= nodes && (forall n :: n in todo ==> n in nodes)
      invariant monitor !in visited && (upstream in visited || upstream in todo)
      invariant Explored(edges, visited, todo) && AllReached(edges, upstream, todo)
      decreases |nodes - visited|, |todo|
    {
      var n := todo[|todo| - 1];
      ghost var before := todo;
      todo := todo[..|todo| - 1];
      assert before == todo + [n];
      if n == monitor { return true; }
      ExploredNext(edges, visited, todo, n);
      if n in visited { continue; }
      PopShrinks(nodes, visited, n);
      ReachesNext(edges, upstream, n);
      NextAreTargets(edges, n);
      visited := visited + {n};
      todo := todo + (if n in graph then graph[n] else []);
    }
    NeverReached(edges, visited, upstream, monitor);
    return false;
  }
}

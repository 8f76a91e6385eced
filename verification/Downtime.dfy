/**
 Downtime spans of a scope: mergeDowntimePeriods, buildScopeDowntime and loadRollupDowntime of
 shared/analytics/repository.go. A period is a closed span of time, and touching periods are one outage.
 */
module Downtime {

  type Instant = real
  type MonitorId = int

  datatype Period = Period(start: Instant, end: Instant, isOpen: bool)

  predicate Proper(p: Period) { p.start <= p.end }

  predicate AllProper(ps: seq<Period>) { forall i :: 0 <= i < |ps| ==> Proper(ps[i]) }

  predicate Within(p: Period, t: Instant) { p.start <= t <= p.end }

  predicate Down(ps: seq<Period>, t: Instant) { exists i :: 0 <= i < |ps| && Within(ps[i], t) }

  /** Sorted, and no two spans touch. */
  predicate Separated(ps: seq<Period>) { forall i, j :: 0 <= i < j < |ps| ==> ps[i].end < ps[j].start }

  /** Some open period of the list begins inside the span. */
  predicate HasOpen(ps: seq<Period>, span: Period) { exists i :: 0 <= i < |ps| && ps[i].isOpen && Within(span, ps[i].start) }

  predicate OpenOk(ps: seq<Period>, out: seq<Period>) {
    forall k :: 0 <= k < |out| ==> (out[k].isOpen <==> HasOpen(ps, out[k]))
  }

  /** The exact union of the periods, as strictly separated spans, open exactly where a member is. */
  ghost predicate IsMerged(ps: seq<Period>, out: seq<Period>) {
    && AllProper(out) && Separated(out) && OpenOk(ps, out)
    && forall t :: Down(out, t) <==> Down(ps, t)
  }

  // ---------- Sorting ----------

  predicate NotAfter(p: Period, q: Period) { p.start < q.start || (p.start == q.start && p.end <= q.end) }

  predicate Sorted(ps: seq<Period>) { forall i, j :: 0 <= i < j < |ps| ==> NotAfter(ps[i], ps[j]) }

  function Insert(ps: seq<Period>, p: Period): seq<Period> {
    if ps == [] || NotAfter(p, ps[0]) then [p] + ps else [ps[0]] + Insert(ps[1..], p)
  }

  ghost predicate SamePeriods(a: seq<Period>, b: seq<Period>) { forall p :: p in a <==> p in b }

  lemma {:induction false} InsertOk(ps: seq<Period>, p: Period)
    requires Sorted(ps)
    ensures Sorted(Insert(ps, p)) && forall q :: q in Insert(ps, p) <==> q in ps || q == p
  {
    if ps != [] && !NotAfter(p, ps[0]) {
      InsertOk(ps[1..], p);
      var rest := Insert(ps[1..], p);
      assert ps == [ps[0]] + ps[1..];
      forall i | 0 <= i < |rest| ensures NotAfter(ps[0], rest[i]) {
        assert rest[i] in rest;
      }
    }
  }

  method Sort(ps: seq<Period>) returns (out: seq<Period>)
    ensures Sorted(out) && SamePeriods(out, ps)
  {
    out := [];
    var i := 0;
    while i < |ps|
      invariant i <= |ps| && Sorted(out) && SamePeriods(out, ps[..i])
    {
      InsertOk(out, ps[i]);
      out := Insert(out, ps[i]);
      assert ps[..i + 1] == ps[..i] + [ps[i]];
      i := i + 1;
    }
    assert ps[..i] == ps;
  }

  // ---------- Merging ----------

  lemma SameDown(a: seq<Period>, b: seq<Period>, t: Instant)
    requires SamePeriods(a, b) && Down(a, t)
    ensures Down(b, t)
  {
    var i :| 0 <= i < |a| && Within(a[i], t);
    assert a[i] in b;
  }

  lemma SameHasOpen(a: seq<Period>, b: seq<Period>, span: Period)
    requires SamePeriods(a, b) && HasOpen(a, span)
    ensures HasOpen(b, span)
  {
    var i :| 0 <= i < |a| && a[i].isOpen && Within(span, a[i].start);
    assert a[i] in b;
  }

  /** What a merge says depends only on which periods there are. */
  lemma MergedOfSame(a: seq<Period>, b: seq<Period>, out: seq<Period>)
    requires SamePeriods(a, b) && IsMerged(a, out)
    ensures IsMerged(b, out)
  {
    forall t ensures Down(a, t) <==> Down(b, t) {
      if Down(a, t) { SameDown(a, b, t); }
      if Down(b, t) { SameDown(b, a, t); }
    }
    forall k | 0 <= k < |out| ensures HasOpen(a, out[k]) <==> HasOpen(b, out[k]) {
      if HasOpen(a, out[k]) { SameHasOpen(a, b, out[k]); }
      if HasOpen(b, out[k]) { SameHasOpen(b, a, out[k]); }
    }
  }

  function Extended(last: Period, p: Period): Period {
    Period(last.start, if p.end > last.end then p.end else last.end, last.isOpen || p.isOpen)
  }

  lemma DownAppend(ps: seq<Period>, p: Period, t: Instant)
    ensures Down(ps + [p], t) <==> Down(ps, t) || Within(p, t)
  {
    var qs := ps + [p];
    if i :| 0 <= i < |qs| && Within(qs[i], t) && i < |ps| { assert Within(ps[i], t); }
    if i :| 0 <= i < |ps| && Within(ps[i], t) { assert Within(qs[i], t); }
    if Within(p, t) { assert Within(qs[|ps|], t); }
  }

  lemma HasOpenAppend(ps: seq<Period>, p: Period, span: Period)
    ensures HasOpen(ps + [p], span) <==> HasOpen(ps, span) || (p.isOpen && Within(span, p.start))
  {
    var qs := ps + [p];
    if i :| 0 <= i < |qs| && qs[i].isOpen && Within(span, qs[i].start) && i < |ps| { assert ps[i].isOpen; }
    if i :| 0 <= i < |ps| && ps[i].isOpen && Within(span, ps[i].start) { assert qs[i].isOpen; }
    if p.isOpen && Within(span, p.start) { assert qs[|ps|].isOpen; }
  }

  /** No period seen so far begins after the last span; none begins after p. */
  predicate Behind(ps: seq<Period>, out: seq<Period>) {
    out != [] && forall i :: 0 <= i < |ps| ==> ps[i].start <= out[|out| - 1].end
  }

  /** The exact union of the periods as strictly separated spans, whether or not the periods run forwards. */
  ghost predicate IsUnion(ps: seq<Period>, out: seq<Period>) { Separated(out) && forall t :: Down(out, t) <==> Down(ps, t) }

  lemma StartsUnion(ps: seq<Period>, out: seq<Period>, p: Period)
    requires out != [] && IsUnion(ps, out) && out[|out| - 1].start <= p.start && p.start > out[|out| - 1].end
    ensures IsUnion(ps + [p], out + [p])
  {
    var last, next := out[|out| - 1], out + [p];
    forall t ensures Down(next, t) <==> Down(ps + [p], t) {
      DownAppend(out, p, t);
      DownAppend(ps, p, t);
    }
    forall i | 0 <= i < |out| ensures out[i].end < p.start { assert i < |out| - 1 ==> out[i].end < last.start; }
  }

  lemma ExtendsUnion(ps: seq<Period>, out: seq<Period>, p: Period)
    requires out != [] && IsUnion(ps, out) && out[|out| - 1].start <= p.start <= out[|out| - 1].end
    ensures var n := |out| - 1; IsUnion(ps + [p], out[n := Extended(out[n], p)])
  {
    ExtendKeepsSpan(out, p);
    var n := |out| - 1;
    forall t ensures Down(out[n := Extended(out[n], p)], t) <==> Down(ps + [p], t) { DownAppend(ps, p, t); }
  }

  lemma UnionOfSame(a: seq<Period>, b: seq<Period>, out: seq<Period>)
    requires SamePeriods(a, b) && IsUnion(a, out)
    ensures IsUnion(b, out)
  {
    forall t ensures Down(a, t) <==> Down(b, t) {
      if Down(a, t) { SameDown(a, b, t); }
      if Down(b, t) { SameDown(b, a, t); }
    }
  }

  lemma StartsBehind(ps: seq<Period>, out: seq<Period>, p: Period)
    requires Behind(ps, out) && IsMerged(ps, out) && Proper(p)
    requires p.start > out[|out| - 1].end
    ensures IsMerged(ps + [p], out + [p]) && Behind(ps + [p], out + [p])
  {
    var last, qs, next := out[|out| - 1], ps + [p], out + [p];
    forall t ensures Down(next, t) <==> Down(qs, t) {
      DownAppend(out, p, t);
      DownAppend(ps, p, t);
    }
    assert Separated(next) by {
      forall i | 0 <= i < |out| ensures out[i].end < p.start { assert i < |out| - 1 ==> out[i].end < last.start; }
    }
    forall k | 0 <= k < |next| ensures next[k].isOpen <==> HasOpen(qs, next[k]) {
      HasOpenAppend(ps, p, next[k]);
      if k < |out| { assert out[k].isOpen <==> HasOpen(ps, out[k]); }
    }
  }

  lemma ExtendKeepsSpan(out: seq<Period>, p: Period)
    requires Separated(out) && out != []
    requires out[|out| - 1].start <= p.start <= out[|out| - 1].end
    ensures var n := |out| - 1; var next := out[n := Extended(out[n], p)];
            (AllProper(out) ==> AllProper(next)) && Separated(next) && forall t :: Down(next, t) <==> Down(out, t) || Within(p, t)
  {
    var n := |out| - 1;
    var next := out[n := Extended(out[n], p)];
    forall t ensures Down(next, t) <==> Down(out, t) || Within(p, t) {
      if i :| 0 <= i < |next| && Within(next[i], t) { if i < n { assert Within(out[i], t); } else { assert Within(out[n], t) || Within(p, t); } }
      if i :| 0 <= i < |out| && Within(out[i], t) { assert Within(next[i], t); }
      if Within(p, t) { assert Within(next[n], t); }
    }
  }

  lemma Extends(ps: seq<Period>, out: seq<Period>, p: Period)
    requires Behind(ps, out) && IsMerged(ps, out) && Proper(p)
    requires out[|out| - 1].start <= p.start <= out[|out| - 1].end
    ensures var n := |out| - 1; var next := out[n := Extended(out[n], p)];
            IsMerged(ps + [p], next) && Behind(ps + [p], next)
  {
    var n := |out| - 1;
    var qs, next := ps + [p], out[n := Extended(out[n], p)];
    ExtendKeepsSpan(out, p);
    forall t ensures Down(next, t) <==> Down(qs, t) { DownAppend(ps, p, t); }
    forall k | 0 <= k < |next| ensures next[k].isOpen <==> HasOpen(qs, next[k]) {
      assert out[k].isOpen <==> HasOpen(ps, out[k]);
      HasOpenAppend(ps, p, next[k]);
      if k == n { SameOpens(ps, out[n], next[n]); }
    }
  }

  lemma SameOpens(ps: seq<Period>, a: Period, b: Period)
    requires a.start == b.start && a.end <= b.end && forall i :: 0 <= i < |ps| ==> ps[i].start <= a.end
    ensures HasOpen(ps, a) <==> HasOpen(ps, b)
  {
    if i :| 0 <= i < |ps| && ps[i].isOpen && Within(b, ps[i].start) { assert Within(a, ps[i].start); }
    if i :| 0 <= i < |ps| && ps[i].isOpen && Within(a, ps[i].start) { assert Within(b, ps[i].start); }
  }

  lemma SingleMerged(p: Period)
    requires Proper(p)
    ensures IsMerged([p], [p]) && Behind([p], [p])
  {
    assert HasOpen([p], p) <==> p.isOpen by { if p.isOpen { assert [p][0].isOpen && Within(p, [p][0].start); } }
  }

  ghost predicate MergedSoFar(ps: seq<Period>, out: seq<Period>, proper: bool) {
    IsUnion(ps, out) && (proper ==> IsMerged(ps, out) && Behind(ps, out))
  }

  /** One period more, in order of the starts: it extends the last span or begins a new one. */
  lemma MergeOne(ps: seq<Period>, out: seq<Period>, p: Period, proper: bool)
    requires out != [] && out[|out| - 1].start <= p.start && MergedSoFar(ps, out, proper) && (proper ==> Proper(p))
    ensures var n := |out| - 1;
            MergedSoFar(ps + [p], if p.start <= out[n].end then out[n := Extended(out[n], p)] else out + [p], proper)
  {
    if p.start <= out[|out| - 1].end {
      ExtendsUnion(ps, out, p);
      if proper { Extends(ps, out, p); }
    } else {
      StartsUnion(ps, out, p);
      if proper { StartsBehind(ps, out, p); }
    }
  }

  /** For any periods the exact union as separated spans; for periods that run forwards, the canonical merge. */
  method MergeDowntimePeriods(periods: seq<Period>) returns (merged: seq<Period>)
    ensures IsUnion(periods, merged)
    ensures AllProper(periods) ==> IsMerged(periods, merged)
  {
    if periods == [] { return []; }
    var ps := Sort(periods);
    SortedProper(periods, ps);
    merged := [ps[0]];
    if AllProper(periods) { SingleMerged(ps[0]); }
    assert ps[..1] == [ps[0]];
    var i := 1;
    while i < |ps|
      invariant 1 <= i <= |ps| && merged != [] && MergedSoFar(ps[..i], merged, AllProper(periods))
      invariant merged[|merged| - 1].start <= ps[i - 1].start
    {
      var last := merged[|merged| - 1];
      assert NotAfter(ps[i - 1], ps[i]);
      assert ps[..i + 1] == ps[..i] + [ps[i]];
      MergeOne(ps[..i], merged, ps[i], AllProper(periods));
      merged := if ps[i].start <= last.end then merged[|merged| - 1 := Extended(last, ps[i])] else merged + [ps[i]];
      i := i + 1;
    }
    assert ps[..i] == ps;
    UnionOfSame(ps, periods, merged);
    if AllProper(periods) { MergedOfSame(ps, periods, merged); }
  }

  lemma SortedProper(periods: seq<Period>, ps: seq<Period>)
    requires SamePeriods(ps, periods) && periods != []
    ensures (AllProper(periods) ==> AllProper(ps)) && ps != []
  {
    assert periods[0] in ps;
    forall i | 0 <= i < |ps| ensures ps[i] in periods { assert ps[i] in ps; }
  }

  // ---------- The merge is canonical ----------

  lemma FirstStart(xs: seq<Period>, ys: seq<Period>)
    requires AllProper(xs) && Separated(xs) && AllProper(ys) && xs != [] && ys != []
    requires forall t :: Down(ys, t) ==> Down(xs, t)
    ensures xs[0].start <= ys[0].start
  {
    assert Within(ys[0], ys[0].start) && Down(ys, ys[0].start);
    var i :| 0 <= i < |xs| && Within(xs[i], ys[0].start);
    assert i > 0 ==> xs[0].end < xs[i].start;
  }

  lemma FirstEnd(xs: seq<Period>, ys: seq<Period>)
    requires AllProper(xs) && Separated(xs) && AllProper(ys) && xs != [] && ys != []
    requires xs[0].start == ys[0].start && forall t :: Down(ys, t) ==> Down(xs, t)
    ensures ys[0].end <= xs[0].end
  {
    if ys[0].end > xs[0].end {
      var limit := if |xs| > 1 && xs[1].start < ys[0].end then xs[1].start else ys[0].end;
      var t := (xs[0].end + limit) / 2.0;
      assert xs[0].end < t < limit;
      assert Within(ys[0], t) && Down(ys, t);
    }
  }

  lemma TailDown(xs: seq<Period>, t: Instant)
    requires AllProper(xs) && Separated(xs) && xs != []
    ensures Down(xs[1..], t) <==> Down(xs, t) && !Within(xs[0], t)
  {
    if i :| 0 <= i < |xs[1..]| && Within(xs[1..][i], t) { assert Within(xs[i + 1], t) && xs[0].end < xs[i + 1].start; }
    if Down(xs, t) && !Within(xs[0], t) {
      var i :| 0 <= i < |xs| && Within(xs[i], t);
      assert Within(xs[1..][i - 1], t);
    }
  }

  lemma {:induction false} SpansAreUnique(xs: seq<Period>, ys: seq<Period>)
    requires AllProper(xs) && Separated(xs) && AllProper(ys) && Separated(ys)
    requires forall t :: Down(xs, t) <==> Down(ys, t)
    ensures |xs| == |ys| && forall k :: 0 <= k < |xs| ==> xs[k].start == ys[k].start && xs[k].end == ys[k].end
  {
    assert xs != [] ==> Within(xs[0], xs[0].start) && Down(xs, xs[0].start);
    assert ys != [] ==> Within(ys[0], ys[0].start) && Down(ys, ys[0].start);
    if xs != [] && ys != [] {
      FirstStart(xs, ys);
      FirstStart(ys, xs);
      FirstEnd(xs, ys);
      FirstEnd(ys, xs);
      forall t ensures Down(xs[1..], t) <==> Down(ys[1..], t) {
        TailDown(xs, t);
        TailDown(ys, t);
      }
      SpansAreUnique(xs[1..], ys[1..]);
      forall k | 0 < k < |xs| ensures xs[k].start == ys[k].start && xs[k].end == ys[k].end {
        assert xs[k] == xs[1..][k - 1] && ys[k] == ys[1..][k - 1];
      }
    }
  }

  /** The result is determined by which periods there are: order and repetition do not matter. */
  lemma MergeIsCanonical(a: seq<Period>, b: seq<Period>, x: seq<Period>, y: seq<Period>)
    requires SamePeriods(a, b) && IsMerged(a, x) && IsMerged(b, y)
    ensures x == y
  {
    MergedOfSame(b, a, y);
    SpansAreUnique(x, y);
    forall k | 0 <= k < |x| ensures x[k] == y[k] {
      assert x[k].isOpen <==> HasOpen(a, x[k]);
      assert y[k].isOpen <==> HasOpen(a, y[k]);
      assert HasOpen(a, x[k]) <==> HasOpen(a, y[k]) by {
        if HasOpen(a, x[k]) { var i :| 0 <= i < |a| && a[i].isOpen && Within(x[k], a[i].start); assert Within(y[k], a[i].start); }
        if HasOpen(a, y[k]) { var i :| 0 <= i < |a| && a[i].isOpen && Within(y[k], a[i].start); assert Within(x[k], a[i].start); }
      }
    }
  }
}

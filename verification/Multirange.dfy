/**
 Multiranges as PostgreSQL's tstzmultirange keeps them: half-open ranges in order, never empty, never
 touching. Every operator the timeline queries use is proved against sets of clock ticks.
 */
module Multirange {
  import opened Common

  datatype Range = Range(lo: int, hi: int)

  type Ranges = seq<Range>

  predicate Normal(m: Ranges) {
    m == [] || (m[0].lo < m[0].hi && Normal(m[1..]) && (|m| > 1 ==> m[0].hi < m[1].lo))
  }

  predicate Inside(r: Range, t: int) { r.lo <= t < r.hi }

  function Span(r: Range): set<int> { set t | r.lo <= t < r.hi && Inside(r, t) }

  function Ticks(m: Ranges): set<int> {
    if m == [] then {} else Span(m[0]) + Ticks(m[1..])
  }

  /** The summed length secondsOf reports. */
  function Length(m: Ranges): int {
    if m == [] then 0 else m[0].hi - m[0].lo + Length(m[1..])
  }

  lemma SingleOk(r: Range)
    requires r.lo < r.hi
    ensures Normal([r]) && Ticks([r]) == Span(r)
  {
    assert [r][1..] == [];
  }

  // ---------- Length is the number of ticks ----------

  lemma {:induction false} SpanSize(r: Range)
    requires r.lo <= r.hi
    ensures |Span(r)| == r.hi - r.lo
    decreases r.hi - r.lo
  {
    if r.lo < r.hi {
      SpanSize(Range(r.lo, r.hi - 1));
      assert Span(r) == Span(Range(r.lo, r.hi - 1)) + {r.hi - 1};
    } else {
      assert Span(r) == {};
    }
  }

  lemma {:induction false} TicksAfter(m: Ranges, t: int)
    requires Normal(m) && m != [] && t in Ticks(m)
    ensures m[0].lo <= t && (t >= m[0].hi ==> m[1..] != [] && m[1].lo <= t)
  {
    if t !in Span(m[0]) { TicksAfter(m[1..], t); }
  }

  lemma {:induction false} LengthIsTicks(m: Ranges)
    requires Normal(m)
    ensures Length(m) == |Ticks(m)|
  {
    if m != [] {
      LengthIsTicks(m[1..]);
      SpanSize(m[0]);
      forall t | t in Ticks(m[1..]) ensures t !in Span(m[0]) { TicksAfter(m[1..], t); }
      assert Span(m[0]) !! Ticks(m[1..]);
    }
  }

  // ---------- range_agg ----------

  /** Union with one range: merged with everything it meets or touches. */
  function Add(m: Ranges, r: Range): Ranges {
    if r.lo >= r.hi then m
    else if m == [] then [r]
    else if r.hi < m[0].lo then [r] + m
    else if m[0].hi < r.lo then [m[0]] + Add(m[1..], r)
    else Add(m[1..], Range(Min(m[0].lo, r.lo), Max(m[0].hi, r.hi)))
  }

  lemma {:induction false} AddOk(m: Ranges, r: Range)
    requires Normal(m)
    ensures Normal(Add(m, r)) && Ticks(Add(m, r)) == Ticks(m) + Span(r)
    ensures r.lo < r.hi ==> Add(m, r) != [] && Add(m, r)[0].lo == if m == [] then r.lo else Min(m[0].lo, r.lo)
  {
    if r.lo >= r.hi {
      assert Span(r) == {};
    } else if m == [] {
    } else if r.hi < m[0].lo {
      assert ([r] + m)[1..] == m;
    } else if m[0].hi < r.lo {
      AddOk(m[1..], r);
      assert Add(m, r)[1..] == Add(m[1..], r);
    } else {
      var wide := Range(Min(m[0].lo, r.lo), Max(m[0].hi, r.hi));
      AddOk(m[1..], wide);
      assert Span(wide) == Span(m[0]) + Span(r);
    }
  }

  predicate Covered(rs: seq<Range>, t: int) { exists i :: 0 <= i < |rs| && Inside(rs[i], t) }

  lemma CoveredAppend(rs: seq<Range>, r: Range, t: int)
    ensures Covered(rs + [r], t) <==> Covered(rs, t) || Inside(r, t)
  {
    var out := rs + [r];
    if i :| 0 <= i < |rs| && Inside(rs[i], t) { assert Inside(out[i], t); }
    if Inside(r, t) { assert Inside(out[|rs|], t); }
  }

  function RangeAgg(rs: seq<Range>): Ranges {
    if rs == [] then [] else Add(RangeAgg(rs[..|rs| - 1]), rs[|rs| - 1])
  }

  lemma {:induction false} RangeAggOk(rs: seq<Range>)
    ensures Normal(RangeAgg(rs))
    ensures forall t :: t in Ticks(RangeAgg(rs)) <==> Covered(rs, t)
  {
    if rs != [] {
      var before, last := rs[..|rs| - 1], rs[|rs| - 1];
      RangeAggOk(before);
      AddOk(RangeAgg(before), last);
      assert before + [last] == rs;
      forall t ensures t in Ticks(RangeAgg(rs)) <==> Covered(rs, t) { CoveredAppend(before, last, t); }
    }
  }

  /** range_agg over multiranges. */
  function UnionAll(ms: seq<Ranges>): Ranges {
    if ms == [] then [] else Union(UnionAll(ms[..|ms| - 1]), ms[|ms| - 1])
  }

  function Union(m: Ranges, n: Ranges): Ranges
    decreases n
  {
    if n == [] then m else Union(Add(m, n[0]), n[1..])
  }

  lemma {:induction false} UnionOk(m: Ranges, n: Ranges)
    requires Normal(m)
    ensures Normal(Union(m, n)) && Ticks(Union(m, n)) == Ticks(m) + Ticks(n)
    decreases n
  {
    if n != [] {
      AddOk(m, n[0]);
      UnionOk(Add(m, n[0]), n[1..]);
    }
  }

  lemma {:induction false} UnionAllOk(ms: seq<Ranges>)
    ensures Normal(UnionAll(ms))
    ensures forall t :: t in Ticks(UnionAll(ms)) <==> InSome(ms, t)
  {
    if ms != [] {
      var before, last := ms[..|ms| - 1], ms[|ms| - 1];
      UnionAllOk(before);
      UnionOk(UnionAll(before), last);
      assert before + [last] == ms;
      forall t ensures t in Ticks(UnionAll(ms)) <==> InSome(ms, t) { InSomeJoin(before, [last], t); }
    }
  }

  predicate InSome(ms: seq<Ranges>, t: int) { exists i :: 0 <= i < |ms| && t in Ticks(ms[i]) }

  lemma InSomeJoin(ms: seq<Ranges>, ns: seq<Ranges>, t: int)
    ensures InSome(ms + ns, t) <==> InSome(ms, t) || InSome(ns, t)
  {
    var all := ms + ns;
    if i :| 0 <= i < |ms| && t in Ticks(ms[i]) { assert t in Ticks(all[i]); }
    if i :| 0 <= i < |ns| && t in Ticks(ns[i]) { assert t in Ticks(all[|ms| + i]); }
    if i :| 0 <= i < |all| && t in Ticks(all[i]) {
      if i < |ms| { assert t in Ticks(ms[i]); } else { assert t in Ticks(ns[i - |ms|]); }
    }
  }

  // ---------- Concatenation of separated pieces ----------

  predicate Within(m: Ranges, lo: int, hi: int) {
    forall i :: 0 <= i < |m| ==> lo <= m[i].lo && m[i].hi <= hi
  }

  lemma {:induction false} JoinOk(x: Ranges, y: Ranges, lo: int, mid: int)
    requires Normal(x) && Normal(y) && Within(x, lo, mid) && (y != [] ==> mid < y[0].lo)
    ensures Normal(x + y) && Ticks(x + y) == Ticks(x) + Ticks(y)
  {
    if x == [] {
      assert x + y == y;
    } else {
      assert (x + y)[1..] == x[1..] + y;
      assert x[0].hi <= mid;
      JoinOk(x[1..], y, lo, mid);
    }
  }

  function Meet(a: Range, b: Range): Ranges {
    var r := Range(Max(a.lo, b.lo), Min(a.hi, b.hi));
    if r.lo < r.hi then [r] else []
  }

  lemma MeetOk(a: Range, b: Range)
    ensures Normal(Meet(a, b)) && Ticks(Meet(a, b)) == Span(a) * Span(b)
    ensures Within(Meet(a, b), a.lo, a.hi) && Within(Meet(a, b), b.lo, b.hi)
  {
    var r := Range(Max(a.lo, b.lo), Min(a.hi, b.hi));
    assert Span(a) * Span(b) == Span(r);
    if r.lo < r.hi { assert [r][1..] == []; } else { assert Span(r) == {}; }
  }

  function Clip(m: Ranges, r: Range): Ranges {
    if m == [] then [] else Meet(m[0], r) + Clip(m[1..], r)
  }

  lemma {:induction false} ClipOk(m: Ranges, r: Range)
    requires Normal(m)
    ensures Normal(Clip(m, r)) && Ticks(Clip(m, r)) == Ticks(m) * Span(r)
    ensures Within(Clip(m, r), r.lo, r.hi)
    ensures Clip(m, r) != [] ==> m != [] && m[0].lo <= Clip(m, r)[0].lo
  {
    if m != [] {
      ClipOk(m[1..], r);
      MeetOk(m[0], r);
      JoinOk(Meet(m[0], r), Clip(m[1..], r), m[0].lo, m[0].hi);
    }
  }

  function Intersect(m: Ranges, n: Ranges): Ranges {
    if n == [] then [] else Clip(m, n[0]) + Intersect(m, n[1..])
  }

  lemma {:induction false} IntersectOk(m: Ranges, n: Ranges)
    requires Normal(m) && Normal(n)
    ensures Normal(Intersect(m, n)) && Ticks(Intersect(m, n)) == Ticks(m) * Ticks(n)
    ensures Intersect(m, n) != [] ==> n != [] && n[0].lo <= Intersect(m, n)[0].lo
  {
    if n != [] {
      IntersectOk(m, n[1..]);
      ClipOk(m, n[0]);
      JoinOk(Clip(m, n[0]), Intersect(m, n[1..]), n[0].lo, n[0].hi);
    }
  }

  // ---------- Difference ----------

  function Cut(a: Range, r: Range): Ranges {
    if r.lo >= r.hi then [a]
    else Meet(a, Range(a.lo, r.lo)) + Meet(a, Range(r.hi, a.hi))
  }

  lemma CutOk(a: Range, r: Range)
    requires a.lo < a.hi
    ensures Normal(Cut(a, r)) && Ticks(Cut(a, r)) == Span(a) - Span(r) && Within(Cut(a, r), a.lo, a.hi)
  {
    if r.lo >= r.hi {
      assert [a][1..] == [] && Span(r) == {};
    } else {
      var x, y := Range(a.lo, r.lo), Range(r.hi, a.hi);
      MeetOk(a, x);
      MeetOk(a, y);
      JoinOk(Meet(a, x), Meet(a, y), a.lo, r.lo);
      assert Span(a) - Span(r) == Span(a) * Span(x) + Span(a) * Span(y);
    }
  }

  function Without(m: Ranges, r: Range): Ranges {
    if m == [] then [] else Cut(m[0], r) + Without(m[1..], r)
  }

  lemma {:induction false} WithoutNormal(m: Ranges, r: Range)
    requires Normal(m)
    ensures Normal(Without(m, r))
    ensures Without(m, r) != [] ==> m != [] && m[0].lo <= Without(m, r)[0].lo
  {
    if m != [] {
      WithoutNormal(m[1..], r);
      CutOk(m[0], r);
      JoinOk(Cut(m[0], r), Without(m[1..], r), m[0].lo, m[0].hi);
    }
  }

  lemma {:induction false} WithoutOk(m: Ranges, r: Range)
    requires Normal(m)
    ensures Normal(Without(m, r)) && Ticks(Without(m, r)) == Ticks(m) - Span(r)
    ensures Without(m, r) != [] ==> m != [] && m[0].lo <= Without(m, r)[0].lo
  {
    WithoutNormal(m, r);
    if m != [] {
      WithoutOk(m[1..], r);
      WithoutNormal(m[1..], r);
      CutOk(m[0], r);
      JoinOk(Cut(m[0], r), Without(m[1..], r), m[0].lo, m[0].hi);
      assert Ticks(m) == Span(m[0]) + Ticks(m[1..]);
    }
  }

  function Subtract(m: Ranges, n: Ranges): Ranges
    decreases n
  {
    if n == [] then m else Subtract(Without(m, n[0]), n[1..])
  }

  lemma {:induction false} SubtractOk(m: Ranges, n: Ranges)
    requires Normal(m)
    ensures Normal(Subtract(m, n)) && Ticks(Subtract(m, n)) == Ticks(m) - Ticks(n)
    decreases n
  {
    if n != [] {
      WithoutOk(m, n[0]);
      SubtractOk(Without(m, n[0]), n[1..]);
    }
  }

  // ---------- A normal form is unique ----------

  /** Two normal multiranges over the same ticks are the same list of spans. */
  lemma {:induction false} NormalUnique(m: Ranges, n: Ranges)
    requires Normal(m) && Normal(n) && Ticks(m) == Ticks(n)
    ensures m == n
  {
    HasTick(m);
    HasTick(n);
    if m != [] {
      TicksAfter(n, m[0].lo);
      TicksAfter(m, n[0].lo);
      NoTickAtEnd(m);
      NoTickAtEnd(n);
      assert m[0].hi !in Span(n[0]) && n[0].hi !in Span(m[0]);
      assert m[0] == n[0];
      forall t ensures t in Ticks(m[1..]) <==> t in Ticks(n[1..]) {
        if t in Ticks(m[1..]) { TicksAfter(m[1..], t); assert t in Ticks(n); }
        if t in Ticks(n[1..]) { TicksAfter(n[1..], t); assert t in Ticks(m); }
      }
      NormalUnique(m[1..], n[1..]);
      assert m == [m[0]] + m[1..] && n == [n[0]] + n[1..];
    }
  }

  lemma HasTick(m: Ranges)
    requires Normal(m)
    ensures if m == [] then Ticks(m) == {} else m[0].lo in Ticks(m)
  {
    if m != [] { assert m[0].lo in Span(m[0]); }
  }

  lemma NoTickAtEnd(m: Ranges)
    requires Normal(m) && m != []
    ensures m[0].hi !in Ticks(m)
  {
    if m[0].hi in Ticks(m[1..]) { TicksAfter(m[1..], m[0].hi); }
  }

  // ---------- Ranges are maximal runs ----------

  /** The range's ticks belong to the set, and the ticks just before and just after it do not. */
  predicate MaximalRun(r: Range, ticks: set<int>) {
    r.lo < r.hi && Span(r) <= ticks && r.lo - 1 !in ticks && r.hi !in ticks
  }

  lemma {:induction false} RangesAreRuns(m: Ranges, k: nat)
    requires Normal(m) && k < |m|
    ensures MaximalRun(m[k], Ticks(m))
  {
    if k == 0 {
      forall t | t in Ticks(m[1..]) ensures t > m[0].hi { StartsAfter(m, t); }
    } else {
      RangesAreRuns(m[1..], k - 1);
      RunsAfter(m, k);
    }
  }

  lemma StartsAfter(m: Ranges, t: int)
    requires Normal(m) && m != [] && t in Ticks(m[1..])
    ensures t > m[0].hi
  {
    TicksAfter(m[1..], t);
  }

  lemma {:induction false} RunsAfter(m: Ranges, k: nat)
    requires Normal(m) && 0 < k < |m|
    ensures m[0].hi < m[k].lo && m[k].lo < m[k].hi
  {
    if k > 1 { RunsAfter(m[1..], k - 1); }
  }

  lemma {:induction false} TickIsInRange(m: Ranges, t: int) returns (k: nat)
    requires t in Ticks(m)
    ensures k < |m| && Inside(m[k], t)
  {
    if t in Span(m[0]) { k := 0; } else { k := TickIsInRange(m[1..], t); k := k + 1; }
  }
}

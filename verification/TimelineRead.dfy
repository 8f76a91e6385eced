/**
 Reading timelines back: the loops of IntegrateTimeline and Outages, and what they report about the
 timelines that the recording protocol actually writes.
 */
module TimelineRead {
  import opened Common
  import opened MonitorState
  import opened Recording
  import opened Multirange
  import opened Timeline
  import opened TimelineScope
  import Protocol
  import RecordingSafety

  // ---------- Recorded timelines ----------

  lemma {:induction false} ChainOrdered(ivs: seq<Interval>, i: nat, j: nat)
    requires Chain(ivs) && i < j < |ivs|
    ensures ivs[i].endedAt.Some? && ivs[i].endedAt.value <= ivs[j].startedAt
    decreases j - i
  {
    assert Linked(ivs[i], ivs[i + 1]);
    if i + 1 < j { ChainOrdered(ivs, i + 1, j); assert Linked(ivs[i + 1], ivs[i + 2]); }
  }

  lemma ChainIsDisjoint(ivs: seq<Interval>, now: Time)
    requires Chain(ivs)
    ensures Disjoint(ivs, now)
  {
    forall i, j, t | 0 <= i < |ivs| && 0 <= j < |ivs| && CoversTick(ivs[i], t, now) && CoversTick(ivs[j], t, now)
      ensures i == j
    {
      if i < j { ChainOrdered(ivs, i, j); }
      if j < i { ChainOrdered(ivs, j, i); }
    }
  }

  /** A chain has no gaps: it covers every tick from its first start up to the reader's now. */
  lemma {:induction false} ChainCovers(ivs: seq<Interval>, t: Time, now: Time, n: nat)
    requires Chain(ivs) && n < |ivs| && ivs[0].startedAt <= t
    requires if n == |ivs| - 1 then t < Max(now, Open(ivs).startedAt) else ivs[n].endedAt.Some? && t < ivs[n].endedAt.value
    ensures exists i :: 0 <= i < |ivs| && CoversTick(ivs[i], t, now)
  {
    if ivs[n].startedAt <= t {
      assert CoversTick(ivs[n], t, now);
    } else {
      assert Linked(ivs[n - 1], ivs[n]);
      ChainCovers(ivs, t, now, n - 1);
    }
  }

  /** On a chain the untracked ticks are exactly those before its start and those it has not reached yet. */
  lemma ChainUntracked(ivs: seq<Interval>, t: Time, now: Time, knob: bool, inMaintenance: bool)
    requires Chain(ivs)
    ensures StatusIn(ivs, t, now, knob, inMaintenance) == Untracked
       <==> t < ivs[0].startedAt || t >= Max(now, Open(ivs).startedAt)
  {
    StatusTracked(ivs, t, now, knob, inMaintenance);
    var last := |ivs| - 1;
    if ivs[0].startedAt <= t < Max(now, Open(ivs).startedAt) { ChainCovers(ivs, t, now, last); }
    forall i | 0 <= i < |ivs| && CoversTick(ivs[i], t, now)
      ensures ivs[0].startedAt <= t < Max(now, Open(ivs).startedAt)
    {
      if i < last { ChainOrdered(ivs, i, last); }
      if 0 < i { ChainOrdered(ivs, 0, i); assert Linked(ivs[0], ivs[1]); }
    }
  }

  /**
   End to end: after any run of the recording protocol, integrating the timeline it wrote is pointwise
   classification, complete, and leaves untracked exactly the time outside the monitor's recorded life.
   */
  lemma RecordedTimelineIntegrates(trace: seq<Protocol.Database>, steps: seq<Protocol.Step>, n: nat, m: MonitorId,
                                   db: Tables, tenant: TenantId, b: Range, now: Time, knob: bool)
    requires RecordingSafety.IsRun(trace, steps) && n < |trace| && m in trace[n].monitors
    requires RowsFor(db.intervals, tenant, m) == trace[n].monitors[m].intervals
    requires b.lo <= b.hi
    ensures TimelineDisjoint(db, tenant, m, now)
    ensures var x := MonitorSeconds(db, tenant, m, b, now, knob);
            && x == Tally(Meaning(db, tenant, m, now, knob), b)
            && x.Observed() + x.paused + x.unknown + x.UntrackedTime() == b.hi - b.lo
    ensures var ivs := trace[n].monitors[m].intervals;
            && ivs != []
            && TicksOf(Meaning(db, tenant, m, now, knob), b, Untracked)
               == set t | t in Span(b) && (t < ivs[0].startedAt || t >= Max(now, Open(ivs).startedAt))
  {
    var ivs := trace[n].monitors[m].intervals;
    RecordingSafety.TimelineSafety(trace, steps, n, m);
    ChainIsDisjoint(ivs, now);
    IntegrationIsPointwise(db, tenant, m, b, now, knob);
    IntegrationIsComplete(db, tenant, m, b, now, knob);
    forall t ensures StatusAt(db, tenant, m, t, now, knob) == Untracked
                <==> t < ivs[0].startedAt || t >= Max(now, Open(ivs).startedAt)
    {
      ChainUntracked(ivs, t, now, knob, InMaintenanceAt(db, tenant, m, t));
    }
  }

  /** A window the timeline reaches and that has begun always has observed or excluded time (S-U5). */
  lemma CoveredWindowHasTime(db: Tables, tenant: TenantId, m: MonitorId, b: Range, now: Time, knob: bool)
    requires Chain(RowsFor(db.intervals, tenant, m))
    requires RowsFor(db.intervals, tenant, m)[0].startedAt <= b.lo < Min(b.hi, now)
    ensures var x := MonitorSeconds(db, tenant, m, b, now, knob); x.Observed() + x.paused + x.unknown > 0
  {
    var ivs := RowsFor(db.intervals, tenant, m);
    ChainIsDisjoint(ivs, now);
    IntegrationIsPointwise(db, tenant, m, b, now, knob);
    ChainUntracked(ivs, b.lo, now, knob, InMaintenanceAt(db, tenant, m, b.lo));
    NotAllUntracked(Meaning(db, tenant, m, now, knob), b, b.lo);
  }

  lemma NotAllUntracked(f: Time -> Status, b: Range, t: Time)
    requires t in Span(b) && t !in TicksOf(f, b, Untracked)
    ensures var x := Tally(f, b); x.Observed() + x.paused + x.unknown > 0
  {
    var u := TicksOf(f, b, Untracked);
    SubsetSize(u, Span(b));
    assert u != Span(b) && |u| < |Span(b)|;
    SpanSize(b);
    TallyIsComplete(f, b);
    Leftover(Tally(f, b));
  }

  lemma Leftover(x: StateSeconds)
    requires x.available + x.unplannedDown + x.plannedDown + x.paused + x.unknown + x.UntrackedTime() == x.window
    requires x.UntrackedTime() < x.window
    ensures x.Observed() + x.paused + x.unknown > 0
  {
  }

  // ---------- dedupeUUIDs ----------

  const NIL: MonitorId := 0

  function Deduped(ids: seq<MonitorId>): seq<MonitorId> {
    if ids == [] then []
    else
      var rest, x := Deduped(ids[..|ids| - 1]), ids[|ids| - 1];
      if x == NIL || x in rest then rest else rest + [x]
  }

  /** The first position of an id; the length of the list where it does not occur. */
  function FirstAt(ids: seq<MonitorId>, x: MonitorId): nat {
    if ids == [] then 0 else if x in ids[..|ids| - 1] then FirstAt(ids[..|ids| - 1], x) else if ids[|ids| - 1] == x then |ids| - 1 else |ids|
  }

  lemma {:induction false} FirstAtBound(ids: seq<MonitorId>, x: MonitorId)
    ensures x in ids ==> FirstAt(ids, x) < |ids|
  {
    if ids != [] {
      assert ids == ids[..|ids| - 1] + [ids[|ids| - 1]];
      FirstAtBound(ids[..|ids| - 1], x);
    }
  }

  lemma {:induction false} DedupedInOrder(ids: seq<MonitorId>)
    ensures forall i, j :: 0 <= i < j < |Deduped(ids)| ==> FirstAt(ids, Deduped(ids)[i]) < FirstAt(ids, Deduped(ids)[j])
  {
    if ids != [] {
      var front, x := ids[..|ids| - 1], ids[|ids| - 1];
      var before := Deduped(front);
      DedupedInOrder(front);
      DedupedOk(front);
      forall i | 0 <= i < |before| ensures FirstAt(ids, before[i]) == FirstAt(front, before[i]) < |front| {
        assert before[i] in before;
        FirstAtBound(front, before[i]);
      }
      if x != NIL && x !in before { assert x !in front && FirstAt(ids, x) == |front|; }
    }
  }

  /** Every non-nil id once. */
  lemma {:induction false} DedupedOk(ids: seq<MonitorId>)
    ensures forall x :: x in Deduped(ids) <==> x in ids && x != NIL
    ensures forall i, j :: 0 <= i < j < |Deduped(ids)| ==> Deduped(ids)[i] != Deduped(ids)[j]
  {
    if ids != [] {
      DedupedOk(ids[..|ids| - 1]);
      assert ids == ids[..|ids| - 1] + [ids[|ids| - 1]];
    }
  }

  /** The non-nil ids, each once, in the order of their first occurrence. */
  method DedupeIds(ids: seq<MonitorId>) returns (out: seq<MonitorId>)
    ensures out == Deduped(ids)
    ensures forall x :: x in out <==> x in ids && x != NIL
    ensures forall i, j :: 0 <= i < j < |out| ==> out[i] != out[j]
    ensures forall i, j :: 0 <= i < j < |out| ==> FirstAt(ids, out[i]) < FirstAt(ids, out[j])
  {
    DedupedOk(ids);
    DedupedInOrder(ids);
    var seen: set<MonitorId> := {};
    out := [];
    for i := 0 to |ids|
      invariant out == Deduped(ids[..i])
      invariant forall x :: x in seen <==> x in out
    {
      assert ids[..i + 1][..i] == ids[..i];
      if ids[i] != NIL && ids[i] !in seen {
        seen := seen + {ids[i]};
        out := out + [ids[i]];
      }
    }
    assert ids[..|ids|] == ids;
  }

  // ---------- IntegrateTimeline ----------

  datatype TimelineResult = TimelineResult(
    perMonitor: map<MonitorId, seq<StateSeconds>>, serial: seq<SerialSeconds>, starts: map<MonitorId, Time>)

  /** MIN(started_at). */
  function Earliest(ivs: seq<Interval>): Time
    requires ivs != []
  {
    if |ivs| == 1 then ivs[0].startedAt else Min(Earliest(ivs[..|ivs| - 1]), ivs[|ivs| - 1].startedAt)
  }

  predicate IsEarliest(t: Time, ivs: seq<Interval>) {
    (exists i :: 0 <= i < |ivs| && ivs[i].startedAt == t) && forall i :: 0 <= i < |ivs| ==> t <= ivs[i].startedAt
  }

  lemma {:induction false} EarliestOk(ivs: seq<Interval>)
    requires ivs != []
    ensures IsEarliest(Earliest(ivs), ivs)
  {
    if |ivs| > 1 {
      var front := ivs[..|ivs| - 1];
      EarliestOk(front);
      var i :| 0 <= i < |front| && front[i].startedAt == Earliest(front);
      assert ivs[i].startedAt == Earliest(front) && ivs[|ivs| - 1].startedAt >= Earliest(ivs);
    }
  }

  /** Each monitor that has a timeline, with the time it begins. */
  ghost predicate StartsOk(starts: map<MonitorId, Time>, db: Tables, tenant: TenantId, ids: seq<MonitorId>) {
    && (forall m :: m in starts <==> m in ids && RowsFor(db.intervals, tenant, m) != [])
    && (forall m :: m in starts ==> IsEarliest(starts[m], RowsFor(db.intervals, tenant, m)))
  }

  method LoadStarts(db: Tables, tenant: TenantId, ids: seq<MonitorId>) returns (starts: map<MonitorId, Time>)
    ensures StartsOk(starts, db, tenant, ids)
  {
    starts := map m | m in ids && RowsFor(db.intervals, tenant, m) != [] :: Earliest(RowsFor(db.intervals, tenant, m));
    forall m | m in starts ensures IsEarliest(starts[m], RowsFor(db.intervals, tenant, m)) {
      EarliestOk(RowsFor(db.intervals, tenant, m));
    }
  }

  function Seconds(b: Range): int { Max(b.hi - b.lo, 0) }

  predicate HasEmptyBucket(buckets: seq<Range>) { exists i :: 0 <= i < |buckets| && buckets[i].hi <= buckets[i].lo }

  /** Every monitor has one entry per bucket, holding that bucket's figures. */
  ghost predicate Filled(per: map<MonitorId, seq<StateSeconds>>, ids: seq<MonitorId>, buckets: seq<Range>, cell: (MonitorId, Range) -> StateSeconds) {
    && (forall k :: 0 <= k < |ids| ==> ids[k] in per && |per[ids[k]]| == |buckets|)
    && (forall k, i :: 0 <= k < |ids| && 0 <= i < |buckets| ==> per[ids[k]][i] == cell(ids[k], buckets[i]))
  }

  /** What the query returns for one monitor and one bucket. */
  function Cells(db: Tables, tenant: TenantId, now: Time, knob: bool): (MonitorId, Range) -> StateSeconds {
    (m: MonitorId, b: Range) => MonitorSeconds(db, tenant, m, b, now, knob)
  }

  /**
   The result arrays: zero-filled, then overwritten row by row. An empty bucket is an error; a scope
   with no monitor reports windows only.
   */
  method IntegrateTimeline(db: Tables, tenant: TenantId, requested: seq<MonitorId>, buckets: seq<Range>, knob: bool, now: Time)
    returns (out: Outcome<TimelineResult, string>)
    ensures out.Err? <==> Deduped(requested) != [] && HasEmptyBucket(buckets)
    ensures out.Ok? ==>
              var ids := Deduped(requested);
              && (forall m :: m in out.value.perMonitor <==> m in ids)
              && Filled(out.value.perMonitor, ids, buckets, Cells(db, tenant, now, knob))
              && |out.value.serial| == |buckets|
              && (forall i :: 0 <= i < |buckets| ==>
                    out.value.serial[i] == if ids == [] then SerialSeconds(0, 0, 0, Seconds(buckets[i]))
                                           else SerialOf(Splits(db, tenant, ids, buckets[i], now, knob), buckets[i]))
              && (forall i :: 0 <= i < |buckets| ==> out.value.serial[i].window == if buckets[i].lo < buckets[i].hi then buckets[i].hi - buckets[i].lo else 0)
              && StartsOk(out.value.starts, db, tenant, if buckets == [] then [] else ids)
  {
    var ids := DedupeIds(requested);
    if ids == [] || buckets == [] {
      var windows := seq(|buckets|, i requires 0 <= i < |buckets| => SerialSeconds(0, 0, 0, Seconds(buckets[i])));
      return Ok(TimelineResult(map m | m in ids :: [], windows, map[]));
    }
    for i := 0 to |buckets|
      invariant forall k :: 0 <= k < i ==> buckets[k].lo < buckets[k].hi
    {
      if buckets[i].hi <= buckets[i].lo {
        return Err("bucket is empty");
      }
    }
    var starts := LoadStarts(db, tenant, ids);
    var total := (b: Range) => SerialOf(Splits(db, tenant, ids, b, now, knob), b);
    var per, serial := FillRows(ids, buckets, Cells(db, tenant, now, knob), total);
    return Ok(TimelineResult(per, serial, starts));
  }

  /** The row loop: `cell` and `total` are the figures the query returned for a grid cell and a bucket. */
  method FillRows(ids: seq<MonitorId>, buckets: seq<Range>, cell: (MonitorId, Range) -> StateSeconds, total: Range -> SerialSeconds)
    returns (per: map<MonitorId, seq<StateSeconds>>, serial: seq<SerialSeconds>)
    ensures forall m :: m in per <==> m in ids
    ensures Filled(per, ids, buckets, cell)
    ensures |serial| == |buckets| && forall i :: 0 <= i < |buckets| ==> serial[i] == total(buckets[i])
  {
    serial := seq(|buckets|, i requires 0 <= i < |buckets| => SerialSeconds(0, 0, 0, Seconds(buckets[i])));
    var zero := seq(|buckets|, i requires 0 <= i < |buckets| => StateSeconds(0, 0, 0, 0, 0, Seconds(buckets[i])));
    per := map m | m in ids :: zero;
    for i := 0 to |buckets|
      invariant forall m :: m in per ==> m in ids
      invariant |serial| == |buckets| && forall k :: 0 <= k < i ==> serial[k] == total(buckets[k])
      invariant forall k :: 0 <= k < |ids| ==> ids[k] in per && |per[ids[k]]| == |buckets|
      invariant forall k, n :: 0 <= k < |ids| && 0 <= n < i ==> per[ids[k]][n] == cell(ids[k], buckets[n])
    {
      for j := 0 to |ids|
        invariant forall m :: m in per ==> m in ids
        invariant forall k :: 0 <= k < |ids| ==> ids[k] in per && |per[ids[k]]| == |buckets|
        invariant forall k, n :: 0 <= k < |ids| && 0 <= n < i ==> per[ids[k]][n] == cell(ids[k], buckets[n])
        invariant forall k :: 0 <= k < j ==> per[ids[k]][i] == cell(ids[k], buckets[i])
      {
        per := per[ids[j] := per[ids[j]][i := cell(ids[j], buckets[i])]];
      }
      serial := serial[i := total(buckets[i])];
    }
  }

  // ---------- Outages ----------

  function ConcatOver<T>(f: MonitorId -> seq<T>, ids: seq<MonitorId>): seq<T> {
    if ids == [] then [] else ConcatOver(f, ids[..|ids| - 1]) + f(ids[|ids| - 1])
  }

  predicate AnyOf(p: MonitorId -> bool, ids: seq<MonitorId>) { exists m :: m in ids && p(m) }

  function CompositeRows(spans: Ranges, open: bool, b: Range, now: Time): seq<Outage> {
    if spans == [] then [] else [OutageAt(None, spans[0], 0, open, b, now)] + CompositeRows(spans[1..], open, b, now)
  }

  function AnyOpen(db: Tables, tenant: TenantId, ids: seq<MonitorId>, b: Range, now: Time, knob: bool): bool {
    AnyOf(m => OpenNow(RowsFor(db.intervals, tenant, m), b, now, knob), ids)
  }

  function AllOutages(db: Tables, tenant: TenantId, ids: seq<MonitorId>, b: Range, now: Time, knob: bool): seq<Outage> {
    ConcatOver(m => OutagesOf(db, tenant, m, b, now, knob), ids)
    + CompositeRows(CompositeSpans(db, tenant, ids, b, now, knob), AnyOpen(db, tenant, ids, b, now, knob), b, now)
  }

  lemma {:induction false} CompositeRowsLength(spans: Ranges, open: bool, b: Range, now: Time)
    ensures OutageLengths(CompositeRows(spans, open, b, now)) == Length(spans)
    ensures OutagePlanned(CompositeRows(spans, open, b, now)) == 0
  {
    if spans != [] {
      CompositeRowsLength(spans[1..], open, b, now);
      assert CompositeRows(spans, open, b, now)[1..] == CompositeRows(spans[1..], open, b, now);
    }
  }

  /** The composite outages' lengths sum to the serial composite's down time; none of it is planned. */
  lemma CompositeOutagesAgree(db: Tables, tenant: TenantId, ids: seq<MonitorId>, b: Range, now: Time, knob: bool)
    requires ScopeDisjoint(db, tenant, ids, now)
    ensures var os := CompositeRows(CompositeSpans(db, tenant, ids, b, now, knob), AnyOpen(db, tenant, ids, b, now, knob), b, now);
            && OutageLengths(os) == SerialOf(Splits(db, tenant, ids, b, now, knob), b).down
            && OutagePlanned(os) == 0
  {
    CompositeAgrees(db, tenant, ids, b, now, knob);
    CompositeRowsLength(CompositeSpans(db, tenant, ids, b, now, knob), AnyOpen(db, tenant, ids, b, now, knob), b, now);
  }

  // ---------- ORDER BY start, monitor NULLS FIRST ----------

  predicate NotAfter(a: Outage, b: Outage) {
    a.start < b.start
    || (a.start == b.start && (a.monitor.None? || (b.monitor.Some? && a.monitor.value <= b.monitor.value)))
  }

  predicate InOrder(os: seq<Outage>) { forall i, j :: 0 <= i < j < |os| ==> NotAfter(os[i], os[j]) }

  function Insert(os: seq<Outage>, o: Outage): seq<Outage> {
    if os == [] || NotAfter(o, os[0]) then [o] + os else [os[0]] + Insert(os[1..], o)
  }

  function Ordered(os: seq<Outage>): seq<Outage> {
    if os == [] then [] else Insert(Ordered(os[..|os| - 1]), os[|os| - 1])
  }

  lemma {:induction false} InsertKeeps(os: seq<Outage>, o: Outage)
    ensures multiset(Insert(os, o)) == multiset(os) + multiset{o}
  {
    if os != [] && !NotAfter(o, os[0]) {
      InsertKeeps(os[1..], o);
      assert os == [os[0]] + os[1..];
    }
  }

  predicate NoneBefore(first: Outage, os: seq<Outage>) { forall i :: 0 <= i < |os| ==> NotAfter(first, os[i]) }

  lemma {:induction false} InsertInOrder(os: seq<Outage>, o: Outage)
    requires InOrder(os)
    ensures InOrder(Insert(os, o))
    ensures forall first :: NotAfter(first, o) && NoneBefore(first, os) ==> NoneBefore(first, Insert(os, o))
  {
    if os != [] && !NotAfter(o, os[0]) {
      InsertInOrder(os[1..], o);
      assert NotAfter(os[0], o) && NoneBefore(os[0], os[1..]);
    }
  }

  lemma {:induction false} OrderedOk(os: seq<Outage>)
    ensures InOrder(Ordered(os)) && multiset(Ordered(os)) == multiset(os)
  {
    if os != [] {
      var front := os[..|os| - 1];
      assert os == front + [os[|os| - 1]];
      OrderedOk(front);
      InsertKeeps(Ordered(front), os[|os| - 1]);
      InsertInOrder(Ordered(front), os[|os| - 1]);
    }
  }

  /** Exactly the monitors' outages and the composite ones, by start and with the composite first. */
  method Outages(db: Tables, tenant: TenantId, requested: seq<MonitorId>, window: Range, knob: bool, now: Time)
    returns (out: seq<Outage>)
    ensures InOrder(out)
    ensures forall i, j :: 0 <= i < j < |out| ==>
              out[i].start < out[j].start
              || (out[i].start == out[j].start
                  && (out[j].monitor.Some? ==> out[i].monitor.None? || out[i].monitor.value <= out[j].monitor.value)
                  && (out[j].monitor.None? ==> out[i].monitor.None?))
    ensures multiset(out) == if window.hi <= window.lo then multiset{} else multiset(AllOutages(db, tenant, Deduped(requested), window, now, knob))
  {
    var ids := DedupeIds(requested);
    out := [];
    if ids == [] || window.hi <= window.lo {
      return;
    }
    var member := (m: MonitorId) => OutagesOf(db, tenant, m, window, now, knob);
    var piece := (m: MonitorId) => MemberPieces(db, tenant, m, window, now, knob);
    var isOpen := (m: MonitorId) => OpenNow(RowsFor(db.intervals, tenant, m), window, now, knob);
    var pieces, open;
    out, pieces, open := CollectRows(ids, member, piece, isOpen);
    assert pieces == seq(|ids|, i requires 0 <= i < |ids| => MemberPieces(db, tenant, ids[i], window, now, knob));
    out := out + CompositeRows(UnionAll(pieces), open, window, now);
    OrderedOk(out);
    out := Ordered(out);
  }

  /** The row loop of the outage list, over what the query returned per monitor. */
  method CollectRows(ids: seq<MonitorId>, member: MonitorId -> seq<Outage>, piece: MonitorId -> Ranges, isOpen: MonitorId -> bool)
    returns (out: seq<Outage>, pieces: seq<Ranges>, open: bool)
    ensures out == ConcatOver(member, ids)
    ensures |pieces| == |ids| && forall i :: 0 <= i < |ids| ==> pieces[i] == piece(ids[i])
    ensures open <==> AnyOf(isOpen, ids)
  {
    out, pieces, open := [], [], false;
    for i := 0 to |ids|
      invariant out == ConcatOver(member, ids[..i])
      invariant |pieces| == i && forall k :: 0 <= k < i ==> pieces[k] == piece(ids[k])
      invariant open <==> AnyOf(isOpen, ids[..i])
    {
      assert ids[..i + 1][..i] == ids[..i] && ids[..i + 1] == ids[..i] + [ids[i]];
      assert forall m :: m in ids[..i + 1] <==> m in ids[..i] || m == ids[i];
      out, pieces, open := out + member(ids[i]), pieces + [piece(ids[i])], open || isOpen(ids[i]);
    }
    assert ids[..|ids|] == ids;
  }
}

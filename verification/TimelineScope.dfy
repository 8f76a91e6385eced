/**
 What the timeline query says about a whole scope: the serial composite, the outage list, the Go loops
 that fill the result, and the link to the timelines the recording protocol writes.
 */
module TimelineScope {
  import opened Common
  import opened MonitorState
  import opened Recording
  import opened Multirange
  import opened Timeline

  // ---------- The serial composite (S-U6) ----------

  datatype SerialSeconds = SerialSeconds(available: int, down: int, excluded: int, window: int)

  function SerialDown(ss: seq<Split>): Ranges { UnionAll(seq(|ss|, i requires 0 <= i < |ss| => ss[i].unplanned)) }

  /** win - avail - unplanned: planned down, paused, unknown and untracked time of one member. */
  function Excluded(s: Split, b: Range): Ranges { Subtract(Subtract([b], s.available), s.unplanned) }

  function SerialExcluded(ss: seq<Split>, b: Range): Ranges {
    UnionAll(seq(|ss|, i requires 0 <= i < |ss| => Excluded(ss[i], b)))
  }

  function SerialOf(ss: seq<Split>, b: Range): SerialSeconds {
    var down, excluded := SerialDown(ss), SerialExcluded(ss, b);
    var rest := Subtract(excluded, down);
    SerialSeconds(Length(Subtract(Subtract([b], down), rest)), Length(down), Length(rest), Max(b.hi - b.lo, 0))
  }

  datatype ServiceStatus = ServiceUp | ServiceDown | ServiceExcluded

  /** The composite at a tick: down if any member is in unplanned down, else excluded if any is not available. */
  function ServiceAt(fs: seq<Time -> Status>, t: Time): ServiceStatus {
    if exists i :: 0 <= i < |fs| && fs[i](t) == UnplannedDown then ServiceDown
    else if exists i :: 0 <= i < |fs| && fs[i](t) != Available then ServiceExcluded
    else ServiceUp
  }

  function ServiceTicks(fs: seq<Time -> Status>, b: Range, s: ServiceStatus): set<Time> {
    set t | t in Span(b) && ServiceAt(fs, t) == s
  }

  /** The splits of a scope's members are what their timelines mean. */
  ghost predicate Means(ss: seq<Split>, fs: seq<Time -> Status>, b: Range) {
    && |ss| == |fs|
    && forall i :: 0 <= i < |ss| ==>
         && Normal(ss[i].available) && Ticks(ss[i].available) == TicksOf(fs[i], b, Available)
         && Normal(ss[i].unplanned) && Ticks(ss[i].unplanned) == TicksOf(fs[i], b, UnplannedDown)
  }

  lemma SerialDownOk(ss: seq<Split>, fs: seq<Time -> Status>, b: Range)
    requires Means(ss, fs, b)
    ensures Normal(SerialDown(ss)) && Ticks(SerialDown(ss)) == ServiceTicks(fs, b, ServiceDown)
  {
    var ms := seq(|ss|, i requires 0 <= i < |ss| => ss[i].unplanned);
    UnionAllOk(ms);
    forall t ensures t in Ticks(UnionAll(ms)) <==> t in ServiceTicks(fs, b, ServiceDown) {
      if i :| 0 <= i < |ms| && t in Ticks(ms[i]) { assert fs[i](t) == UnplannedDown; }
      if t in Span(b) {
        if i :| 0 <= i < |fs| && fs[i](t) == UnplannedDown { assert t in Ticks(ms[i]); }
      }
    }
  }

  lemma ExcludedOk(s: Split, f: Time -> Status, b: Range, t: Time)
    requires b.lo < b.hi
    requires Normal(s.available) && Ticks(s.available) == TicksOf(f, b, Available)
    requires Normal(s.unplanned) && Ticks(s.unplanned) == TicksOf(f, b, UnplannedDown)
    ensures t in Ticks(Excluded(s, b)) <==> t in Span(b) && f(t) != Available && f(t) != UnplannedDown
  {
    SingleOk(b);
    SubtractOk([b], s.available);
    SubtractOk(Subtract([b], s.available), s.unplanned);
  }

  lemma SerialExcludedOk(ss: seq<Split>, fs: seq<Time -> Status>, b: Range, t: Time)
    requires Means(ss, fs, b) && b.lo < b.hi
    ensures Normal(SerialExcluded(ss, b))
    ensures t in Ticks(SerialExcluded(ss, b))
       <==> t in Span(b) && exists i :: 0 <= i < |fs| && fs[i](t) != Available && fs[i](t) != UnplannedDown
  {
    var ms := seq(|ss|, i requires 0 <= i < |ss| => Excluded(ss[i], b));
    UnionAllOk(ms);
    forall i | 0 <= i < |ss|
      ensures t in Ticks(ms[i]) <==> t in Span(b) && fs[i](t) != Available && fs[i](t) != UnplannedDown
    {
      ExcludedOk(ss[i], fs[i], b, t);
    }
  }

  /** The ticks of the composite's available and excluded ranges. */
  lemma SerialTicks(ss: seq<Split>, fs: seq<Time -> Status>, b: Range)
    requires Means(ss, fs, b) && b.lo < b.hi
    ensures var down := SerialDown(ss);
            var rest := Subtract(SerialExcluded(ss, b), down);
            var up := Subtract(Subtract([b], down), rest);
            && Normal(rest) && Ticks(rest) == ServiceTicks(fs, b, ServiceExcluded)
            && Normal(up) && Ticks(up) == ServiceTicks(fs, b, ServiceUp)
  {
    var down, excluded := SerialDown(ss), SerialExcluded(ss, b);
    var rest := Subtract(excluded, down);
    SerialDownOk(ss, fs, b);
    SerialExcludedOk(ss, fs, b, 0);
    SubtractOk(excluded, down);
    forall t ensures t in Ticks(rest) <==> t in ServiceTicks(fs, b, ServiceExcluded) { SerialExcludedOk(ss, fs, b, t); }
    SingleOk(b);
    SubtractOk([b], down);
    SubtractOk(Subtract([b], down), rest);
  }

  lemma ServicePartition(fs: seq<Time -> Status>, b: Range)
    requires b.lo < b.hi
    ensures |ServiceTicks(fs, b, ServiceDown)| + |ServiceTicks(fs, b, ServiceExcluded)|
          + |ServiceTicks(fs, b, ServiceUp)| == b.hi - b.lo
  {
    var d, e, u := ServiceTicks(fs, b, ServiceDown), ServiceTicks(fs, b, ServiceExcluded), ServiceTicks(fs, b, ServiceUp);
    SplitSize(Span(b), d);
    assert Span(b) * d == d;
    SplitSize(Span(b) - d, e);
    assert (Span(b) - d) * e == e && (Span(b) - d) - e == u;
    SpanSize(b);
  }

  /** The composite is pointwise right for every scope, and its three parts sum to the window. */
  lemma SerialIsPointwise(ss: seq<Split>, fs: seq<Time -> Status>, b: Range)
    requires Means(ss, fs, b) && b.lo < b.hi
    ensures var x := SerialOf(ss, b);
            && x.down == |ServiceTicks(fs, b, ServiceDown)|
            && x.excluded == |ServiceTicks(fs, b, ServiceExcluded)|
            && x.available == |ServiceTicks(fs, b, ServiceUp)|
            && x.available + x.down + x.excluded == x.window && x.window == b.hi - b.lo
  {
    var down := SerialDown(ss);
    var rest := Subtract(SerialExcluded(ss, b), down);
    SerialDownOk(ss, fs, b);
    SerialTicks(ss, fs, b);
    LengthIsTicks(down);
    LengthIsTicks(rest);
    LengthIsTicks(Subtract(Subtract([b], down), rest));
    ServicePartition(fs, b);
  }

  function SumUnplanned(fs: seq<Time -> Status>, b: Range): nat {
    if fs == [] then 0 else SumUnplanned(fs[..|fs| - 1], b) + |TicksOf(fs[|fs| - 1], b, UnplannedDown)|
  }

  /** Composite down time is at least every member's unplanned down. */
  lemma SerialDownAtLeast(fs: seq<Time -> Status>, b: Range, i: nat)
    requires i < |fs|
    ensures |TicksOf(fs[i], b, UnplannedDown)| <= |ServiceTicks(fs, b, ServiceDown)|
  {
    SubsetSize(TicksOf(fs[i], b, UnplannedDown), ServiceTicks(fs, b, ServiceDown));
  }

  /** Composite down time is at most the members' sum. */
  lemma {:induction false} SerialDownAtMost(fs: seq<Time -> Status>, b: Range)
    ensures |ServiceTicks(fs, b, ServiceDown)| <= SumUnplanned(fs, b)
  {
    var d := ServiceTicks(fs, b, ServiceDown);
    if fs == [] {
      assert d == {};
    } else {
      var before := fs[..|fs| - 1];
      SerialDownAtMost(before, b);
      forall t | t in d ensures t in ServiceTicks(before, b, ServiceDown) + TicksOf(fs[|fs| - 1], b, UnplannedDown) {
        var i :| 0 <= i < |fs| && fs[i](t) == UnplannedDown;
        if i < |before| { assert before[i](t) == UnplannedDown; }
      }
      CoverSize(d, ServiceTicks(before, b, ServiceDown), TicksOf(fs[|fs| - 1], b, UnplannedDown));
    }
  }

  // ---------- Outages ----------

  datatype Outage = Outage(monitor: Option<MonitorId>, start: Time, end: Time, planned: int, startedBefore: bool, ongoing: bool)

  function OutageAt(m: Option<MonitorId>, x: Range, planned: int, open: bool, b: Range, now: Time): Outage {
    Outage(m, x.lo, x.hi, planned, x.lo <= b.lo,
           (open && x.hi >= Min(now, b.hi) - SECOND) || x.hi >= b.hi)
  }

  function MonitorOutages(m: MonitorId, downs: Ranges, mt: Ranges, open: bool, b: Range, now: Time): seq<Outage> {
    if downs == [] then []
    else [OutageAt(Some(m), downs[0], Length(Intersect([downs[0]], mt)), open, b, now)]
         + MonitorOutages(m, downs[1..], mt, open, b, now)
  }

  function SpansUnplanned(downs: Ranges, mt: Ranges): seq<Ranges> {
    if downs == [] then [] else [Subtract([downs[0]], mt)] + SpansUnplanned(downs[1..], mt)
  }

  function OutageLengths(os: seq<Outage>): int {
    if os == [] then 0 else os[0].end - os[0].start + OutageLengths(os[1..])
  }

  function OutagePlanned(os: seq<Outage>): int {
    if os == [] then 0 else os[0].planned + OutagePlanned(os[1..])
  }

  lemma {:induction false} LengthsAddUp(m: MonitorId, downs: Ranges, mt: Ranges, open: bool, b: Range, now: Time)
    ensures OutageLengths(MonitorOutages(m, downs, mt, open, b, now)) == Length(downs)
  {
    if downs != [] {
      LengthsAddUp(m, downs[1..], mt, open, b, now);
      assert MonitorOutages(m, downs, mt, open, b, now)[1..] == MonitorOutages(m, downs[1..], mt, open, b, now);
    }
  }

  lemma DisjointParts<T>(x: set<T>, y: set<T>, m: set<T>)
    requires x !! y
    ensures |(x + y) * m| == |x * m| + |y * m|
  {
    assert (x + y) * m == x * m + y * m;
    assert x * m !! y * m;
  }

  /** The spans' planned shares add up to the maintenance part of the down time. */
  lemma {:induction false} PlannedAddsUp(m: MonitorId, downs: Ranges, mt: Ranges, open: bool, b: Range, now: Time)
    requires Normal(downs) && Normal(mt)
    ensures OutagePlanned(MonitorOutages(m, downs, mt, open, b, now)) == |Ticks(downs) * Ticks(mt)|
  {
    if downs == [] {
      assert Ticks(downs) * Ticks(mt) == {};
    } else {
      var x, rest := downs[0], downs[1..];
      PlannedAddsUp(m, rest, mt, open, b, now);
      assert MonitorOutages(m, downs, mt, open, b, now)[1..] == MonitorOutages(m, rest, mt, open, b, now);
      PlannedShare(x, mt);
      forall t | t in Ticks(rest) ensures t !in Span(x) { TicksAfter(rest, t); }
      DisjointParts(Span(x), Ticks(rest), Ticks(mt));
    }
  }

  lemma PlannedShare(x: Range, mt: Ranges)
    requires x.lo < x.hi && Normal(mt)
    ensures Length(Intersect([x], mt)) == |Span(x) * Ticks(mt)|
  {
    SingleOk(x);
    IntersectOk([x], mt);
    LengthIsTicks(Intersect([x], mt));
  }

  lemma {:induction false} SpansUnplannedOk(downs: Ranges, mt: Ranges, t: Time)
    requires Normal(downs) && Normal(mt)
    ensures InSome(SpansUnplanned(downs, mt), t) <==> t in Ticks(downs) && t !in Ticks(mt)
  {
    if downs != [] {
      var x := downs[0];
      SpansUnplannedOk(downs[1..], mt, t);
      SingleOk(x);
      SubtractOk([x], mt);
      InSomeJoin([Subtract([x], mt)], SpansUnplanned(downs[1..], mt), t);
      assert InSome([Subtract([x], mt)], t) <==> t in Ticks(Subtract([x], mt)) by {
        if t in Ticks(Subtract([x], mt)) { assert t in Ticks([Subtract([x], mt)][0]); }
      }
    }
  }

  // ---------- The scope's members from the tables ----------

  function Splits(db: Tables, tenant: TenantId, ids: seq<MonitorId>, b: Range, now: Time, knob: bool): seq<Split> {
    seq(|ids|, i requires 0 <= i < |ids| => SplitOf(db, tenant, ids[i], b, now, knob))
  }

  function Meanings(db: Tables, tenant: TenantId, ids: seq<MonitorId>, now: Time, knob: bool): seq<Time -> Status> {
    seq(|ids|, i requires 0 <= i < |ids| => Meaning(db, tenant, ids[i], now, knob))
  }

  ghost predicate ScopeDisjoint(db: Tables, tenant: TenantId, ids: seq<MonitorId>, now: Time) {
    forall i :: 0 <= i < |ids| ==> TimelineDisjoint(db, tenant, ids[i], now)
  }

  lemma SplitsMean(db: Tables, tenant: TenantId, ids: seq<MonitorId>, b: Range, now: Time, knob: bool)
    requires ScopeDisjoint(db, tenant, ids, now)
    ensures Means(Splits(db, tenant, ids, b, now, knob), Meanings(db, tenant, ids, now, knob), b)
  {
    forall i | 0 <= i < |ids|
      ensures var s, f := Splits(db, tenant, ids, b, now, knob)[i], Meanings(db, tenant, ids, now, knob)[i];
              && Normal(s.available) && Ticks(s.available) == TicksOf(f, b, Available)
              && Normal(s.unplanned) && Ticks(s.unplanned) == TicksOf(f, b, UnplannedDown)
    {
      SplitIsPointwise(db, tenant, ids[i], b, now, knob);
    }
  }

  /** Serial down, available and excluded time of a scope, as the tables mean them. */
  lemma ScopeSerialIsPointwise(db: Tables, tenant: TenantId, ids: seq<MonitorId>, b: Range, now: Time, knob: bool)
    requires ScopeDisjoint(db, tenant, ids, now) && b.lo < b.hi
    ensures var x, fs := SerialOf(Splits(db, tenant, ids, b, now, knob), b), Meanings(db, tenant, ids, now, knob);
            && x.down == |ServiceTicks(fs, b, ServiceDown)|
            && x.excluded == |ServiceTicks(fs, b, ServiceExcluded)|
            && x.available == |ServiceTicks(fs, b, ServiceUp)|
            && x.available + x.down + x.excluded == b.hi - b.lo
            && x.down <= SumUnplanned(fs, b)
            && forall i :: 0 <= i < |fs| ==> |TicksOf(fs[i], b, UnplannedDown)| <= x.down
  {
    SplitsMean(db, tenant, ids, b, now, knob);
    SerialIsPointwise(Splits(db, tenant, ids, b, now, knob), Meanings(db, tenant, ids, now, knob), b);
    var fs := Meanings(db, tenant, ids, now, knob);
    SerialDownAtMost(fs, b);
    forall i | 0 <= i < |fs| ensures |TicksOf(fs[i], b, UnplannedDown)| <= |ServiceTicks(fs, b, ServiceDown)| {
      SerialDownAtLeast(fs, b, i);
    }
  }

  /** Some selected down row of the monitor is still open. */
  predicate OpenNow(ivs: seq<Interval>, b: Range, now: Time, knob: bool) {
    exists i :: 0 <= i < |ivs| && Joins(ivs[i], b, now) && ClassOf(ivs[i], knob) == DownClass && ivs[i].endedAt.None?
  }

  function OutagesOf(db: Tables, tenant: TenantId, m: MonitorId, b: Range, now: Time, knob: bool): seq<Outage> {
    MonitorOutages(m, ClassRanges(db, tenant, m, b, now, knob, DownClass), Maintenance(db, tenant, m, b),
                   OpenNow(RowsFor(db.intervals, tenant, m), b, now, knob), b, now)
  }

  /** A monitor's outages and its integrated figures agree at the same clock. */
  lemma OutagesAgree(db: Tables, tenant: TenantId, m: MonitorId, b: Range, now: Time, knob: bool)
    requires TimelineDisjoint(db, tenant, m, now)
    ensures var os, x := OutagesOf(db, tenant, m, b, now, knob), MonitorSeconds(db, tenant, m, b, now, knob);
            && OutageLengths(os) == x.unplannedDown + x.plannedDown
            && OutagePlanned(os) == x.plannedDown
  {
    var downs, mt := ClassRanges(db, tenant, m, b, now, knob, DownClass), Maintenance(db, tenant, m, b);
    DownIsPointwise(db, tenant, m, b, now, knob);
    LengthsAddUp(m, downs, mt, OpenNow(RowsFor(db.intervals, tenant, m), b, now, knob), b, now);
    PlannedAddsUp(m, downs, mt, OpenNow(RowsFor(db.intervals, tenant, m), b, now, knob), b, now);
    IntersectOk(downs, mt);
    SubtractOk(downs, mt);
    LengthIsTicks(downs);
    LengthIsTicks(Intersect(downs, mt));
    LengthIsTicks(Subtract(downs, mt));
    SplitSize(Ticks(downs), Ticks(mt));
  }

  /** One member's unplanned pieces, span by span, joined. */
  function MemberPieces(db: Tables, tenant: TenantId, m: MonitorId, b: Range, now: Time, knob: bool): Ranges {
    UnionAll(SpansUnplanned(ClassRanges(db, tenant, m, b, now, knob, DownClass), Maintenance(db, tenant, m, b)))
  }

  /** The composite's spans: range_agg over every member's unplanned pieces. */
  function CompositeSpans(db: Tables, tenant: TenantId, ids: seq<MonitorId>, b: Range, now: Time, knob: bool): Ranges {
    UnionAll(seq(|ids|, i requires 0 <= i < |ids| => MemberPieces(db, tenant, ids[i], b, now, knob)))
  }

  lemma MemberPiecesOk(db: Tables, tenant: TenantId, m: MonitorId, b: Range, now: Time, knob: bool)
    requires TimelineDisjoint(db, tenant, m, now)
    ensures Ticks(MemberPieces(db, tenant, m, b, now, knob)) == TicksOf(Meaning(db, tenant, m, now, knob), b, UnplannedDown)
  {
    var downs, mt := ClassRanges(db, tenant, m, b, now, knob, DownClass), Maintenance(db, tenant, m, b);
    DownIsPointwise(db, tenant, m, b, now, knob);
    SubtractOk(downs, mt);
    UnionAllOk(SpansUnplanned(downs, mt));
    forall t ensures t in Ticks(UnionAll(SpansUnplanned(downs, mt))) <==> t in Ticks(Subtract(downs, mt)) {
      SpansUnplannedOk(downs, mt, t);
    }
  }

  /** The outage list's composite spans are, span for span, the serial composite's down ranges. */
  lemma CompositeAgrees(db: Tables, tenant: TenantId, ids: seq<MonitorId>, b: Range, now: Time, knob: bool)
    requires ScopeDisjoint(db, tenant, ids, now)
    ensures CompositeSpans(db, tenant, ids, b, now, knob) == SerialDown(Splits(db, tenant, ids, b, now, knob))
  {
    var fs := Meanings(db, tenant, ids, now, knob);
    var ss := Splits(db, tenant, ids, b, now, knob);
    SplitsMean(db, tenant, ids, b, now, knob);
    SerialDownOk(ss, fs, b);
    var ms := seq(|ids|, i requires 0 <= i < |ids| => MemberPieces(db, tenant, ids[i], b, now, knob));
    UnionAllOk(ms);
    var spans := CompositeSpans(db, tenant, ids, b, now, knob);
    forall i | 0 <= i < |ids| ensures Ticks(ms[i]) == TicksOf(fs[i], b, UnplannedDown) {
      MemberPiecesOk(db, tenant, ids[i], b, now, knob);
    }
    UnionIsDown(fs, ms, b, spans);
    NormalUnique(spans, SerialDown(ss));
  }

  /** A union of the members' down ticks is where the service is down. */
  lemma UnionIsDown(fs: seq<Time -> Status>, ms: seq<Ranges>, b: Range, spans: Ranges)
    requires |ms| == |fs| && forall i :: 0 <= i < |fs| ==> Ticks(ms[i]) == TicksOf(fs[i], b, UnplannedDown)
    requires forall t :: t in Ticks(spans) <==> InSome(ms, t)
    ensures Ticks(spans) == ServiceTicks(fs, b, ServiceDown)
  {
    forall t ensures t in Ticks(spans) <==> t in ServiceTicks(fs, b, ServiceDown) {
      if i :| 0 <= i < |ms| && t in Ticks(ms[i]) { assert fs[i](t) == UnplannedDown; }
      if t in Span(b) {
        if i :| 0 <= i < |fs| && fs[i](t) == UnplannedDown { assert t in Ticks(ms[i]); }
      }
    }
  }
}

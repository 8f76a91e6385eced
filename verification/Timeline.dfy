/**
 Timeline integration (shared/analytics/timeline.go): the multirange query behind availability, the
 pointwise meaning of every class, and the agreement of the two.
 */
module Timeline {
  import opened Common
  import opened MonitorState
  import opened Recording
  import opened Multirange

  // ---------- Tables the query reads ----------

  type TenantId = int
  type WindowId = int

  datatype IntervalRow = IntervalRow(tenant: TenantId, monitor: MonitorId, interval: Interval)

  datatype Window = Window(id: WindowId, tenant: TenantId, startsAt: Time, endsAt: Time)

  datatype Tables = Tables(
    intervals: seq<IntervalRow>,
    windows: seq<Window>,
    targets: set<(WindowId, MonitorId)>,    // maintenance_window_monitors
    groups: set<(MonitorId, MonitorId)>)    // monitor_groups: (monitor, group)

  /** The window targets the monitor directly or through one of its groups. */
  predicate Reaches(db: Tables, w: Window, m: MonitorId) {
    (w.id, m) in db.targets || exists g :: g in db.groups && g.0 == m && (w.id, g.1) in db.targets
  }

  predicate ActiveFor(db: Tables, w: Window, tenant: TenantId, m: MonitorId, t: Time) {
    w.tenant == tenant && w.startsAt <= t < w.endsAt && Reaches(db, w, m)
  }

  /** InMaintenanceAtPredicate. */
  predicate InMaintenanceAt(db: Tables, tenant: TenantId, m: MonitorId, t: Time) {
    AnyActive(db, db.windows, tenant, m, t)
  }

  function RowsFor(rows: seq<IntervalRow>, tenant: TenantId, m: MonitorId): seq<Interval> {
    if rows == [] then []
    else
      var row := rows[|rows| - 1];
      RowsFor(rows[..|rows| - 1], tenant, m) + if row.tenant == tenant && row.monitor == m then [row.interval] else []
  }

  // ---------- The query ----------

  datatype Class = AvailableClass | DownClass | PausedClass | UnknownClass

  function ClassOf(i: Interval, degradedIsDown: bool): Class {
    if i.state == Down || (i.state == Degraded && degradedIsDown) then DownClass
    else if i.state in {Up, Suspect, Degraded} then AvailableClass
    else if i.reason == ByPause then PausedClass
    else UnknownClass
  }

  function EndOf(i: Interval, now: Time): Time { if i.endedAt.Some? then i.endedAt.value else now }

  /** The WHERE clause of `classed`. */
  predicate Joins(i: Interval, b: Range, now: Time) {
    && i.startedAt < b.hi && EndOf(i, now) > b.lo
    && Max(i.startedAt, b.lo) < Min(EndOf(i, now), b.hi)
  }

  function Pieces(ivs: seq<Interval>, b: Range, now: Time, knob: bool, c: Class): seq<Range> {
    if ivs == [] then []
    else
      var i := ivs[|ivs| - 1];
      var rest := Pieces(ivs[..|ivs| - 1], b, now, knob, c);
      if Joins(i, b, now) && ClassOf(i, knob) == c
      then rest + [Range(Max(i.startedAt, b.lo), Min(EndOf(i, now), b.hi))] else rest
  }

  function WindowPieces(db: Tables, ws: seq<Window>, tenant: TenantId, m: MonitorId, b: Range): seq<Range> {
    if ws == [] then []
    else
      var w := ws[|ws| - 1];
      var rest := WindowPieces(db, ws[..|ws| - 1], tenant, m, b);
      if w.tenant == tenant && w.startsAt < b.hi && w.endsAt > b.lo && Reaches(db, w, m)
      then rest + [Range(Max(w.startsAt, b.lo), Min(w.endsAt, b.hi))] else rest
  }

  function ClassRanges(db: Tables, tenant: TenantId, m: MonitorId, b: Range, now: Time, knob: bool, c: Class): Ranges {
    RangeAgg(Pieces(RowsFor(db.intervals, tenant, m), b, now, knob, c))
  }

  function Maintenance(db: Tables, tenant: TenantId, m: MonitorId, b: Range): Ranges {
    RangeAgg(WindowPieces(db, db.windows, tenant, m, b))
  }

  /** One row of the `split` CTE. */
  datatype Split = Split(available: Ranges, unplanned: Ranges, planned: Ranges, paused: Ranges, unknown: Ranges)

  function SplitOf(db: Tables, tenant: TenantId, m: MonitorId, b: Range, now: Time, knob: bool): Split {
    var down := ClassRanges(db, tenant, m, b, now, knob, DownClass);
    var maintenance := Maintenance(db, tenant, m, b);
    Split(ClassRanges(db, tenant, m, b, now, knob, AvailableClass),
          Subtract(down, maintenance), Intersect(down, maintenance),
          ClassRanges(db, tenant, m, b, now, knob, PausedClass),
          ClassRanges(db, tenant, m, b, now, knob, UnknownClass))
  }

  // ---------- Pointwise meaning ----------

  predicate CoversTick(i: Interval, t: Time, now: Time) { i.startedAt <= t < EndOf(i, now) }

  /** At most one interval of the monitor covers a tick. */
  ghost predicate Disjoint(ivs: seq<Interval>, now: Time) {
    forall i, j, t :: 0 <= i < |ivs| && 0 <= j < |ivs| && CoversTick(ivs[i], t, now) && CoversTick(ivs[j], t, now) ==> i == j
  }

  /** What a tick of a monitor's time counts as. */
  datatype Status = Available | UnplannedDown | PlannedDown | Paused | NotKnown | Untracked

  function StatusOf(c: Class, inMaintenance: bool): Status {
    match c
    case AvailableClass => Available
    case DownClass => if inMaintenance then PlannedDown else UnplannedDown
    case PausedClass => Paused
    case UnknownClass => NotKnown
  }

  /** Classify a tick by looking up the interval that covers it, no range algebra involved. */
  function StatusIn(ivs: seq<Interval>, t: Time, now: Time, knob: bool, inMaintenance: bool): Status {
    if ivs == [] then Untracked
    else if CoversTick(ivs[|ivs| - 1], t, now) then StatusOf(ClassOf(ivs[|ivs| - 1], knob), inMaintenance)
    else StatusIn(ivs[..|ivs| - 1], t, now, knob, inMaintenance)
  }

  function StatusAt(db: Tables, tenant: TenantId, m: MonitorId, t: Time, now: Time, knob: bool): Status {
    StatusIn(RowsFor(db.intervals, tenant, m), t, now, knob, InMaintenanceAt(db, tenant, m, t))
  }

  /** A monitor's whole timeline as a function of time. */
  function Meaning(db: Tables, tenant: TenantId, m: MonitorId, now: Time, knob: bool): Time -> Status {
    t => StatusAt(db, tenant, m, t, now, knob)
  }

  /** The ticks of a bucket at which a timeline has a given status. */
  function TicksOf(f: Time -> Status, b: Range, s: Status): set<Time> {
    set t | t in Span(b) && f(t) == s
  }

  // ---------- The query against its pointwise meaning ----------

  predicate CoversWith(ivs: seq<Interval>, t: Time, now: Time, knob: bool, c: Class) {
    exists i :: 0 <= i < |ivs| && CoversTick(ivs[i], t, now) && ClassOf(ivs[i], knob) == c
  }

  lemma {:induction false} PiecesCover(ivs: seq<Interval>, b: Range, now: Time, knob: bool, c: Class, t: Time)
    ensures Covered(Pieces(ivs, b, now, knob, c), t) <==> Inside(b, t) && CoversWith(ivs, t, now, knob, c)
  {
    if ivs != [] {
      var before, i := ivs[..|ivs| - 1], ivs[|ivs| - 1];
      PiecesCover(before, b, now, knob, c, t);
      CoveredAppend(Pieces(before, b, now, knob, c), Range(Max(i.startedAt, b.lo), Min(EndOf(i, now), b.hi)), t);
      assert CoversWith(ivs, t, now, knob, c) <==> CoversWith(before, t, now, knob, c) || (CoversTick(i, t, now) && ClassOf(i, knob) == c) by {
        if j :| 0 <= j < |before| && CoversTick(before[j], t, now) && ClassOf(before[j], knob) == c { assert CoversTick(ivs[j], t, now); }
        if CoversTick(i, t, now) { assert CoversTick(ivs[|ivs| - 1], t, now); }
      }
    }
  }

  predicate AnyActive(db: Tables, ws: seq<Window>, tenant: TenantId, m: MonitorId, t: Time) {
    exists i :: 0 <= i < |ws| && ActiveFor(db, ws[i], tenant, m, t)
  }

  lemma {:induction false} WindowPiecesCover(db: Tables, ws: seq<Window>, tenant: TenantId, m: MonitorId, b: Range, t: Time)
    ensures Covered(WindowPieces(db, ws, tenant, m, b), t) <==> Inside(b, t) && AnyActive(db, ws, tenant, m, t)
  {
    if ws != [] {
      var before, w := ws[..|ws| - 1], ws[|ws| - 1];
      WindowPiecesCover(db, before, tenant, m, b, t);
      CoveredAppend(WindowPieces(db, before, tenant, m, b), Range(Max(w.startsAt, b.lo), Min(w.endsAt, b.hi)), t);
      assert AnyActive(db, ws, tenant, m, t) <==> AnyActive(db, before, tenant, m, t) || ActiveFor(db, w, tenant, m, t) by {
        if j :| 0 <= j < |before| && ActiveFor(db, before[j], tenant, m, t) { assert ActiveFor(db, ws[j], tenant, m, t); }
        if ActiveFor(db, w, tenant, m, t) { assert ActiveFor(db, ws[|ws| - 1], tenant, m, t); }
      }
    }
  }

  lemma {:induction false} StatusFound(ivs: seq<Interval>, i: nat, t: Time, now: Time, knob: bool, inMaintenance: bool)
    requires Disjoint(ivs, now) && i < |ivs| && CoversTick(ivs[i], t, now)
    ensures StatusIn(ivs, t, now, knob, inMaintenance) == StatusOf(ClassOf(ivs[i], knob), inMaintenance)
  {
    if i < |ivs| - 1 {
      var before := ivs[..|ivs| - 1];
      forall x, y, u | 0 <= x < |before| && 0 <= y < |before| && CoversTick(before[x], u, now) && CoversTick(before[y], u, now)
        ensures x == y { assert CoversTick(ivs[x], u, now) && CoversTick(ivs[y], u, now); }
      assert before[i] == ivs[i];
      StatusFound(before, i, t, now, knob, inMaintenance);
      assert !CoversTick(ivs[|ivs| - 1], t, now);
    }
  }

  lemma {:induction false} StatusTracked(ivs: seq<Interval>, t: Time, now: Time, knob: bool, inMaintenance: bool)
    ensures StatusIn(ivs, t, now, knob, inMaintenance) == Untracked
       <==> forall i :: 0 <= i < |ivs| ==> !CoversTick(ivs[i], t, now)
  {
    if ivs != [] {
      var before := ivs[..|ivs| - 1];
      StatusTracked(before, t, now, knob, inMaintenance);
      assert forall i :: 0 <= i < |before| ==> ivs[i] == before[i];
    }
  }

  lemma ClassRangesOk(db: Tables, tenant: TenantId, m: MonitorId, b: Range, now: Time, knob: bool, c: Class, t: Time)
    requires Disjoint(RowsFor(db.intervals, tenant, m), now)
    ensures Normal(ClassRanges(db, tenant, m, b, now, knob, c))
    ensures t in Ticks(ClassRanges(db, tenant, m, b, now, knob, c))
       <==> Inside(b, t) && StatusAt(db, tenant, m, t, now, knob) == StatusOf(c, InMaintenanceAt(db, tenant, m, t))
  {
    var ivs := RowsFor(db.intervals, tenant, m);
    var planned := InMaintenanceAt(db, tenant, m, t);
    RangeAggOk(Pieces(ivs, b, now, knob, c));
    PiecesCover(ivs, b, now, knob, c, t);
    StatusTracked(ivs, t, now, knob, planned);
    if i :| 0 <= i < |ivs| && CoversTick(ivs[i], t, now) {
      StatusFound(ivs, i, t, now, knob, planned);
      assert CoversWith(ivs, t, now, knob, c) <==> ClassOf(ivs[i], knob) == c;
    }
  }

  lemma MaintenanceOk(db: Tables, tenant: TenantId, m: MonitorId, b: Range, t: Time)
    ensures Normal(Maintenance(db, tenant, m, b))
    ensures t in Ticks(Maintenance(db, tenant, m, b)) <==> Inside(b, t) && InMaintenanceAt(db, tenant, m, t)
  {
    RangeAggOk(WindowPieces(db, db.windows, tenant, m, b));
    WindowPiecesCover(db, db.windows, tenant, m, b, t);
  }

  ghost predicate TimelineDisjoint(db: Tables, tenant: TenantId, m: MonitorId, now: Time) {
    Disjoint(RowsFor(db.intervals, tenant, m), now)
  }

  /** Every range set of the query holds exactly the ticks of its status. */
  lemma SplitIsPointwise(db: Tables, tenant: TenantId, m: MonitorId, b: Range, now: Time, knob: bool)
    requires TimelineDisjoint(db, tenant, m, now)
    ensures var s := SplitOf(db, tenant, m, b, now, knob);
            && Normal(s.available) && Ticks(s.available) == TicksOf(Meaning(db, tenant, m, now, knob), b, Available)
            && Normal(s.unplanned) && Ticks(s.unplanned) == TicksOf(Meaning(db, tenant, m, now, knob), b, UnplannedDown)
            && Normal(s.planned) && Ticks(s.planned) == TicksOf(Meaning(db, tenant, m, now, knob), b, PlannedDown)
            && Normal(s.paused) && Ticks(s.paused) == TicksOf(Meaning(db, tenant, m, now, knob), b, Paused)
            && Normal(s.unknown) && Ticks(s.unknown) == TicksOf(Meaning(db, tenant, m, now, knob), b, NotKnown)
  {
    ClassIsStatus(db, tenant, m, b, now, knob, AvailableClass);
    ClassIsStatus(db, tenant, m, b, now, knob, PausedClass);
    ClassIsStatus(db, tenant, m, b, now, knob, UnknownClass);
    DownIsPointwise(db, tenant, m, b, now, knob);
  }

  lemma ClassIsStatus(db: Tables, tenant: TenantId, m: MonitorId, b: Range, now: Time, knob: bool, c: Class)
    requires TimelineDisjoint(db, tenant, m, now) && c != DownClass
    ensures Normal(ClassRanges(db, tenant, m, b, now, knob, c))
    ensures Ticks(ClassRanges(db, tenant, m, b, now, knob, c)) == TicksOf(Meaning(db, tenant, m, now, knob), b, StatusOf(c, false))
  {
    forall t ensures t in Ticks(ClassRanges(db, tenant, m, b, now, knob, c))
                <==> t in TicksOf(Meaning(db, tenant, m, now, knob), b, StatusOf(c, false))
    {
      ClassRangesOk(db, tenant, m, b, now, knob, c, t);
    }
    ClassRangesOk(db, tenant, m, b, now, knob, c, 0);
  }

  lemma DownIsPointwise(db: Tables, tenant: TenantId, m: MonitorId, b: Range, now: Time, knob: bool)
    requires TimelineDisjoint(db, tenant, m, now)
    ensures var down, mt := ClassRanges(db, tenant, m, b, now, knob, DownClass), Maintenance(db, tenant, m, b);
            && Normal(down) && Normal(mt)
            && Normal(Subtract(down, mt)) && Ticks(Subtract(down, mt)) == TicksOf(Meaning(db, tenant, m, now, knob), b, UnplannedDown)
            && Normal(Intersect(down, mt)) && Ticks(Intersect(down, mt)) == TicksOf(Meaning(db, tenant, m, now, knob), b, PlannedDown)
  {
    var down, mt := ClassRanges(db, tenant, m, b, now, knob, DownClass), Maintenance(db, tenant, m, b);
    forall t ensures
        && (t in Ticks(down) && t !in Ticks(mt) <==> t in TicksOf(Meaning(db, tenant, m, now, knob), b, UnplannedDown))
        && (t in Ticks(down) && t in Ticks(mt) <==> t in TicksOf(Meaning(db, tenant, m, now, knob), b, PlannedDown))
    {
      ClassRangesOk(db, tenant, m, b, now, knob, DownClass, t);
      MaintenanceOk(db, tenant, m, b, t);
      PlannedIsMaintenance(db, tenant, m, t, now, knob);
    }
    ClassRangesOk(db, tenant, m, b, now, knob, DownClass, 0);
    MaintenanceOk(db, tenant, m, b, 0);
    SubtractOk(down, mt);
    IntersectOk(down, mt);
  }

  // ---------- Seconds per class ----------

  datatype StateSeconds = StateSeconds(
    available: int, unplannedDown: int, plannedDown: int, paused: int, unknown: int, window: int)
  {
    function Observed(): int { available + unplannedDown + plannedDown }
    function UntrackedTime(): int { Max(window - Observed() - paused - unknown, 0) }
  }

  function MonitorSeconds(db: Tables, tenant: TenantId, m: MonitorId, b: Range, now: Time, knob: bool): StateSeconds {
    var s := SplitOf(db, tenant, m, b, now, knob);
    StateSeconds(Length(s.available), Length(s.unplanned), Length(s.planned), Length(s.paused), Length(s.unknown),
                 Max(b.hi - b.lo, 0))
  }

  /** The reference: count the ticks of each status one by one. */
  function Tally(f: Time -> Status, b: Range): StateSeconds {
    StateSeconds(|TicksOf(f, b, Available)|, |TicksOf(f, b, UnplannedDown)|, |TicksOf(f, b, PlannedDown)|,
                 |TicksOf(f, b, Paused)|, |TicksOf(f, b, NotKnown)|, Max(b.hi - b.lo, 0))
  }

  /** IntegrateTimeline is pointwise classification: each figure counts the ticks of its status. */
  lemma IntegrationIsPointwise(db: Tables, tenant: TenantId, m: MonitorId, b: Range, now: Time, knob: bool)
    requires TimelineDisjoint(db, tenant, m, now)
    ensures MonitorSeconds(db, tenant, m, b, now, knob) == Tally(Meaning(db, tenant, m, now, knob), b)
  {
    SplitIsPointwise(db, tenant, m, b, now, knob);
    var s := SplitOf(db, tenant, m, b, now, knob);
    LengthIsTicks(s.available);
    LengthIsTicks(s.unplanned);
    LengthIsTicks(s.planned);
    LengthIsTicks(s.paused);
    LengthIsTicks(s.unknown);
  }

  function TicksAmong(f: Time -> Status, b: Range, ss: set<Status>): set<Time> {
    set t | t in Span(b) && f(t) in ss
  }

  lemma AmongGrows(f: Time -> Status, b: Range, ss: set<Status>, s: Status, ss': set<Status>)
    requires s !in ss && ss' == ss + {s}
    ensures |TicksAmong(f, b, ss')| == |TicksAmong(f, b, ss)| + |TicksOf(f, b, s)|
  {
    var x, y := TicksAmong(f, b, ss), TicksOf(f, b, s);
    assert TicksAmong(f, b, ss') == x + y;
    assert x !! y;
  }

  /** Every tick has exactly one status: the figures and the untracked rest add up to the window. */
  lemma TallyIsComplete(f: Time -> Status, b: Range)
    requires b.lo <= b.hi
    ensures var x := Tally(f, b);
            && x.UntrackedTime() == |TicksOf(f, b, Untracked)|
            && x.available + x.unplannedDown + x.plannedDown + x.paused + x.unknown + x.UntrackedTime() == x.window
  {
    AmongGrows(f, b, {}, Available, {Available});
    AmongGrows(f, b, {Available}, UnplannedDown, {Available, UnplannedDown});
    AmongGrows(f, b, {Available, UnplannedDown}, PlannedDown, {Available, UnplannedDown, PlannedDown});
    AmongGrows(f, b, {Available, UnplannedDown, PlannedDown}, Paused, {Available, UnplannedDown, PlannedDown, Paused});
    AmongGrows(f, b, {Available, UnplannedDown, PlannedDown, Paused}, NotKnown,
               {Available, UnplannedDown, PlannedDown, Paused, NotKnown});
    AmongGrows(f, b, {Available, UnplannedDown, PlannedDown, Paused, NotKnown}, Untracked,
               {Available, UnplannedDown, PlannedDown, Paused, NotKnown, Untracked});
    assert TicksAmong(f, b, {}) == {};
    assert TicksAmong(f, b, {Available, UnplannedDown, PlannedDown, Paused, NotKnown, Untracked}) == Span(b);
    SpanSize(b);
  }

  lemma TicksSplit(f: Time -> Status, lo: Time, mid: Time, hi: Time, s: Status)
    requires lo <= mid <= hi
    ensures |TicksOf(f, Range(lo, hi), s)| == |TicksOf(f, Range(lo, mid), s)| + |TicksOf(f, Range(mid, hi), s)|
  {
    var x, y := TicksOf(f, Range(lo, mid), s), TicksOf(f, Range(mid, hi), s);
    var p, q := Span(Range(lo, mid)), Span(Range(mid, hi));
    assert Span(Range(lo, hi)) == p + q && p !! q;
    assert TicksOf(f, Range(lo, hi), s) == x + y;
    assert x <= p && y <= q;
  }

  function Sum(x: StateSeconds, y: StateSeconds): StateSeconds {
    StateSeconds(x.available + y.available, x.unplannedDown + y.unplannedDown, x.plannedDown + y.plannedDown,
                 x.paused + y.paused, x.unknown + y.unknown, x.window + y.window)
  }

  lemma TallyIsAdditive(f: Time -> Status, lo: Time, mid: Time, hi: Time)
    requires lo <= mid <= hi
    ensures Tally(f, Range(lo, hi)) == Sum(Tally(f, Range(lo, mid)), Tally(f, Range(mid, hi)))
  {
    TicksSplit(f, lo, mid, hi, Available);
    TicksSplit(f, lo, mid, hi, UnplannedDown);
    TicksSplit(f, lo, mid, hi, PlannedDown);
    TicksSplit(f, lo, mid, hi, Paused);
    TicksSplit(f, lo, mid, hi, NotKnown);
  }

  /** The five figures and the untracked rest of any bucket add up to exactly its length. */
  lemma IntegrationIsComplete(db: Tables, tenant: TenantId, m: MonitorId, b: Range, now: Time, knob: bool)
    requires TimelineDisjoint(db, tenant, m, now) && b.lo <= b.hi
    ensures var x := MonitorSeconds(db, tenant, m, b, now, knob);
            && x.UntrackedTime() == |TicksOf(Meaning(db, tenant, m, now, knob), b, Untracked)|
            && x.available + x.unplannedDown + x.plannedDown + x.paused + x.unknown + x.UntrackedTime() == b.hi - b.lo
  {
    IntegrationIsPointwise(db, tenant, m, b, now, knob);
    TallyIsComplete(Meaning(db, tenant, m, now, knob), b);
  }

  /** Integrating two adjacent buckets sums to integrating their union, class by class. */
  lemma IntegrationIsAdditive(db: Tables, tenant: TenantId, m: MonitorId, lo: Time, mid: Time, hi: Time, now: Time, knob: bool)
    requires TimelineDisjoint(db, tenant, m, now) && lo <= mid <= hi
    ensures MonitorSeconds(db, tenant, m, Range(lo, hi), now, knob)
         == Sum(MonitorSeconds(db, tenant, m, Range(lo, mid), now, knob), MonitorSeconds(db, tenant, m, Range(mid, hi), now, knob))
  {
    IntegrationIsPointwise(db, tenant, m, Range(lo, hi), now, knob);
    IntegrationIsPointwise(db, tenant, m, Range(lo, mid), now, knob);
    IntegrationIsPointwise(db, tenant, m, Range(mid, hi), now, knob);
    TallyIsAdditive(Meaning(db, tenant, m, now, knob), lo, mid, hi);
  }

  /** Planned down time is exactly the down time at which InMaintenanceAtPredicate holds. */
  lemma PlannedIsMaintenance(db: Tables, tenant: TenantId, m: MonitorId, t: Time, now: Time, knob: bool)
    ensures var s := StatusAt(db, tenant, m, t, now, knob);
            s in {PlannedDown, UnplannedDown} ==> (s == PlannedDown <==> InMaintenanceAt(db, tenant, m, t))
  {
    PlannedIn(RowsFor(db.intervals, tenant, m), t, now, knob, InMaintenanceAt(db, tenant, m, t));
  }

  lemma {:induction false} PlannedIn(ivs: seq<Interval>, t: Time, now: Time, knob: bool, inMaintenance: bool)
    ensures StatusIn(ivs, t, now, knob, inMaintenance) == PlannedDown ==> inMaintenance
    ensures StatusIn(ivs, t, now, knob, inMaintenance) == UnplannedDown ==> !inMaintenance
  {
    if ivs != [] { PlannedIn(ivs[..|ivs| - 1], t, now, knob, inMaintenance); }
  }
}

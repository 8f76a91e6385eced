/** Calendar reporting periods in a time zone: shared/analytics/period.go. */
module Periods {
  import opened Common
  import opened Civil
  import opened IsoWeeks
  import opened Decimal

  type Time = int

  const SECOND: Time := 1_000_000_000
  const HOUR: Time := 3_600 * SECOND
  const DAY: Time := 86_400 * SECOND

  /** A location: the local date and time of day of an instant, and time.Date for a day and time of day. */
  datatype Zone = Zone(localDay: Time -> Day, clock: Time -> int, at: (Day, int) -> Time)

  function Midnight(z: Zone, d: Day): Time { z.at(d, 0) }

  /** A second before. */
  function Earlier(t: Time): Time { t - SECOND }

  /** Midnight of the day resolves to an instant of that day. A skipped midnight may resolve to the day before. */
  predicate Lands(z: Zone, d: Day) { z.localDay(z.at(d, 0)) == d }

  /** Midnight of the day resolves to that day or to the day before: the day is not skipped as a whole. */
  predicate Near(z: Zone, d: Day) { d - 1 <= z.localDay(z.at(d, 0)) <= d }

  /** A second before midnight it is the day before, or the one before that where a whole day is skipped. */
  predicate Preceded(z: Zone, d: Day) { d - 2 <= z.localDay(Earlier(z.at(d, 0))) <= d - 1 }

  /** The time of day that one midnight resolved to exists on another day; only midnight itself may be skipped there. */
  predicate Carries(z: Zone, from: Day, to: Day) {
    var c := z.clock(z.at(from, 0));
    && Near(z, from) && (c == 0 ==> Lands(z, from))
    && (if c == 0 then Near(z, to) else z.localDay(z.at(to, c)) == to)
  }

  /** The same of every day at once. Midnights are at least a second apart. */
  ghost predicate MidnightsOk(z: Zone) { LandsNearby(z) && SecondsBefore(z) && MidnightsApart(z) }

  ghost predicate LandsNearby(z: Zone) { forall d :: d - 1 <= z.localDay(z.at(d, 0)) <= d }

  ghost predicate SecondsBefore(z: Zone) { forall d :: z.localDay(Earlier(z.at(d, 0))) == d - 1 }

  ghost predicate MidnightsApart(z: Zone) { forall d, e :: e == d + 1 ==> z.at(d, 0) + SECOND <= z.at(e, 0) }

  ghost predicate ClocksOk(z: Zone) {
    && (forall t :: 0 <= z.clock(t) < DAY)
    && (forall d :: z.clock(z.at(d, 0)) == 0 ==> Lands(z, d))
    && (forall d, e :: z.clock(z.at(e, 0)) != 0 ==> z.localDay(z.at(d, z.clock(z.at(e, 0)))) == d)
  }

  ghost predicate ZoneOk(z: Zone) { MidnightsOk(z) && ClocksOk(z) }

  lemma {:induction false} MidnightsGrow(z: Zone, d: Day, e: Day)
    requires MidnightsOk(z) && d < e
    ensures Midnight(z, d) < Midnight(z, e)
    decreases e - d
  {
    assert z.at(e - 1, 0) + SECOND <= z.at(e, 0);
    if d < e - 1 { MidnightsGrow(z, d, e - 1); }
  }

  // ---------- Period boundaries ----------

  datatype Kind = Weekly | Monthly | Quarterly

  /** The first local day of the i-th period of a kind. */
  function Boundary(kind: Kind, cal: Calendar, i: int): Day {
    match kind
    case Monthly => cal.monthStart(i)
    case Quarterly => cal.monthStart(3 * i)
    case Weekly => 7 * i
  }

  /** The period a local day falls in. */
  function Ordinal(kind: Kind, cal: Calendar, d: Day): int {
    match kind
    case Monthly => cal.monthOf(d)
    case Quarterly => cal.monthOf(d) / 3
    case Weekly => d / 7
  }

  lemma MonthsInOrder(cal: Calendar, i: int, j: int)
    requires CalendarOk(cal) && i <= j
    ensures cal.monthStart(i) <= cal.monthStart(j)
  {
    if i < j { StepsGrow(cal.monthStart, i, j); }
  }

  lemma OrdinalBounds(kind: Kind, cal: Calendar, d: Day)
    requires CalendarOk(cal)
    ensures Boundary(kind, cal, Ordinal(kind, cal, d)) <= d < Boundary(kind, cal, Ordinal(kind, cal, d) + 1)
  {
    if kind == Quarterly {
      var i := cal.monthOf(d);
      MonthsInOrder(cal, 3 * (i / 3), i);
      MonthsInOrder(cal, i + 1, 3 * (i / 3 + 1));
    }
  }

  lemma BoundaryGrows(kind: Kind, cal: Calendar, i: int)
    requires CalendarOk(cal)
    ensures Boundary(kind, cal, i) < Boundary(kind, cal, i + 1)
  {
    match kind
    case Monthly => StepsGrow(cal.monthStart, i, i + 1);
    case Quarterly => StepsGrow(cal.monthStart, 3 * i, 3 * (i + 1));
    case Weekly =>
  }

  lemma {:induction false} BoundariesInOrder(kind: Kind, cal: Calendar, i: int, j: int)
    requires CalendarOk(cal) && i <= j
    ensures Boundary(kind, cal, i) <= Boundary(kind, cal, j)
    decreases j - i
  {
    if i < j {
      BoundaryGrows(kind, cal, j - 1);
      BoundariesInOrder(kind, cal, i, j - 1);
    }
  }

  /** The periods of a kind tile the days. */
  lemma OrdinalIs(kind: Kind, cal: Calendar, d: Day, i: int)
    requires CalendarOk(cal)
    ensures Boundary(kind, cal, i) <= d < Boundary(kind, cal, i + 1) <==> Ordinal(kind, cal, d) == i
  {
    OrdinalBounds(kind, cal, d);
    var j := Ordinal(kind, cal, d);
    if j < i { BoundariesInOrder(kind, cal, j + 1, i); }
    if i < j { BoundariesInOrder(kind, cal, i + 1, j); }
  }

  // ---------- Periods as the code builds them ----------

  datatype Period = Period(kind: Kind, key: string, start: Time, end: Time)

  /** AddDate on an instant: the calendar moves, the time of day stays. */
  function AddMonths(cal: Calendar, z: Zone, t: Time, n: int): Time {
    var d := z.localDay(t);
    z.at(cal.monthStart(cal.monthOf(d) + n) + (d - cal.monthStart(cal.monthOf(d))), z.clock(t))
  }

  function AddDays(z: Zone, t: Time, n: int): Time { z.at(z.localDay(t) + n, z.clock(t)) }

  function Year4(n: int): string { if n >= 0 then Padded(n, 4) else "-" + Padded(-n, 4) }

  function MonthKey(y: int, m: nat): string { Year4(y) + "-" + Padded(m, 2) }

  function QuarterKey(y: int, q: nat): string { Signed(y) + "-Q" + Digits(q) }

  function WeekKey(y: int, w: nat): string { Signed(y) + "-W" + Padded(w, 2) }

  function MonthPeriod(cal: Calendar, z: Zone, y: int, m: int): Period {
    var start := z.at(cal.monthStart(12 * y + m - 1), 0);
    var i := cal.monthOf(z.localDay(start));
    Period(Monthly, MonthKey(i / 12, i % 12 + 1), start, AddMonths(cal, z, start, 1))
  }

  function QuarterPeriod(cal: Calendar, z: Zone, y: int, q: nat): Period {
    var start := z.at(cal.monthStart(12 * y + (q - 1) * 3), 0);
    Period(Quarterly, QuarterKey(y, q), start, AddMonths(cal, z, start, 3))
  }

  function WeekPeriod(cal: Calendar, z: Zone, y: int, w: nat): Period {
    var jan4 := z.localDay(z.at(YearStart(cal, y) + 3, 0));
    var start := z.at(YearStart(cal, y) + 3 - jan4 % 7 + (w - 1) * 7, 0);
    Period(Weekly, WeekKey(y, w), start, AddDays(z, start, 7))
  }

  function PeriodContaining(kind: Kind, cal: Calendar, z: Zone, t: Time): Period
    requires CalendarOk(cal)
  {
    var d := z.localDay(t);
    var i := cal.monthOf(d);
    match kind
    case Monthly => MonthPeriod(cal, z, i / 12, i % 12 + 1)
    case Quarterly => QuarterPeriod(cal, z, i / 12, (i % 12) / 3 + 1)
    case Weekly => WeeksAgree(cal, d); WeekPeriod(cal, z, IsoYear(cal, d), IsoWeek(cal, d))
  }

  function Previous(p: Period, cal: Calendar, z: Zone): Period
    requires CalendarOk(cal)
  {
    PeriodContaining(p.kind, cal, z, Earlier(p.start))
  }

  function Next(p: Period, cal: Calendar, z: Zone): Period
    requires CalendarOk(cal)
  {
    PeriodContaining(p.kind, cal, z, p.end)
  }

  // ---------- The i-th period ----------

  function KeyAt(kind: Kind, cal: Calendar, i: int): string
    requires CalendarOk(cal)
  {
    match kind
    case Monthly => MonthKey(i / 12, i % 12 + 1)
    case Quarterly => QuarterKey(i / 4, i % 4 + 1)
    case Weekly => WeeksAgree(cal, 7 * i); WeekKey(IsoYear(cal, 7 * i), IsoWeek(cal, 7 * i))
  }

  /** 4 January of the ISO year a week belongs to. */
  function Jan4Of(cal: Calendar, i: int): Day { YearStart(cal, IsoYear(cal, 7 * i)) + 3 }

  /** How far weekPeriod is off when midnight of 4 January is skipped: it reads the weekday of 3 January. */
  function Shift(z: Zone, jan4: Day): int { if Lands(z, jan4) then 0 else if jan4 % 7 == 0 then -6 else 1 }

  /** The day whose midnight the code takes for the start of the i-th period. */
  function StartDay(kind: Kind, cal: Calendar, z: Zone, i: int): Day {
    Boundary(kind, cal, i) + (if kind == Weekly then Shift(z, Jan4Of(cal, i)) else 0)
  }

  function StartAt(kind: Kind, cal: Calendar, z: Zone, i: int): Time { Midnight(z, StartDay(kind, cal, z, i)) }

  function EndAt(kind: Kind, cal: Calendar, z: Zone, i: int): Time {
    match kind
    case Monthly => AddMonths(cal, z, StartAt(kind, cal, z, i), 1)
    case Quarterly => AddMonths(cal, z, StartAt(kind, cal, z, i), 3)
    case Weekly => AddDays(z, StartAt(kind, cal, z, i), 7)
  }

  /** A month's key is printed from its start; a quarter's and a week's from their numbers. */
  function KeyIndex(kind: Kind, cal: Calendar, z: Zone, i: int): int {
    if kind == Monthly then cal.monthOf(z.localDay(StartAt(kind, cal, z, i))) else i
  }

  /** What the code builds for the i-th period of a kind. */
  function PeriodAt(kind: Kind, cal: Calendar, z: Zone, i: int): Period
    requires CalendarOk(cal)
  {
    Period(kind, KeyAt(kind, cal, KeyIndex(kind, cal, z, i)), StartAt(kind, cal, z, i), EndAt(kind, cal, z, i))
  }

  lemma MonthPeriodFor(cal: Calendar, z: Zone, y: int, m: nat, i: int)
    requires CalendarOk(cal) && 1 <= m <= 12 && i == 12 * y + m - 1
    ensures MonthPeriod(cal, z, y, m) == PeriodAt(Monthly, cal, z, i)
  {
  }

  lemma QuarterPeriodIs(cal: Calendar, z: Zone, y: int, q: nat, i: int)
    requires CalendarOk(cal) && 1 <= q <= 4 && i == 4 * y + q - 1
    ensures QuarterPeriod(cal, z, y, q) == PeriodAt(Quarterly, cal, z, i)
  {
    QuotientIs(i, 4, y, q - 1);
    assert 12 * y + (q - 1) * 3 == 3 * i;
  }

  lemma ShiftIs(z: Zone, jan4: Day)
    requires Near(z, jan4)
    ensures jan4 - z.localDay(z.at(jan4, 0)) % 7 == MondayOf(jan4) + Shift(z, jan4)
  {
    var d := z.localDay(z.at(jan4, 0));
    MondayAligned(jan4);
    if d != jan4 {
      if jan4 % 7 == 0 { QuotientIs(d, 7, jan4 / 7 - 1, 6); } else { QuotientIs(d, 7, jan4 / 7, jan4 % 7 - 1); }
    }
  }

  lemma SameWeek(cal: Calendar, d: Day)
    requires CalendarOk(cal)
    ensures MondayOf(d) == 7 * (d / 7) && MondayOf(d) / 7 == d / 7
    ensures IsoYear(cal, 7 * (d / 7)) == IsoYear(cal, d) && IsoWeek(cal, 7 * (d / 7)) == IsoWeek(cal, d)
  {
    MondayAligned(d);
    QuotientIs(7 * (d / 7), 7, d / 7, 0);
    assert MondayOf(7 * (d / 7)) == MondayOf(d);
  }

  lemma WeekOf(cal: Calendar, z: Zone, d: Day)
    requires CalendarOk(cal) && Near(z, Jan4Of(cal, d / 7))
    ensures IsoWeek(cal, d) >= 0 && WeekPeriod(cal, z, IsoYear(cal, d), IsoWeek(cal, d)) == PeriodAt(Weekly, cal, z, d / 7)
  {
    WeeksAgree(cal, d);
    SameWeek(cal, d);
    ShiftIs(z, YearStart(cal, IsoYear(cal, d)) + 3);
  }

  lemma QuarterOf(i: int)
    ensures i / 3 == 4 * (i / 12) + ((i % 12) / 3 + 1) - 1
  {
    QuotientIs(i, 3, 4 * (i / 12) + (i % 12) / 3, (i % 12) % 3);
  }

  lemma QuarterPeriodOf(cal: Calendar, z: Zone, i: int, y: int, q: nat, n: int)
    requires CalendarOk(cal) && y == i / 12 && q == (i % 12) / 3 + 1 && n == i / 3
    ensures QuarterPeriod(cal, z, y, q) == PeriodAt(Quarterly, cal, z, n)
  {
    QuarterOf(i);
    QuarterPeriodIs(cal, z, y, q, n);
  }

  lemma ContainingMonth(cal: Calendar, z: Zone, t: Time)
    requires CalendarOk(cal)
    ensures PeriodContaining(Monthly, cal, z, t) == PeriodAt(Monthly, cal, z, Ordinal(Monthly, cal, z.localDay(t)))
  {
    MonthOfIndex(cal, z, cal.monthOf(z.localDay(t)));
  }

  lemma MonthOfIndex(cal: Calendar, z: Zone, i: int)
    requires CalendarOk(cal)
    ensures MonthPeriod(cal, z, i / 12, i % 12 + 1) == PeriodAt(Monthly, cal, z, i)
  {
    MonthPeriodFor(cal, z, i / 12, i % 12 + 1, i);
  }

  lemma ContainingQuarter(cal: Calendar, z: Zone, t: Time)
    requires CalendarOk(cal)
    ensures PeriodContaining(Quarterly, cal, z, t) == PeriodAt(Quarterly, cal, z, Ordinal(Quarterly, cal, z.localDay(t)))
  {
    var i := cal.monthOf(z.localDay(t));
    QuarterPeriodOf(cal, z, i, i / 12, (i % 12) / 3 + 1, i / 3);
  }

  lemma ContainingWeek(cal: Calendar, z: Zone, t: Time)
    requires CalendarOk(cal) && Near(z, Jan4Of(cal, z.localDay(t) / 7))
    ensures PeriodContaining(Weekly, cal, z, t) == PeriodAt(Weekly, cal, z, Ordinal(Weekly, cal, z.localDay(t)))
  {
    WeekOf(cal, z, z.localDay(t));
  }

  /** What a week needs to be found: its year's 4 January is not skipped. */
  predicate YearOk(kind: Kind, cal: Calendar, z: Zone, i: int) { kind == Weekly ==> Near(z, Jan4Of(cal, i)) }

  /** The period built for an instant is the one its local day falls in. */
  lemma ContainingIs(kind: Kind, cal: Calendar, z: Zone, t: Time)
    requires CalendarOk(cal) && YearOk(kind, cal, z, Ordinal(kind, cal, z.localDay(t)))
    ensures PeriodContaining(kind, cal, z, t) == PeriodAt(kind, cal, z, Ordinal(kind, cal, z.localDay(t)))
  {
    match kind
    case Monthly => ContainingMonth(cal, z, t);
    case Quarterly => ContainingQuarter(cal, z, t);
    case Weekly => ContainingWeek(cal, z, t);
  }

  // ---------- The key ----------

  lemma MonthBefore(cal: Calendar, i: int)
    requires CalendarOk(cal)
    ensures cal.monthOf(cal.monthStart(i)) == i && cal.monthOf(cal.monthStart(i) - 1) == i - 1
  {
    BoundaryGrows(Monthly, cal, i);
    BoundaryGrows(Monthly, cal, i - 1);
    OrdinalIs(Monthly, cal, cal.monthStart(i), i);
    OrdinalIs(Monthly, cal, cal.monthStart(i) - 1, i - 1);
  }

  lemma MonthKeysDiffer(y: int, m: nat, y': int, m': nat)
    requires 1 <= m <= 12 && 1 <= m' <= 12 && m != m'
    ensures MonthKey(y, m) != MonthKey(y', m')
  {
    assert Power10(1) == 10 && Power10(2) == 100;
    DigitsFit(m, 2);
    DigitsFit(m', 2);
    PaddedRoundTrip(m, 2);
    PaddedRoundTrip(m', 2);
    var a, b := MonthKey(y, m), MonthKey(y', m');
    assert a[|a| - 2..] == Padded(m, 2) && b[|b| - 2..] == Padded(m', 2);
  }

  lemma NextMonthKeyDiffers(cal: Calendar, i: int)
    requires CalendarOk(cal)
    ensures KeyAt(Monthly, cal, i - 1) != KeyAt(Monthly, cal, i)
  {
    MonthKeysDiffer((i - 1) / 12, (i - 1) % 12 + 1, i / 12, i % 12 + 1);
  }

  /** A month carries its own key exactly when its first midnight lands; quarters and weeks always do. */
  lemma KeyIsRight(kind: Kind, cal: Calendar, z: Zone, i: int)
    requires CalendarOk(cal) && (kind == Monthly ==> Near(z, cal.monthStart(i)))
    ensures PeriodAt(kind, cal, z, i).key == KeyAt(kind, cal, i) <==> kind != Monthly || Lands(z, Boundary(kind, cal, i))
    ensures kind == Monthly && !Lands(z, Boundary(kind, cal, i)) ==> PeriodAt(kind, cal, z, i).key == KeyAt(kind, cal, i - 1)
  {
    if kind == Monthly {
      MonthKeyIndex(cal, z, i);
      NextMonthKeyDiffers(cal, i);
    }
  }

  lemma MonthKeyIndex(cal: Calendar, z: Zone, i: int)
    requires CalendarOk(cal) && Near(z, cal.monthStart(i))
    ensures KeyIndex(Monthly, cal, z, i) == if Lands(z, cal.monthStart(i)) then i else i - 1
  {
    MonthBefore(cal, i);
  }

  // ---------- Next ----------

  function MonthLength(cal: Calendar, i: int): int { cal.monthStart(i + 1) - cal.monthStart(i) }

  /**
   When Next moves exactly one period on. A month or quarter that starts on the day before its boundary
   ends on that day of the month, which overshoots only a shorter last month.
   */
  predicate NextRight(kind: Kind, cal: Calendar, z: Zone, i: int) {
    match kind
    case Monthly => MonthNextRight(cal, z, i, 1)
    case Quarterly => MonthNextRight(cal, z, 3 * i, 3)
    case Weekly => WeekNextRight(cal, z, i)
  }

  /** For a period of n months that starts with month i. */
  predicate MonthNextRight(cal: Calendar, z: Zone, i: int, n: int) {
    if Lands(z, cal.monthStart(i)) then z.clock(Midnight(z, cal.monthStart(i))) != 0 || Lands(z, cal.monthStart(i + n))
    else MonthLength(cal, i - 1) > MonthLength(cal, i + n - 1)
  }

  predicate WeekNextRight(cal: Calendar, z: Zone, i: int) {
    if Lands(z, Jan4Of(cal, i)) then Lands(z, 7 * i) && (z.clock(Midnight(z, 7 * i)) != 0 || Lands(z, 7 * i + 7))
    else Jan4Of(cal, i) % 7 != 0
  }

  /** The local day of a time that was carried from a midnight. */
  lemma CarriedDay(z: Zone, from: Day, to: Day)
    requires Carries(z, from, to)
    ensures var c := z.clock(Midnight(z, from));
            z.localDay(z.at(to, c)) == if c != 0 || Lands(z, to) then to else to - 1
    ensures !Lands(z, from) ==> z.clock(Midnight(z, from)) != 0 && z.localDay(Midnight(z, from)) == from - 1
  {
  }

  /** The day that AddDate moves the start of month i to: n months on, from the first or from the last of the month before. */
  function MonthsTo(cal: Calendar, z: Zone, i: int, n: int): Day {
    if Lands(z, cal.monthStart(i)) then cal.monthStart(i + n) else cal.monthStart(i + n - 1) + MonthLength(cal, i - 1) - 1
  }

  lemma MonthsAfter(cal: Calendar, z: Zone, i: int, n: int)
    requires CalendarOk(cal) && 1 <= n <= 3 && Carries(z, cal.monthStart(i), MonthsTo(cal, z, i, n))
    ensures var start := Midnight(z, cal.monthStart(i));
            var day := z.localDay(AddMonths(cal, z, start, n));
            if Lands(z, cal.monthStart(i)) then
              day == if z.clock(start) != 0 || Lands(z, cal.monthStart(i + n)) then cal.monthStart(i + n) else cal.monthStart(i + n) - 1
            else day == cal.monthStart(i + n - 1) + MonthLength(cal, i - 1) - 1
  {
    MonthBefore(cal, i);
    CarriedDay(z, cal.monthStart(i), MonthsTo(cal, z, i, n));
    if !Lands(z, cal.monthStart(i)) { MissedMonthsAfter(cal, z, i, n); }
  }

  lemma MissedMonthsAfter(cal: Calendar, z: Zone, i: int, n: int)
    requires CalendarOk(cal) && 1 <= n <= 3 && Carries(z, cal.monthStart(i), MonthsTo(cal, z, i, n)) && !Lands(z, cal.monthStart(i))
    ensures z.localDay(AddMonths(cal, z, Midnight(z, cal.monthStart(i)), n)) == cal.monthStart(i + n - 1) + MonthLength(cal, i - 1) - 1
  {
    MonthBefore(cal, i);
    CarriedDay(z, cal.monthStart(i), MonthsTo(cal, z, i, n));
    assert i - 1 + n == i + n - 1;
  }

  /** The end falls in the n months after exactly when MonthNextRight. */
  lemma MonthsNext(cal: Calendar, z: Zone, i: int, n: int)
    requires CalendarOk(cal) && (n == 1 || n == 3) && Carries(z, cal.monthStart(i), MonthsTo(cal, z, i, n))
    ensures cal.monthStart(i + n) <= z.localDay(AddMonths(cal, z, Midnight(z, cal.monthStart(i)), n)) < cal.monthStart(i + n + n)
            <==> MonthNextRight(cal, z, i, n)
  {
    MonthsAfter(cal, z, i, n);
    Spans(cal, i, n);
  }

  lemma Spans(cal: Calendar, i: int, n: int)
    requires CalendarOk(cal) && (n == 1 || n == 3)
    ensures 28 <= MonthLength(cal, i - 1) <= 31 && 28 <= MonthLength(cal, i + n - 1) <= 31
    ensures cal.monthStart(i + n) == cal.monthStart(i + n - 1) + MonthLength(cal, i + n - 1)
    ensures cal.monthStart(i + n + n) >= cal.monthStart(i + n) + 28
  {
    assert 28 <= cal.monthStart(i + n + 1) - cal.monthStart(i + n);
    if n == 3 { StepsGrow(cal.monthStart, i + n + 1, i + n + n); }
  }

  /** The day that AddDate moves the start of a period to. */
  function EndDay(kind: Kind, cal: Calendar, z: Zone, i: int): Day {
    match kind
    case Monthly => MonthsTo(cal, z, i, 1)
    case Quarterly => MonthsTo(cal, z, 3 * i, 3)
    case Weekly => z.localDay(StartAt(kind, cal, z, i)) + 7
  }

  /** What the end of a period needs: neither its first day nor the day it ends on is skipped, nor the time of day carried over. */
  predicate EndOk(kind: Kind, cal: Calendar, z: Zone, i: int) {
    YearOk(kind, cal, z, i) && Carries(z, StartDay(kind, cal, z, i), EndDay(kind, cal, z, i))
  }

  lemma MonthNext(cal: Calendar, z: Zone, i: int)
    requires CalendarOk(cal) && EndOk(Monthly, cal, z, i)
    ensures Ordinal(Monthly, cal, z.localDay(EndAt(Monthly, cal, z, i))) == i + 1 <==> NextRight(Monthly, cal, z, i)
  {
    MonthNextFor(cal, z, i, z.localDay(EndAt(Monthly, cal, z, i)));
  }

  lemma MonthNextFor(cal: Calendar, z: Zone, i: int, day: Day)
    requires CalendarOk(cal) && Carries(z, cal.monthStart(i), MonthsTo(cal, z, i, 1))
    requires day == z.localDay(AddMonths(cal, z, Midnight(z, cal.monthStart(i)), 1))
    ensures Ordinal(Monthly, cal, day) == i + 1 <==> MonthNextRight(cal, z, i, 1)
  {
    MonthsNext(cal, z, i, 1);
    OrdinalIs(Monthly, cal, day, i + 1);
  }

  lemma QuarterNext(cal: Calendar, z: Zone, i: int)
    requires CalendarOk(cal) && EndOk(Quarterly, cal, z, i)
    ensures Ordinal(Quarterly, cal, z.localDay(EndAt(Quarterly, cal, z, i))) == i + 1 <==> NextRight(Quarterly, cal, z, i)
  {
    QuarterNextFor(cal, z, i, 3 * i, z.localDay(EndAt(Quarterly, cal, z, i)));
  }

  lemma QuarterNextFor(cal: Calendar, z: Zone, i: int, m: int, day: Day)
    requires CalendarOk(cal) && m == 3 * i && Carries(z, cal.monthStart(m), MonthsTo(cal, z, m, 3))
    requires day == z.localDay(AddMonths(cal, z, Midnight(z, cal.monthStart(m)), 3))
    ensures Ordinal(Quarterly, cal, day) == i + 1 <==> MonthNextRight(cal, z, m, 3)
  {
    MonthsNext(cal, z, m, 3);
    QuarterHolds(cal, i, m, day);
  }

  lemma QuarterHolds(cal: Calendar, i: int, m: int, day: Day)
    requires CalendarOk(cal) && m == 3 * i
    ensures Ordinal(Quarterly, cal, day) == i + 1 <==> cal.monthStart(m + 3) <= day < cal.monthStart(m + 3 + 3)
  {
    OrdinalIs(Quarterly, cal, day, i + 1);
    assert 3 * (i + 1) == m + 3 && 3 * (i + 1 + 1) == m + 3 + 3;
  }

  lemma WeekNext(cal: Calendar, z: Zone, i: int)
    requires CalendarOk(cal) && EndOk(Weekly, cal, z, i)
    ensures Ordinal(Weekly, cal, z.localDay(EndAt(Weekly, cal, z, i))) == i + 1 <==> NextRight(Weekly, cal, z, i)
  {
    var s := StartDay(Weekly, cal, z, i);
    CarriedDay(z, s, z.localDay(Midnight(z, s)) + 7);
  }

  /** Next looks up the period of the instant at which this one ends; it is the following one exactly when NextRight. */
  lemma NextIs(kind: Kind, cal: Calendar, z: Zone, i: int)
    requires CalendarOk(cal) && EndOk(kind, cal, z, i)
    requires YearOk(kind, cal, z, Ordinal(kind, cal, z.localDay(EndAt(kind, cal, z, i))))
    ensures var j := Ordinal(kind, cal, z.localDay(EndAt(kind, cal, z, i)));
            Next(PeriodAt(kind, cal, z, i), cal, z) == PeriodAt(kind, cal, z, j) && (j == i + 1 <==> NextRight(kind, cal, z, i))
  {
    ContainingIs(kind, cal, z, EndAt(kind, cal, z, i));
    NextLooks(kind, cal, z, i);
  }

  lemma NextLooks(kind: Kind, cal: Calendar, z: Zone, i: int)
    requires CalendarOk(cal) && EndOk(kind, cal, z, i)
    ensures Ordinal(kind, cal, z.localDay(EndAt(kind, cal, z, i))) == i + 1 <==> NextRight(kind, cal, z, i)
  {
    match kind
    case Monthly => MonthNext(cal, z, i);
    case Quarterly => QuarterNext(cal, z, i);
    case Weekly => WeekNext(cal, z, i);
  }

  // ---------- Previous ----------

  /** When Previous moves exactly one period back: always, except for weeks that start on a Tuesday. */
  predicate PreviousRight(kind: Kind, cal: Calendar, z: Zone, i: int) {
    kind == Weekly ==> Lands(z, Jan4Of(cal, i)) || Jan4Of(cal, i) % 7 == 0
  }

  /** What is asked of the second before the start: the day before, or the one before that at a regular boundary. */
  predicate PrecededOk(kind: Kind, cal: Calendar, z: Zone, i: int) {
    var s := StartDay(kind, cal, z, i);
    if s == Boundary(kind, cal, i) then Preceded(z, s) else z.localDay(Earlier(z.at(s, 0))) == s - 1
  }

  lemma PreviousIs(kind: Kind, cal: Calendar, z: Zone, i: int)
    requires CalendarOk(cal) && PrecededOk(kind, cal, z, i) && YearOk(kind, cal, z, PreviousOrdinal(kind, cal, z, i))
    ensures Previous(PeriodAt(kind, cal, z, i), cal, z) == PeriodAt(kind, cal, z, PreviousOrdinal(kind, cal, z, i))
    ensures PreviousOrdinal(kind, cal, z, i) == i - 1 <==> PreviousRight(kind, cal, z, i)
  {
    ContainingIs(kind, cal, z, Earlier(StartAt(kind, cal, z, i)));
    PreviousLooks(kind, cal, z, i);
  }

  /** The period of the second before the start. */
  function PreviousOrdinal(kind: Kind, cal: Calendar, z: Zone, i: int): int {
    Ordinal(kind, cal, z.localDay(Earlier(StartAt(kind, cal, z, i))))
  }

  lemma PreviousLooks(kind: Kind, cal: Calendar, z: Zone, i: int)
    requires CalendarOk(cal) && PrecededOk(kind, cal, z, i)
    ensures PreviousOrdinal(kind, cal, z, i) == i - 1 <==> PreviousRight(kind, cal, z, i)
  {
    if kind == Weekly { WeekPrevious(cal, z, i); } else { MonthsPrevious(kind, cal, z, i); }
  }

  lemma MonthsPrevious(kind: Kind, cal: Calendar, z: Zone, i: int)
    requires CalendarOk(cal) && Preceded(z, Boundary(kind, cal, i)) && kind != Weekly
    ensures Ordinal(kind, cal, z.localDay(Earlier(StartAt(kind, cal, z, i)))) == i - 1
  {
    DayBefore(kind, cal, i, z.localDay(Earlier(StartAt(kind, cal, z, i))));
  }

  lemma DayBefore(kind: Kind, cal: Calendar, i: int, d: Day)
    requires CalendarOk(cal) && Boundary(kind, cal, i) - 2 <= d < Boundary(kind, cal, i)
    ensures Ordinal(kind, cal, d) == i - 1
  {
    LongEnough(kind, cal, i - 1);
    OrdinalIs(kind, cal, d, i - 1);
  }

  lemma LongEnough(kind: Kind, cal: Calendar, i: int)
    requires CalendarOk(cal)
    ensures Boundary(kind, cal, i) + 7 <= Boundary(kind, cal, i + 1)
  {
    match kind
    case Monthly => assert 28 <= cal.monthStart(i + 1) - cal.monthStart(i);
    case Quarterly => QuarterLength(cal, 3 * i, 3 * (i + 1));
    case Weekly =>
  }

  lemma QuarterLength(cal: Calendar, m: int, next: int)
    requires CalendarOk(cal) && next == m + 3
    ensures cal.monthStart(m) + 28 <= cal.monthStart(next)
  {
    assert 28 <= cal.monthStart(m + 1) - cal.monthStart(m);
    StepsGrow(cal.monthStart, m + 1, next);
  }

  lemma WeekPrevious(cal: Calendar, z: Zone, i: int)
    requires CalendarOk(cal) && PrecededOk(Weekly, cal, z, i)
    ensures Ordinal(Weekly, cal, z.localDay(Earlier(StartAt(Weekly, cal, z, i)))) == i - 1 <==> PreviousRight(Weekly, cal, z, i)
  {
  }

  /** Stepping forth and back returns, wherever both steps are right. */
  lemma NextThenPrevious(kind: Kind, cal: Calendar, z: Zone, i: int)
    requires CalendarOk(cal) && EndOk(kind, cal, z, i) && YearOk(kind, cal, z, i + 1) && PrecededOk(kind, cal, z, i + 1)
    requires NextRight(kind, cal, z, i) && PreviousRight(kind, cal, z, i + 1)
    ensures Previous(Next(PeriodAt(kind, cal, z, i), cal, z), cal, z) == PeriodAt(kind, cal, z, i)
  {
    NextLooks(kind, cal, z, i);
    NextIs(kind, cal, z, i);
    PreviousLooks(kind, cal, z, i + 1);
    PreviousIs(kind, cal, z, i + 1);
  }

  lemma PreviousThenNext(kind: Kind, cal: Calendar, z: Zone, i: int)
    requires CalendarOk(cal) && PrecededOk(kind, cal, z, i) && EndOk(kind, cal, z, i - 1) && YearOk(kind, cal, z, i)
    requires PreviousRight(kind, cal, z, i) && NextRight(kind, cal, z, i - 1)
    ensures Next(Previous(PeriodAt(kind, cal, z, i), cal, z), cal, z) == PeriodAt(kind, cal, z, i)
  {
    PreviousLooks(kind, cal, z, i);
    PreviousIs(kind, cal, z, i);
    NextLooks(kind, cal, z, i - 1);
    NextIs(kind, cal, z, i - 1);
  }

  lemma AllRight(kind: Kind, cal: Calendar, z: Zone, i: int)
    requires forall d :: Lands(z, d)
    ensures NextRight(kind, cal, z, i) && PreviousRight(kind, cal, z, i)
  {
  }

  /** In a location whose midnights all land, Next and Previous are inverse from the period of any instant. */
  lemma StepsInvert(kind: Kind, z: Zone, t: Time)
    requires ZoneOk(z) && forall d :: Lands(z, d)
    ensures CalendarOk(GREGORIAN)
    ensures var p := PeriodContaining(kind, GREGORIAN, z, t);
            Previous(Next(p, GREGORIAN, z), GREGORIAN, z) == p && Next(Previous(p, GREGORIAN, z), GREGORIAN, z) == p
  {
    GregorianOk();
    ContainingIs(kind, GREGORIAN, z, t);
    StepsInvertAt(kind, GREGORIAN, z, Ordinal(kind, GREGORIAN, z.localDay(t)));
  }

  lemma ZoneGives(kind: Kind, cal: Calendar, z: Zone, i: int)
    requires ZoneOk(z)
    ensures YearOk(kind, cal, z, i) && EndOk(kind, cal, z, i) && PrecededOk(kind, cal, z, i)
  {
  }

  lemma StepsInvertAt(kind: Kind, cal: Calendar, z: Zone, i: int)
    requires CalendarOk(cal) && ZoneOk(z) && forall d :: Lands(z, d)
    ensures var p := PeriodAt(kind, cal, z, i);
            Previous(Next(p, cal, z), cal, z) == p && Next(Previous(p, cal, z), cal, z) == p
  {
    AllRight(kind, cal, z, i);
    AllRight(kind, cal, z, i + 1);
    AllRight(kind, cal, z, i - 1);
    ZoneGives(kind, cal, z, i);
    ZoneGives(kind, cal, z, i + 1);
    ZoneGives(kind, cal, z, i - 1);
    NextThenPrevious(kind, cal, z, i);
    PreviousThenNext(kind, cal, z, i);
  }

  // ---------- Periods tile time ----------

  /** Local days follow one another, and midnight is not after its day's first instant. */
  ghost predicate FlowOk(z: Zone) {
    && (forall t, u :: t <= u ==> z.localDay(t) <= z.localDay(u))
    && (forall t, d :: z.localDay(t) >= d ==> z.at(d, 0) <= t)
  }

  /** The local date goes back by at most a day, and no two days in a row are skipped. */
  ghost predicate Steady(z: Zone) {
    && (forall t, u :: t <= u ==> z.localDay(t) - 1 <= z.localDay(u))
    && (forall d :: d - 1 <= z.localDay(z.at(d, 0)) <= d + 1)
  }

  /** Once the day is reached, the local date never goes back before it. */
  ghost predicate NeverBack(z: Zone, d: Day) { forall t, u :: t <= u && z.localDay(t) >= d ==> z.localDay(u) >= d }

  /** The instant is of that day or later, the tick before it is not. */
  predicate Begins(z: Zone, t: Time, d: Day) { z.localDay(t) >= d && z.localDay(t - 1) < d }

  ghost predicate Tiles(kind: Kind, cal: Calendar, z: Zone, i: int) {
    forall t :: StartAt(kind, cal, z, i) <= t < EndAt(kind, cal, z, i) <==> Ordinal(kind, cal, z.localDay(t)) == i
  }

  /** The instants of the days from b to e, as a span. */
  ghost predicate IsSpan(z: Zone, start: Time, end: Time, b: Day, e: Day) {
    forall t :: start <= t < end <==> b <= z.localDay(t) < e
  }

  lemma TilesIsSpan(kind: Kind, cal: Calendar, z: Zone, i: int)
    requires CalendarOk(cal)
    ensures Tiles(kind, cal, z, i) <==>
            IsSpan(z, StartAt(kind, cal, z, i), EndAt(kind, cal, z, i), Boundary(kind, cal, i), Boundary(kind, cal, i + 1))
  {
    var b, e := Boundary(kind, cal, i), Boundary(kind, cal, i + 1);
    forall t ensures Ordinal(kind, cal, z.localDay(t)) == i <==> b <= z.localDay(t) < e { OrdinalIs(kind, cal, z.localDay(t), i); }
  }

  /** Inside a span of a week or more the date has moved on far enough not to come back over either end. */
  lemma SpanNeverBack(z: Zone, start: Time, end: Time, b: Day, e: Day, t: Time, u: Time)
    requires Steady(z) && b + 7 <= e && IsSpan(z, start, end, b, e) && t <= u
    ensures z.localDay(t) >= b ==> z.localDay(u) >= b
    ensures z.localDay(t) >= e ==> z.localDay(u) >= e
  {
    var v, w := z.at(b + 1, 0), z.at(e - 2, 0);
    assert start <= v < end && start <= w < end;
    assert w <= u ==> z.localDay(w) - 1 <= z.localDay(u);
    assert t <= v ==> z.localDay(t) - 1 <= z.localDay(v);
    assert z.localDay(t) - 1 <= z.localDay(u);
  }

  lemma SpanBegins(z: Zone, start: Time, end: Time, b: Day, e: Day)
    requires Steady(z) && b + 7 <= e && IsSpan(z, start, end, b, e)
    ensures NeverBack(z, b) && NeverBack(z, e) && Begins(z, start, b) && Begins(z, end, e)
  {
    forall t, u | t <= u && z.localDay(t) >= b ensures z.localDay(u) >= b { SpanNeverBack(z, start, end, b, e, t, u); }
    forall t, u | t <= u && z.localDay(t) >= e ensures z.localDay(u) >= e { SpanNeverBack(z, start, end, b, e, t, u); }
    var v := z.at(b + 1, 0);
    assert start <= v < end;
    assert b <= z.localDay(start) < e && b <= z.localDay(end - 1) < e;
  }

  lemma BeginsSpan(z: Zone, start: Time, end: Time, b: Day, e: Day)
    requires NeverBack(z, b) && NeverBack(z, e) && Begins(z, start, b) && Begins(z, end, e)
    ensures IsSpan(z, start, end, b, e)
  {
    forall t ensures start <= t < end <==> b <= z.localDay(t) < e {
      if start <= t { assert z.localDay(t) >= b; } else { assert t <= start - 1; }
      if t < end { assert t <= end - 1; } else { assert z.localDay(t) >= e; }
    }
  }

  /**
   A period holds exactly the instants of its days if and only if the date never comes back over either of
   its boundaries and its start and end are the first instants of their days.
   */
  lemma PeriodsTile(kind: Kind, cal: Calendar, z: Zone, i: int)
    requires CalendarOk(cal) && Steady(z)
    ensures var b, e := Boundary(kind, cal, i), Boundary(kind, cal, i + 1);
            Tiles(kind, cal, z, i) <==>
            NeverBack(z, b) && NeverBack(z, e) && Begins(z, StartAt(kind, cal, z, i), b) && Begins(z, EndAt(kind, cal, z, i), e)
  {
    var start, end, b, e := StartAt(kind, cal, z, i), EndAt(kind, cal, z, i), Boundary(kind, cal, i), Boundary(kind, cal, i + 1);
    TilesIsSpan(kind, cal, z, i);
    LongEnough(kind, cal, i);
    if IsSpan(z, start, end, b, e) { SpanBegins(z, start, end, b, e); }
    if NeverBack(z, b) && NeverBack(z, e) && Begins(z, start, b) && Begins(z, end, e) { BeginsSpan(z, start, end, b, e); }
  }

  // ---------- The same by midnights ----------

  /** The start is the first instant of the period. */
  predicate StartRight(kind: Kind, cal: Calendar, z: Zone, i: int) {
    Lands(z, Boundary(kind, cal, i)) && (kind == Weekly ==> Lands(z, Jan4Of(cal, i)))
  }

  /** A midnight that lands is its day's first instant, where the date does not come back over it. */
  ghost predicate Opens(z: Zone, d: Day) { Near(z, d) && (NeverBack(z, d) && Lands(z, d) ==> z.localDay(z.at(d, 0) - 1) < d) }

  lemma StartIsRight(kind: Kind, cal: Calendar, z: Zone, i: int)
    requires Opens(z, Boundary(kind, cal, i)) && NeverBack(z, Boundary(kind, cal, i))
    requires Near(z, StartDay(kind, cal, z, i)) && PrecededOk(kind, cal, z, i)
    ensures Begins(z, StartAt(kind, cal, z, i), Boundary(kind, cal, i)) <==> StartRight(kind, cal, z, i)
  {
    var b, s := Boundary(kind, cal, i), StartDay(kind, cal, z, i);
    if s > b { assert z.localDay(Earlier(z.at(s, 0))) >= b && z.localDay(z.at(s, 0) - 1) >= b; }
  }

  /** Midnight of the day and the given time of day both exist on it. */
  predicate Shows(z: Zone, d: Day, c: int) {
    Lands(z, d) && z.clock(z.at(d, 0)) == 0 && z.localDay(z.at(d, c)) == d && z.clock(z.at(d, c)) == c
  }

  lemma MonthsCarried(cal: Calendar, z: Zone, i: int, n: int)
    requires CalendarOk(cal) && Lands(z, cal.monthStart(i))
    ensures AddMonths(cal, z, Midnight(z, cal.monthStart(i)), n) == z.at(cal.monthStart(i + n), z.clock(Midnight(z, cal.monthStart(i))))
  {
    MonthBefore(cal, i);
  }

  lemma CarriedEnd(kind: Kind, cal: Calendar, z: Zone, i: int)
    requires CalendarOk(cal) && StartRight(kind, cal, z, i)
    ensures EndAt(kind, cal, z, i) == z.at(Boundary(kind, cal, i + 1), z.clock(Midnight(z, Boundary(kind, cal, i))))
  {
    match kind
    case Monthly => MonthsCarried(cal, z, i, 1);
    case Quarterly => QuarterCarried(cal, z, i);
    case Weekly => WeekCarried(cal, z, i);
  }

  lemma QuarterCarried(cal: Calendar, z: Zone, i: int)
    requires CalendarOk(cal) && Lands(z, Boundary(Quarterly, cal, i))
    ensures EndAt(Quarterly, cal, z, i) == z.at(Boundary(Quarterly, cal, i + 1), z.clock(Midnight(z, Boundary(Quarterly, cal, i))))
  {
    var m := 3 * i;
    MonthsCarried(cal, z, m, 3);
    assert 3 * (i + 1) == m + 3;
  }

  lemma WeekCarried(cal: Calendar, z: Zone, i: int)
    requires StartRight(Weekly, cal, z, i)
    ensures EndAt(Weekly, cal, z, i) == z.at(Boundary(Weekly, cal, i + 1), z.clock(Midnight(z, Boundary(Weekly, cal, i))))
  {
  }

  /** What is asked at the two boundaries: no skipped day, a midnight that opens its day, and there the time of day carried over. */
  ghost predicate BoundariesOk(kind: Kind, cal: Calendar, z: Zone, i: int) {
    var b, e := Boundary(kind, cal, i), Boundary(kind, cal, i + 1);
    && Opens(z, b) && Opens(z, e) && Near(z, StartDay(kind, cal, z, i)) && PrecededOk(kind, cal, z, i)
    && (z.clock(Midnight(z, b)) != 0 ==> Shows(z, e, z.clock(Midnight(z, b))))
  }

  /**
   Where the date does not come back over its boundaries, a period holds exactly the instants of its days if
   and only if its first midnight exists and both of its boundary midnights land (and, for a week, that of
   4 January). A first midnight that is skipped is carried over as the time of day of the end, so that
   period overlaps the next.
   */
  lemma TilesByMidnights(kind: Kind, cal: Calendar, z: Zone, i: int)
    requires CalendarOk(cal) && Steady(z) && BoundariesOk(kind, cal, z, i)
    ensures var b, e := Boundary(kind, cal, i), Boundary(kind, cal, i + 1);
            Tiles(kind, cal, z, i) <==>
            NeverBack(z, b) && NeverBack(z, e) && StartRight(kind, cal, z, i) && z.clock(Midnight(z, b)) == 0 && Lands(z, e)
  {
    PeriodsTile(kind, cal, z, i);
    var b, e := Boundary(kind, cal, i), Boundary(kind, cal, i + 1);
    if NeverBack(z, b) && NeverBack(z, e) {
      StartIsRight(kind, cal, z, i);
      if StartRight(kind, cal, z, i) {
        CarriedEnd(kind, cal, z, i);
        if z.clock(Midnight(z, b)) != 0 { LateNeverBegins(z, e, z.clock(Midnight(z, b))); }
      }
    }
  }

  lemma LateNeverBegins(z: Zone, d: Day, c: int)
    requires Opens(z, d) && NeverBack(z, d) && Shows(z, d, c) && c != 0
    ensures !Begins(z, z.at(d, c), d)
  {
    var first, t := z.at(d, 0), z.at(d, c);
    assert !(t <= first - 1) && first != t;
    assert first <= t - 1;
  }

  /** Each instant of such a period is in the period that contains it. */
  lemma TilesContain(kind: Kind, cal: Calendar, z: Zone, i: int, t: Time)
    requires CalendarOk(cal) && YearOk(kind, cal, z, i) && Tiles(kind, cal, z, i)
    ensures var p := PeriodAt(kind, cal, z, i); p.start <= t < p.end ==> PeriodContaining(kind, cal, z, t) == p
  {
    if StartAt(kind, cal, z, i) <= t < EndAt(kind, cal, z, i) { ContainingIs(kind, cal, z, t); }
  }
}

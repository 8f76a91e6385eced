/**
 Locations with one transition: the clock jumps forward by an hour at midnight of one day, and time.Date
 resolves the skipped midnight with the offset before the jump (an instant of that day) or after it (an
 instant of the day before), depending on the location; a whole day is skipped; or the clock goes back
 over midnight.
 */
module GapZones {
  import opened Common
  import opened Civil
  import opened IsoWeeks
  import opened Periods

  lemma UtcDay(d: Day, c: int)
    requires 0 <= c < DAY
    ensures (d * DAY + c) / DAY == d && (d * DAY + c) % DAY == c
  {
    QuotientIs(d * DAY + c, DAY, d, c);
  }

  function UtcAt(d: Day, c: int): Time { d * DAY + c }

  const UTC: Zone := Zone((t: Time) => t / DAY, (t: Time) => t % DAY, (d: Day, c: int) => UtcAt(d, c))

  lemma UtcMidnight(d: Day)
    ensures UtcAt(d, 0) / DAY == d && UtcAt(d, 0) % DAY == 0 && (UtcAt(d, 0) - SECOND) / DAY == d - 1
    ensures UtcAt(d, 0) + SECOND <= UtcAt(d + 1, 0)
  {
    UtcDay(d, 0);
    UtcDay(d - 1, DAY - SECOND);
    assert (d - 1) * DAY + (DAY - SECOND) == d * DAY - SECOND;
  }

  lemma UtcMidnights()
    ensures MidnightsOk(UTC) && forall d :: Lands(UTC, d)
  {
    forall d ensures UTC.localDay(UTC.at(d, 0)) == d { UtcMidnight(d); }
    forall d ensures UTC.localDay(Earlier(UTC.at(d, 0))) == d - 1 { UtcMidnight(d); }
    forall d, e | e == d + 1 ensures UTC.at(d, 0) + SECOND <= UTC.at(e, 0) { UtcMidnight(d); }
  }

  lemma UtcClocks()
    ensures ClocksOk(UTC)
  {
    UtcMidnights();
    forall d ensures UTC.clock(UTC.at(d, 0)) == 0 { UtcMidnight(d); }
  }

  /** Everything asked of a location holds of one without transitions, and all its midnights land. */
  lemma UtcOk()
    ensures ZoneOk(UTC) && forall d :: Lands(UTC, d)
    ensures forall d, c :: 0 <= c < DAY ==> UTC.localDay(UTC.at(d, c)) == d && UTC.clock(UTC.at(d, c)) == c
  {
    UtcMidnights();
    UtcClocks();
    forall d, c | 0 <= c < DAY ensures UTC.localDay(UTC.at(d, c)) == d && UTC.clock(UTC.at(d, c)) == c { UtcDay(d, c); }
  }

  // ---------- A jump at midnight of day g ----------

  function GapDay(g: Day, t: Time): Day { if t < g * DAY then t / DAY else (t + HOUR) / DAY }

  function GapClock(g: Day, t: Time): int { if t < g * DAY then t % DAY else (t + HOUR) % DAY }

  function GapAt(g: Day, early: bool, d: Day, c: int): Time {
    if d < g || (d == g && c < HOUR && !early) then d * DAY + c else d * DAY + c - HOUR
  }

  /** early: the skipped midnight resolves to an hour before the jump, on the day before. */
  function Gap(g: Day, early: bool): Zone {
    Zone((t: Time) => GapDay(g, t), (t: Time) => GapClock(g, t), (d: Day, c: int) => GapAt(g, early, d, c))
  }

  lemma DaysApart(d: Day, e: Day)
    requires d < e
    ensures d * DAY + DAY <= e * DAY
  {
    assert e * DAY == d * DAY + (e - d) * DAY;
    assert (e - d) * DAY >= DAY;
  }

  /** Where an ordinary time of day lies. */
  lemma GapOrdinary(g: Day, early: bool, d: Day, c: int)
    requires 0 <= c < DAY && (d == g ==> c >= HOUR)
    ensures GapDay(g, GapAt(g, early, d, c)) == d && GapClock(g, GapAt(g, early, d, c)) == c
  {
    UtcDay(d, c);
    if d < g { DaysApart(d, g); } else if d > g { DaysApart(g, d); }
  }

  /** Where the skipped midnight resolves to. */
  lemma GapSkipped(g: Day, early: bool)
    ensures GapDay(g, GapAt(g, early, g, 0)) == if early then g - 1 else g
    ensures GapClock(g, GapAt(g, early, g, 0)) == if early then DAY - HOUR else HOUR
  {
    UtcDay(g, HOUR);
    UtcDay(g - 1, DAY - HOUR);
    assert (g - 1) * DAY + (DAY - HOUR) == g * DAY - HOUR;
  }

  /** A second before a midnight it is the day before. */
  lemma GapSecondBefore(g: Day, early: bool, d: Day)
    ensures GapDay(g, GapAt(g, early, d, 0) - SECOND) == d - 1
  {
    assert (d - 1) * DAY + (DAY - SECOND) == d * DAY - SECOND;
    assert (d - 1) * DAY + (DAY - HOUR - SECOND) == d * DAY - HOUR - SECOND;
    UtcDay(d - 1, DAY - SECOND);
    UtcDay(d - 1, DAY - HOUR - SECOND);
    if d < g { DaysApart(d, g); } else if d > g { DaysApart(g, d); }
  }

  lemma GapLandsAt(g: Day, early: bool, d: Day)
    ensures GapDay(g, GapAt(g, early, d, 0)) == if early && d == g then d - 1 else d
  {
    if d == g { GapSkipped(g, early); } else { GapOrdinary(g, early, d, 0); }
  }

  lemma GapApart(g: Day, early: bool, d: Day)
    ensures GapAt(g, early, d, 0) + SECOND <= GapAt(g, early, d + 1, 0)
  {
    DaysApart(d, d + 1);
  }

  lemma GapLands(g: Day, early: bool)
    ensures LandsNearby(Gap(g, early)) && forall d :: Lands(Gap(g, early), d) <==> !(early && d == g)
  {
    var z := Gap(g, early);
    forall d ensures z.localDay(z.at(d, 0)) == if early && d == g then d - 1 else d { GapLandsAt(g, early, d); }
  }

  lemma GapSeconds(g: Day, early: bool)
    ensures SecondsBefore(Gap(g, early))
  {
    var z := Gap(g, early);
    forall d ensures z.localDay(Earlier(z.at(d, 0))) == d - 1 { GapSecondBefore(g, early, d); }
  }

  lemma GapMidnights(g: Day, early: bool)
    ensures MidnightsOk(Gap(g, early)) && forall d :: Lands(Gap(g, early), d) <==> !(early && d == g)
  {
    GapLands(g, early);
    GapSeconds(g, early);
    GapMidnightsApart(g, early);
  }

  lemma GapMidnightsApart(g: Day, early: bool)
    ensures MidnightsApart(Gap(g, early))
  {
    var z := Gap(g, early);
    forall d, e | e == d + 1 ensures z.at(d, 0) + SECOND <= z.at(e, 0) { GapApart(g, early, d); }
  }

  lemma GapClocks(g: Day, early: bool)
    ensures ClocksOk(Gap(g, early))
    ensures forall d :: Gap(g, early).clock(Gap(g, early).at(d, 0)) == if d != g then 0 else if early then DAY - HOUR else HOUR
  {
    var z := Gap(g, early);
    GapMidnights(g, early);
    forall e ensures z.clock(z.at(e, 0)) == if e != g then 0 else if early then DAY - HOUR else HOUR {
      if e == g { GapSkipped(g, early); } else { GapOrdinary(g, early, e, 0); }
    }
    forall d, e | z.clock(z.at(e, 0)) != 0 ensures z.localDay(z.at(d, z.clock(z.at(e, 0)))) == d {
      GapOrdinary(g, early, d, z.clock(z.at(e, 0)));
    }
  }

  /** A location with such a jump is within everything that is asked. */
  lemma GapOk(g: Day, early: bool)
    ensures ZoneOk(Gap(g, early))
    ensures forall d :: Lands(Gap(g, early), d) <==> !(early && d == g)
  {
    GapMidnights(g, early);
    GapClocks(g, early);
  }

  lemma GapMonotone(g: Day, t: Time, u: Time)
    requires t <= u
    ensures GapDay(g, t) <= GapDay(g, u)
  {
  }

  lemma GapNotAfter(g: Day, early: bool, t: Time, d: Day)
    requires GapDay(g, t) >= d
    ensures GapAt(g, early, d, 0) <= t
  {
    if d <= g {
      if t < g * DAY { UtcDay(t / DAY, t % DAY); }
      if d < g { DaysApart(d, g); }
    } else {
      DaysApart(g, d);
    }
  }

  /** Its local days follow one another. */
  lemma GapFlows(g: Day, early: bool)
    ensures FlowOk(Gap(g, early)) && Steady(Gap(g, early))
  {
    var z := Gap(g, early);
    GapLands(g, early);
    forall t, u | t <= u ensures z.localDay(t) <= z.localDay(u) { GapMonotone(g, t, u); }
    forall t, d | z.localDay(t) >= d ensures z.at(d, 0) <= t { GapNotAfter(g, early, t, d); }
  }

  // ---------- What goes wrong there ----------

  /**
   The skipped midnight of a month's first day resolves to the day before: the month carries the key of
   the month before, and Next of the month before is that month again.
   */
  lemma SkippedMonthStart(i: int)
    ensures CalendarOk(GREGORIAN)
    ensures var z := Gap(GREGORIAN.monthStart(i), true);
            && PeriodAt(Monthly, GREGORIAN, z, i).key == KeyAt(Monthly, GREGORIAN, i - 1) != KeyAt(Monthly, GREGORIAN, i)
            && !NextRight(Monthly, GREGORIAN, z, i - 1)
            && Next(PeriodAt(Monthly, GREGORIAN, z, i - 1), GREGORIAN, z) == PeriodAt(Monthly, GREGORIAN, z, i - 1)
  {
    GregorianOk();
    var z := Gap(GREGORIAN.monthStart(i), true);
    GapOk(GREGORIAN.monthStart(i), true);
    KeyIsRight(Monthly, GREGORIAN, z, i);
    NextMonthKeyDiffers(GREGORIAN, i);
    StuckMonth(GREGORIAN, i);
  }

  /** A month whose next boundary does not land ends on its own last day, so Next stays where it is. */
  lemma StuckMonth(cal: Calendar, i: int)
    requires CalendarOk(cal)
    ensures var z := Gap(cal.monthStart(i), true);
            !NextRight(Monthly, cal, z, i - 1) && Next(PeriodAt(Monthly, cal, z, i - 1), cal, z) == PeriodAt(Monthly, cal, z, i - 1)
  {
    var g := cal.monthStart(i);
    GapOk(g, true);
    GapClocks(g, true);
    BoundaryGrows(Monthly, cal, i - 1);
    StuckMonthIn(cal, Gap(g, true), i);
  }

  lemma StuckMonthIn(cal: Calendar, z: Zone, i: int)
    requires CalendarOk(cal) && ZoneOk(z) && !Lands(z, cal.monthStart(i))
    requires Lands(z, cal.monthStart(i - 1)) && z.clock(Midnight(z, cal.monthStart(i - 1))) == 0
    ensures !NextRight(Monthly, cal, z, i - 1) && Next(PeriodAt(Monthly, cal, z, i - 1), cal, z) == PeriodAt(Monthly, cal, z, i - 1)
  {
    StuckEnd(cal, z, i);
    NextIs(Monthly, cal, z, i - 1);
  }

  lemma StuckEnd(cal: Calendar, z: Zone, i: int)
    requires CalendarOk(cal) && ZoneOk(z) && !Lands(z, cal.monthStart(i))
    requires Lands(z, cal.monthStart(i - 1)) && z.clock(Midnight(z, cal.monthStart(i - 1))) == 0
    ensures Ordinal(Monthly, cal, z.localDay(EndAt(Monthly, cal, z, i - 1))) == i - 1
  {
    MonthsAfter(cal, z, i - 1, 1);
    MonthBefore(cal, i);
  }

  /** The skipped midnight resolves to one o'clock: the period runs an hour into the next. */
  lemma SkippedMidnightOverlaps(kind: Kind, cal: Calendar, i: int)
    requires CalendarOk(cal)
    ensures var z := Gap(Boundary(kind, cal, i), false);
            ZoneOk(z) && PeriodAt(kind, cal, z, i).end == PeriodAt(kind, cal, z, i + 1).start + HOUR && !Tiles(kind, cal, z, i)
  {
    var g, e := Boundary(kind, cal, i), Boundary(kind, cal, i + 1);
    GapOk(g, false);
    GapClocks(g, false);
    BoundaryGrows(kind, cal, i);
    DaysApart(g, e);
    OverlapIn(kind, cal, Gap(g, false), i);
  }

  lemma StartLands(kind: Kind, cal: Calendar, z: Zone, i: int)
    requires forall d :: Lands(z, d)
    ensures StartAt(kind, cal, z, i) == Midnight(z, Boundary(kind, cal, i)) && StartRight(kind, cal, z, i)
  {
  }

  lemma OverlapIn(kind: Kind, cal: Calendar, z: Zone, i: int)
    requires CalendarOk(cal) && ZoneOk(z) && forall d :: Lands(z, d)
    requires z.clock(Midnight(z, Boundary(kind, cal, i))) == HOUR
    requires z.at(Boundary(kind, cal, i + 1), HOUR) == Midnight(z, Boundary(kind, cal, i + 1)) + HOUR
    ensures PeriodAt(kind, cal, z, i).end == PeriodAt(kind, cal, z, i + 1).start + HOUR && !Tiles(kind, cal, z, i)
  {
    StartLands(kind, cal, z, i);
    StartLands(kind, cal, z, i + 1);
    CarriedEnd(kind, cal, z, i);
    BoundaryGrows(kind, cal, i);
    MidnightsGrow(z, Boundary(kind, cal, i), Boundary(kind, cal, i + 1));
    Overlaps(kind, cal, z, i);
  }

  /** A period that ends after the next one's first instant does not hold exactly its own days. */
  lemma Overlaps(kind: Kind, cal: Calendar, z: Zone, i: int)
    requires CalendarOk(cal) && Lands(z, Boundary(kind, cal, i + 1))
    requires EndAt(kind, cal, z, i) > Midnight(z, Boundary(kind, cal, i + 1)) >= StartAt(kind, cal, z, i)
    ensures !Tiles(kind, cal, z, i)
  {
    BoundaryGrows(kind, cal, i + 1);
    OrdinalIs(kind, cal, Boundary(kind, cal, i + 1), i + 1);
    var t := Midnight(z, Boundary(kind, cal, i + 1));
    assert Ordinal(kind, cal, z.localDay(t)) == i + 1;
  }

  // ---------- A whole day is skipped, as 30 December 2011 in Pacific/Apia ----------

  function SkipDay(g: Day, t: Time): Day { if t < g * DAY then t / DAY else t / DAY + 1 }

  function SkipAt(g: Day, d: Day, c: int): Time { if d <= g then d * DAY + c else (d - 1) * DAY + c }

  function Skip(g: Day): Zone {
    Zone((t: Time) => SkipDay(g, t), (t: Time) => t % DAY, (d: Day, c: int) => SkipAt(g, d, c))
  }

  lemma SkipMidnight(g: Day, d: Day)
    ensures SkipDay(g, SkipAt(g, d, 0)) == if d == g then d + 1 else d
    ensures SkipAt(g, d, 0) % DAY == 0
    ensures d != g ==> d - 2 <= SkipDay(g, SkipAt(g, d, 0) - SECOND) <= d - 1 && SkipDay(g, SkipAt(g, d, 0) - 1) < d
  {
    var n := if d <= g then d else d - 1;
    UtcDay(n, 0);
    UtcDay(n - 1, DAY - SECOND);
    UtcDay(n - 1, DAY - 1);
    assert (n - 1) * DAY + (DAY - SECOND) == n * DAY - SECOND && (n - 1) * DAY + (DAY - 1) == n * DAY - 1;
    if n < g { DaysApart(n, g); } else if g < n { DaysApart(g, n); }
  }

  lemma SkipMonotone(g: Day, t: Time, u: Time)
    requires t <= u
    ensures SkipDay(g, t) <= SkipDay(g, u)
  {
  }

  lemma SkipSteady(g: Day)
    ensures Steady(Skip(g)) && forall d :: NeverBack(Skip(g), d)
  {
    var z := Skip(g);
    forall t, u | t <= u ensures z.localDay(t) <= z.localDay(u) { SkipMonotone(g, t, u); }
    forall d ensures d - 1 <= z.localDay(z.at(d, 0)) <= d + 1 { SkipMidnight(g, d); }
  }

  /** On every other day each time of day exists. */
  lemma SkipRegular(g: Day, d: Day, c: int)
    requires d != g && 0 <= c < DAY
    ensures Skip(g).localDay(Skip(g).at(d, c)) == d && Skip(g).clock(Skip(g).at(d, c)) == c
  {
    var n := if d < g then d else d - 1;
    UtcDay(n, c);
    if n < g { DaysApart(n, g); } else if g < n { DaysApart(g, n); }
  }

  /** Midnight of a day is as it should be. */
  ghost predicate Plain(z: Zone, d: Day) { Lands(z, d) && z.clock(z.at(d, 0)) == 0 && Preceded(z, d) && Opens(z, d) }

  lemma SkipOk(g: Day, d: Day)
    requires d != g
    ensures Plain(Skip(g), d)
  {
    var z := Skip(g);
    SkipMidnight(g, d);
    assert z.at(d, 0) == SkipAt(g, d, 0);
    assert z.localDay(z.at(d, 0) - 1) == SkipDay(g, SkipAt(g, d, 0) - 1);
  }

  lemma PlainPeriod(kind: Kind, cal: Calendar, z: Zone, i: int)
    requires CalendarOk(cal) && Steady(z) && Plain(z, Boundary(kind, cal, i)) && Plain(z, Boundary(kind, cal, i + 1))
    requires (kind == Weekly ==> Lands(z, Jan4Of(cal, i))) && NeverBack(z, Boundary(kind, cal, i)) && NeverBack(z, Boundary(kind, cal, i + 1))
    ensures YearOk(kind, cal, z, i) && EndOk(kind, cal, z, i) && PrecededOk(kind, cal, z, i)
    ensures NextRight(kind, cal, z, i) && PreviousRight(kind, cal, z, i) && Tiles(kind, cal, z, i)
  {
    assert StartDay(kind, cal, z, i) == Boundary(kind, cal, i);
    assert EndDay(kind, cal, z, i) == Boundary(kind, cal, i + 1);
    TilesByMidnights(kind, cal, z, i);
  }

  /** A period none of whose own boundaries is the skipped day is as it should be. */
  lemma SkippedDayIsHarmless(kind: Kind, cal: Calendar, g: Day, i: int)
    requires CalendarOk(cal) && g != Boundary(kind, cal, i) && g != Boundary(kind, cal, i + 1) && (kind == Weekly ==> g != Jan4Of(cal, i))
    ensures var z := Skip(g);
            && YearOk(kind, cal, z, i) && EndOk(kind, cal, z, i) && PrecededOk(kind, cal, z, i)
            && NextRight(kind, cal, z, i) && PreviousRight(kind, cal, z, i) && Tiles(kind, cal, z, i)
  {
    SkipSteady(g);
    SkipOk(g, Boundary(kind, cal, i));
    SkipOk(g, Boundary(kind, cal, i + 1));
    if kind == Weekly { SkipOk(g, Jan4Of(cal, i)); }
    PlainPeriod(kind, cal, Skip(g), i);
  }

  // ---------- The clock goes back over midnight, as on 1 November 2009 in America/St_Johns ----------

  const MINUTE: Time := 60 * SECOND

  function BackDay(g: Day, t: Time): Day { if t < g * DAY + MINUTE then t / DAY else (t - HOUR) / DAY }

  function BackClock(g: Day, t: Time): int { if t < g * DAY + MINUTE then t % DAY else (t - HOUR) % DAY }

  function BackAt(g: Day, d: Day, c: int): Time { if d < g || (d == g && c < MINUTE) then d * DAY + c else d * DAY + c + HOUR }

  /** At one minute past midnight of day g it is a minute past eleven of the day before again. */
  function Back(g: Day): Zone {
    Zone((t: Time) => BackDay(g, t), (t: Time) => BackClock(g, t), (d: Day, c: int) => BackAt(g, d, c))
  }

  lemma BackMidnight(g: Day, d: Day)
    ensures BackDay(g, BackAt(g, d, 0)) == d
  {
    UtcDay(d, 0);
    if d < g { DaysApart(d, g); } else if g < d { DaysApart(g, d); }
  }

  /** Each time of day exists on every day; the one repeated hour is read where it first occurs. */
  lemma BackRegular(g: Day, d: Day, c: int)
    requires 0 <= c < DAY
    ensures Back(g).localDay(Back(g).at(d, c)) == d && Back(g).clock(Back(g).at(d, c)) == c
  {
    UtcDay(d, c);
    if d < g { DaysApart(d, g); } else if g < d { DaysApart(g, d); }
  }

  lemma BackSteady(g: Day)
    ensures Steady(Back(g)) && !NeverBack(Back(g), g)
  {
    var z := Back(g);
    forall d ensures z.localDay(z.at(d, 0)) == d { BackMidnight(g, d); }
    forall t, u | t <= u ensures z.localDay(t) - 1 <= z.localDay(u) { BackByADay(g, t, u); }
    UtcDay(g, 0);
    UtcDay(g - 1, DAY - HOUR + MINUTE);
    assert (g - 1) * DAY + (DAY - HOUR + MINUTE) == g * DAY + MINUTE - HOUR;
    assert z.localDay(g * DAY) == g && z.localDay(g * DAY + MINUTE) == g - 1;
  }

  lemma BackByADay(g: Day, t: Time, u: Time)
    requires t <= u
    ensures BackDay(g, t) - 1 <= BackDay(g, u)
  {
    UtcDay(t / DAY, t % DAY);
    UtcDay(u / DAY, u % DAY);
    UtcDay((u - HOUR) / DAY, (u - HOUR) % DAY);
  }

  /** A period that begins or ends on that day cannot be one span. */
  lemma RepeatedDayNeverTiles(kind: Kind, cal: Calendar, i: int)
    requires CalendarOk(cal)
    ensures !Tiles(kind, cal, Back(Boundary(kind, cal, i)), i) && !Tiles(kind, cal, Back(Boundary(kind, cal, i + 1)), i)
  {
    BackSteady(Boundary(kind, cal, i));
    BackSteady(Boundary(kind, cal, i + 1));
    PeriodsTile(kind, cal, Back(Boundary(kind, cal, i)), i);
    PeriodsTile(kind, cal, Back(Boundary(kind, cal, i + 1)), i);
  }
}

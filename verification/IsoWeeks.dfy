/** ISO 8601 weeks over a month calendar. */
module IsoWeeks {
  import opened Civil

  function YearStart(cal: Calendar, y: int): Day { cal.monthStart(12 * y) }

  function YearIn(cal: Calendar, d: Day): int { cal.monthOf(d) / 12 }

  lemma YearInBounds(cal: Calendar, d: Day)
    requires CalendarOk(cal)
    ensures YearStart(cal, YearIn(cal, d)) <= d < YearStart(cal, YearIn(cal, d) + 1)
    ensures 365 <= YearStart(cal, YearIn(cal, d) + 1) - YearStart(cal, YearIn(cal, d)) <= 366
  {
    var i, y := cal.monthOf(d), cal.monthOf(d) / 12;
    YearLengthOf(cal, y);
    if 12 * y < i { StepsGrow(cal.monthStart, 12 * y, i); }
    if i + 1 < 12 * (y + 1) { StepsGrow(cal.monthStart, i + 1, 12 * (y + 1)); }
  }

  lemma YearLengthOf(cal: Calendar, y: int)
    requires CalendarOk(cal)
    ensures 365 <= YearStart(cal, y + 1) - YearStart(cal, y) <= 366
  {
    assert (12 * y) % 12 == 0 && 12 * (y + 1) == 12 * y + 12;
  }

  lemma YearInIs(cal: Calendar, d: Day, y: int)
    requires CalendarOk(cal) && YearStart(cal, y) <= d < YearStart(cal, y + 1)
    ensures YearIn(cal, d) == y
  {
    var i := cal.monthOf(d);
    if i + 1 < 12 * y { StepsGrow(cal.monthStart, i + 1, 12 * y); }
    if 12 * (y + 1) < i { StepsGrow(cal.monthStart, 12 * (y + 1), i); }
  }

  function MondayOf(d: Day): Day { d - d % 7 }

  /** Year and week of a day: those of its week's Thursday. */
  function IsoYear(cal: Calendar, d: Day): int { YearIn(cal, MondayOf(d) + 3) }

  function IsoWeek(cal: Calendar, d: Day): int { (MondayOf(d) + 3 - YearStart(cal, IsoYear(cal, d))) / 7 + 1 }

  /** From the Monday on or before 4 January, w - 1 weeks on. */
  function WeekStart(cal: Calendar, y: int, w: int): Day { MondayOf(YearStart(cal, y) + 3) + (w - 1) * 7 }

  lemma MondayAligned(d: Day)
    ensures MondayOf(d) == 7 * (d / 7) && MondayOf(d) % 7 == 0 && MondayOf(d) <= d <= MondayOf(d) + 6
  {
    QuotientIs(7 * (d / 7), 7, d / 7, 0);
  }

  /** Counting weeks from the year's first day or from its first Monday comes to the same. */
  lemma WeekArithmetic(jan1: int, monday: int)
    requires monday % 7 == 0 && jan1 <= monday + 3
    ensures var w := (monday + 3 - jan1) / 7 + 1; MondayOf(jan1 + 3) + (w - 1) * 7 == monday && w >= 1
  {
    MondayAligned(jan1 + 3);
    var first := MondayOf(jan1 + 3);
    var k := monday / 7 - first / 7;
    assert monday == first + 7 * k;
    QuotientIs(monday + 3 - jan1, 7, k, first + 3 - jan1);
  }

  /** The Thursday rule and the 4 January rule give the same weeks. */
  lemma WeeksAgree(cal: Calendar, d: Day)
    requires CalendarOk(cal)
    ensures WeekStart(cal, IsoYear(cal, d), IsoWeek(cal, d)) == MondayOf(d)
    ensures 1 <= IsoWeek(cal, d) <= 53
  {
    MondayAligned(d);
    YearInBounds(cal, MondayOf(d) + 3);
    WeekArithmetic(YearStart(cal, IsoYear(cal, d)), MondayOf(d));
  }

  /** The weeks a year really has: a week numbered past them belongs to the next ISO year. */
  predicate HasWeek(cal: Calendar, y: int, w: int) { WeekStart(cal, y, w) + 3 < YearStart(cal, y + 1) }

  lemma WeekIsItsOwn(cal: Calendar, y: int, w: int)
    requires CalendarOk(cal) && 1 <= w <= 53
    ensures MondayOf(WeekStart(cal, y, w)) == WeekStart(cal, y, w) == 7 * (WeekStart(cal, y, w) / 7)
    ensures HasWeek(cal, y, w) <==> IsoYear(cal, WeekStart(cal, y, w)) == y && IsoWeek(cal, WeekStart(cal, y, w)) == w
    ensures w <= 52 ==> HasWeek(cal, y, w)
  {
    var jan1 := YearStart(cal, y);
    var start, first := WeekStart(cal, y, w), MondayOf(jan1 + 3);
    MondayAligned(jan1 + 3);
    QuotientIs(start, 7, first / 7 + w - 1, 0);
    YearLengthOf(cal, y);
    if HasWeek(cal, y, w) {
      YearInIs(cal, start + 3, y);
      QuotientIs(start + 3 - jan1, 7, w - 1, first + 3 - jan1);
    } else {
      YearInBounds(cal, start + 3);
    }
  }
}

/** Parsing of period keys: ParsePeriod and splitKey of shared/analytics/period.go. */
module PeriodKeys {
  import opened Common
  import opened Civil
  import opened IsoWeeks
  import opened Decimal
  import opened Periods

  predicate IsSpace(c: char) { c == ' ' || c == '\t' || c == '\n' || c == '\r' }

  function TrimLeft(s: string): string { if s != "" && IsSpace(s[0]) then TrimLeft(s[1..]) else s }

  function TrimRight(s: string): string { if s != "" && IsSpace(s[|s| - 1]) then TrimRight(s[..|s| - 1]) else s }

  function TrimSpace(s: string): string { TrimRight(TrimLeft(s)) }

  /** strings.SplitN at the first occurrence of a two-character separator. */
  function SplitAt(s: string, a: char, b: char): Option<(string, string)> {
    if |s| < 2 then None
    else if s[0] == a && s[1] == b then Some(("", s[2..]))
    else
      var rest := SplitAt(s[1..], a, b);
      if rest.None? then None else Some(([s[0]] + rest.value.0, rest.value.1))
  }

  function SplitKey(key: string, a: char, b: char): Option<(int, int)> {
    var parts := SplitAt(key, a, b);
    if parts.None? then None
    else
      var y, n := Atoi(parts.value.0), Atoi(parts.value.1);
      if y.None? || n.None? || y.value < 1970 || y.value > 9999 then None else Some((y.value, n.value))
  }

  /** time.Parse with the layout 2006-01. */
  function ParseYearMonth(key: string): Option<(int, int)> {
    if |key| == 7 && AllDigits(key[..4]) && key[4] == '-' && AllDigits(key[5..]) && 1 <= Value(key[5..]) <= 12
    then Some((Value(key[..4]), Value(key[5..]))) else None
  }

  datatype KeyError = BadMonth | BadQuarter | BadWeek | NoSuchWeek

  function ParseMonthly(cal: Calendar, z: Zone, key: string): Outcome<Period, KeyError> {
    var p := ParseYearMonth(key);
    if p.None? then Err(BadMonth) else Ok(MonthOfParsed(cal, z, p.value.0, p.value.1))
  }

  /** The month of the local time the key parsed to. */
  function MonthOfParsed(cal: Calendar, z: Zone, y: int, m: int): Period {
    var i := cal.monthOf(z.localDay(z.at(cal.monthStart(12 * y + m - 1), 0)));
    MonthPeriod(cal, z, i / 12, i % 12 + 1)
  }

  function ParseQuarterly(cal: Calendar, z: Zone, key: string): Outcome<Period, KeyError> {
    var p := SplitKey(key, '-', 'Q');
    if p.None? || p.value.1 < 1 || p.value.1 > 4 then Err(BadQuarter) else Ok(QuarterPeriod(cal, z, p.value.0, p.value.1))
  }

  function ParseWeekly(cal: Calendar, z: Zone, key: string): Outcome<Period, KeyError> {
    var p := SplitKey(key, '-', 'W');
    if p.None? || p.value.1 < 1 || p.value.1 > 53 then Err(BadWeek)
    else
      var period := WeekPeriod(cal, z, p.value.0, p.value.1);
      var d := z.localDay(period.start);
      if IsoYear(cal, d) != p.value.0 || IsoWeek(cal, d) != p.value.1 then Err(NoSuchWeek) else Ok(period)
  }

  function ParsePeriod(kind: Kind, cal: Calendar, z: Zone, text: string): Outcome<Period, KeyError> {
    match kind
    case Monthly => ParseMonthly(cal, z, TrimSpace(text))
    case Quarterly => ParseQuarterly(cal, z, TrimSpace(text))
    case Weekly => ParseWeekly(cal, z, TrimSpace(text))
  }

  // ---------- Text ----------

  /** No space at either end. */
  predicate Tight(s: string) { s != "" && !IsSpace(s[0]) && !IsSpace(s[|s| - 1]) }

  lemma TightIsTrimmed(s: string)
    requires Tight(s)
    ensures TrimSpace(s) == s
  {
  }

  /** A separator whose first character is not in the prefix is found right behind it. */
  lemma {:induction false} SplitFinds(s: string, a: char, b: char, rest: string)
    requires forall i :: 0 <= i < |s| ==> s[i] != a
    ensures SplitAt(s + [a, b] + rest, a, b) == Some((s, rest))
  {
    var whole := s + [a, b] + rest;
    if s == "" {
      assert whole == [a, b] + rest && whole[2..] == rest;
    } else {
      assert whole[1..] == s[1..] + [a, b] + rest && whole[0] == s[0];
      SplitFinds(s[1..], a, b, rest);
      assert [s[0]] + s[1..] == s;
    }
  }

  lemma DigitsAreTight(s: string)
    requires AllDigits(s)
    ensures forall i :: 0 <= i < |s| ==> s[i] != '-' && !IsSpace(s[i])
  {
  }

  /** A key printed from a year in range and a number splits into the two again; out of range it does not. */
  lemma SplitPrinted(y: int, b: char, tail: string, n: nat)
    requires AllDigits(tail) && tail != "" && Atoi(tail) == Some(n)
    ensures var key := Signed(y) + ['-', b] + tail;
            TrimSpace(key) == key && SplitKey(key, '-', b) == if 1970 <= y <= 9999 then Some((y, n)) else None
  {
    var key := Signed(y) + ['-', b] + tail;
    var digits := Digits(if y >= 0 then y else -y);
    DigitsRoundTrip(if y >= 0 then y else -y);
    DigitsAreTight(digits);
    DigitsAreTight(tail);
    assert key[0] == Signed(y)[0] && key[|key| - 1] == tail[|tail| - 1];
    assert Tight(key) by { assert !IsSpace(tail[|tail| - 1]); }
    TightIsTrimmed(key);
    if y >= 0 {
      SplitFinds(digits, '-', b, tail);
    } else {
      NegativeSplit(digits, b, tail);
    }
  }

  /** A negative year never parses: its sign is in front of the separator. */
  lemma NegativeSplit(digits: string, b: char, tail: string)
    requires digits != "" && AllDigits(digits)
    ensures SplitKey("-" + digits + ['-', b] + tail, '-', b).None?
  {
    var key := "-" + digits + ['-', b] + tail;
    DigitsAreTight(digits);
    if digits[0] == b {
      assert key[0] == '-' && key[1] == b && SplitAt(key, '-', b).value.0 == "";
    } else {
      assert key[1..] == digits + ['-', b] + tail;
      SplitFinds(digits, '-', b, tail);
      assert SplitAt(key, '-', b) == Some((['-'] + digits, tail));
      assert (['-'] + digits)[1..] == digits;
    }
  }

  // ---------- Round trips ----------

  lemma QuarterKeyParses(cal: Calendar, z: Zone, y: int, q: nat, i: int)
    requires CalendarOk(cal) && 1 <= q <= 4 && i == 4 * y + q - 1
    ensures ParsePeriod(Quarterly, cal, z, QuarterKey(y, q)) ==
            if 1970 <= y <= 9999 then Ok(PeriodAt(Quarterly, cal, z, i)) else Err(BadQuarter)
  {
    DigitsRoundTrip(q);
    DigitsAtoi(q);
    SplitPrinted(y, 'Q', Digits(q), q);
    assert Signed(y) + "-Q" + Digits(q) == Signed(y) + ['-', 'Q'] + Digits(q);
    QuarterPeriodIs(cal, z, y, q, i);
  }

  /** A quarter key parses to its period, in every location, exactly for the years 1970 to 9999. */
  lemma QuarterRoundTrip(cal: Calendar, z: Zone, i: int)
    requires CalendarOk(cal)
    ensures ParsePeriod(Quarterly, cal, z, KeyAt(Quarterly, cal, i)) ==
            if 1970 <= i / 4 <= 9999 then Ok(PeriodAt(Quarterly, cal, z, i)) else Err(BadQuarter)
  {
    QuarterKeyParses(cal, z, i / 4, i % 4 + 1, i);
  }

  /** The start that weekPeriod finds for a week still lies in that week. */
  predicate WeekReadsBack(z: Zone, jan4: Day, monday: Day) {
    if Lands(z, jan4) then Lands(z, monday) else jan4 % 7 != 0
  }

  /** The local day of that start. */
  function StartOf(z: Zone, jan4: Day, monday: Day): Day { z.localDay(Midnight(z, monday + Shift(z, jan4))) }

  /** What finding a week by its number needs: neither 4 January nor the day found for its start is skipped. */
  predicate WeekFound(z: Zone, jan4: Day, monday: Day) { Near(z, jan4) && Near(z, monday + Shift(z, jan4)) }

  lemma StartOfWeek(z: Zone, jan4: Day, monday: Day)
    requires WeekFound(z, jan4, monday) && monday == 7 * (monday / 7)
    ensures MondayOf(StartOf(z, jan4, monday)) == monday <==> WeekReadsBack(z, jan4, monday)
    ensures !WeekReadsBack(z, jan4, monday) ==> MondayOf(StartOf(z, jan4, monday)) == monday - 7
  {
    var d, w := StartOf(z, jan4, monday), monday / 7;
    MondayAligned(d);
    if monday <= d { QuotientIs(d, 7, w, d - monday); } else { QuotientIs(d, 7, w - 1, d - monday + 7); }
  }

  lemma WeekStartDay(cal: Calendar, z: Zone, y: int, w: nat)
    requires CalendarOk(cal) && Near(z, YearStart(cal, y) + 3)
    ensures z.localDay(WeekPeriod(cal, z, y, w).start) == StartOf(z, YearStart(cal, y) + 3, WeekStart(cal, y, w))
  {
    ShiftIs(z, YearStart(cal, y) + 3);
  }

  /** Reading the week of that start back: its Monday decides. */
  lemma WeekOfStart(cal: Calendar, z: Zone, y: int, w: nat)
    requires CalendarOk(cal) && WeekFound(z, YearStart(cal, y) + 3, WeekStart(cal, y, w)) && 1 <= w <= 53
    ensures var d := z.localDay(WeekPeriod(cal, z, y, w).start);
            (IsoYear(cal, d) == y && IsoWeek(cal, d) == w) <==>
            HasWeek(cal, y, w) && WeekReadsBack(z, YearStart(cal, y) + 3, WeekStart(cal, y, w))
  {
    var d, b := z.localDay(WeekPeriod(cal, z, y, w).start), WeekStart(cal, y, w);
    WeekStartDay(cal, z, y, w);
    WeekIsItsOwn(cal, y, w);
    StartOfWeek(z, YearStart(cal, y) + 3, b);
    WeeksAgree(cal, d);
    if MondayOf(d) == b { SameMonday(cal, d, b); }
  }

  lemma SameMonday(cal: Calendar, d: Day, b: Day)
    requires MondayOf(d) == b == MondayOf(b)
    ensures IsoYear(cal, d) == IsoYear(cal, b) && IsoWeek(cal, d) == IsoWeek(cal, b)
  {
  }

  lemma WeekKeySplits(y: int, w: nat)
    ensures TrimSpace(WeekKey(y, w)) == WeekKey(y, w)
    ensures SplitKey(WeekKey(y, w), '-', 'W') == if 1970 <= y <= 9999 then Some((y, w)) else None
  {
    PaddedRoundTrip(w, 2);
    SplitPrinted(y, 'W', Padded(w, 2), w);
    assert Signed(y) + "-W" + Padded(w, 2) == Signed(y) + ['-', 'W'] + Padded(w, 2);
  }

  /** A week key is accepted exactly when that ISO year has that week and its start reads back; only week 53 can be missing. */
  lemma WeekAccepted(cal: Calendar, z: Zone, y: int, w: nat)
    requires CalendarOk(cal) && WeekFound(z, YearStart(cal, y) + 3, WeekStart(cal, y, w)) && 1970 <= y <= 9999 && 1 <= w <= 53
    ensures ParsePeriod(Weekly, cal, z, WeekKey(y, w)) ==
            if HasWeek(cal, y, w) && WeekReadsBack(z, YearStart(cal, y) + 3, WeekStart(cal, y, w))
            then Ok(WeekPeriod(cal, z, y, w)) else Err(NoSuchWeek)
    ensures w <= 52 ==> HasWeek(cal, y, w)
  {
    WeekKeySplits(y, w);
    WeekOfStart(cal, z, y, w);
    WeekIsItsOwn(cal, y, w);
  }

  /** The key of the i-th week parses to its period exactly when its start reads back, for the ISO years 1970 to 9999. */
  lemma WeekRoundTrip(cal: Calendar, z: Zone, i: int)
    requires CalendarOk(cal) && WeekFound(z, Jan4Of(cal, i), 7 * i)
    ensures ParsePeriod(Weekly, cal, z, KeyAt(Weekly, cal, i)) ==
            if !(1970 <= IsoYear(cal, 7 * i) <= 9999) then Err(BadWeek)
            else if WeekReadsBack(z, Jan4Of(cal, i), 7 * i) then Ok(PeriodAt(Weekly, cal, z, i)) else Err(NoSuchWeek)
  {
    WeeksAgree(cal, 7 * i);
    var y, w := IsoYear(cal, 7 * i), IsoWeek(cal, 7 * i);
    WeekKeySplits(y, w);
    if 1970 <= y <= 9999 {
      OwnWeek(cal, i, y, w);
      OwnWeekPeriod(cal, z, i);
      WeekAcceptedAt(cal, z, y, w, Jan4Of(cal, i), 7 * i);
    }
  }

  lemma WeekAcceptedAt(cal: Calendar, z: Zone, y: int, w: nat, jan4: Day, b: Day)
    requires CalendarOk(cal) && WeekFound(z, jan4, b) && 1970 <= y <= 9999 && 1 <= w <= 53
    requires HasWeek(cal, y, w) && jan4 == YearStart(cal, y) + 3 && b == WeekStart(cal, y, w)
    ensures ParsePeriod(Weekly, cal, z, WeekKey(y, w)) == if WeekReadsBack(z, jan4, b) then Ok(WeekPeriod(cal, z, y, w)) else Err(NoSuchWeek)
  {
    WeekAccepted(cal, z, y, w);
  }

  lemma OwnWeek(cal: Calendar, i: int, y: int, w: int)
    requires CalendarOk(cal) && y == IsoYear(cal, 7 * i) && w == IsoWeek(cal, 7 * i)
    ensures WeekStart(cal, y, w) == 7 * i && HasWeek(cal, y, w)
  {
    WeeksAgree(cal, 7 * i);
    MondayIs(i);
    WeekIsItsOwn(cal, y, w);
  }

  lemma OwnWeekPeriod(cal: Calendar, z: Zone, i: int)
    requires CalendarOk(cal) && Near(z, Jan4Of(cal, i))
    ensures IsoWeek(cal, 7 * i) >= 0 && WeekPeriod(cal, z, IsoYear(cal, 7 * i), IsoWeek(cal, 7 * i)) == PeriodAt(Weekly, cal, z, i)
  {
    MondayIs(i);
    WeekOf(cal, z, 7 * i);
  }

  lemma MondayIs(i: int)
    ensures MondayOf(7 * i) == 7 * i && (7 * i) / 7 == i
  {
    QuotientIs(7 * i, 7, i, 0);
  }

  lemma MonthOfParsedIs(cal: Calendar, z: Zone, y: int, m: nat, i: int)
    requires CalendarOk(cal) && Near(z, cal.monthStart(i)) && 1 <= m <= 12 && i == 12 * y + m - 1
    ensures MonthOfParsed(cal, z, y, m) == PeriodAt(Monthly, cal, z, if Lands(z, cal.monthStart(i)) then i else i - 1)
  {
    MonthKeyIndex(cal, z, i);
    var j := if Lands(z, cal.monthStart(i)) then i else i - 1;
    MonthOfParsedFor(cal, z, y, m, i, j);
    MonthOfIndex(cal, z, j);
  }

  lemma MonthOfParsedFor(cal: Calendar, z: Zone, y: int, m: nat, i: int, j: int)
    requires i == 12 * y + m - 1 && j == cal.monthOf(z.localDay(Midnight(z, cal.monthStart(i))))
    ensures MonthOfParsed(cal, z, y, m) == MonthPeriod(cal, z, j / 12, j % 12 + 1)
  {
  }

  /** A month key parses to its own period where its first midnight lands, and to the month before where it does not. */
  lemma MonthRoundTrip(cal: Calendar, z: Zone, i: int)
    requires CalendarOk(cal) && Near(z, cal.monthStart(i)) && 0 <= i / 12 <= 9999
    ensures ParsePeriod(Monthly, cal, z, KeyAt(Monthly, cal, i)) ==
            Ok(PeriodAt(Monthly, cal, z, if Lands(z, cal.monthStart(i)) then i else i - 1))
  {
    var y, m := i / 12, i % 12 + 1;
    assert KeyAt(Monthly, cal, i) == MonthKey(y, m);
    MonthRoundTripFor(cal, z, y, m, i);
  }

  lemma MonthRoundTripFor(cal: Calendar, z: Zone, y: int, m: nat, i: int)
    requires CalendarOk(cal) && Near(z, cal.monthStart(i)) && 0 <= y <= 9999 && 1 <= m <= 12 && i == 12 * y + m - 1
    ensures ParsePeriod(Monthly, cal, z, MonthKey(y, m)) ==
            Ok(PeriodAt(Monthly, cal, z, if Lands(z, cal.monthStart(i)) then i else i - 1))
  {
    MonthKeyParses(y, m);
    MonthOfParsedIs(cal, z, y, m, i);
  }

  lemma MonthKeyParses(y: int, m: nat)
    requires 0 <= y <= 9999 && 1 <= m <= 12
    ensures TrimSpace(MonthKey(y, m)) == MonthKey(y, m) && ParseYearMonth(MonthKey(y, m)) == Some((y, m as int))
  {
    var key := MonthKey(y, m);
    assert Power10(1) == 10 && Power10(2) == 100 && Power10(3) == 1000 && Power10(4) == 10000;
    DigitsFit(y, 4);
    DigitsFit(m, 2);
    PaddedRoundTrip(y, 4);
    PaddedRoundTrip(m, 2);
    DigitsAreTight(Padded(y, 4));
    DigitsAreTight(Padded(m, 2));
    assert key[..4] == Padded(y, 4) && key[4] == '-' && key[5..] == Padded(m, 2);
    assert key[0] == Padded(y, 4)[0] && key[6] == Padded(m, 2)[1];
    TightIsTrimmed(key);
  }

  /** The year a period's key names. */
  function KeyYear(kind: Kind, cal: Calendar, i: int): int {
    match kind
    case Monthly => i / 12
    case Quarterly => i / 4
    case Weekly => IsoYear(cal, 7 * i)
  }

  /** When the key of a built period parses back to it. */
  predicate ParseRight(kind: Kind, cal: Calendar, z: Zone, i: int) {
    match kind
    case Monthly => Lands(z, cal.monthStart(i))
    case Quarterly => true
    case Weekly => WeekReadsBack(z, Jan4Of(cal, i), 7 * i)
  }

  /** What parsing the key of a built period needs: no day that its start may be taken for is skipped. */
  predicate BuiltOk(kind: Kind, cal: Calendar, z: Zone, i: int) {
    match kind
    case Monthly => Near(z, cal.monthStart(i)) && Near(z, cal.monthStart(i - 1)) && Near(z, cal.monthStart(i - 2))
    case Quarterly => true
    case Weekly => WeekFound(z, Jan4Of(cal, i), 7 * i)
  }

  lemma MonthParses(cal: Calendar, z: Zone, i: int)
    requires CalendarOk(cal) && BuiltOk(Monthly, cal, z, i) && 0 <= KeyIndex(Monthly, cal, z, i) / 12 <= 9999
    ensures ParsePeriod(Monthly, cal, z, PeriodAt(Monthly, cal, z, i).key) == Ok(PeriodAt(Monthly, cal, z, i)) <==> Lands(z, cal.monthStart(i))
  {
    MonthKeyIndex(cal, z, i);
    var k := KeyIndex(Monthly, cal, z, i);
    MonthRoundTrip(cal, z, k);
    if !Lands(z, cal.monthStart(i)) { StartsDiffer(cal, z, i, if Lands(z, cal.monthStart(k)) then k else k - 1); }
  }

  lemma StartsDiffer(cal: Calendar, z: Zone, i: int, j: int)
    requires CalendarOk(cal) && i - 2 <= j < i && Near(z, cal.monthStart(i)) && Near(z, cal.monthStart(j))
    ensures StartAt(Monthly, cal, z, j) != StartAt(Monthly, cal, z, i)
  {
    StepsGrow(cal.monthStart, j, i);
    assert 28 <= cal.monthStart(i) - cal.monthStart(i - 1);
    assert j < i - 1 ==> 28 <= cal.monthStart(i - 1) - cal.monthStart(j);
  }

  lemma BuiltKeyParses(kind: Kind, cal: Calendar, z: Zone, i: int)
    requires CalendarOk(cal) && BuiltOk(kind, cal, z, i) && 1970 <= KeyYear(kind, cal, KeyIndex(kind, cal, z, i)) <= 9999
    ensures ParsePeriod(kind, cal, z, PeriodAt(kind, cal, z, i).key) == Ok(PeriodAt(kind, cal, z, i)) <==> ParseRight(kind, cal, z, i)
  {
    match kind
    case Monthly => MonthParses(cal, z, i);
    case Quarterly => QuarterRoundTrip(cal, z, i);
    case Weekly => WeekRoundTrip(cal, z, i);
  }

  /** Parsing the key of the period of any instant gives that period back exactly when ParseRight, for the years 1970 to 9999. */
  lemma ParseInvertsKey(kind: Kind, z: Zone, t: Time)
    requires BuiltOk(kind, GREGORIAN, z, Ordinal(kind, GREGORIAN, z.localDay(t)))
    requires 1970 <= KeyYear(kind, GREGORIAN, KeyIndex(kind, GREGORIAN, z, Ordinal(kind, GREGORIAN, z.localDay(t)))) <= 9999
    ensures CalendarOk(GREGORIAN)
    ensures var p := PeriodContaining(kind, GREGORIAN, z, t);
            ParsePeriod(kind, GREGORIAN, z, p.key) == Ok(p) <==> ParseRight(kind, GREGORIAN, z, Ordinal(kind, GREGORIAN, z.localDay(t)))
  {
    GregorianOk();
    ContainingIs(kind, GREGORIAN, z, t);
    BuiltKeyParses(kind, GREGORIAN, z, Ordinal(kind, GREGORIAN, z.localDay(t)));
  }

  // ---------- What a key looks like ----------

  predicate Reads(s: string, i: nat, j: nat, n: int) { i < j <= |s| && AllDigits(s[i..j]) && Value(s[i..j]) == n }

  /** A month reads 2024-03, a quarter 2024-Q1 and a week 2024-W05, for years of four digits. */
  lemma KeysRead(y: int, m: nat, q: nat, w: nat)
    requires 1000 <= y <= 9999 && 1 <= m <= 12 && 1 <= q <= 4 && 1 <= w <= 53
    ensures var key := MonthKey(y, m); |key| == 7 && Reads(key, 0, 4, y) && key[4] == '-' && Reads(key, 5, 7, m)
    ensures var key := QuarterKey(y, q); |key| == 7 && Reads(key, 0, 4, y) && key[4..6] == "-Q" && Reads(key, 6, 7, q)
    ensures var key := WeekKey(y, w); |key| == 8 && Reads(key, 0, 4, y) && key[4..6] == "-W" && Reads(key, 6, 8, w)
  {
    YearReads(y);
    TwoReads(m);
    TwoReads(w);
    DigitsRoundTrip(q);
    Pieces(Year4(y), "-", Padded(m, 2));
    Pieces(Signed(y), "-Q", Digits(q));
    Pieces(Signed(y), "-W", Padded(w, 2));
    assert Signed(y) + "-Q" + Digits(q) == QuarterKey(y, q);
  }

  predicate Between(s: string, low: int, high: int) { Atoi(s).Some? && low <= Atoi(s).value <= high }

  /** s is head, the separator ab, which occurs nowhere earlier, and tail. */
  predicate Splits(s: string, a: char, b: char, head: string, tail: string) {
    s == head + [a, b] + tail && forall i :: 0 <= i < |head| ==> !(s[i] == a && s[i + 1] == b)
  }

  lemma {:induction false} SplitMeans(s: string, a: char, b: char)
    ensures forall h, t | Splits(s, a, b, h, t) :: SplitAt(s, a, b) == Some((h, t))
    ensures SplitAt(s, a, b).Some? ==> Splits(s, a, b, SplitAt(s, a, b).value.0, SplitAt(s, a, b).value.1)
  {
    forall h, t | Splits(s, a, b, h, t) ensures SplitAt(s, a, b) == Some((h, t)) { SplitFound(s, a, b, h, t); }
    if |s| >= 2 && !(s[0] == a && s[1] == b) {
      SplitMeans(s[1..], a, b);
      var rest := SplitAt(s[1..], a, b);
      if rest.Some? {
        var h, t := rest.value.0, rest.value.1;
        assert s == [s[0]] + s[1..] == [s[0]] + h + [a, b] + t;
        forall i | 0 <= i < |h| + 1 ensures !(s[i] == a && s[i + 1] == b) {
          if i > 0 { assert s[i] == s[1..][i - 1] && s[i + 1] == s[1..][i]; }
        }
      }
    } else if |s| >= 2 {
      assert s == [a, b] + s[2..];
    }
  }

  lemma {:induction false} SplitFound(s: string, a: char, b: char, h: string, t: string)
    requires Splits(s, a, b, h, t)
    ensures SplitAt(s, a, b) == Some((h, t))
  {
    if h == "" {
      assert s[2..] == t;
    } else {
      assert s[1..] == h[1..] + [a, b] + t;
      SplitFound(s[1..], a, b, h[1..], t);
      assert [s[0]] + h[1..] == h;
    }
  }

  /** Which texts are accepted at all, whatever their length: a year from 1970 to 9999, and a month, quarter or week in range. */
  lemma TextsAccepted(cal: Calendar, z: Zone, text: string)
    ensures var s := TrimSpace(text);
            ParsePeriod(Monthly, cal, z, text).Ok? <==>
            |s| == 7 && AllDigits(s[..4]) && s[4] == '-' && AllDigits(s[5..]) && 1 <= Value(s[5..]) <= 12
    ensures ParsePeriod(Quarterly, cal, z, text).Ok? <==>
            exists y, q :: Splits(TrimSpace(text), '-', 'Q', y, q) && Between(y, 1970, 9999) && Between(q, 1, 4)
    ensures ParsePeriod(Weekly, cal, z, text) != Err(BadWeek) <==>
            exists y, w :: Splits(TrimSpace(text), '-', 'W', y, w) && Between(y, 1970, 9999) && Between(w, 1, 53)
  {
    KeySplits(TrimSpace(text), '-', 'Q', 1, 4);
    KeySplits(TrimSpace(text), '-', 'W', 1, 53);
  }

  lemma KeySplits(s: string, a: char, b: char, low: int, high: int)
    ensures (SplitKey(s, a, b).Some? && low <= SplitKey(s, a, b).value.1 <= high) <==>
            exists y, n :: Splits(s, a, b, y, n) && Between(y, 1970, 9999) && Between(n, low, high)
  {
    SplitMeans(s, a, b);
  }

  /** The year of a month key reads back, whatever its sign. */
  lemma FourDigitYear(y: int)
    ensures Atoi(Year4(y)) == Some(y) && |Year4(y)| >= 4
  {
    if y >= 0 {
      PaddedRoundTrip(y, 4);
    } else {
      PaddedRoundTrip(-y, 4);
      assert Year4(y)[1..] == Padded(-y, 4);
    }
  }

  lemma YearReads(y: int)
    requires 1000 <= y <= 9999
    ensures Year4(y) == Signed(y) == Digits(y) && |Digits(y)| == 4 && AllDigits(Digits(y)) && Value(Digits(y)) == y
  {
    assert Power10(1) == 10 && Power10(2) == 100 && Power10(3) == 1000 && Power10(4) == 10000;
    DigitsRoundTrip(y);
    DigitsFit(y, 4);
    DigitsLong(y, 3);
  }

  lemma TwoReads(n: nat)
    requires n < 100
    ensures |Padded(n, 2)| == 2 && AllDigits(Padded(n, 2)) && Value(Padded(n, 2)) == n
  {
    assert Power10(1) == 10 && Power10(2) == 100;
    DigitsFit(n, 2);
    PaddedRoundTrip(n, 2);
  }

  lemma Pieces(a: string, b: string, c: string)
    ensures var s := a + b + c; s[..|a|] == a && s[0..|a|] == a && s[|a|..|a| + |b|] == b && s[|a| + |b|..|s|] == c
  {
  }
}

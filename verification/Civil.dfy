/** The proleptic Gregorian calendar on day numbers; day 0 is Monday 1 January of year 1. */
module Civil {

  type Day = int

  predicate IsLeap(y: int) { y % 4 == 0 && (y % 100 != 0 || y % 400 == 0) }

  function YearLength(y: int): int { if IsLeap(y) then 366 else 365 }

  /** The first day of a year. */
  function Jan1(y: int): Day { 365 * (y - 1) + (y - 1) / 4 - (y - 1) / 100 + (y - 1) / 400 }

  lemma DivNext(n: int, k: int)
    requires k > 0
    ensures (n + 1) / k == n / k + (if (n + 1) % k == 0 then 1 else 0)
  {
    var q, r := n / k, n % k;
    assert n == q * k + r;
    if r == k - 1 {
      assert n + 1 == (q + 1) * k;
      QuotientIs(n + 1, k, q + 1, 0);
    } else {
      QuotientIs(n + 1, k, q, r + 1);
    }
  }

  lemma OneMultiple(a: int, k: int, x: int)
    requires k > 0 && a * k == x && -k < x < k
    ensures a == 0
  {
  }

  lemma QuotientIs(n: int, k: int, q: int, r: int)
    requires k > 0 && n == q * k + r && 0 <= r < k
    ensures n / k == q && n % k == r
  {
    var q', r' := n / k, n % k;
    Subtract(q, q', k, r, r', n);
    OneMultiple(q - q', k, r' - r);
  }

  lemma Subtract(q: int, q': int, k: int, r: int, r': int, n: int)
    requires n == q * k + r == q' * k + r'
    ensures (q - q') * k == r' - r
  {
  }

  lemma Divides(y: int)
    ensures y % 100 == 0 ==> y % 4 == 0
    ensures y % 400 == 0 ==> y % 100 == 0
  {
    if y % 100 == 0 { QuotientIs(y, 4, 25 * (y / 100), 0); }
    if y % 400 == 0 { QuotientIs(y, 100, 4 * (y / 400), 0); }
  }

  lemma Jan1Next(y: int)
    ensures Jan1(y + 1) == Jan1(y) + YearLength(y)
  {
    DivNext(y - 1, 4);
    DivNext(y - 1, 100);
    DivNext(y - 1, 400);
    Divides(y);
  }

  ghost predicate Grows(f: int -> int) { forall k, l :: l == k + 1 ==> f(k) < f(l) }

  /** A function that grows at every step grows over any distance. */
  lemma {:induction false} StepsGrow(f: int -> int, i: int, j: int)
    requires i < j && Grows(f)
    ensures f(i) < f(j)
    decreases j - i
  {
    assert f(j - 1) < f(j);
    if i < j - 1 { StepsGrow(f, i, j - 1); }
  }

  lemma Jan1Cycle(y: int, k: int)
    ensures Jan1(y + 400 * k) == Jan1(y) + 146097 * k
  {
    var n := y - 1;
    assert (n + 400 * k) / 4 == n / 4 + 100 * k;
    assert (n + 400 * k) / 100 == n / 100 + 4 * k;
    assert (n + 400 * k) / 400 == n / 400 + k;
  }

  function FindYear(d: Day, y: nat): int {
    if y == 0 || Jan1(y) <= d then y else FindYear(d, y - 1)
  }

  lemma {:induction false} FindYearOk(d: Day, y: nat)
    requires 0 <= d < Jan1(y + 1)
    ensures Jan1(FindYear(d, y)) <= d < Jan1(FindYear(d, y) + 1)
  {
    if y > 0 && Jan1(y) > d { FindYearOk(d, y - 1); }
  }

  /** The year a day falls in. */
  function YearOf(d: Day): (y: int)
    ensures Jan1(y) <= d < Jan1(y + 1)
  {
    var cycle, r := d / 146097, d % 146097;
    FindYearOk(r, 400);
    var y := FindYear(r, 400);
    Jan1Cycle(y, cycle);
    Jan1Cycle(y + 1, cycle);
    assert y + 1 + 400 * cycle == y + 400 * cycle + 1;
    y + 400 * cycle
  }

  // ---------- Months ----------

  /** Days of the year before a month, March onwards counting the leap day; 13 is the next January. */
  function BeforeMonth(y: int, m: int): int
    requires 1 <= m <= 13
  {
    var common := [0, 31, 59, 90, 120, 151, 181, 212, 243, 273, 304, 334, 365][m - 1];
    if m > 2 && IsLeap(y) then common + 1 else common
  }

  lemma BeforeMonthGrows(y: int, m: int)
    requires 1 <= m <= 12
    ensures BeforeMonth(y, m) + 28 <= BeforeMonth(y, m + 1) <= BeforeMonth(y, m) + 31
    ensures BeforeMonth(y, 13) == YearLength(y)
  {
  }

  /** Months counted through: 12 * year + month - 1. The first day of a month, as time.Date normalises it. */
  function MonthStart(i: int): Day { Jan1(i / 12) + BeforeMonth(i / 12, i % 12 + 1) }

  lemma MonthStartNext(i: int)
    ensures MonthStart(i) + 28 <= MonthStart(i + 1) <= MonthStart(i) + 31
  {
    var y, m := i / 12, i % 12 + 1;
    BeforeMonthGrows(y, m);
    if m == 12 {
      Jan1Next(y);
      assert (i + 1) / 12 == y + 1 && (i + 1) % 12 == 0;
      BeforeMonthGrows(y, 12);
    } else {
      assert (i + 1) / 12 == y && (i + 1) % 12 + 1 == m + 1;
    }
  }

  function FindMonth(y: int, d: int, m: int): (r: int)
    requires 1 <= m <= 12 && 0 <= d < BeforeMonth(y, m + 1)
    ensures 1 <= r <= 12 && BeforeMonth(y, r) <= d < BeforeMonth(y, r + 1)
    decreases m
  {
    if BeforeMonth(y, m) <= d then m else FindMonth(y, d, m - 1)
  }

  lemma MonthIndex(y: int, m: int)
    requires 1 <= m <= 12
    ensures (12 * y + m - 1) / 12 == y && (12 * y + m - 1) % 12 + 1 == m
  {
    QuotientIs(12 * y + m - 1, 12, y, m - 1);
  }

  lemma MonthStartIs(y: int, m: int)
    requires 1 <= m <= 13
    ensures MonthStart(12 * y + m - 1) == Jan1(y) + BeforeMonth(y, m)
  {
    if m <= 12 {
      MonthIndex(y, m);
    } else {
      MonthIndex(y + 1, 1);
      Jan1Next(y);
      BeforeMonthGrows(y, 12);
    }
  }

  lemma MonthFound(d: Day, y: int, m: int, i: int)
    requires 1 <= m <= 12 && BeforeMonth(y, m) <= d - Jan1(y) < BeforeMonth(y, m + 1) && i == 12 * y + m - 1
    ensures MonthStart(i) <= d < MonthStart(i + 1)
  {
    MonthStartAt(i, y, m);
    MonthStartAt(i + 1, y, m + 1);
  }

  lemma MonthStartAt(i: int, y: int, m: int)
    requires 1 <= m <= 13 && i == 12 * y + m - 1
    ensures MonthStart(i) == Jan1(y) + BeforeMonth(y, m)
  {
    MonthStartIs(y, m);
  }

  function MonthOf(d: Day): (m: int)
    ensures 1 <= m <= 12 && BeforeMonth(YearOf(d), m) <= d - Jan1(YearOf(d)) < BeforeMonth(YearOf(d), m + 1)
  {
    Jan1Next(YearOf(d));
    BeforeMonthGrows(YearOf(d), 12);
    FindMonth(YearOf(d), d - Jan1(YearOf(d)), 12)
  }

  /** The month a day falls in, counted through. */
  function MonthIndexOf(d: Day): int { 12 * YearOf(d) + MonthOf(d) - 1 }

  lemma MonthIndexOfOk(d: Day)
    ensures MonthStart(MonthIndexOf(d)) <= d < MonthStart(MonthIndexOf(d) + 1)
  {
    MonthFound(d, YearOf(d), MonthOf(d), MonthIndexOf(d));
  }

  lemma MonthsGrow()
    ensures Grows(MonthStart)
  {
    forall k, l | l == k + 1 ensures MonthStart(k) < MonthStart(l) { MonthStartNext(k); }
  }

  // ---------- The calendar is the one on the wall ----------

  /** Thirty days hath September, April, June and November; February has 28, and 29 in a leap year. */
  lemma MonthLengths(y: int, m: int)
    requires 1 <= m <= 12
    ensures MonthStart(12 * y + m) - MonthStart(12 * y + m - 1) ==
            if m == 2 then (if y % 400 == 0 || (y % 4 == 0 && y % 100 != 0) then 29 else 28)
            else if m == 4 || m == 6 || m == 9 || m == 11 then 30 else 31
  {
    DaysOfMonth(y, m);
    MonthStartAt(12 * y + m - 1, y, m);
    MonthStartAt(12 * y + m, y, m + 1);
  }

  lemma DaysOfMonth(y: int, m: int)
    requires 1 <= m <= 12
    ensures BeforeMonth(y, m + 1) - BeforeMonth(y, m) ==
            if m == 2 then (if y % 400 == 0 || (y % 4 == 0 && y % 100 != 0) then 29 else 28)
            else if m == 4 || m == 6 || m == 9 || m == 11 then 30 else 31
  {
    Divides(y);
  }

  /** 1 January 1970 was a Thursday, 719162 days after 1 January of year 1. */
  lemma Epoch()
    ensures MonthStart(12 * 1970) == 719162 && MonthStart(12 * 1970) % 7 == 3 && MonthStart(12) == 0
  {
    MonthStartAt(12 * 1970, 1970, 1);
    MonthStartAt(12, 1, 1);
  }

  // ---------- The calendar as a value ----------

  /** A month calendar: the first day of each month counted through, and the month of each day. */
  datatype Calendar = Calendar(monthStart: int -> Day, monthOf: Day -> int)

  ghost predicate Finds(start: int -> Day, of: Day -> int) {
    && (forall d :: start(of(d)) <= d)
    && (forall d, j :: j == of(d) + 1 ==> d < start(j))
  }

  ghost predicate LengthsOk(start: int -> Day) {
    forall i, j :: j == i + 1 ==> 28 <= start(j) - start(i) <= 31
  }

  ghost predicate YearsOk(start: int -> Day) {
    forall i, j :: i % 12 == 0 && j == i + 12 ==> 365 <= start(j) - start(i) <= 366
  }

  /** All that the periods need to know: months have 28 to 31 days and follow one another, years have 365 or 366. */
  ghost predicate CalendarOk(cal: Calendar) {
    Grows(cal.monthStart) && LengthsOk(cal.monthStart) && Finds(cal.monthStart, cal.monthOf) && YearsOk(cal.monthStart)
  }

  const GREGORIAN: Calendar := Calendar(MonthStart, MonthIndexOf)

  lemma GregorianOk()
    ensures CalendarOk(GREGORIAN)
  {
    MonthsGrow();
    LengthsFound();
    MonthsFound();
    YearsFound();
  }

  lemma LengthsFound()
    ensures LengthsOk(MonthStart)
  {
    forall i, j | j == i + 1 ensures 28 <= MonthStart(j) - MonthStart(i) <= 31 { MonthStartNext(i); }
  }

  lemma MonthsFound()
    ensures Finds(MonthStart, MonthIndexOf)
  {
    forall d ensures MonthStart(MonthIndexOf(d)) <= d { MonthIndexOfOk(d); }
    forall d, j | j == MonthIndexOf(d) + 1 ensures d < MonthStart(j) { MonthIndexOfOk(d); }
  }

  lemma YearsFound()
    ensures YearsOk(MonthStart)
  {
    forall i, j | i % 12 == 0 && j == i + 12 ensures 365 <= MonthStart(j) - MonthStart(i) <= 366 { YearOfMonths(i); }
  }

  lemma YearOfMonths(i: int)
    requires i % 12 == 0
    ensures 365 <= MonthStart(i + 12) - MonthStart(i) <= 366
  {
    var y := i / 12;
    assert i == 12 * y;
    MonthStartIs(y, 1);
    MonthStartIs(y, 13);
    Jan1Next(y);
    BeforeMonthGrows(y, 12);
  }
}

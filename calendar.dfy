/** Local calendar arithmetic as the ledger's JavaScript `Date` objects perform it:
    proleptic Gregorian dates, `setDate` with overflow normalisation, the 04:00
    business-day cutoff and the Monday-start week window. */
module Calendar {

  /** A local calendar date: `getFullYear()`, `getMonth() + 1` and `getDate()`. */
  datatype Date = Date(year: int, month: int, day: int)

  /** A local date and time of day, the parts of a `Date` the ledger reads. */
  datatype Moment = Moment(date: Date, hour: int, minute: int, second: int, millisecond: int)

  /** The two ends of a week window; the time-of-day parts are not modelled. */
  datatype Week = Week(start: Date, end: Date)

  /** Activity before this hour belongs to the previous business day. */
  const DayCutoffHour: int := 4

  predicate IsLeapYear(y: int) {
    y % 4 == 0 && (y % 100 != 0 || y % 400 == 0)
  }

  function DaysInMonth(y: int, m: int): (n: int)
    requires 1 <= m <= 12
    ensures 28 <= n <= 31
  {
    if m == 2 then (if IsLeapYear(y) then 29 else 28)
    else if m == 4 || m == 6 || m == 9 || m == 11 then 30
    else 31
  }

  predicate Valid(d: Date) {
    1 <= d.month <= 12 && 1 <= d.day <= DaysInMonth(d.year, d.month)
  }

  function YearLength(y: int): int {
    if IsLeapYear(y) then 366 else 365
  }

  /** Days in the years from 0001 up to, but not including, year `y` (negative for
      years before 0001). */
  function DaysBeforeYear(y: int): int {
    var p := y - 1;
    365 * p + p / 4 - p / 100 + p / 400
  }

  /** Days in the months of year `y` before month `m`. */
  function DaysBeforeMonth(y: int, m: int): int
    requires 1 <= m <= 12
  {
    [0, 31, 59, 90, 120, 151, 181, 212, 243, 273, 304, 334][m - 1]
      + (if m > 2 && IsLeapYear(y) then 1 else 0)
  }

  /** Position of a date on the line of days: 0001-01-01 is day 1, a Monday. */
  function DayNumber(d: Date): int
    requires Valid(d)
  {
    DaysBeforeYear(d.year) + DaysBeforeMonth(d.year, d.month) + d.day
  }

  /** `getDay()`: 0 is Sunday, 1 is Monday, ..., 6 is Saturday. */
  function Weekday(d: Date): int
    requires Valid(d)
  {
    DayNumber(d) % 7
  }

  // ---------------------------------------------------------------------------
  // The line of days

  lemma YearStep(y: int)
    ensures DaysBeforeYear(y + 1) == DaysBeforeYear(y) + YearLength(y)
  {
    var p := y - 1;
    DivStep(p, 4);
    DivStep(p, 100);
    DivStep(p, 400);
  }

  /** Floor division by `c` goes up by one exactly when `x + 1` is a multiple of `c`. */
  lemma DivStep(x: int, c: int)
    requires c == 4 || c == 100 || c == 400
    ensures (x + 1) / c == x / c + (if (x + 1) % c == 0 then 1 else 0)
  {
  }

  /** Each month ends where the next one begins, and December ends the year. */
  lemma MonthStep(y: int, m: int)
    requires 1 <= m <= 12
    ensures m < 12 ==> DaysBeforeMonth(y, m + 1) == DaysBeforeMonth(y, m) + DaysInMonth(y, m)
    ensures m == 12 ==> DaysBeforeMonth(y, m) + DaysInMonth(y, m) == YearLength(y)
  {
  }

  lemma MonthsIncreasing(y: int, m1: int, m2: int)
    requires 1 <= m1 < m2 <= 12
    ensures DaysBeforeMonth(y, m1) + DaysInMonth(y, m1) <= DaysBeforeMonth(y, m2)
  {
  }

  lemma {:induction false} DaysBeforeYearIncreasing(y1: int, y2: int)
    requires y1 < y2
    ensures DaysBeforeYear(y1 + 1) <= DaysBeforeYear(y2)
    decreases y2 - y1
  {
    YearStep(y1);
    if y1 + 1 < y2 {
      DaysBeforeYearIncreasing(y1 + 1, y2);
      YearStep(y1 + 1);
    }
  }

  /** A date's day number lies within its own year's stretch of the line. */
  lemma DayNumberInYear(d: Date)
    requires Valid(d)
    ensures DaysBeforeYear(d.year) < DayNumber(d) <= DaysBeforeYear(d.year + 1)
  {
    YearStep(d.year);
    MonthStep(d.year, 12);
    if d.month < 12 {
      MonthsIncreasing(d.year, d.month, 12);
    }
  }

  /** Distinct valid dates have distinct day numbers. */
  lemma DayNumberInjective(a: Date, b: Date)
    requires Valid(a) && Valid(b)
    requires DayNumber(a) == DayNumber(b)
    ensures a == b
  {
    DayNumberInYear(a);
    DayNumberInYear(b);
    if a.year < b.year {
      DaysBeforeYearIncreasing(a.year, b.year);
      assert false;
    } else if b.year < a.year {
      DaysBeforeYearIncreasing(b.year, a.year);
      assert false;
    }
    var y := a.year;
    if a.month < b.month {
      MonthsIncreasing(y, a.month, b.month);
      assert false;
    } else if b.month < a.month {
      MonthsIncreasing(y, b.month, a.month);
      assert false;
    }
  }

  // ---------------------------------------------------------------------------
  // Moving along the line of days

  function NextDay(d: Date): (r: Date)
    requires Valid(d)
    ensures Valid(r)
  {
    if d.day < DaysInMonth(d.year, d.month) then Date(d.year, d.month, d.day + 1)
    else if d.month < 12 then Date(d.year, d.month + 1, 1)
    else Date(d.year + 1, 1, 1)
  }

  function PrevDay(d: Date): (r: Date)
    requires Valid(d)
    ensures Valid(r)
  {
    if d.day > 1 then Date(d.year, d.month, d.day - 1)
    else if d.month > 1 then Date(d.year, d.month - 1, DaysInMonth(d.year, d.month - 1))
    else Date(d.year - 1, 12, 31)
  }

  /** The next day is one step further along the line, crossing month and year ends. */
  lemma NextDayNumber(d: Date)
    requires Valid(d)
    ensures DayNumber(NextDay(d)) == DayNumber(d) + 1
  {
    if d.day == DaysInMonth(d.year, d.month) && d.month == 12 {
      YearStep(d.year);
      MonthStep(d.year, 12);
    }
  }

  /** The previous day is one step back along the line, crossing month and year ends. */
  lemma PrevDayNumber(d: Date)
    requires Valid(d)
    ensures DayNumber(PrevDay(d)) == DayNumber(d) - 1
  {
    if d.day == 1 && d.month == 1 {
      YearStep(d.year - 1);
      MonthStep(d.year - 1, 12);
    }
  }

  /** The date `k` days after `d` (before it, for negative `k`). */
  function AddDays(d: Date, k: int): (r: Date)
    requires Valid(d)
    ensures Valid(r) && DayNumber(r) == DayNumber(d) + k
    decreases if k < 0 then -k else k
  {
    if k == 0 then d
    else if k > 0 then NextDayNumber(d); AddDays(NextDay(d), k - 1)
    else PrevDayNumber(d); AddDays(PrevDay(d), k + 1)
  }

  /** Moving by `k` days shifts the weekday by `k` modulo 7. */
  lemma AddDaysWeekday(d: Date, k: int)
    requires Valid(d)
    ensures Weekday(AddDays(d, k)) == (Weekday(d) + k) % 7
  {
    ShiftMod7(DayNumber(d), k);
  }

  lemma ShiftMod7(n: int, k: int)
    ensures (n + k) % 7 == (n % 7 + k) % 7
  {
  }

  /** `date.setDate(n)`: day `n` of the date's month, where a day outside the
      month rolls over into the neighbouring months. */
  function SetDate(d: Date, n: int): (r: Date)
    requires Valid(d)
    ensures r == AddDays(d, n - d.day)
  {
    var first := Date(d.year, d.month, 1);
    var r := AddDays(first, n - 1);
    DayNumberInjective(r, AddDays(d, n - d.day));
    r
  }

  /** Moving a date with `setDate(getDate() + i)` moves it `i` days forward. */
  lemma SetDateForward(d: Date, i: int)
    requires Valid(d)
    ensures SetDate(d, d.day + i) == AddDays(d, i)
  {
  }

  // ---------------------------------------------------------------------------
  // The business-day cutoff and the week window

  /** The date the ledger opens on: before 04:00 the clock still belongs to the
      previous business day, so the date moves back one day; the time of day is kept. */
  function InitialDate(now: Moment): (r: Moment)
    requires Valid(now.date)
    ensures Valid(r.date)
    ensures r.hour == now.hour && r.minute == now.minute
    ensures r.second == now.second && r.millisecond == now.millisecond
    ensures now.hour < DayCutoffHour ==> DayNumber(r.date) == DayNumber(now.date) - 1
    ensures now.hour >= DayCutoffHour ==> r == now
  {
    if now.hour < DayCutoffHour then now.(date := SetDate(now.date, now.date.day - 1)) else now
  }

  /** Before the cutoff the business day is the previous calendar day: the last day
      of the previous month on the first of a month, and 31 December of the previous
      year on 1 January. */
  lemma CutoffIsPreviousDay(now: Moment)
    requires Valid(now.date) && now.hour < DayCutoffHour
    ensures InitialDate(now).date == PrevDay(now.date)
    ensures now.date.day == 1 && now.date.month > 1 ==>
      InitialDate(now).date == Date(now.date.year, now.date.month - 1, DaysInMonth(now.date.year, now.date.month - 1))
    ensures now.date.day == 1 && now.date.month == 1 ==>
      InitialDate(now).date == Date(now.date.year - 1, 12, 31)
  {
    PrevDayNumber(now.date);
    DayNumberInjective(InitialDate(now).date, PrevDay(now.date));
  }

  /** `getWeekRange`: `setDate` to the Monday of the week, then `setDate` six days on.
      The window starts on the Monday on or before `base`, at most six days back
      (six exactly when `base` is a Sunday), and ends six days after its start. */
  function GetWeekRange(base: Date): (w: Week)
    requires Valid(base)
    ensures Valid(w.start) && Valid(w.end)
    ensures Weekday(w.start) == 1
    ensures DayNumber(base) - DayNumber(w.start) == (Weekday(base) + 6) % 7
    ensures DayNumber(w.end) == DayNumber(w.start) + 6
  {
    var day := Weekday(base);
    var diff := base.day - day + (if day == 0 then -6 else 1);
    var start := SetDate(base, diff);
    var end := SetDate(start, start.day + 6);
    MondayOnOrBefore(base, start, end);
    Week(start, end)
  }

  /** The first `setDate` of `getWeekRange` lands on the Monday on or before
      `base`, and the second six days later. */
  lemma MondayOnOrBefore(base: Date, start: Date, end: Date)
    requires Valid(base)
    requires var day := Weekday(base); start == SetDate(base, base.day - day + (if day == 0 then -6 else 1))
    requires end == SetDate(start, start.day + 6)
    ensures Weekday(start) == 1 && DayNumber(base) - DayNumber(start) == (Weekday(base) + 6) % 7
    ensures DayNumber(end) == DayNumber(start) + 6
  {
    var day := Weekday(base);
    ShiftMod7(DayNumber(base), -day + (if day == 0 then -6 else 1));
    MondayShift(day);
  }

  /** Stepping back from weekday `w` as `getWeekRange` does lands on a Monday,
      at most six days back. */
  lemma MondayShift(w: int)
    requires 0 <= w < 7
    ensures var k := -w + (if w == 0 then -6 else 1); (w + k) % 7 == 1 && -k == (w + 6) % 7
  {
  }

  /** The week window holds its base date, and its start is the only Monday at most
      six days before the base date. */
  lemma WeekRangeUnique(base: Date, monday: Date)
    requires Valid(base) && Valid(monday)
    requires Weekday(monday) == 1
    requires DayNumber(monday) <= DayNumber(base) <= DayNumber(monday) + 6
    ensures GetWeekRange(base).start == monday
  {
    var start := GetWeekRange(base).start;
    var n, m := DayNumber(start), DayNumber(monday);
    assert n % 7 == 1 && m % 7 == 1;
    SameResidueClose(n, m);
    DayNumberInjective(start, monday);
  }

  /** Two numbers with the same residue modulo 7 that are less than 7 apart are equal. */
  lemma SameResidueClose(n: int, m: int)
    requires n % 7 == m % 7 && -7 < n - m < 7
    ensures n == m
  {
  }

  /** The week of Friday 2024-03-15 runs from Monday 2024-03-11 to Sunday 2024-03-17. */
  lemma WeekOfMarch15()
    ensures GetWeekRange(Date(2024, 3, 15)) == Week(Date(2024, 3, 11), Date(2024, 3, 17))
  {
    var base := Date(2024, 3, 15);
    MidMarch2024();
    var w := GetWeekRange(base);
    DayNumberInjective(w.start, Date(2024, 3, 11));
    DayNumberInjective(w.end, Date(2024, 3, 17));
  }

  lemma MidMarch2024()
    ensures DayNumber(Date(2024, 3, 11)) == 738956
    ensures DayNumber(Date(2024, 3, 15)) == 738960 && Weekday(Date(2024, 3, 15)) == 5
    ensures DayNumber(Date(2024, 3, 17)) == 738962
  {
  }

  /** At 03:59 on 2024-03-15 the business day is 2024-03-14; at 04:00 it is 2024-03-15. */
  lemma CutoffOnMarch15()
    ensures InitialDate(Moment(Date(2024, 3, 15), 3, 59, 0, 0)).date == Date(2024, 3, 14)
    ensures InitialDate(Moment(Date(2024, 3, 15), 4, 0, 0, 0)).date == Date(2024, 3, 15)
  {
    CutoffIsPreviousDay(Moment(Date(2024, 3, 15), 3, 59, 0, 0));
  }
}

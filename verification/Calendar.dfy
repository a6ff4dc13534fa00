/** Dates, day numbers and month arithmetic of the proleptic Gregorian calendar. */
module Calendar {

  predicate Leap(year: int) {
    year % 4 == 0 && (year % 100 != 0 || year % 400 == 0)
  }

  function DaysInMonth(year: int, month: int): (days: int)
    requires 1 <= month <= 12
    ensures 28 <= days <= 31
  {
    if month == 2 then (if Leap(year) then 29 else 28)
    else if month in {4, 6, 9, 11} then 30
    else 31
  }

  datatype CivilDate = CivilDate(year: int, month: int, day: int) {
    predicate Exists() {
      && year >= 1
      && 1 <= month <= 12
      && 1 <= day <= DaysInMonth(year, month)
    }

    /** Months counted from the year 0. */
    function MonthIndex(): int { 12 * year + month - 1 }
  }

  type Date = d: CivilDate | d.Exists() witness CivilDate(1, 1, 1)

  function YearOf(monthIndex: nat): nat { monthIndex / 12 }

  function MonthOf(monthIndex: nat): nat { monthIndex % 12 + 1 }

  function DaysIn(monthIndex: nat): int { DaysInMonth(YearOf(monthIndex), MonthOf(monthIndex)) }

  // ---- Day numbers -------------------------------------------------------------------------

  function DaysBeforeYear(year: int): int {
    365 * (year - 1) + (year - 1) / 4 - (year - 1) / 100 + (year - 1) / 400
  }

  const DAYS_BEFORE_MONTH: seq<int> := [0, 31, 59, 90, 120, 151, 181, 212, 243, 273, 304, 334]

  function DaysBeforeMonth(year: int, month: int): int
    requires 1 <= month <= 12
  {
    DAYS_BEFORE_MONTH[month - 1] + (if month > 2 && Leap(year) then 1 else 0)
  }

  /** The number of a day: 1 January of year 1 is day 1. */
  function Ordinal(d: Date): int {
    DaysBeforeYear(d.year) + DaysBeforeMonth(d.year, d.month) + d.day
  }

  /** Days before the first day of a month. */
  function MonthStart(monthIndex: nat): int {
    DaysBeforeYear(YearOf(monthIndex)) + DaysBeforeMonth(YearOf(monthIndex), MonthOf(monthIndex))
  }

  lemma MonthIndexOf(d: Date)
    ensures d.MonthIndex() >= 12
    ensures YearOf(d.MonthIndex()) == d.year && MonthOf(d.MonthIndex()) == d.month
    ensures Ordinal(d) == MonthStart(d.MonthIndex()) + d.day
  {
  }

  lemma YearLength(year: int)
    ensures DaysBeforeYear(year + 1) == DaysBeforeYear(year) + (if Leap(year) then 366 else 365)
  {
    FourYears(year);
    Century(year);
    FourCenturies(year);
  }

  lemma FourYears(year: int)
    ensures year / 4 == (year - 1) / 4 + if year % 4 == 0 then 1 else 0
  {
  }

  lemma Century(year: int)
    ensures year / 100 == (year - 1) / 100 + if year % 100 == 0 then 1 else 0
    ensures year % 100 == 0 ==> year % 4 == 0
  {
  }

  lemma FourCenturies(year: int)
    ensures year / 400 == (year - 1) / 400 + if year % 400 == 0 then 1 else 0
    ensures year % 400 == 0 ==> year % 100 == 0
  {
  }

  /** Months follow each other without gap, across year ends and leap days. */
  lemma MonthsAreAdjacent(monthIndex: nat)
    ensures MonthStart(monthIndex + 1) == MonthStart(monthIndex) + DaysIn(monthIndex)
  {
    var y, m := YearOf(monthIndex), MonthOf(monthIndex);
    if m == 12 {
      assert YearOf(monthIndex + 1) == y + 1 && MonthOf(monthIndex + 1) == 1;
      YearLength(y);
    } else {
      assert YearOf(monthIndex + 1) == y && MonthOf(monthIndex + 1) == m + 1;
      assert m == 1 || m == 2 || m == 3 || m == 4 || m == 5 || m == 6 || m == 7 || m == 8 || m == 9 || m == 10
             || m == 11;
    }
  }

  lemma {:induction false} MonthStartsIncrease(i: nat, j: nat)
    requires i < j
    ensures MonthStart(i) + DaysIn(i) <= MonthStart(j)
    decreases j
  {
    hide MonthStart;
    MonthsAreAdjacent(j - 1);
    if i < j - 1 { MonthStartsIncrease(i, j - 1); }
  }

  /** `date.__lt__`: the usual lexicographic comparison. */
  predicate Before(a: Date, b: Date) {
    a.MonthIndex() < b.MonthIndex() || (a.MonthIndex() == b.MonthIndex() && a.day < b.day)
  }

  /** Day numbers order dates as the calendar does; distinct dates have distinct numbers. */
  lemma OrdinalsOrderDates(a: Date, b: Date)
    ensures Before(a, b) <==> Ordinal(a) < Ordinal(b)
    ensures a == b <==> Ordinal(a) == Ordinal(b)
  {
    MonthIndexOf(a);
    MonthIndexOf(b);
    if a.MonthIndex() < b.MonthIndex() {
      MonthStartsIncrease(a.MonthIndex(), b.MonthIndex());
    } else if b.MonthIndex() < a.MonthIndex() {
      MonthStartsIncrease(b.MonthIndex(), a.MonthIndex());
    }
  }

  function NextDay(d: Date): Date {
    if d.day < DaysInMonth(d.year, d.month) then d.(day := d.day + 1)
    else if d.month < 12 then CivilDate(d.year, d.month + 1, 1)
    else CivilDate(d.year + 1, 1, 1)
  }

  lemma NextDayIsNext(d: Date)
    ensures Ordinal(NextDay(d)) == Ordinal(d) + 1
  {
    hide Ordinal, MonthStart;
    MonthIndexOf(d);
    MonthIndexOf(NextDay(d));
    MonthsAreAdjacent(d.MonthIndex());
  }

  /** The date with a given day number. */
  function FromOrdinal(n: int): (d: Date)
    requires n >= 1
    ensures Ordinal(d) == n
  {
    if n == 1 then CivilDate(1, 1, 1)
    else
      var d := FromOrdinal(n - 1);
      NextDayIsNext(d);
      NextDay(d)
  }

  lemma OrdinalsArePositive(d: Date)
    ensures Ordinal(d) >= 1
  {
    MonthIndexOf(d);
    assert MonthStart(12) == 0;
    if d.MonthIndex() > 12 { MonthStartsIncrease(12, d.MonthIndex()); }
  }

  lemma FromOrdinalOfOrdinal(d: Date)
    ensures Ordinal(d) >= 1 && FromOrdinal(Ordinal(d)) == d
  {
    OrdinalsArePositive(d);
    var e := FromOrdinal(Ordinal(d));
    OrdinalsOrderDates(e, d);
  }

  /** `date + timedelta(days=n)`. */
  function AddDays(d: Date, n: nat): (r: Date)
    ensures Ordinal(r) == Ordinal(d) + n
  {
    FromOrdinalOfOrdinal(d);
    FromOrdinal(Ordinal(d) + n)
  }

  // ---- Months ------------------------------------------------------------------------------

  /** `date + relativedelta(months=n)`: the same day, clamped to the last day of the month. */
  function AddMonths(d: Date, n: nat): (r: Date)
    ensures r.MonthIndex() == d.MonthIndex() + n
    ensures r.day == if d.day <= DaysIn(d.MonthIndex() + n) then d.day else DaysIn(d.MonthIndex() + n)
  {
    var i := d.MonthIndex() + n;
    CivilDate(YearOf(i), MonthOf(i), if d.day <= DaysIn(i) then d.day else DaysIn(i))
  }

  lemma AddNoMonths(d: Date)
    ensures AddMonths(d, 0) == d
  {
    MonthIndexOf(d);
  }

  /** The whole months in `relativedelta(date, start)`: the difference of the month numbers, one
      less when that many months after `start` would overshoot `date`. */
  function MonthsBetween(start: Date, date: Date): (months: nat)
    requires !Before(date, start)
  {
    var m := date.MonthIndex() - start.MonthIndex();
    AddNoMonths(start);
    if Before(date, AddMonths(start, m)) then m - 1 else m
  }

  /** It is the largest m with `start + m months <= date`, clamping included. */
  lemma MonthsBetweenIsLargest(start: Date, date: Date)
    requires !Before(date, start)
    ensures !Before(date, AddMonths(start, MonthsBetween(start, date)))
    ensures Before(date, AddMonths(start, MonthsBetween(start, date) + 1))
  {
  }

  // ---- Instants ----------------------------------------------------------------------------

  const DAY: int := 86_400_000_000
  const HOUR: int := 3_600_000_000

  /** A UTC date-time, in microseconds; the first representable one opens day 1. */
  type Instant = t: int | t >= DAY witness DAY

  type HourOfDay = h: int | 0 <= h < 24

  function DayNumber(t: Instant): int { t / DAY }

  function DateOf(t: Instant): (d: Date)
    ensures Ordinal(d) == DayNumber(t)
  {
    FromOrdinal(DayNumber(t))
  }

  /** `datetime.combine(d, time(hour))`. */
  function At(d: Date, hour: HourOfDay): (t: Instant)
    ensures DayNumber(t) == Ordinal(d) && DateOf(t) == d
  {
    FromOrdinalOfOrdinal(d);
    Ordinal(d) * DAY + hour * HOUR
  }

  /** `t.date() > d`. */
  predicate AfterDate(t: Instant, d: Date) { DayNumber(t) > Ordinal(d) }

  lemma AfterDateComparesDates(t: Instant, d: Date)
    ensures AfterDate(t, d) <==> Before(d, DateOf(t))
  {
    OrdinalsOrderDates(d, DateOf(t));
  }
}

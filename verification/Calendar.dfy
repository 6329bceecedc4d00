/** The previous-month period (src/bptl/work_units/zgw/zac/utils.py: get_last_month_period),
    on the wall clock of the configured time zone, which is what datetime arithmetic uses. */
module Calendar {
  import opened Wrappers

  datatype Date = Date(year: int, month: int, day: int)

  datatype DateTime = DateTime(date: Date, second: int)

  const DAY_SECONDS := 86400

  predicate Leap(year: int)
  {
    year % 4 == 0 && (year % 100 != 0 || year % 400 == 0)
  }

  function DaysInMonth(year: int, month: int): (days: int)
    ensures 28 <= days <= 31
  {
    if month == 2 then (if Leap(year) then 29 else 28)
    else if month == 4 || month == 6 || month == 9 || month == 11 then 30
    else 31
  }

  /** The lengths of the months, with February as in 1900, 2000, 2023 and 2024. */
  lemma MonthLengths(month: int)
    requires 1 <= month <= 12
    ensures DaysInMonth(2023, month) == [31, 28, 31, 30, 31, 30, 31, 31, 30, 31, 30, 31][month - 1]
    ensures DaysInMonth(1900, 2) == 28 && DaysInMonth(2000, 2) == 29 && DaysInMonth(2024, 2) == 29
    ensures forall year :: DaysInMonth(year, month) == DaysInMonth(2023, month) || (month == 2 && Leap(year))
  {
  }

  predicate ValidDate(d: Date)
  {
    d.year >= 1 && 1 <= d.month <= 12 && 1 <= d.day <= DaysInMonth(d.year, d.month)
  }

  predicate ValidDateTime(t: DateTime)
  {
    ValidDate(t.date) && 0 <= t.second < DAY_SECONDS
  }

  // ----- day numbers -----

  function DaysInYear(year: int): (days: int)
    ensures days == if Leap(year) then 366 else 365
  {
    if Leap(year) then 366 else 365
  }

  /** Days before the first of January of `year`, in closed form. */
  function DaysBeforeYear(year: int): int
  {
    var y := year - 1;
    365 * y + y / 4 - y / 100 + y / 400
  }

  /** Days of `year` before the first of `month`. */
  function DaysBeforeMonth(year: int, month: int): int
    requires 1 <= month <= 13
    decreases month
  {
    if month == 1 then 0 else DaysBeforeMonth(year, month - 1) + DaysInMonth(year, month - 1)
  }

  /** date.toordinal: 1 January of year 1 is day 1. */
  function Ordinal(d: Date): int
    requires ValidDate(d)
  {
    DaysBeforeYear(d.year) + DaysBeforeMonth(d.year, d.month) + d.day
  }

  function Seconds(t: DateTime): int
    requires ValidDateTime(t)
  {
    Ordinal(t.date) * DAY_SECONDS + t.second
  }

  lemma DaysOfAYear(year: int)
    ensures DaysBeforeYear(year + 1) == DaysBeforeYear(year) + DaysInYear(year)
  {
    assert year / 4 == (year - 1) / 4 + if year % 4 == 0 then 1 else 0;
    assert year / 100 == (year - 1) / 100 + if year % 100 == 0 then 1 else 0;
    assert year / 400 == (year - 1) / 400 + if year % 400 == 0 then 1 else 0;
  }

  /** Leap years repeat every 400 years, of which 97 are leap: an average year of 365.2425 days. */
  lemma GregorianCycle(year: int)
    ensures Leap(year + 400) <==> Leap(year)
    ensures DaysBeforeYear(year + 400) == DaysBeforeYear(year) + 400 * 365 + 97
  {
    assert (year + 399) / 4 == (year - 1) / 4 + 100;
    assert (year + 399) / 100 == (year - 1) / 100 + 4;
    assert (year + 399) / 400 == (year - 1) / 400 + 1;
  }

  lemma DaysOfTheMonths(year: int)
    ensures DaysBeforeMonth(year, 13) == DaysInYear(year)
  {
    assert DaysBeforeMonth(year, 4) == DaysInMonth(year, 1) + DaysInMonth(year, 2) + DaysInMonth(year, 3);
    assert DaysBeforeMonth(year, 7) == DaysBeforeMonth(year, 4) + 91;
    assert DaysBeforeMonth(year, 10) == DaysBeforeMonth(year, 7) + 92;
    assert DaysBeforeMonth(year, 13) == DaysBeforeMonth(year, 10) + 92;
  }

  lemma {:induction false} MonthsAscend(year: int, m: int, n: int)
    requires 1 <= m <= n <= 13
    ensures DaysBeforeMonth(year, m) + 28 * (n - m) <= DaysBeforeMonth(year, n)
    decreases n - m
  {
    if m == n {
    } else {
      MonthsAscend(year, m, n - 1);
    }
  }

  lemma {:induction false} YearsAscend(y: int, z: int)
    requires y <= z
    ensures DaysBeforeYear(y) + 365 * (z - y) <= DaysBeforeYear(z)
    decreases z - y
  {
    if y == z {
    } else {
      YearsAscend(y, z - 1);
      DaysOfAYear(z - 1);
    }
  }

  lemma WithinTheYear(d: Date)
    requires ValidDate(d)
    ensures DaysBeforeYear(d.year) < Ordinal(d) <= DaysBeforeYear(d.year + 1)
  {
    DaysOfAYear(d.year);
    DaysOfTheMonths(d.year);
    MonthsAscend(d.year, 1, d.month);
    MonthsAscend(d.year, d.month + 1, 13);
  }

  predicate Earlier(a: Date, b: Date)
  {
    a.year < b.year || (a.year == b.year && (a.month < b.month || (a.month == b.month && a.day < b.day)))
  }

  lemma EarlierYear(a: Date, b: Date)
    requires ValidDate(a) && ValidDate(b) && a.year < b.year
    ensures Ordinal(a) < Ordinal(b)
  {
    WithinTheYear(a);
    WithinTheYear(b);
    YearsAscend(a.year + 1, b.year);
  }

  lemma WithinTheMonths(a: Date, b: Date)
    requires ValidDate(a) && ValidDate(b) && a.year == b.year && Earlier(a, b)
    ensures DaysBeforeMonth(a.year, a.month) + a.day < DaysBeforeMonth(b.year, b.month) + b.day
  {
    if a.month < b.month {
      MonthsAscend(a.year, a.month + 1, b.month);
    }
  }

  /** Day numbers are ordered like the dates. */
  lemma OrdinalAscends(a: Date, b: Date)
    requires ValidDate(a) && ValidDate(b) && Earlier(a, b)
    ensures Ordinal(a) < Ordinal(b)
  {
    if a.year < b.year {
      EarlierYear(a, b);
    } else {
      WithinTheMonths(a, b);
    }
  }

  /** So different dates have different numbers. */
  lemma OrdinalDetermines(a: Date, b: Date)
    requires ValidDate(a) && ValidDate(b)
    ensures Ordinal(a) == Ordinal(b) <==> a == b
    ensures Ordinal(a) < Ordinal(b) <==> Earlier(a, b)
  {
    if Earlier(a, b) {
      OrdinalAscends(a, b);
    } else if Earlier(b, a) {
      OrdinalAscends(b, a);
    }
  }

  function YearOf(n: int, from: int): (year: int)
    requires from >= 1 && DaysBeforeYear(from) < n
    ensures year >= 1 && DaysBeforeYear(year) < n <= DaysBeforeYear(year + 1)
    decreases n - DaysBeforeYear(from)
  {
    DaysOfAYear(from);
    if n <= DaysBeforeYear(from + 1) then from else YearOf(n, from + 1)
  }

  function MonthOf(year: int, rest: int, from: int): (month: int)
    requires 1 <= from <= 12 && DaysBeforeMonth(year, from) < rest <= DaysBeforeMonth(year, 13)
    ensures 1 <= month <= 12 && DaysBeforeMonth(year, month) < rest <= DaysBeforeMonth(year, month + 1)
    decreases 13 - from
  {
    if rest <= DaysBeforeMonth(year, from + 1) then from else MonthOf(year, rest, from + 1)
  }

  /** date.fromordinal, as a walk over years and months. */
  function FromOrdinal(n: int): (d: Date)
    requires n >= 1
    ensures ValidDate(d) && Ordinal(d) == n
  {
    var year := YearOf(n, 1);
    var rest := n - DaysBeforeYear(year);
    DaysOfAYear(year);
    DaysOfTheMonths(year);
    var month := MonthOf(year, rest, 1);
    Date(year, month, rest - DaysBeforeMonth(year, month))
  }

  lemma FromOrdinalInverts(d: Date)
    requires ValidDate(d)
    ensures Ordinal(d) >= 1 && FromOrdinal(Ordinal(d)) == d
  {
    YearsAscend(1, d.year);
    MonthsAscend(d.year, 1, d.month);
    OrdinalDetermines(FromOrdinal(Ordinal(d)), d);
  }

  // ----- the code -----

  /** One second earlier; before the first second of year 1 there is an OverflowError. */
  function MinusOneSecond(t: DateTime): Option<DateTime>
    requires ValidDateTime(t)
  {
    if t.second > 0 then Some(t.(second := t.second - 1))
    else if Ordinal(t.date) <= 1 then None
    else Some(DateTime(FromOrdinal(Ordinal(t.date) - 1), DAY_SECONDS - 1))
  }

  predicate HasPreviousDay(d: Date)
  {
    d != Date(1, 1, 1)
  }

  lemma FirstDay(d: Date)
    requires ValidDate(d)
    ensures Ordinal(d) >= 1
    ensures HasPreviousDay(d) <==> Ordinal(d) > 1
  {
    YearsAscend(1, d.year);
    MonthsAscend(d.year, 1, d.month);
  }

  lemma MinusOneSecondMeans(t: DateTime)
    requires ValidDateTime(t)
    ensures MinusOneSecond(t).None? <==> t.second == 0 && !HasPreviousDay(t.date)
    ensures MinusOneSecond(t).Some? ==>
              ValidDateTime(MinusOneSecond(t).value) && Seconds(MinusOneSecond(t).value) == Seconds(t) - 1
  {
    FirstDay(t.date);
    if t.second == 0 && HasPreviousDay(t.date) {
      var before := FromOrdinal(Ordinal(t.date) - 1);
      assert Seconds(DateTime(before, DAY_SECONDS - 1)) == Ordinal(before) * DAY_SECONDS + DAY_SECONDS - 1;
    }
  }

  datatype Period = Period(start: DateTime, end: DateTime)

  function LastMonthPeriod(now: DateTime): Option<Period>
    requires ValidDateTime(now)
  {
    var firstOfThisMonth := DateTime(now.date.(day := 1), 0);
    match MinusOneSecond(firstOfThisMonth)
    case None => None
    case Some(lastMonthEnd) =>
      Some(Period(DateTime(lastMonthEnd.date.(day := 1), 0), lastMonthEnd.(second := 23 * 3600 + 59 * 60 + 59)))
  }

  // ----- what it means -----

  /** The year and month before those of d; the first month of year 1 has none. */
  function PreviousMonth(d: Date): (int, int)
  {
    if d.month == 1 then (d.year - 1, 12) else (d.year, d.month - 1)
  }

  predicate HasPreviousMonth(d: Date)
  {
    d.year > 1 || d.month > 1
  }

  lemma DayBeforeTheFirst(d: Date)
    requires ValidDate(d) && d.day == 1 && HasPreviousMonth(d)
    ensures var (year, month) := PreviousMonth(d);
            var last := Date(year, month, DaysInMonth(year, month));
            ValidDate(last) && Ordinal(last) == Ordinal(d) - 1
  {
    if d.month == 1 {
      DaysOfAYear(d.year - 1);
      DaysOfTheMonths(d.year - 1);
    }
  }

  lemma SecondBeforeTheFirst(d: Date)
    requires ValidDate(d) && d.day == 1
    ensures MinusOneSecond(DateTime(d, 0)).None? <==> !HasPreviousMonth(d)
    ensures HasPreviousMonth(d) ==>
              var (year, month) := PreviousMonth(d);
              var last := Date(year, month, DaysInMonth(year, month));
              ValidDate(last) && MinusOneSecond(DateTime(d, 0)) == Some(DateTime(last, DAY_SECONDS - 1))
  {
    MinusOneSecondMeans(DateTime(d, 0));
    if HasPreviousMonth(d) {
      var (year, month) := PreviousMonth(d);
      DayBeforeTheFirst(d);
      OrdinalDetermines(Date(year, month, DaysInMonth(year, month)), MinusOneSecond(DateTime(d, 0)).value.date);
    }
  }

  /** For every now, in any month and leap or not: from 00:00:00 on the first day to 23:59:59 on the
      last day of the month before, which is one second before this month begins.  Only in the
      first month of year 1 there is no such period. */
  lemma PeriodIsThePreviousMonth(now: DateTime)
    requires ValidDateTime(now)
    ensures LastMonthPeriod(now).None? <==> !HasPreviousMonth(now.date)
    ensures HasPreviousMonth(now.date) ==>
              var (year, month) := PreviousMonth(now.date);
              var period := LastMonthPeriod(now).value;
              && period.start == DateTime(Date(year, month, 1), 0)
              && period.end == DateTime(Date(year, month, DaysInMonth(year, month)), DAY_SECONDS - 1)
              && ValidDateTime(period.start) && ValidDateTime(period.end)
              && Seconds(period.end) + 1 == Seconds(DateTime(now.date.(day := 1), 0))
  {
    var first := now.date.(day := 1);
    SecondBeforeTheFirst(first);
    if HasPreviousMonth(first) {
      DayBeforeTheFirst(first);
    }
  }

  lemma SecondsAscend(a: DateTime, b: DateTime)
    requires ValidDateTime(a) && ValidDateTime(b)
    ensures Seconds(a) <= Seconds(b) <==> Earlier(a.date, b.date) || (a.date == b.date && a.second <= b.second)
  {
    OrdinalDetermines(a.date, b.date);
  }

  /** The periods tile the calendar: a second belongs to the period computed at `now` if and only if
      its month is the one before the month of `now`. */
  lemma PeriodsTileTheCalendar(now: DateTime, t: DateTime)
    requires ValidDateTime(now) && ValidDateTime(t) && HasPreviousMonth(now.date)
    ensures LastMonthPeriod(now).Some?
    ensures var period := LastMonthPeriod(now).value;
            && ValidDateTime(period.start) && ValidDateTime(period.end)
            && (Seconds(period.start) <= Seconds(t) <= Seconds(period.end)
                <==> (t.date.year, t.date.month) == PreviousMonth(now.date))
  {
    PeriodIsThePreviousMonth(now);
    var period := LastMonthPeriod(now).value;
    SecondsAscend(period.start, t);
    SecondsAscend(t, period.end);
  }

  /** The period computed in one month ends one second before the next month's period starts. */
  lemma ConsecutivePeriodsMeet(now: DateTime, later: DateTime)
    requires ValidDateTime(now) && ValidDateTime(later) && HasPreviousMonth(now.date)
    requires PreviousMonth(later.date) == (now.date.year, now.date.month)
    ensures LastMonthPeriod(now).Some? && LastMonthPeriod(later).Some?
    ensures var (earlier, next) := (LastMonthPeriod(now).value, LastMonthPeriod(later).value);
            && ValidDateTime(earlier.end) && ValidDateTime(next.start)
            && Seconds(earlier.end) + 1 == Seconds(next.start)
  {
    PeriodIsThePreviousMonth(now);
    PeriodIsThePreviousMonth(later);
  }
}

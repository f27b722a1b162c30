/** The budget windows in terms of dates: year, month and day of the Gregorian calendar. */
module CivilDate {
  import opened Calendar

  datatype Date = Date(year: nat, month: nat, day: nat)

  /** The days of a month, January being 1. */
  predicate HasDay(year: nat, month: nat, day: nat) {
    && year >= 1 && 1 <= month <= 12 && day >= 1
    && (month == 4 || month == 6 || month == 9 || month == 11 ==> day <= 30)
    && (month == 2 ==> day <= (if year % 400 == 0 || (year % 4 == 0 && year % 100 != 0) then 29 else 28))
    && day <= 31
  }

  predicate Real(d: Date) {
    HasDay(d.year, d.month, d.day)
  }

  predicate Before(a: Date, b: Date) {
    a.year < b.year || (a.year == b.year && (a.month < b.month || (a.month == b.month && a.day < b.day)))
  }

  /** The day after. */
  function Tomorrow(d: Date): Date {
    if HasDay(d.year, d.month, d.day + 1) then d.(day := d.day + 1)
    else if d.month < 12 then Date(d.year, d.month + 1, 1)
    else Date(d.year + 1, 1, 1)
  }

  /** The date `n` days after 1 January of year 1. */
  function DateOf(n: nat): (d: Date)
    ensures Real(d)
  {
    if n == 0 then Date(1, 1, 1) else Tomorrow(DateOf(n - 1))
  }

  /** The date of an instant. */
  function Today(now: Time): Date
    requires 0 <= now
  {
    DateOf(now / 86400)
  }

  // ---- Dates and the calendar's months ----

  /** The month that `d` lies in, counted from the first. */
  function MonthOf(d: Date): int {
    12 * (d.year - 1) + d.month - 1
  }

  lemma YearOfMonth(m: nat, d: Date)
    requires Real(d) && MonthOf(d) == m
    ensures d.year == 1 + m / 12 && d.month == 1 + m % 12
    ensures forall day: nat :: HasDay(d.year, d.month, day) <==> 1 <= day <= DaysIn(1 + m / 12, m % 12)
  {
  }

  /** The day after stays in the month exactly until the month is full. */
  lemma TomorrowsMonth(d: Date, m: nat)
    requires Real(d) && MonthOf(d) == m
    ensures Real(Tomorrow(d)) && 1 <= d.day <= DaysIn(1 + m / 12, m % 12)
    ensures if d.day < DaysIn(1 + m / 12, m % 12) then MonthOf(Tomorrow(d)) == m && Tomorrow(d).day == d.day + 1
            else MonthOf(Tomorrow(d)) == m + 1 && Tomorrow(d).day == 1
  {
    YearOfMonth(m, d);
  }

  /** Day `n` has the date `d`, by the month table. */
  ghost predicate Tabled(n: nat, d: Date, m: nat) {
    Real(d) && MonthOf(d) == m && FirstOfMonth(m) + d.day - 1 == n && n < FirstOfMonth(m + 1)
  }

  /** Whatever the days on which this month, the next and the one after begin. */
  lemma TomorrowFits(n: nat, d: Date, m: nat, here: nat, next: nat, after: nat)
    requires Real(d) && MonthOf(d) == m && here + d.day - 1 == n < next
    requires next == here + DaysIn(1 + m / 12, m % 12) && next < after
    ensures Real(Tomorrow(d))
    ensures || (MonthOf(Tomorrow(d)) == m && here + Tomorrow(d).day - 1 == n + 1 < next)
            || (MonthOf(Tomorrow(d)) == m + 1 && next + Tomorrow(d).day - 1 == n + 1 < after)
  {
    TomorrowsMonth(d, m);
  }

  lemma TabledTomorrow(n: nat, d: Date, m: nat) returns (m': nat)
    requires Tabled(n, d, m)
    ensures Tabled(n + 1, Tomorrow(d), m')
  {
    NextMonth(m);
    MonthsAscend(m + 1, m + 2);
    TomorrowFits(n, d, m, FirstOfMonth(m), FirstOfMonth(m + 1), FirstOfMonth(m + 2));
    m' := MonthOf(Tomorrow(d));
    if m' == m {
      assert Tabled(n + 1, Tomorrow(d), m);
    } else {
      assert Tabled(n + 1, Tomorrow(d), m + 1);
    }
  }

  lemma NextMonth(m: nat)
    ensures FirstOfMonth(m + 1) == FirstOfMonth(m) + DaysIn(1 + m / 12, m % 12)
  {
  }

  /** Counting days one by one is what the month table does at once. */
  lemma {:induction false} DateInMonth(n: nat) returns (m: nat)
    ensures Tabled(n, DateOf(n), m)
  {
    if n == 0 {
      NextMonth(0);
      m := 0;
    } else {
      m := DateInMonth(n - 1);
      m := TabledTomorrow(n - 1, DateOf(n - 1), m);
    }
  }

  /** A day lies in one month only. */
  lemma OneMonth(n: nat, i: nat, j: nat)
    requires FirstOfMonth(i) <= n < FirstOfMonth(i + 1) && FirstOfMonth(j) <= n < FirstOfMonth(j + 1)
    ensures i == j
  {
    if i < j { MonthsAscend(i + 1, j); }
    if j < i { MonthsAscend(j + 1, i); }
  }

  lemma MonthFromIs(n: nat)
    ensures MonthFrom(n, 0) == MonthOf(DateOf(n))
  {
    var m := DateInMonth(n);
    OneMonth(n, MonthFrom(n, 0), m);
  }

  /** The first day of a date's month. */
  lemma FirstDay(n: nat, m: nat)
    requires Tabled(n, DateOf(n), m)
    ensures FirstOfMonth(m) <= n && DateOf(FirstOfMonth(m)) == DateOf(n).(day := 1)
  {
    var first := FirstOfMonth(m);
    var i := DateInMonth(first);
    MonthsAscend(m, m + 1);
    OneMonth(first, i, m);
    YearOfMonth(m, DateOf(n));
    YearOfMonth(m, DateOf(first));
  }

  // ---- Main results ----

  /** Each day has a date of its own, and later days have later dates. */
  lemma {:induction false} DatesAscend(a: nat, b: nat)
    requires a < b
    ensures Before(DateOf(a), DateOf(b))
    decreases b - a
  {
    if a < b - 1 { DatesAscend(a, b - 1); }
  }

  /** A monthly window begins at midnight of day 1 of the year and month it is. */
  lemma MonthStartsOnDayOne(now: Time)
    requires 0 <= now
    ensures var start := PeriodStart(Monthly, now);
            && 0 <= start <= now && start % 86400 == 0
            && Today(start) == Today(now).(day := 1)
  {
    var n := now / 86400;
    var m := DateInMonth(n);
    FirstDay(n, m);
    MonthFromIs(n);
    DayStart(FirstOfMonth(m));
  }

  /** Two instants share a monthly window exactly when their year and month agree. */
  lemma SameMonthIff(a: Time, b: Time)
    requires 0 <= a && 0 <= b
    ensures PeriodStart(Monthly, a) == PeriodStart(Monthly, b) <==>
            Today(a).year == Today(b).year && Today(a).month == Today(b).month
  {
    MonthFromIs(a / 86400);
    MonthFromIs(b / 86400);
    SameStartIff(MonthOf(Today(a)), MonthOf(Today(b)));
    SameMonthOfIff(Today(a), Today(b));
  }

  lemma SameStartIff(i: nat, j: nat)
    ensures FirstOfMonth(i) * 86400 == FirstOfMonth(j) * 86400 <==> i == j
  {
    if i < j { MonthsAscend(i, j); }
    if j < i { MonthsAscend(j, i); }
  }

  lemma SameMonthOfIff(a: Date, b: Date)
    requires Real(a) && Real(b)
    ensures MonthOf(a) == MonthOf(b) <==> a.year == b.year && a.month == b.month
  {
  }

  /** What was settled up to now lies in the monthly window exactly when it was in this year and month. */
  lemma InMonthIff(at: Time, now: Time)
    requires 0 <= at <= now
    ensures PeriodStart(Monthly, now) <= at <==> Today(at).year == Today(now).year && Today(at).month == Today(now).month
  {
    SameMonthIff(at, now);
    WindowsAdvance(Monthly, at, now);
    WindowHoldsNow(Monthly, at);
    MonthStartsOnDayOne(now);
    if PeriodStart(Monthly, now) <= at {
      WindowsAdvance(Monthly, PeriodStart(Monthly, now), at);
      SameMonthIff(PeriodStart(Monthly, now), now);
    }
  }

  /** A daily window begins at midnight of the same date. */
  lemma DayStartsToday(now: Time)
    requires 0 <= now
    ensures var start := PeriodStart(Daily, now); 0 <= start <= now && start % 86400 == 0 && Today(start) == Today(now)
  {
    DayStart(now / 86400);
  }

  lemma MonthStep(y: nat, k: nat)
    requires k < 12
    ensures FirstOfMonth(12 * y + k + 1) == FirstOfMonth(12 * y + k) + DaysIn(1 + y, k)
  {
    assert (12 * y + k) / 12 == y && (12 * y + k) % 12 == k;
  }

  /** The first `n` months of the year after `y` years. */
  lemma MonthSteps(y: nat, first: nat, a: nat, b: nat, c: nat, d: nat)
    requires first <= 8 && a == DaysIn(1 + y, first) && b == DaysIn(1 + y, first + 1)
    requires c == DaysIn(1 + y, first + 2) && d == DaysIn(1 + y, first + 3)
    ensures FirstOfMonth(12 * y + first + 4) == FirstOfMonth(12 * y + first) + a + b + c + d
  {
    MonthStep(y, first);
    MonthStep(y, first + 1);
    MonthStep(y, first + 2);
    MonthStep(y, first + 3);
  }

  predicate LeapYear(year: nat) {
    year % 400 == 0 || (year % 4 == 0 && year % 100 != 0)
  }

  /** Twelve months are 365 days, or 366 in a leap year. */
  lemma YearLength(y: nat)
    ensures FirstOfMonth(12 * y + 12) == FirstOfMonth(12 * y) + (if LeapYear(1 + y) then 366 else 365)
  {
    MonthSteps(y, 0, 31, if LeapYear(1 + y) then 29 else 28, 31, 30);
    MonthSteps(y, 4, 31, 30, 31, 31);
    MonthSteps(y, 8, 30, 31, 30, 31);
  }

  lemma LeapDay(y: nat)
    requires y >= 1
    ensures y / 4 - y / 100 + y / 400 == (y - 1) / 4 - (y - 1) / 100 + (y - 1) / 400 + (if LeapYear(y) then 1 else 0)
  {
    FourthYear(y);
    HundredthYear(y);
    CenturiesAreFourths(y);
  }

  lemma CenturiesAreFourths(y: nat)
    ensures y % 400 == 0 ==> y % 100 == 0
    ensures y % 100 == 0 ==> y % 4 == 0
  {
    if y % 400 == 0 { Multiple(y, 4 * (y / 400), 100); }
    if y % 100 == 0 { Multiple(y, 25 * (y / 100), 4); }
  }

  lemma Multiple(y: nat, q: nat, n: nat)
    requires n in {4, 100} && y == q * n
    ensures y % n == 0
  {
  }

  lemma FourthYear(y: nat)
    requires y >= 1
    ensures y / 4 == (y - 1) / 4 + (if y % 4 == 0 then 1 else 0)
  {
  }

  lemma HundredthYear(y: nat)
    requires y >= 1
    ensures y / 100 == (y - 1) / 100 + (if y % 100 == 0 then 1 else 0)
    ensures y / 400 == (y - 1) / 400 + (if y % 400 == 0 then 1 else 0)
  {
  }

  /** Years in closed form; 400 of them are 146097 days. */
  lemma {:induction false} YearsBefore(y: nat, months: nat)
    requires months == 12 * y
    ensures FirstOfMonth(months) == 365 * y + y / 4 - y / 100 + y / 400
    decreases y
  {
    if y > 0 {
      YearsBefore(y - 1, months - 12);
      YearLength(y - 1);
      LeapDay(y);
    }
  }

  lemma FourCenturies(y: nat)
    ensures FirstOfMonth(12 * (y + 400)) == FirstOfMonth(12 * y) + 146097
  {
    YearsBefore(y, 12 * y);
    YearsBefore(y + 400, 12 * (y + 400));
  }

  lemma NewYearsDay(y: nat, n: nat)
    requires DateOf(n) == Date(1 + y, 1, 1)
    ensures n == 365 * y + y / 4 - y / 100 + y / 400
  {
    var m := DateInMonth(n);
    YearsBefore(y, m);
  }

  /** 1 January 1970 was a Thursday. */
  lemma ThursdayIn1970(n: nat)
    requires DateOf(n) == Date(1970, 1, 1)
    ensures Weekday(n) == 4
  {
    NewYearsDay(1969, n);
  }

  /** And every day is the weekday after the one before. */
  lemma WeekdaysGoOn(day: nat)
    ensures Weekday(day + 1) == (Weekday(day) + 1) % 7
  {
  }
}

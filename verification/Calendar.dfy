/** The budget windows: where the day, ISO week or month of an instant began, in UTC. */
module Calendar {

  /** Seconds since 0001-01-01T00:00:00Z, the zero value of a time. */
  type Time = int

  /** Any other period has no window: everything since the zero time counts. */
  datatype Period = Daily | Weekly | Monthly | Other

  const DAY := 86400

  function DayOf(now: Time): int {
    now / DAY
  }

  /** time.Weekday: Sunday is 0; 0001-01-01 was a Monday. */
  function Weekday(day: int): nat {
    (day + 1) % 7
  }

  predicate Leap(year: nat) {
    year % 4 == 0 && (year % 100 != 0 || year % 400 == 0)
  }

  /** The length of month `m` (January is 0). */
  function DaysIn(year: nat, m: nat): (d: nat)
    requires m < 12
    ensures 28 <= d <= 31
  {
    if m == 1 then (if Leap(year) then 29 else 28)
    else if m in {3, 5, 8, 10} then 30
    else 31
  }

  /** The day on which the `i`-th month since January of year 1 begins. */
  function FirstOfMonth(i: nat): (d: nat) {
    if i == 0 then 0 else FirstOfMonth(i - 1) + DaysIn(1 + (i - 1) / 12, (i - 1) % 12)
  }

  /** The month a day lies in, searched from month `i` on. */
  function MonthFrom(day: nat, i: nat): (m: nat)
    requires FirstOfMonth(i) <= day
    ensures FirstOfMonth(m) <= day < FirstOfMonth(m + 1)
    decreases day - FirstOfMonth(i)
  {
    if day < FirstOfMonth(i + 1) then i else MonthFrom(day, i + 1)
  }

  /** Where the window of `period` around `now` began. */
  function PeriodStart(period: Period, now: Time): Time
    requires 0 <= now
  {
    match period
    case Daily => DayOf(now) * DAY
    case Weekly => (DayOf(now) - (Weekday(DayOf(now)) + 6) % 7) * DAY
    case Monthly => FirstOfMonth(MonthFrom(DayOf(now), 0)) * DAY
    case Other => 0
  }

  lemma {:induction false} MonthsAscend(i: nat, j: nat)
    requires i <= j
    ensures FirstOfMonth(i) + 28 * (j - i) <= FirstOfMonth(j)
    decreases j - i
  {
    if i < j { MonthsAscend(i, j - 1); }
  }

  /** The Monday on or before a day. */
  lemma MondayBefore(d: int)
    ensures var start := d - (Weekday(d) + 6) % 7;
            start <= d < start + 7 && Weekday(start) == 1
  {
  }

  lemma DayHolds(now: Time)
    ensures DayOf(now) * DAY <= now < DayOf(now) * DAY + DAY
  {
  }

  lemma DayStart(d: int)
    ensures DayOf(d * DAY) == d && (d * DAY) % DAY == 0
  {
  }

  /** A window holds its instant, and a week begins on a Monday. */
  lemma WindowHoldsNow(period: Period, now: Time)
    requires 0 <= now
    ensures PeriodStart(period, now) <= now
    ensures PeriodStart(period, now) % DAY == 0
    ensures period == Weekly ==> Weekday(DayOf(PeriodStart(period, now))) == 1 && now < PeriodStart(period, now) + 7 * DAY
    ensures period == Daily ==> now < PeriodStart(period, now) + DAY
    ensures period == Monthly ==> now < PeriodStart(period, now) + 31 * DAY
  {
    DayHolds(now);
    match period
    case Daily => DayStart(DayOf(now));
    case Weekly =>
      MondayBefore(DayOf(now));
      DayStart(DayOf(now) - (Weekday(DayOf(now)) + 6) % 7);
    case Monthly => DayStart(FirstOfMonth(MonthFrom(DayOf(now), 0)));
    case Other =>
  }

  lemma SameWeekday(a: int, b: int)
    requires Weekday(a) == Weekday(b) && a < b + 7
    ensures a <= b
  {
    assert a + 1 == 7 * ((a + 1) / 7) + (a + 1) % 7;
    assert b + 1 == 7 * ((b + 1) / 7) + (b + 1) % 7;
  }

  lemma MondaysAdvance(d: int, e: int)
    requires d <= e
    ensures d - (Weekday(d) + 6) % 7 <= e - (Weekday(e) + 6) % 7
  {
    // A Monday on or before d is one on or before e.
    MondayBefore(d);
    MondayBefore(e);
    SameWeekday(d - (Weekday(d) + 6) % 7, e - (Weekday(e) + 6) % 7);
  }

  lemma MonthStartsAdvance(d: nat, e: nat)
    requires d <= e
    ensures FirstOfMonth(MonthFrom(d, 0)) <= FirstOfMonth(MonthFrom(e, 0))
  {
    var m, n := MonthFrom(d, 0), MonthFrom(e, 0);
    if n < m { MonthsAscend(n + 1, m); } else { MonthsAscend(m, n); }
  }

  /** Windows only ever move forward. */
  lemma WindowsAdvance(period: Period, now: Time, later: Time)
    requires 0 <= now <= later
    ensures PeriodStart(period, now) <= PeriodStart(period, later)
  {
    var d, e := DayOf(now), DayOf(later);
    DayHolds(now);
    DayHolds(later);
    assert 0 <= d <= e;
    match period
    case Daily =>
    case Weekly => MondaysAdvance(d, e);
    case Monthly => MonthStartsAdvance(d, e);
    case Other =>
  }
}

/**
 * Dates and times. A calendar day is a proleptic Gregorian ordinal as Python's
 * `date.toordinal()` numbers it (day 1 is Monday 0001-01-01); a timestamp is a
 * day plus the second within that day.
 */
module Calendar {

  const SecondsPerDay: nat := 86400

  /** A civil date `datetime(year, month, day)`. */
  datatype Date = Date(year: int, month: int, day: int)

  /** A `datetime` without microseconds: a day ordinal and the second of that day. */
  datatype DateTime = DateTime(day: int, second: nat)

  predicate IsLeap(y: int) {
    y % 4 == 0 && (y % 100 != 0 || y % 400 == 0)
  }

  function DaysInMonth(y: int, m: int): (n: int)
    requires 1 <= m <= 12
    ensures 28 <= n <= 31
    ensures n == 29 <==> m == 2 && IsLeap(y)
  {
    if m == 2 then (if IsLeap(y) then 29 else 28)
    else if m == 4 || m == 6 || m == 9 || m == 11 then 30
    else 31
  }

  /** The civil date exists in the proleptic Gregorian calendar, years 1..9999 as in Python. */
  predicate ValidDate(d: Date) {
    1 <= d.year <= 9999 && 1 <= d.month <= 12 && 1 <= d.day <= DaysInMonth(d.year, d.month)
  }

  /** Days in the years before year `y` (Python's `_days_before_year`). */
  function DaysBeforeYear(y: int): int
    requires y >= 1
  {
    var p := y - 1;
    p * 365 + p / 4 - p / 100 + p / 400
  }

  /** Days in the months of year `y` before month `m` (Python's `_days_before_month`). */
  function DaysBeforeMonth(y: int, m: int): (n: nat)
    requires 1 <= m <= 12
    decreases m
  {
    if m == 1 then 0 else DaysBeforeMonth(y, m - 1) + DaysInMonth(y, m - 1)
  }

  /** `date.toordinal()`. */
  function Ordinal(d: Date): (n: int)
    requires ValidDate(d)
    ensures n >= 1
  {
    DaysBeforeYear(d.year) + DaysBeforeMonth(d.year, d.month) + d.day
  }

  /** Python's `weekday()`: Monday is 0 and Sunday is 6. */
  function Weekday(day: int): (w: int)
    ensures 0 <= w <= 6
  {
    (day + 6) % 7
  }

  /** MySQL's `DAYOFWEEK()`: Sunday is 1, Monday is 2, ..., Saturday is 7. */
  function DayOfWeekSql(day: int): (w: int)
    ensures 1 <= w <= 7
  {
    day % 7 + 1
  }

  /** The two numberings, converted: `DAYOFWEEK = (weekday() + 1) % 7 + 1`. */
  lemma DayOfWeekFromWeekday(day: int)
    ensures DayOfWeekSql(day) == (Weekday(day) + 1) % 7 + 1
    ensures Weekday(day) == (DayOfWeekSql(day) + 5) % 7
  {
  }

  /** `datetime` comparison `a <= b`. */
  predicate AtOrBefore(a: DateTime, b: DateTime) {
    a.day < b.day || (a.day == b.day && a.second <= b.second)
  }

  /** `datetime` comparison `a < b`. */
  predicate Before(a: DateTime, b: DateTime) {
    a.day < b.day || (a.day == b.day && a.second < b.second)
  }

  /** `datetime.combine(date, time(hour, minute))`. */
  function Combine(day: int, hour: nat, minute: nat): (t: DateTime)
    requires hour < 24 && minute < 60
    ensures t.day == day && 0 <= t.second < SecondsPerDay
    ensures t.second / 3600 == hour && t.second % 3600 / 60 == minute
  {
    DateTime(day, hour * 3600 + minute * 60)
  }
}

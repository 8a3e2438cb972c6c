/** Proleptic Gregorian dates and times, as Python's `datetime` represents them. */
module Calendar {
  datatype Date = Date(year: int, month: int, day: int)
  datatype Time = Time(hour: int, minute: int, second: int)
  datatype DateTime = DateTime(date: Date, time: Time)

  const Midnight := Time(0, 0, 0)

  predicate IsLeap(y: int)
  {
    y % 4 == 0 && (y % 100 != 0 || y % 400 == 0)
  }

  function DaysInMonth(y: int, m: int): (n: int)
    requires 1 <= m <= 12
    ensures 28 <= n <= 31
  {
    if m == 2 then (if IsLeap(y) then 29 else 28)
    else if m == 4 || m == 6 || m == 9 || m == 11 then 30
    else 31
  }

  /** The range `datetime.date` accepts. */
  predicate ValidDate(d: Date)
  {
    1 <= d.year <= 9999 && 1 <= d.month <= 12 && 1 <= d.day <= DaysInMonth(d.year, d.month)
  }

  predicate ValidTime(t: Time)
  {
    0 <= t.hour <= 23 && 0 <= t.minute <= 59 && 0 <= t.second <= 59
  }

  predicate Valid(dt: DateTime)
  {
    ValidDate(dt.date) && ValidTime(dt.time)
  }

  const MonthNames: seq<string> := ["January", "February", "March", "April", "May", "June", "July",
                                    "August", "September", "October", "November", "December"]
  const WeekdayNames: seq<string> := ["Monday", "Tuesday", "Wednesday", "Thursday", "Friday",
                                      "Saturday", "Sunday"]

  /** Days from 1970-01-01 to `d` (negative before it). */
  function DaysFromCivil(d: Date): int
    requires 1 <= d.month <= 12
  {
    var y := if d.month <= 2 then d.year - 1 else d.year;
    var era := y / 400;
    var yoe := y - era * 400;
    var mp := if d.month > 2 then d.month - 3 else d.month + 9;
    var doy := (153 * mp + 2) / 5 + d.day - 1;
    var doe := yoe * 365 + yoe / 4 - yoe / 100 + doy;
    era * 146097 + doe - 719468
  }

  /** `date.weekday()`: Monday is 0 and Sunday is 6. */
  function Weekday(d: Date): (w: int)
    requires 1 <= d.month <= 12
    ensures 0 <= w < 7
  {
    (DaysFromCivil(d) + 3) % 7
  }

  /** Seconds since 1970-01-01T00:00:00 on the wall-clock scale of `dt`. */
  function EpochSeconds(dt: DateTime): int
    requires 1 <= dt.date.month <= 12
  {
    DaysFromCivil(dt.date) * 86400 + dt.time.hour * 3600 + dt.time.minute * 60 + dt.time.second
  }

  /** `datetime.combine(d, t)` */
  function Combine(d: Date, t: Time): DateTime
  {
    DateTime(d, t)
  }

  /** Python's ordering of naive datetimes: field by field, most significant first. */
  predicate Before(a: DateTime, b: DateTime)
  {
    if a.date.year != b.date.year then a.date.year < b.date.year
    else if a.date.month != b.date.month then a.date.month < b.date.month
    else if a.date.day != b.date.day then a.date.day < b.date.day
    else if a.time.hour != b.time.hour then a.time.hour < b.time.hour
    else if a.time.minute != b.time.minute then a.time.minute < b.time.minute
    else a.time.second < b.time.second
  }

  /** The epoch is day 0, a Thursday. */
  lemma DaysFromCivilEpoch()
    ensures DaysFromCivil(Date(1970, 1, 1)) == 0
    ensures Weekday(Date(1970, 1, 1)) == 3
  {
  }
}

/**
 * The local calendar used by `new Date(dt * 1000)`: `getHours()`, `getDate()` and
 * `toLocaleDateString()` all read the host's time zone, which the model fixes as a
 * constant UTC offset.
 */
module Calendar {

  const SecondsPerHour: int := 3600
  const SecondsPerDay: int := 86400

  /** The host's time zone, as seconds east of UTC. */
  datatype Zone = Zone(offsetSeconds: int)

  /** A calendar date in the proleptic Gregorian calendar. */
  datatype Date = Date(year: int, month: int, day: int)

  /** Seconds since the Unix epoch, shifted into the local zone. */
  function LocalSeconds(zone: Zone, dt: int): int
  {
    dt + zone.offsetSeconds
  }

  /** Days since 1970-01-01 in the local zone (floor division, also before 1970). */
  function DayNumber(zone: Zone, dt: int): int
  {
    LocalSeconds(zone, dt) / SecondsPerDay
  }

  /** `new Date(dt * 1000).getHours()`. */
  function HourOf(zone: Zone, dt: int): (h: int)
    ensures 0 <= h < 24
    ensures DayNumber(zone, dt) * SecondsPerDay + h * SecondsPerHour
            <= LocalSeconds(zone, dt)
            < DayNumber(zone, dt) * SecondsPerDay + (h + 1) * SecondsPerHour
  {
    (LocalSeconds(zone, dt) % SecondsPerDay) / SecondsPerHour
  }

  /** Leap years of the Gregorian calendar. */
  predicate IsLeapYear(year: int)
  {
    year % 4 == 0 && (year % 100 != 0 || year % 400 == 0)
  }

  function DaysInYear(year: int): int
  {
    if IsLeapYear(year) then 366 else 365
  }

  /** The length of month `month` (1 = January) of `year`. */
  function DaysInMonth(year: int, month: int): int
  {
    if month == 2 then (if IsLeapYear(year) then 29 else 28)
    else if month == 4 || month == 6 || month == 9 || month == 11 then 30
    else 31
  }

  /** The days of `year` before the first day of `month`. */
  function DaysBeforeMonth(year: int, month: int): int
    decreases month
  {
    if month <= 1 then 0 else DaysBeforeMonth(year, month - 1) + DaysInMonth(year, month - 1)
  }

  /** The date `days` days after the first day of `month` in `year`, within that year. */
  function MonthAndDay(year: int, month: int, days: nat): Date
    requires 1 <= month <= 12
    decreases 12 - month
  {
    if month < 12 && days >= DaysInMonth(year, month) then
      MonthAndDay(year, month + 1, days - DaysInMonth(year, month))
    else
      Date(year, month, days + 1)
  }

  /** The date `days` days after 1 January of `year`; `days` may be negative. */
  function DateFrom(year: int, days: int): Date
    decreases if days < 0 then 400 - days else days
  {
    if days < 0 then DateFrom(year - 1, days + DaysInYear(year - 1))
    else if days >= DaysInYear(year) then DateFrom(year + 1, days - DaysInYear(year))
    else MonthAndDay(year, 1, days)
  }

  /** The civil date of a day number (days since 1970-01-01). */
  function CivilFromDays(days: int): Date
  {
    DateFrom(1970, days)
  }

  /** Days from 1970-01-01 to 1 January of `year`. */
  function YearStart(year: int): int
    decreases if year < 1970 then 1970 - year else year - 1970
  {
    if year == 1970 then 0
    else if year > 1970 then YearStart(year - 1) + DaysInYear(year - 1)
    else YearStart(year + 1) - DaysInYear(year)
  }

  /** The day number of a date, counted back from its year, month and day. */
  function DaysFromCivil(d: Date): int
  {
    YearStart(d.year) + DaysBeforeMonth(d.year, d.month) + d.day - 1
  }

  /**
   * The local calendar date of `dt`, the value `toLocaleDateString()` renders: a valid
   * date from which the local day number can be recovered, so different local days
   * have different dates.
   */
  function LocalDate(zone: Zone, dt: int): (d: Date)
    ensures ValidDate(d)
    ensures DaysFromCivil(d) == DayNumber(zone, dt)
  {
    DateFromValid(1970, DayNumber(zone, dt));
    DateFromInverse(1970, DayNumber(zone, dt));
    CivilFromDays(DayNumber(zone, dt))
  }

  /** `new Date(dt * 1000).getDate()`: a day of the month, 1 to 31. */
  function DayOfMonth(zone: Zone, dt: int): (d: int)
    ensures 1 <= d <= 31
  {
    LocalDate(zone, dt).day
  }

  /** A date is valid when its month is 1..12 and its day lies within that month. */
  predicate ValidDate(d: Date)
  {
    1 <= d.month <= 12 && 1 <= d.day <= DaysInMonth(d.year, d.month)
  }

  lemma {:induction false} MonthAndDayValid(year: int, month: int, days: nat)
    requires 1 <= month <= 12
    requires days < DaysInYear(year) - DaysBeforeMonth(year, month)
    ensures ValidDate(MonthAndDay(year, month, days))
    ensures MonthAndDay(year, month, days).year == year
    decreases 12 - month
  {
    if month < 12 && days >= DaysInMonth(year, month) {
      MonthAndDayValid(year, month + 1, days - DaysInMonth(year, month));
    }
  }

  /** Every day number names a valid date: `getDate()` is between 1 and the month's length. */
  lemma {:induction false} DateFromValid(year: int, days: int)
    ensures ValidDate(DateFrom(year, days))
    decreases if days < 0 then 400 - days else days
  {
    if days < 0 {
      DateFromValid(year - 1, days + DaysInYear(year - 1));
    } else if days >= DaysInYear(year) {
      DateFromValid(year + 1, days - DaysInYear(year));
    } else {
      MonthAndDayValid(year, 1, days);
    }
  }

  lemma YearStartStep(year: int)
    ensures YearStart(year + 1) == YearStart(year) + DaysInYear(year)
  {
  }

  lemma {:induction false} MonthAndDayInverse(year: int, month: int, days: nat)
    requires 1 <= month <= 12
    ensures MonthAndDay(year, month, days).year == year
    ensures DaysBeforeMonth(year, MonthAndDay(year, month, days).month) + MonthAndDay(year, month, days).day - 1
            == DaysBeforeMonth(year, month) + days
    decreases 12 - month
  {
    if month < 12 && days >= DaysInMonth(year, month) {
      MonthAndDayInverse(year, month + 1, days - DaysInMonth(year, month));
    }
  }

  /** Counting `days` from 1 January of `year` and counting back gives the same day number. */
  lemma {:induction false} DateFromInverse(year: int, days: int)
    ensures DaysFromCivil(DateFrom(year, days)) == YearStart(year) + days
    decreases if days < 0 then 400 - days else days
  {
    if days < 0 {
      DateFromInverse(year - 1, days + DaysInYear(year - 1));
      YearStartStep(year - 1);
    } else if days >= DaysInYear(year) {
      DateFromInverse(year + 1, days - DaysInYear(year));
      YearStartStep(year);
    } else {
      MonthAndDayInverse(year, 1, days);
    }
  }

  /** `DaysFromCivil` undoes `CivilFromDays`: no two day numbers share a date. */
  lemma CivilFromDaysInverse(days: int)
    ensures DaysFromCivil(CivilFromDays(days)) == days
  {
    DateFromInverse(1970, days);
  }

  /** Instants on different local days have different local dates. */
  lemma LocalDatesDiffer(zone: Zone, a: int, b: int)
    requires DayNumber(zone, a) != DayNumber(zone, b)
    ensures LocalDate(zone, a) != LocalDate(zone, b)
  {
  }

  /** The local date of every instant is a valid calendar date. */
  lemma LocalDateValid(zone: Zone, dt: int)
    ensures ValidDate(LocalDate(zone, dt))
    ensures 1 <= DayOfMonth(zone, dt) <= 31
  {
    DateFromValid(1970, DayNumber(zone, dt));
  }

  /**
   * Two instants at least an hour apart that fall in the same local hour of the day lie
   * on different local days, the later one on the later day.
   */
  lemma SameHourLaterDay(zone: Zone, a: int, b: int)
    requires a + SecondsPerHour <= b
    requires HourOf(zone, a) == HourOf(zone, b)
    ensures DayNumber(zone, a) < DayNumber(zone, b)
  {
  }
}

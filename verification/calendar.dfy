/**
 * Dates as day numbers (days since 1970-01-01 in the proleptic Gregorian
 * calendar), with the date arithmetic of the host framework's `date_utils.add`
 * and `date_utils.subtract`: days and weeks are plain day offsets, months and
 * years move the civil (year, month, day) and clamp the day to the last day of
 * the target month.
 */
module Calendar {

  type Date = int

  datatype Civil = Civil(year: int, month: int, day: int)

  predicate IsLeapYear(y: int) {
    y % 4 == 0 && (y % 100 != 0 || y % 400 == 0)
  }

  function DaysInMonth(y: int, m: int): (n: int)
    ensures 28 <= n <= 31
  {
    if m == 2 then (if IsLeapYear(y) then 29 else 28)
    else if m == 4 || m == 6 || m == 9 || m == 11 then 30
    else 31
  }

  /** Day number of a civil date (months counted from March, as in Hinnant's `days_from_civil`). */
  function DaysFromCivil(c: Civil): Date {
    var y := if c.month <= 2 then c.year - 1 else c.year;
    var era := y / 400;
    var yoe := y - era * 400;
    var mp := if c.month > 2 then c.month - 3 else c.month + 9;
    var doy := (153 * mp + 2) / 5 + c.day - 1;
    var doe := yoe * 365 + yoe / 4 - yoe / 100 + doy;
    era * 146097 + doe - 719468
  }

  /** Civil date of a day number. */
  function CivilFromDays(z: Date): Civil {
    var z' := z + 719468;
    var era := z' / 146097;
    var doe := z' - era * 146097;
    var yoe := (doe - doe / 1460 + doe / 36524 - doe / 146096) / 365;
    var doy := doe - (365 * yoe + yoe / 4 - yoe / 100);
    var mp := (5 * doy + 2) / 153;
    var d := doy - (153 * mp + 2) / 5 + 1;
    var m := if mp < 10 then mp + 3 else mp - 9;
    Civil(if m <= 2 then yoe + era * 400 + 1 else yoe + era * 400, m, d)
  }

  /** The date `n` days after `d`. */
  function AddDays(d: Date, n: int): Date {
    d + n
  }

  /** The date `n` weeks after `d`. */
  function AddWeeks(d: Date, n: int): Date {
    d + 7 * n
  }

  /** The civil date `n` months after `c`, its day clamped to the length of the target month. */
  function ShiftMonths(c: Civil, n: int): Civil {
    var total := c.year * 12 + (c.month - 1) + n;
    var y := total / 12;
    var m := total - 12 * y + 1;
    Civil(y, m, if c.day <= DaysInMonth(y, m) then c.day else DaysInMonth(y, m))
  }

  /** The civil date `n` years after `c`; 29 February becomes 28 February outside leap years. */
  function ShiftYears(c: Civil, n: int): Civil {
    var y := c.year + n;
    Civil(y, c.month, if c.day <= DaysInMonth(y, c.month) then c.day else DaysInMonth(y, c.month))
  }

  /** `n` months later, as `date_utils.add(d, months=n)`. */
  function AddMonths(d: Date, n: int): Date {
    DaysFromCivil(ShiftMonths(CivilFromDays(d), n))
  }

  /** `n` years later, as `date_utils.add(d, years=n)`. */
  function AddYears(d: Date, n: int): Date {
    DaysFromCivil(ShiftYears(CivilFromDays(d), n))
  }

  /** The civil date of `d` converts back to `d` and names a real day of a real month. */
  predicate RoundTrips(d: Date) {
    var c := CivilFromDays(d);
    1 <= c.month <= 12 && 1 <= c.day <= DaysInMonth(c.year, c.month) && DaysFromCivil(c) == d
  }

  /** Adding zero months or zero years to a date whose civil form round-trips gives the date back. */
  lemma AddZero(d: Date)
    requires RoundTrips(d)
    ensures AddMonths(d, 0) == d && AddYears(d, 0) == d
  {
    var c := CivilFromDays(d);
    var total := c.year * 12 + (c.month - 1);
    assert total / 12 == c.year;
    assert ShiftMonths(c, 0) == c && ShiftYears(c, 0) == c;
  }

  /** 1 January 2024 is day 19723. */
  lemma DayOfFirstJanuary2024()
    ensures DaysFromCivil(Civil(2024, 1, 1)) == 19723
  {
    assert 2023 / 400 == 5 && 23 / 4 == 5 && 23 / 100 == 0;
    assert (153 * 10 + 2) / 5 == 306;
  }

  /** Day 19723 is 1 January 2024. */
  lemma FirstOfJanuary2024()
    ensures DaysFromCivil(Civil(2024, 1, 1)) == 19723 && CivilFromDays(19723) == Civil(2024, 1, 1)
  {
    DayOfFirstJanuary2024();
    assert (19723 + 719468) / 146097 == 5;
    assert 8706 / 1460 == 5 && 8706 / 36524 == 0 && 8706 / 146096 == 0;
    assert 8701 / 365 == 23 && 23 / 4 == 5 && 23 / 100 == 0;
    assert (5 * 306 + 2) / 153 == 10 && (153 * 10 + 2) / 5 == 306;
  }

  /** 31 January 2024 is day 19753. */
  lemma DayOfLastJanuary2024()
    ensures DaysFromCivil(Civil(2024, 1, 31)) == 19753
  {
    assert 2023 / 400 == 5 && 23 / 4 == 5 && 23 / 100 == 0;
    assert (153 * 10 + 2) / 5 == 306;
  }

  /** Day 19753 is 31 January 2024. */
  lemma LastOfJanuary2024()
    ensures DaysFromCivil(Civil(2024, 1, 31)) == 19753 && CivilFromDays(19753) == Civil(2024, 1, 31)
  {
    DayOfLastJanuary2024();
    assert (19753 + 719468) / 146097 == 5;
    assert 8736 / 1460 == 5 && 8736 / 36524 == 0 && 8736 / 146096 == 0;
    assert 8731 / 365 == 23 && 23 / 4 == 5 && 23 / 100 == 0;
    assert (5 * 336 + 2) / 153 == 10 && (153 * 10 + 2) / 5 == 306;
  }

  /** 1 January 2024 plus twelve months is 1 January 2025. */
  lemma AddMonthsYearLater()
    ensures AddMonths(DaysFromCivil(Civil(2024, 1, 1)), 12) == DaysFromCivil(Civil(2025, 1, 1))
  {
    FirstOfJanuary2024();
    assert (2024 * 12 + 0 + 12) / 12 == 2025;
  }

  /** 31 January 2024 plus one month is clamped to 29 February 2024. */
  lemma AddMonthsClampsToMonthEnd()
    ensures AddMonths(DaysFromCivil(Civil(2024, 1, 31)), 1) == DaysFromCivil(Civil(2024, 2, 29))
  {
    LastOfJanuary2024();
    assert (2024 * 12 + 0 + 1) / 12 == 2024;
    assert DaysInMonth(2024, 2) == 29;
  }
}

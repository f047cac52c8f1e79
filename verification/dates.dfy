/** Calendar dates as integer day numbers. A day number is Qt's Julian day
    (`QDate::toJulianDay`), so `daysTo` is a subtraction and the weekday is
    the day number modulo 7, with Monday = 1. */
module Dates {

  type Day = int

  /** `a.daysTo(b)`: positive when `b` is after `a`. */
  function DaysTo(a: Day, b: Day): int {
    b - a
  }

  /** `QDate::dayOfWeek`: 1 = Monday, ..., 7 = Sunday. */
  function DayOfWeek(d: Day): (w: int)
    ensures 1 <= w <= 7
  {
    d % 7 + 1
  }

  /** Julian day of 1970-01-01. */
  const UnixEpochDay: Day := 2440588

  predicate IsLeapYear(y: int) {
    y % 4 == 0 && (y % 100 != 0 || y % 400 == 0)
  }

  /** Julian day of the proleptic Gregorian date y-m-d (days-from-civil). */
  function FromCivil(y: int, m: int, d: int): Day {
    var y' := if m <= 2 then y - 1 else y;
    var era := y' / 400;
    var yoe := y' - era * 400;
    var mp := (m + 9) % 12;
    var doy := (153 * mp + 2) / 5 + d - 1;
    var doe := yoe * 365 + yoe / 4 - yoe / 100 + doy;
    era * 146097 + doe - 719468 + UnixEpochDay
  }

  datatype Civil = Civil(year: int, month: int, day: int)

  /** The proleptic Gregorian date of a Julian day (civil-from-days). */
  function ToCivil(jd: Day): Civil {
    var z := jd - UnixEpochDay + 719468;
    var era := z / 146097;
    var doe := z - era * 146097;
    var yoe := (doe - doe / 1460 + doe / 36524 - doe / 146096) / 365;
    var doy := doe - (365 * yoe + yoe / 4 - yoe / 100);
    var mp := (5 * doy + 2) / 153;
    var d := doy - (153 * mp + 2) / 5 + 1;
    var m := if mp < 10 then mp + 3 else mp - 9;
    Civil(if m <= 2 then yoe + era * 400 + 1 else yoe + era * 400, m, d)
  }

  /** `QDate::addYears(n)`: same month and day `n` years later, with
      29 February moved to the 28th when the target year is not a leap year. */
  function AddYears(jd: Day, n: int): Day {
    var c := ToCivil(jd);
    var y := c.year + n;
    var d := if c.month == 2 && c.day == 29 && !IsLeapYear(y) then 28 else c.day;
    FromCivil(y, c.month, d)
  }
}

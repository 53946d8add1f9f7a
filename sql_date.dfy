/** The `DATE(...)` function of the SQL engine, applied to a check-in
    time. A timestamp is a whole number of seconds since
    1970-01-01T00:00:00 UTC, so that durations are exact; `DATE` gives the
    proleptic Gregorian calendar date of the timestamp in UTC as
    `YYYY-MM-DD`, and NULL outside the years 0000 to 9999 that the engine
    supports. */
module SqlDate {
  import opened Wrappers
  import opened DateShape

  type Timestamp = int

  const SecondsPerDay: int := 86400

  datatype CivilDate = CivilDate(year: int, month: int, day: int)

  predicate IsLeapYear(y: int) {
    y % 4 == 0 && (y % 100 != 0 || y % 400 == 0)
  }

  function DaysInMonth(y: int, m: int): int
    requires 1 <= m <= 12
  {
    if m == 2 then (if IsLeapYear(y) then 29 else 28)
    else if m == 4 || m == 6 || m == 9 || m == 11 then 30
    else 31
  }

  /** The year of an era (0 .. 399) and the day of that year (0 .. 365)
      for a day of a 400-year era that starts on 1 March. The era splits
      into centuries of 36524 days (the last one a day longer), a century
      into four-year blocks of 1461 days, a block into years of 365 days
      (the last one a day longer in a leap block), so that a leap day is
      the last day of its March-based year. */
  function YearOfEra(doe: int): (yd: (int, int))
    requires 0 <= doe < 146097
    ensures 0 <= yd.0 < 400 && 0 <= yd.1 <= 365
    ensures yd.1 == 365 ==> IsLeapYear(yd.0 + 1)
  {
    var century := if doe / 36524 < 3 then doe / 36524 else 3;
    var r1 := doe - 36524 * century;
    var block := r1 / 1461;
    var r2 := r1 % 1461;
    var yy := if r2 / 365 < 3 then r2 / 365 else 3;
    (100 * century + 4 * block + yy, r2 - 365 * yy)
  }

  /** The month (1 .. 12, March = 3) and day of the month of a day of a
      March-based year. */
  function MonthOfYear(doy: int): (md: (int, int))
    requires 0 <= doy <= 365
    ensures 1 <= md.0 <= 12 && 1 <= md.1 <= 31
    ensures md.0 == 2 ==> md.1 <= 28 || (md.1 == 29 && doy == 365)
    ensures md.0 != 2 ==> md.1 <= DaysInMonth(0, md.0)
  {
    var mp := (5 * doy + 2) / 153;
    assert 0 <= mp <= 11;
    var d := doy - (153 * mp + 2) / 5 + 1;
    (if mp < 10 then mp + 3 else mp - 9, d)
  }

  lemma ShiftMod4(q: int, k: int)
    ensures (4 * q + k) % 4 == k % 4
  {
  }

  lemma ShiftMod100(q: int, k: int)
    ensures (100 * q + k) % 100 == k % 100
  {
  }

  lemma ShiftMod400(q: int, k: int)
    ensures (400 * q + k) % 400 == k % 400
  {
  }

  /** Leap years repeat every 400 years. */
  lemma LeapYearPeriodic(era: int, y: int)
    ensures IsLeapYear(era * 400 + y) == IsLeapYear(y)
  {
    var n := era * 400 + y;
    ShiftMod4(era * 100, y);
    ShiftMod100(era * 4, y);
    ShiftMod400(era, y);
    assert 4 * (era * 100) + y == n && 100 * (era * 4) + y == n && 400 * era + y == n;
  }

  /** The calendar date of a day number (days since 1970-01-01): 719468
      days after 0000-03-01. */
  function CivilFromDays(days: int): (c: CivilDate)
    ensures 1 <= c.month <= 12
    ensures 1 <= c.day <= DaysInMonth(c.year, c.month)
  {
    var z := days + 719468;
    var yd := YearOfEra(z % 146097);
    var md := MonthOfYear(yd.1);
    LeapYearPeriodic(z / 146097, yd.0 + 1);
    CivilDate(z / 146097 * 400 + yd.0 + (if md.0 <= 2 then 1 else 0), md.0, md.1)
  }

  function DigitChar(d: int): (c: char)
    requires 0 <= d < 10
    ensures IsDigit(c)
  {
    (48 + d) as char
  }

  function DigitValue(c: char): (d: int)
    ensures IsDigit(c) ==> 0 <= d < 10
  {
    c as int - 48
  }

  /** Zero-padded two-digit rendering. */
  function Pad2(n: int): (s: string)
    requires 0 <= n < 100
    ensures |s| == 2 && IsDigit(s[0]) && IsDigit(s[1])
    ensures DigitValue(s[0]) * 10 + DigitValue(s[1]) == n
  {
    [DigitChar(n / 10), DigitChar(n % 10)]
  }

  /** Zero-padded four-digit rendering. */
  function Pad4(n: int): (s: string)
    requires 0 <= n < 10000
    ensures |s| == 4 && forall i :: 0 <= i < 4 ==> IsDigit(s[i])
    ensures (DigitValue(s[0]) * 10 + DigitValue(s[1])) * 100 + DigitValue(s[2]) * 10 + DigitValue(s[3]) == n
  {
    Pad2(n / 100) + Pad2(n % 100)
  }

  /** The `YYYY-MM-DD` rendering of a calendar date with a four-digit
      year. */
  function Format(c: CivilDate): (s: string)
    requires 0 <= c.year <= 9999 && 1 <= c.month <= 12 && 1 <= c.day <= 31
    ensures HasDateShape(s)
    ensures s[..4] == Pad4(c.year) && s[5..7] == Pad2(c.month) && s[8..10] == Pad2(c.day)
  {
    Pad4(c.year) + "-" + Pad2(c.month) + "-" + Pad2(c.day)
  }

  /** `DATE(t)`: NULL when the year falls outside 0000 to 9999. */
  function Date(t: Timestamp): (r: Option<string>)
    ensures r.Some? ==> HasDateShape(r.value)
  {
    var c := CivilFromDays(t / SecondsPerDay);
    if 0 <= c.year <= 9999 then Some(Format(c)) else None
  }

  /** The two-digit number at positions i and i + 1 of a string. */
  function TwoDigitsAt(s: string, i: nat): int
    requires i + 1 < |s|
  {
    DigitValue(s[i]) * 10 + DigitValue(s[i + 1])
  }

  /** A date-shaped string that names a day of the calendar: a month from
      01 to 12 and a day that exists in that month of that year. */
  predicate IsCalendarDate(s: string) {
    && HasDateShape(s)
    && 1 <= TwoDigitsAt(s, 5) <= 12
    && 1 <= TwoDigitsAt(s, 8) <= DaysInMonth(TwoDigitsAt(s, 0) * 100 + TwoDigitsAt(s, 2), TwoDigitsAt(s, 5))
  }

  /** Every date the engine produces has the shape the handler accepts and
      names a real day of the calendar. */
  lemma DateIsCalendarDate(t: Timestamp)
    ensures Date(t).Some? ==> IsCalendarDate(Date(t).value)
  {
    var c := CivilFromDays(t / SecondsPerDay);
    if 0 <= c.year <= 9999 {
      var s := Format(c);
      assert s[..4][0] == s[0] && s[..4][1] == s[1] && s[..4][2] == s[2] && s[..4][3] == s[3];
      assert s[5..7][0] == s[5] && s[5..7][1] == s[6];
      assert s[8..10][0] == s[8] && s[8..10][1] == s[9];
      assert TwoDigitsAt(s, 0) * 100 + TwoDigitsAt(s, 2) == c.year;
    }
  }

  /** A date-shaped string that is not a day of the calendar is the date
      of no timestamp. */
  lemma NonCalendarDateIsNoDate(s: string, t: Timestamp)
    requires HasDateShape(s) && !IsCalendarDate(s)
    ensures Date(t) != Some(s)
  {
    DateIsCalendarDate(t);
  }

  /** A thirteenth month and the 29th of February of a common year are not
      calendar dates; the 29th of February of a leap year is. */
  lemma CalendarDateExamples()
    ensures !IsCalendarDate("2024-13-40")
    ensures !IsCalendarDate("2023-02-29")
    ensures IsCalendarDate("2024-02-29")
  {
    assert TwoDigitsAt("2024-13-40", 5) == 13;
    assert TwoDigitsAt("2023-02-29", 5) == 2 && TwoDigitsAt("2023-02-29", 8) == 29;
    assert TwoDigitsAt("2023-02-29", 0) * 100 + TwoDigitsAt("2023-02-29", 2) == 2023;
    assert TwoDigitsAt("2024-02-29", 5) == 2 && TwoDigitsAt("2024-02-29", 8) == 29;
    assert TwoDigitsAt("2024-02-29", 0) * 100 + TwoDigitsAt("2024-02-29", 2) == 2024;
  }
}

/**
 * Calendar arithmetic behind `new Date(dateStr + 'T12:00:00').getDay()`: the
 * `YYYY-MM-DD` value of a date input read as a proleptic Gregorian date, and
 * its day of the week (0 = Sunday … 6 = Saturday).
 */
module Calendar {
  import opened Wrappers
  import opened Text

  datatype Date = Date(year: int, month: int, day: int)

  predicate IsLeapYear(y: int) {
    y % 4 == 0 && (y % 100 != 0 || y % 400 == 0)
  }

  function DaysInMonth(y: int, m: int): (n: int)
    requires 1 <= m <= 12
    ensures 28 <= n <= 31
    ensures m == 2 ==> (n == 29 <==> IsLeapYear(y))
  {
    if m == 2 then (if IsLeapYear(y) then 29 else 28)
    else if m == 4 || m == 6 || m == 9 || m == 11 then 30
    else 31
  }

  /** A date that names a day of the calendar (not a rolled-over one). */
  predicate ValidDate(d: Date) {
    1 <= d.month <= 12 && 1 <= d.day <= DaysInMonth(d.year, d.month)
  }

  /** The day after a valid date. */
  function NextDay(d: Date): (r: Date)
    requires ValidDate(d)
    ensures ValidDate(r)
  {
    if d.day < DaysInMonth(d.year, d.month) then Date(d.year, d.month, d.day + 1)
    else if d.month < 12 then Date(d.year, d.month + 1, 1)
    else Date(d.year + 1, 1, 1)
  }

  // ---------------------------------------------------------------------------
  // YYYY-MM-DD text

  function Digits2(n: nat): (r: string)
    requires n < 100
    ensures |r| == 2 && AllDigits(r)
  {
    [DigitChar(n / 10), DigitChar(n % 10)]
  }

  function Digits4(n: nat): (r: string)
    requires n < 10000
    ensures |r| == 4 && AllDigits(r)
  {
    Digits2(n / 100) + Digits2(n % 100)
  }

  function Value2(s: string): (n: nat)
    requires |s| == 2 && AllDigits(s)
    ensures n < 100
  {
    10 * DigitValue(s[0]) + DigitValue(s[1])
  }

  function Value4(s: string): (n: nat)
    requires |s| == 4 && AllDigits(s)
    ensures n < 10000
  {
    100 * Value2(s[..2]) + Value2(s[2..])
  }

  lemma DigitCharValue(c: char)
    requires IsDigit(c)
    ensures DigitChar(DigitValue(c)) == c
  {
  }

  lemma ValueDigitChar(d: nat)
    requires d < 10
    ensures DigitValue(DigitChar(d)) == d
  {
  }

  lemma Digits2RoundTrip(n: nat, s: string)
    requires n < 100 && |s| == 2 && AllDigits(s)
    ensures Value2(Digits2(n)) == n
    ensures Digits2(Value2(s)) == s
  {
    ValueDigitChar(n / 10);
    ValueDigitChar(n % 10);
    DigitCharValue(s[0]);
    DigitCharValue(s[1]);
  }

  lemma Digits4RoundTrip(n: nat, s: string)
    requires n < 10000 && |s| == 4 && AllDigits(s)
    ensures Value4(Digits4(n)) == n
    ensures Digits4(Value4(s)) == s
  {
    Digits2RoundTrip(n / 100, s[..2]);
    Digits2RoundTrip(n % 100, s[2..]);
    assert Digits4(n)[..2] == Digits2(n / 100);
    assert Digits4(n)[2..] == Digits2(n % 100);
    assert s == s[..2] + s[2..];
  }

  /** The text form of a date whose fields fit it. */
  function FormatDate(d: Date): (s: string)
    requires 0 <= d.year < 10000 && 1 <= d.month <= 12 && 1 <= d.day <= 31
    ensures |s| == 10
  {
    Digits4(d.year) + "-" + Digits2(d.month) + "-" + Digits2(d.day)
  }

  predicate IsDateShape(s: string) {
    |s| == 10 && s[4] == '-' && s[7] == '-'
    && AllDigits(s[..4]) && AllDigits(s[5..7]) && AllDigits(s[8..])
  }

  /**
   * Reads `YYYY-MM-DD`; anything else, and a month outside 1..12 or a day
   * outside 1..31, is an invalid date (`None`). Days past the end of a short
   * month are kept: they roll over into the next month like the browser does.
   */
  function ParseDate(s: string): (r: Option<Date>)
    ensures r.Some? ==> 0 <= r.value.year < 10000 && 1 <= r.value.month <= 12 && 1 <= r.value.day <= 31
  {
    if !IsDateShape(s) then None
    else
      var d := Date(Value4(s[..4]), Value2(s[5..7]), Value2(s[8..]));
      if 1 <= d.month <= 12 && 1 <= d.day <= 31 then Some(d) else None
  }

  /** Formatting then reading gives the date back. */
  lemma FormatParse(d: Date)
    requires 0 <= d.year < 10000 && 1 <= d.month <= 12 && 1 <= d.day <= 31
    ensures ParseDate(FormatDate(d)) == Some(d)
  {
    var s := FormatDate(d);
    assert s[..4] == Digits4(d.year);
    assert s[5..7] == Digits2(d.month);
    assert s[8..] == Digits2(d.day);
    Digits4RoundTrip(d.year, s[..4]);
    Digits2RoundTrip(d.month, s[5..7]);
    Digits2RoundTrip(d.day, s[8..]);
  }

  /** Whatever reads as a date is exactly that date's text: the text form is unique. */
  lemma ParseFormat(s: string)
    requires ParseDate(s).Some?
    ensures FormatDate(ParseDate(s).value) == s
  {
    var d := ParseDate(s).value;
    Digits4RoundTrip(0, s[..4]);
    Digits2RoundTrip(0, s[5..7]);
    Digits2RoundTrip(0, s[8..]);
    assert s == s[..4] + "-" + s[5..7] + "-" + s[8..];
  }

  // ---------------------------------------------------------------------------
  // day of the week

  function MonthOffset(m: int): int
    requires 1 <= m <= 12
  {
    [0, 3, 2, 5, 0, 3, 5, 1, 4, 6, 2, 4][m - 1]
  }

  /** Leap days and whole years up to the end of year `y`, in weekday steps. */
  function YearShift(y: int): int {
    y + y / 4 - y / 100 + y / 400
  }

  /** A count of days that grows by one from each day to the next, up to a multiple of 7. */
  function DayCount(d: Date): int
    requires 1 <= d.month <= 12
  {
    var y := if d.month < 3 then d.year - 1 else d.year;
    YearShift(y) + MonthOffset(d.month) + d.day
  }

  /** `getDay()`: 0 for Sunday through 6 for Saturday (Sakamoto's method). */
  function Weekday(d: Date): (w: int)
    requires 1 <= d.month <= 12
    ensures 0 <= w < 7
  {
    DayCount(d) % 7
  }

  /** `getDay()` of a date input's text; `None` where the browser gets an invalid date. */
  function WeekdayOf(s: string): (r: Option<int>)
    ensures r.Some? ==> 0 <= r.value < 7
  {
    match ParseDate(s)
    case None => None
    case Some(d) => Some(Weekday(d))
  }

  lemma YearShiftStep(y: int)
    ensures YearShift(y) - YearShift(y - 1) == if IsLeapYear(y) then 2 else 1
  {
    Div4Step(y);
    Div100Step(y);
    Div400Step(y);
    CenturyDivides(y);
  }

  lemma Div4Step(y: int)
    ensures y / 4 - (y - 1) / 4 == if y % 4 == 0 then 1 else 0
  {
  }

  lemma Div100Step(y: int)
    ensures y / 100 - (y - 1) / 100 == if y % 100 == 0 then 1 else 0
  {
  }

  lemma Div400Step(y: int)
    ensures y / 400 - (y - 1) / 400 == if y % 400 == 0 then 1 else 0
  {
  }

  lemma CenturyDivides(y: int)
    ensures y % 100 == 0 ==> y % 4 == 0
    ensures y % 400 == 0 ==> y % 100 == 0
  {
    if y % 100 == 0 {
      assert y == 4 * (25 * (y / 100));
    }
    if y % 400 == 0 {
      assert y == 100 * (4 * (y / 400));
    }
  }

  lemma ModEq(a: int, b: int)
    requires (a - b) % 7 == 0
    ensures a % 7 == b % 7
  {
    var k := (a - b) / 7;
    assert a == b + 7 * k;
  }

  lemma ModSucc(a: int)
    ensures (a + 1) % 7 == (a % 7 + 1) % 7
  {
    var q, r := a / 7, a % 7;
    assert a == 7 * q + r;
    if r < 6 {
      assert a + 1 == 7 * q + (r + 1);
    } else {
      assert a + 1 == 7 * (q + 1);
    }
  }

  /** The first of the next month counts one day after the last of this one, up to weeks. */
  lemma MonthStep(y: int, m: int)
    requires 1 <= m <= 12
    ensures var n := if m < 12 then Date(y, m + 1, 1) else Date(y + 1, 1, 1);
      (DayCount(n) - DayCount(Date(y, m, DaysInMonth(y, m))) - 1) % 7 == 0
  {
    if m == 2 {
      YearShiftStep(y);
    }
  }

  /** The day count of the next day is one more, up to whole weeks. */
  lemma NextDayCount(d: Date)
    requires ValidDate(d)
    ensures (DayCount(NextDay(d)) - (DayCount(d) + 1)) % 7 == 0
  {
    if d.day < DaysInMonth(d.year, d.month) {
      assert DayCount(NextDay(d)) == DayCount(d) + 1;
    } else {
      assert d == Date(d.year, d.month, DaysInMonth(d.year, d.month));
      MonthStep(d.year, d.month);
    }
  }

  /** Consecutive days of the calendar fall on consecutive weekdays. */
  lemma WeekdayNextDay(d: Date)
    requires ValidDate(d)
    ensures Weekday(NextDay(d)) == (Weekday(d) + 1) % 7
  {
    var a := DayCount(d);
    var b := DayCount(NextDay(d));
    NextDayCount(d);
    ModEq(b, a + 1);
    ModSucc(a);
  }

  /** A day past the end of its month (up to the 31st) falls where its rolled-over date does. */
  lemma WeekdayRollsOver(y: int, m: int, k: int)
    requires 1 <= m < 12 && DaysInMonth(y, m) < k <= 31
    ensures Weekday(Date(y, m, k)) == Weekday(Date(y, m + 1, k - DaysInMonth(y, m)))
  {
    var last := DaysInMonth(y, m);
    MonthStep(y, m);
    assert DayCount(Date(y, m, k)) == DayCount(Date(y, m, last)) + (k - last);
    assert DayCount(Date(y, m + 1, k - last)) == DayCount(Date(y, m + 1, 1)) + (k - last) - 1;
    ModEq(DayCount(Date(y, m + 1, k - last)), DayCount(Date(y, m, k)));
  }

  /**
   * `new Date(text)` for a day past the month's end (ParseDate admits up to
   * 31): the engine rolls it over into the next month. December has 31 days,
   * so it never rolls into the next year.
   */
  function Normalize(d: Date): (r: Date)
    requires 1 <= d.month <= 12 && 1 <= d.day <= 31
    ensures ValidDate(r)
    ensures ValidDate(d) ==> r == d
    ensures !ValidDate(d) ==> d.month < 12 && r == Date(d.year, d.month + 1, d.day - DaysInMonth(d.year, d.month))
  {
    if d.day <= DaysInMonth(d.year, d.month) then d
    else Date(d.year, d.month + 1, d.day - DaysInMonth(d.year, d.month))
  }

  /** Rolling a date over keeps the day of the week the raw fields give. */
  lemma NormalizeKeepsWeekday(d: Date)
    requires 1 <= d.month <= 12 && 1 <= d.day <= 31
    ensures Weekday(Normalize(d)) == Weekday(d)
  {
    if !ValidDate(d) {
      WeekdayRollsOver(d.year, d.month, d.day);
    }
  }

  /** A date input on the 10th of June 2024 falls on a Monday. */
  lemma MondayScenario()
    ensures WeekdayOf("2024-06-10") == Some(1)
  {
    var d := Date(2024, 6, 10);
    FormatParse(d);
    assert FormatDate(d) == "2024-06-10";
    assert Weekday(d) == 1;
  }
}

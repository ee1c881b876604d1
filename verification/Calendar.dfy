/**
 * Dates, local times and instants.
 *
 * A date is a proleptic Gregorian day ordinal (day 1 is 1 January of year 1), a local or UTC
 * instant is a number of seconds counted from midnight of ordinal 0, and the shop's zone is a
 * fixed offset from UTC.
 */
module Calendar {

  const MINUTE := 60
  const DAY := 86400

  type TimeOfDay = t: int | 0 <= t < DAY

  type Weekday = w: int | 0 <= w < 7

  function CombineLocal(date: int, time: TimeOfDay): (local: int) {
    date * DAY + time
  }

  function DateOf(local: int): int {
    local / DAY
  }

  function TimeOf(local: int): TimeOfDay {
    local % DAY
  }

  function ToUtc(local: int, offset: int): int {
    local - offset
  }

  function ToLocal(utc: int, offset: int): int {
    utc + offset
  }

  /** Monday is 0; ordinal 1 was a Monday. */
  function WeekdayOf(date: int): Weekday {
    (date + 6) % 7
  }

  /** Cutting an instant into a date and a time of day loses nothing. */
  lemma CombineRoundTrip(date: int, time: TimeOfDay, local: int)
    ensures DateOf(CombineLocal(date, time)) == date && TimeOf(CombineLocal(date, time)) == time
    ensures CombineLocal(DateOf(local), TimeOf(local)) == local
  {
  }

  // ------------------------------------------------------------------ HH:MM

  function Digit(n: int): char
    requires 0 <= n < 10
  {
    '0' + n as char
  }

  function DigitValue(c: char): int {
    c as int - '0' as int
  }

  /** HH:MM of a minute of the day. */
  function FormatMinute(n: int): (text: string)
    requires 0 <= n < 1440
  {
    [Digit(n / 60 / 10), Digit(n / 60 % 10), ':', Digit(n % 60 / 10), Digit(n % 60 % 10)]
  }

  /** `strftime("%H:%M")`: the seconds are dropped. */
  function FormatHhmm(t: TimeOfDay): (text: string) {
    FormatMinute(t / MINUTE)
  }

  /** `time.fromisoformat` on text of the shape HH:MM; anything else is rejected. */
  function ParseHhmm(text: string): (t: int)
    ensures -1 <= t < DAY
  {
    if |text| == 5 && text[2] == ':'
       && (forall i :: 0 <= i < 5 && i != 2 ==> '0' <= text[i] <= '9')
    then
      var h := 10 * DigitValue(text[0]) + DigitValue(text[1]);
      var m := 10 * DigitValue(text[3]) + DigitValue(text[4]);
      if h < 24 && m < 60 then 3600 * h + 60 * m else -1
    else -1
  }

  function FloorMinute(t: int): int {
    t - t % MINUTE
  }

  lemma MinuteTextRoundTrip(n: int)
    requires 0 <= n < 1440
    ensures ParseHhmm(FormatMinute(n)) == n * MINUTE
  {
    var text := FormatMinute(n);
    var h, m := n / 60, n % 60;
    assert text[0] as int == '0' as int + h / 10;
    assert text[1] as int == '0' as int + h % 10;
    assert text[3] as int == '0' as int + m / 10;
    assert text[4] as int == '0' as int + m % 10;
  }

  /** Writing a time as HH:MM and reading it back floors it to the minute. */
  lemma HhmmRoundTrip(t: TimeOfDay)
    ensures ParseHhmm(FormatHhmm(t)) == FloorMinute(t)
    ensures 0 <= FloorMinute(t) <= t
    ensures FormatHhmm(FloorMinute(t)) == FormatHhmm(t)
  {
    MinuteTextRoundTrip(t / MINUTE);
  }

  // ------------------------------------------------------------------ months

  datatype Month = Month(year: int, month: int) {
    ghost predicate Valid() {
      1 <= year && 1 <= month <= 12
    }
  }

  predicate IsLeap(year: int) {
    year % 4 == 0 && (year % 100 != 0 || year % 400 == 0)
  }

  /** `calendar.monthrange(year, month)[1]`. */
  function DaysInMonth(m: Month): (n: int)
    requires m.Valid()
    ensures 28 <= n <= 31
  {
    if m.month == 2 then (if IsLeap(m.year) then 29 else 28)
    else if m.month in {4, 6, 9, 11} then 30
    else 31
  }

  function YearLength(year: int): int {
    if IsLeap(year) then 366 else 365
  }

  function DaysBeforeYear(year: int): int
    decreases year
  {
    if year <= 1 then 0 else DaysBeforeYear(year - 1) + YearLength(year - 1)
  }

  function DaysBeforeMonth(m: Month): int
    requires m.Valid()
    decreases m.month
  {
    if m.month == 1 then 0
    else
      var previous := Month(m.year, m.month - 1);
      DaysBeforeMonth(previous) + DaysInMonth(previous)
  }

  /** `date(year, month, 1).toordinal()`. */
  function FirstOrdinal(m: Month): int
    requires m.Valid()
  {
    DaysBeforeYear(m.year) + DaysBeforeMonth(m) + 1
  }

  function NextMonth(m: Month): (r: Month)
    requires m.Valid()
    ensures r.Valid()
  {
    if m.month == 12 then Month(m.year + 1, 1) else Month(m.year, m.month + 1)
  }

  function PreviousMonth(m: Month): Month {
    if m.month == 1 then Month(m.year - 1, 12) else Month(m.year, m.month - 1)
  }

  lemma MonthsAreInverse(m: Month)
    requires m.Valid()
    ensures PreviousMonth(NextMonth(m)) == m
    ensures PreviousMonth(m).Valid() ==> NextMonth(PreviousMonth(m)) == m
  {
  }

  /** The ordinal arithmetic of the `datetime` library: leap days counted by division. */
  function ClosedForm(y: int): int {
    365 * y + y / 4 - y / 100 + y / 400
  }

  lemma StepOfQuarter(y: int)
    ensures (y + 1) / 4 - y / 4 == if (y + 1) % 4 == 0 then 1 else 0
  {
  }

  lemma StepOfCentury(y: int)
    ensures (y + 1) / 100 - y / 100 == if (y + 1) % 100 == 0 then 1 else 0
  {
  }

  lemma StepOfEra(y: int)
    ensures (y + 1) / 400 - y / 400 == if (y + 1) % 400 == 0 then 1 else 0
  {
  }

  lemma LeapNesting(year: int)
    ensures year % 100 == 0 ==> year % 4 == 0
    ensures year % 400 == 0 ==> year % 100 == 0
  {
  }

  lemma {:induction false} DaysBeforeYearClosedForm(year: int)
    requires 1 <= year
    ensures DaysBeforeYear(year) == ClosedForm(year - 1)
  {
    if year > 1 {
      DaysBeforeYearClosedForm(year - 1);
      StepOfQuarter(year - 2);
      StepOfCentury(year - 2);
      StepOfEra(year - 2);
      LeapNesting(year - 1);
    }
  }

  lemma MonthsOfYear(year: int)
    requires 1 <= year
    ensures DaysBeforeMonth(Month(year, 12)) + 31 == YearLength(year)
  {
    assert DaysBeforeMonth(Month(year, 2)) == 31;
    var feb := DaysInMonth(Month(year, 2));
    assert DaysBeforeMonth(Month(year, 3)) == 31 + feb;
    assert DaysBeforeMonth(Month(year, 5)) == 31 + feb + 31 + 30;
    assert DaysBeforeMonth(Month(year, 7)) == 31 + feb + 31 + 30 + 31 + 30;
    assert DaysBeforeMonth(Month(year, 9)) == 31 + feb + 31 + 30 + 31 + 30 + 31 + 31;
    assert DaysBeforeMonth(Month(year, 11)) == 31 + feb + 31 + 30 + 31 + 30 + 31 + 31 + 30 + 31;
  }

  /**
   * The month's day-by-day walk and the query range `[month, next month)` cover the same days:
   * the next month starts exactly `monthrange` days after this one.
   */
  lemma MonthLength(m: Month)
    requires m.Valid()
    ensures FirstOrdinal(NextMonth(m)) == FirstOrdinal(m) + DaysInMonth(m)
  {
    if m.month == 12 {
      assert NextMonth(m) == Month(m.year + 1, 1);
      MonthsOfYear(m.year);
      assert m == Month(m.year, 12);
    } else {
      assert DaysBeforeMonth(NextMonth(m)) == DaysBeforeMonth(m) + DaysInMonth(m) by {
        assert Month(m.year, m.month + 1 - 1) == m;
      }
    }
  }
}

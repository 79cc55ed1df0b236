/** The two time layouts a receipt uses: the calendar date "2006-01-02"
    and the clock time "15:04". Parsing follows the layout's fields: a
    four-digit year, a two-digit month 01..12 and a two-digit day within the
    month; an hour of one or two digits below 24 and a two-digit minute
    below 60. Nothing may follow the last field. */
module TimeLayouts {
  import opened Numerals
  import opened Wrappers

  datatype Date = Date(year: nat, month: nat, day: nat)

  datatype TimeOfDay = TimeOfDay(hour: nat, minute: nat)

  /** The date and time of Go's zero time value, January 1 of year 1 at
      00:00, which a failed parse yields. */
  const ZeroDate := Date(1, 1, 1)
  const Midnight := TimeOfDay(0, 0)

  /** Gregorian leap years. */
  predicate IsLeapYear(year: int)
  {
    year % 4 == 0 && (year % 100 != 0 || year % 400 == 0)
  }

  function DaysIn(month: nat, year: int): (n: nat)
    requires 1 <= month <= 12
    ensures 28 <= n <= 31
    ensures month == 2 ==> (n == 29 <==> IsLeapYear(year))
  {
    if month == 2 then (if IsLeapYear(year) then 29 else 28)
    else if month == 4 || month == 6 || month == 9 || month == 11 then 30
    else 31
  }

  /** A date the layout can spell and the calendar has. */
  predicate IsCalendarDate(d: Date)
  {
    d.year < 10000 && 1 <= d.month <= 12 && 1 <= d.day <= DaysIn(d.month, d.year)
  }

  /** A time of day on the 24-hour clock. */
  predicate IsClockTime(t: TimeOfDay)
  {
    t.hour < 24 && t.minute < 60
  }

  /** "YYYY-MM-DD" with a real calendar date. */
  function ParseDate(s: string): (r: Option<Date>)
    ensures r.Some? ==> IsCalendarDate(r.value)
  {
    if |s| == 10 && AllDigits(s[..4]) && s[4] == '-' && AllDigits(s[5..7]) && s[7] == '-' && AllDigits(s[8..]) then
      var d := Date(DigitsValue(s[..4]), DigitsValue(s[5..7]), DigitsValue(s[8..]));
      if IsCalendarDate(d) then Some(d) else None
    else
      None
  }

  /** The hour field takes two characters when both are digits, else one. */
  function HourWidth(s: string): (w: nat)
    ensures w == 1 || w == 2
  {
    if |s| >= 2 && IsDigit(s[0]) && IsDigit(s[1]) then 2 else 1
  }

  /** "H:MM" or "HH:MM" with a real clock time. */
  function ParseTime(s: string): (r: Option<TimeOfDay>)
    ensures r.Some? ==> IsClockTime(r.value)
  {
    var h := HourWidth(s);
    if |s| == h + 3 && AllDigits(s[..h]) && s[h] == ':' && AllDigits(s[h + 1..]) then
      var t := TimeOfDay(DigitsValue(s[..h]), DigitsValue(s[h + 1..]));
      if IsClockTime(t) then Some(t) else None
    else
      None
  }

  /** The date, or Go's zero date when the text does not parse. */
  function DateOrZero(s: string): Date
  {
    ParseDate(s).GetOr(ZeroDate)
  }

  /** The time, or midnight when the text does not parse. */
  function TimeOrMidnight(s: string): TimeOfDay
  {
    ParseTime(s).GetOr(Midnight)
  }

  function FormatDate(d: Date): string
    requires IsCalendarDate(d)
  {
    Digits(d.year, 4) + "-" + Digits(d.month, 2) + "-" + Digits(d.day, 2)
  }

  /** "HH:MM", the hour zero-padded. */
  function FormatTime(t: TimeOfDay): string
    requires IsClockTime(t)
  {
    Digits(t.hour, 2) + ":" + Digits(t.minute, 2)
  }

  /** "H:MM", the one-digit spelling of an hour below 10. */
  function FormatTimeShortHour(t: TimeOfDay): string
    requires IsClockTime(t) && t.hour < 10
  {
    Digits(t.hour, 1) + ":" + Digits(t.minute, 2)
  }

  /** Every calendar date survives formatting and parsing. */
  lemma {:induction false} FormatThenParseDate(d: Date)
    requires IsCalendarDate(d)
    ensures ParseDate(FormatDate(d)) == Some(d)
  {
    var s := FormatDate(d);
    assert s[..4] == Digits(d.year, 4);
    assert s[5..7] == Digits(d.month, 2);
    assert s[8..] == Digits(d.day, 2);
  }

  /** A date that parses was written in exactly one way. */
  lemma {:induction false} ParseThenFormatDate(s: string)
    requires ParseDate(s).Some?
    ensures FormatDate(ParseDate(s).value) == s
  {
    DigitsOfValue(s[..4]);
    DigitsOfValue(s[5..7]);
    DigitsOfValue(s[8..]);
    assert s == s[..4] + "-" + s[5..7] + "-" + s[8..];
  }

  /** The date layout accepts exactly the spellings of calendar dates. */
  lemma {:induction false} DateLayoutAccepts(s: string)
    ensures ParseDate(s).Some? <==> exists d :: IsCalendarDate(d) && s == FormatDate(d)
  {
    if ParseDate(s).Some? {
      ParseThenFormatDate(s);
    }
    if exists d :: IsCalendarDate(d) && s == FormatDate(d) {
      var d :| IsCalendarDate(d) && s == FormatDate(d);
      FormatThenParseDate(d);
    }
  }

  /** Every clock time survives formatting and parsing, in both spellings
      of an hour below 10. */
  lemma {:induction false} FormatThenParseTime(t: TimeOfDay)
    requires IsClockTime(t)
    ensures ParseTime(FormatTime(t)) == Some(t)
    ensures t.hour < 10 ==> ParseTime(FormatTimeShortHour(t)) == Some(t)
  {
    var s := FormatTime(t);
    assert s[..2] == Digits(t.hour, 2);
    assert s[3..] == Digits(t.minute, 2);
    if t.hour < 10 {
      var u := FormatTimeShortHour(t);
      assert u[..1] == Digits(t.hour, 1);
      assert u[2..] == Digits(t.minute, 2);
    }
  }

  /** A time that parses was written in one of the two spellings. */
  lemma {:induction false} ParseThenFormatTime(s: string)
    requires ParseTime(s).Some?
    ensures var t := ParseTime(s).value;
      s == FormatTime(t) || (t.hour < 10 && s == FormatTimeShortHour(t))
  {
    var h := HourWidth(s);
    DigitsOfValue(s[..h]);
    DigitsOfValue(s[h + 1..]);
    assert s == s[..h] + ":" + s[h + 1..];
  }

  /** The time layout accepts exactly the two spellings of clock times. */
  lemma {:induction false} TimeLayoutAccepts(s: string)
    ensures ParseTime(s).Some? <==>
      exists t :: IsClockTime(t) && (s == FormatTime(t) || (t.hour < 10 && s == FormatTimeShortHour(t)))
  {
    if ParseTime(s).Some? {
      ParseThenFormatTime(s);
    }
    if exists t :: IsClockTime(t) && (s == FormatTime(t) || (t.hour < 10 && s == FormatTimeShortHour(t))) {
      var t :| IsClockTime(t) && (s == FormatTime(t) || (t.hour < 10 && s == FormatTimeShortHour(t)));
      FormatThenParseTime(t);
    }
  }
}

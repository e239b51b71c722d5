/**
 * The month-end computation: `time.Parse` with the layout
 * "2006-01-02 15:04:05" and `AddDate(0, 1, -day)`, on the proleptic Gregorian calendar.
 */
module Calendar {
  import opened Options
  import opened Numbers

  /** The date part of a `time.Time`. */
  datatype Date = Date(year: int, month: int, day: int)

  predicate IsLeapYear(year: int) {
    year % 4 == 0 && (year % 100 != 0 || year % 400 == 0)
  }

  function DaysInMonth(year: int, month: int): (n: int)
    requires 1 <= month <= 12
    ensures 28 <= n <= 31
    ensures month == 2 ==> (n == 29 <==> IsLeapYear(year))
  {
    if month == 2 then (if IsLeapYear(year) then 29 else 28)
    else if month == 4 || month == 6 || month == 9 || month == 11 then 30
    else 31
  }

  predicate IsValidDate(d: Date) {
    1 <= d.month <= 12 && 1 <= d.day <= DaysInMonth(d.year, d.month)
  }

  /** The zero `time.Time`, which a failed `time.Parse` returns: January 1 of year 1. */
  const ZeroDate: Date := Date(1, 1, 1)

  /** The value of the fixed-width digit field s[i..i + w], if it is all digits. */
  function Field(s: string, i: nat, w: nat): Option<nat>
    requires i + w <= |s|
  {
    if AllDigits(s[i..i + w]) then Some(DigitsValue(s[i..i + w])) else None
  }

  /**
   * The number of spaces from position i on. Where the layout has a space,
   * `time.Parse` needs at least one in the value and then drops the whole run.
   */
  function SpaceRun(s: string, i: nat): (n: nat)
    ensures n > 0 ==> i + n <= |s|
    decreases |s| - i
  {
    if i < |s| && s[i] == ' ' then 1 + SpaceRun(s, i + 1) else 0
  }

  /**
   * The digits `time.Parse` takes for the layout's hour `15` at position i:
   * one, or two when a second digit follows; 0 when there is no digit.
   */
  function HourWidth(s: string, i: nat): (w: nat)
    ensures w <= 2 && (w > 0 ==> i + w <= |s|)
  {
    if i < |s| && IsDigit(s[i]) then (if i + 1 < |s| && IsDigit(s[i + 1]) then 2 else 1) else 0
  }

  /**
   * What may follow the seconds: nothing, or a fractional second (a '.' or ','
   * and at least one digit), which `time.Parse` accepts although the layout has none.
   */
  predicate FractionOrEmpty(t: string) {
    |t| == 0 || (|t| >= 2 && (t[0] == '.' || t[0] == ',') && AllDigits(t[1..]))
  }

  /**
   * `time.Parse("2006-01-02 15:04:05", s)`, keeping the date. Year, month,
   * day, minute and second have fixed width; one or more spaces separate the
   * date from the clock; the hour has one or two digits; a fractional second
   * may end the string. The month must be 1 to 12, the day must exist in that
   * month, and the clock must be a real time of day; anything else, including
   * text left over, fails.
   */
  function ParseTimestamp(s: string): (r: Option<Date>)
    ensures r.Some? ==> IsValidDate(r.value)
  {
    if |s| < 11 || s[4] != '-' || s[7] != '-' || s[10] != ' ' then None
    else
      var h := 10 + SpaceRun(s, 10);
      var hw := HourWidth(s, h);
      var m := h + hw;
      if hw == 0 || |s| < m + 6 || s[m] != ':' || s[m + 3] != ':' || !FractionOrEmpty(s[m + 6..]) then None
      else
        var year, month, day := Field(s, 0, 4), Field(s, 5, 2), Field(s, 8, 2);
        var hour, minute, second := Field(s, h, hw), Field(s, m + 1, 2), Field(s, m + 4, 2);
        if year.None? || month.None? || day.None? || hour.None? || minute.None? || second.None? then None
        else if !(1 <= month.value <= 12) || hour.value >= 24 || minute.value >= 60 || second.value >= 60 then None
        else if !(1 <= day.value <= DaysInMonth(year.value, month.value)) then None
        else Some(Date(year.value, month.value, day.value))
  }

  /** `lastDate, _ := time.Parse(...)`: a failed parse leaves the zero time. */
  function LastDate(lastDay: string): (d: Date)
    ensures IsValidDate(d)
  {
    ParseTimestamp(lastDay).GetOr(ZeroDate)
  }

  /** Calendar normalisation of day 0 of a month: the last day of the month before. */
  function DayZero(year: int, month: int): (d: Date)
    requires 1 <= month <= 12
    ensures IsValidDate(d)
  {
    if month == 1 then Date(year - 1, 12, DaysInMonth(year - 1, 12))
    else Date(year, month - 1, DaysInMonth(year, month - 1))
  }

  /** `d.AddDate(0, 1, -d.Day())`: one month on, then back by the day of the month. */
  function EndOfMonth(d: Date): Date
    requires IsValidDate(d)
  {
    if d.month == 12 then DayZero(d.year + 1, 1) else DayZero(d.year, d.month + 1)
  }

  /** The month-end date is the last day of the same month. */
  lemma EndOfMonthIsLastDay(d: Date)
    requires IsValidDate(d)
    ensures EndOfMonth(d) == Date(d.year, d.month, DaysInMonth(d.year, d.month))
    ensures IsValidDate(EndOfMonth(d)) && d.day <= EndOfMonth(d).day
    ensures !IsValidDate(Date(d.year, d.month, EndOfMonth(d).day + 1))
  {
  }

  /** The share of the month that has elapsed, `day / monthDays`, used to scale host commitments. */
  function ElapsedShare(d: Date): real
    requires IsValidDate(d)
  {
    d.day as real / DaysInMonth(d.year, d.month) as real
  }

  /** The share lies in (0, 1] and is exactly 1 on the last day of the month. */
  lemma ElapsedShareBounds(d: Date)
    requires IsValidDate(d)
    ensures 0.0 < ElapsedShare(d) <= 1.0
    ensures ElapsedShare(d) == 1.0 <==> d.day == EndOfMonth(d).day
  {
    var n := DaysInMonth(d.year, d.month) as real;
    assert ElapsedShare(d) * n == d.day as real;
  }

  /** With no in-period row the timestamp is empty, so the zero time gives day 1 of a 31-day January. */
  lemma EmptyLastDay()
    ensures LastDate("") == ZeroDate
    ensures EndOfMonth(ZeroDate).day == 31 && ElapsedShare(ZeroDate) == 1.0 / 31.0
  {
  }

  /** The fixed-width decimal spelling of n, padded with leading zeros. */
  function Padded(n: nat, width: nat): (s: string)
    ensures |s| == width && AllDigits(s)
  {
    if width == 0 then "" else Padded(n / 10, width - 1) + [DigitChar(n % 10)]
  }

  lemma {:induction false} PaddedValue(n: nat, width: nat)
    requires n < Pow10(width)
    ensures DigitsValue(Padded(n, width)) == n
  {
    if width > 0 {
      var s := Padded(n, width);
      assert s[..width - 1] == Padded(n / 10, width - 1);
      PaddedValue(n / 10, width - 1);
    }
  }

  /** A timestamp written in the layout "2006-01-02 15:04:05". */
  function FormatTimestamp(d: Date, hour: nat, minute: nat, second: nat): string
    requires IsValidDate(d) && d.year >= 0
  {
    Padded(d.year, 4) + "-" + Padded(d.month, 2) + "-" + Padded(d.day, 2) + " "
      + Padded(hour, 2) + ":" + Padded(minute, 2) + ":" + Padded(second, 2)
  }

  lemma FieldOf(s: string, i: nat, n: nat, width: nat)
    requires i + width <= |s| && n < Pow10(width) && s[i..i + width] == Padded(n, width)
    ensures Field(s, i, width) == Some(n)
  {
    PaddedValue(n, width);
  }

  /** Where each field and separator of "YYYY-MM-DD" sits. */
  lemma DateLayout(y: string, mo: string, da: string)
    requires |y| == 4 && |mo| == 2 && |da| == 2
    ensures var s := y + "-" + mo + "-" + da;
      && |s| == 10 && s[4] == '-' && s[7] == '-' && s[0..4] == y && s[5..7] == mo && s[8..10] == da
  {
  }

  /** Where each field and separator of "hh:mm:ss" sits. */
  lemma ClockLayout(h: string, mi: string, se: string)
    requires |h| == 2 && |mi| == 2 && |se| == 2
    ensures var s := h + ":" + mi + ":" + se;
      && |s| == 8 && s[2] == ':' && s[5] == ':' && s[0..2] == h && s[3..5] == mi && s[6..8] == se
  {
  }

  /** Where each field and separator of a formatted timestamp sits. */
  lemma FormattedLayout(d: Date, hour: nat, minute: nat, second: nat)
    requires IsValidDate(d) && d.year >= 0
    ensures var s := FormatTimestamp(d, hour, minute, second);
      && |s| == 19 && s[4] == '-' && s[7] == '-' && s[10] == ' ' && s[13] == ':' && s[16] == ':'
      && s[0..4] == Padded(d.year, 4) && s[5..7] == Padded(d.month, 2) && s[8..10] == Padded(d.day, 2)
      && s[11..13] == Padded(hour, 2) && s[14..16] == Padded(minute, 2) && s[17..19] == Padded(second, 2)
  {
    var y, mo, da := Padded(d.year, 4), Padded(d.month, 2), Padded(d.day, 2);
    var h, mi, se := Padded(hour, 2), Padded(minute, 2), Padded(second, 2);
    var date, time := y + "-" + mo + "-" + da, h + ":" + mi + ":" + se;
    DateLayout(y, mo, da);
    ClockLayout(h, mi, se);
    var s := date + " " + time;
    assert FormatTimestamp(d, hour, minute, second) == s;
    assert s[0..10] == date && s[11..19] == time;
    assert s[0..4] == date[0..4] && s[5..7] == date[5..7] && s[8..10] == date[8..10];
    assert s[11..13] == time[0..2] && s[14..16] == time[3..5] && s[17..19] == time[6..8];
  }

  /**
   * A string with the layout's separators, `gap` spaces before an hour of `hw`
   * digits, in-range fields and nothing or a fractional second after them
   * parses to their date.
   */
  lemma ParseFields(s: string, gap: nat, hw: nat, d: Date, hour: nat, minute: nat, second: nat)
    requires IsValidDate(d) && hour < 24 && minute < 60 && second < 60
    requires gap >= 1 && SpaceRun(s, 10) == gap && (hw == 1 || hw == 2)
    requires |s| >= 16 + gap + hw && HourWidth(s, 10 + gap) == hw
    requires s[4] == '-' && s[7] == '-' && s[10 + gap + hw] == ':' && s[13 + gap + hw] == ':'
    requires FractionOrEmpty(s[16 + gap + hw..])
    requires Field(s, 0, 4) == Some(d.year) && Field(s, 5, 2) == Some(d.month) && Field(s, 8, 2) == Some(d.day)
    requires Field(s, 10 + gap, hw) == Some(hour)
    requires Field(s, 11 + gap + hw, 2) == Some(minute) && Field(s, 14 + gap + hw, 2) == Some(second)
    ensures ParseTimestamp(s) == Some(d)
  {
  }

  /** Parsing a formatted timestamp gives back its date: the parser accepts every real date of years 0 to 9999. */
  lemma ParseFormatted(d: Date, hour: nat, minute: nat, second: nat)
    requires IsValidDate(d) && 0 <= d.year <= 9999
    requires hour < 24 && minute < 60 && second < 60
    ensures ParseTimestamp(FormatTimestamp(d, hour, minute, second)) == Some(d)
  {
    var s := FormatTimestamp(d, hour, minute, second);
    FormattedLayout(d, hour, minute, second);
    LaidOutFields(s, d, hour, minute, second);
    ParseLaidOut(s, d, hour, minute, second);
  }

  /** A string in the layout, with one space and a two-digit hour, parses to the date of its fields. */
  lemma ParseLaidOut(s: string, d: Date, hour: nat, minute: nat, second: nat)
    requires IsValidDate(d) && hour < 24 && minute < 60 && second < 60
    requires |s| == 19 && s[4] == '-' && s[7] == '-' && s[10] == ' ' && s[13] == ':' && s[16] == ':'
    requires Field(s, 0, 4) == Some(d.year) && Field(s, 5, 2) == Some(d.month) && Field(s, 8, 2) == Some(d.day)
    requires Field(s, 11, 2) == Some(hour) && Field(s, 14, 2) == Some(minute) && Field(s, 17, 2) == Some(second)
    ensures ParseTimestamp(s) == Some(d)
  {
    LaidOutClock(s);
    ParseFields(s, 1, 2, d, hour, minute, second);
  }

  /** The six padded fields of a laid-out string read back as their values. */
  lemma LaidOutFields(s: string, d: Date, hour: nat, minute: nat, second: nat)
    requires IsValidDate(d) && 0 <= d.year <= 9999
    requires hour < 24 && minute < 60 && second < 60 && |s| == 19
    requires s[0..4] == Padded(d.year, 4) && s[5..7] == Padded(d.month, 2) && s[8..10] == Padded(d.day, 2)
    requires s[11..13] == Padded(hour, 2) && s[14..16] == Padded(minute, 2) && s[17..19] == Padded(second, 2)
    ensures Field(s, 0, 4) == Some(d.year) && Field(s, 5, 2) == Some(d.month) && Field(s, 8, 2) == Some(d.day)
    ensures Field(s, 11, 2) == Some(hour) && Field(s, 14, 2) == Some(minute) && Field(s, 17, 2) == Some(second)
  {
    assert Pow10(2) == 100 && Pow10(4) == 10000;
    FieldOf(s, 0, d.year, 4);
    FieldOf(s, 5, d.month, 2);
    FieldOf(s, 8, d.day, 2);
    FieldOf(s, 11, hour, 2);
    FieldOf(s, 14, minute, 2);
    FieldOf(s, 17, second, 2);
  }

  /** One space and a two-digit hour, with nothing after the seconds. */
  lemma LaidOutClock(s: string)
    requires |s| == 19 && s[10] == ' ' && Field(s, 11, 2).Some?
    ensures SpaceRun(s, 10) == 1 && HourWidth(s, 11) == 2 && FractionOrEmpty(s[19..])
  {
    assert s[11..13][0] == s[11] && s[11..13][1] == s[12];
    assert SpaceRun(s, 11) == 0;
    assert s[19..] == "";
  }

  /** `time.Parse` takes a one-digit hour for the layout's `15`. */
  lemma ParseOneDigitHourExample()
    ensures ParseTimestamp("2021-03-15 7:00:00") == Some(Date(2021, 3, 15))
  {
    var s := "2021-03-15 7:00:00";
    DatePartExample(s);
    assert HourWidth(s, 11) == 1 && s[12] == ':' && s[15] == ':' && s[18..] == "";
    assert Field(s, 11, 1) == Some(7) by { assert s[11..12] == "7"; DigitsExamples(); }
    assert Field(s, 13, 2) == Some(0) by { assert s[13..15] == "00"; DigitsExamples(); }
    assert Field(s, 16, 2) == Some(0) by { assert s[16..18] == "00"; DigitsExamples(); }
    assert SpaceRun(s, 10) == 1 by { assert SpaceRun(s, 11) == 0; }
    ParseFields(s, 1, 1, Date(2021, 3, 15), 7, 0, 0);
  }

  /** `time.Parse` takes a fractional second the layout does not spell. */
  lemma ParseFractionalSecondExample()
    ensures ParseTimestamp("2021-03-15 07:00:00.5") == Some(Date(2021, 3, 15))
  {
    var s := "2021-03-15 07:00:00.5";
    DatePartExample(s);
    assert HourWidth(s, 11) == 2 && s[13] == ':' && s[16] == ':';
    assert FractionOrEmpty(s[19..]) by { assert s[19..] == ".5" && ".5"[1..] == "5"; }
    assert Field(s, 11, 2) == Some(7) by { assert s[11..13] == "07"; DigitsExamples(); }
    assert Field(s, 14, 2) == Some(0) by { assert s[14..16] == "00"; DigitsExamples(); }
    assert Field(s, 17, 2) == Some(0) by { assert s[17..19] == "00"; DigitsExamples(); }
    assert SpaceRun(s, 10) == 1 by { assert SpaceRun(s, 11) == 0; }
    ParseFields(s, 1, 2, Date(2021, 3, 15), 7, 0, 0);
  }

  /** `time.Parse` lets a run of spaces stand for the layout's one space. */
  lemma ParseSpacedExample()
    ensures ParseTimestamp("2021-03-15  07:00:00") == Some(Date(2021, 3, 15))
  {
    var s := "2021-03-15  07:00:00";
    DatePartExample(s);
    assert SpaceRun(s, 10) == 2 by { assert SpaceRun(s, 12) == 0 && SpaceRun(s, 11) == 1; }
    assert HourWidth(s, 12) == 2 && s[14] == ':' && s[17] == ':' && s[20..] == "";
    assert Field(s, 12, 2) == Some(7) by { assert s[12..14] == "07"; DigitsExamples(); }
    assert Field(s, 15, 2) == Some(0) by { assert s[15..17] == "00"; DigitsExamples(); }
    assert Field(s, 18, 2) == Some(0) by { assert s[18..20] == "00"; DigitsExamples(); }
    ParseFields(s, 2, 2, Date(2021, 3, 15), 7, 0, 0);
  }

  /** Both examples start with the date 2021-03-15 and a space. */
  lemma DatePartExample(s: string)
    requires |s| >= 11 && s[..11] == "2021-03-15 "
    ensures s[4] == '-' && s[7] == '-' && s[10] == ' '
    ensures Field(s, 0, 4) == Some(2021) && Field(s, 5, 2) == Some(3) && Field(s, 8, 2) == Some(15)
    ensures IsValidDate(Date(2021, 3, 15))
  {
    var p := s[..11];
    assert s[4] == p[4] && s[7] == p[7] && s[10] == p[10];
    assert s[0..4] == p[0..4] == "2021" && s[5..7] == p[5..7] == "03" && s[8..10] == p[8..10] == "15";
    DigitsExamples();
  }

  lemma DigitsExamples()
    ensures DigitsValue("2021") == 2021 && DigitsValue("03") == 3 && DigitsValue("15") == 15
    ensures DigitsValue("7") == 7 && DigitsValue("07") == 7 && DigitsValue("00") == 0
  {
    assert "2021"[..3] == "202" && "202"[..2] == "20" && "20"[..1] == "2" && "2"[..0] == "";
    assert "03"[..1] == "0" && "0"[..0] == "";
    assert "15"[..1] == "1" && "1"[..0] == "";
    assert "7"[..0] == "" && "07"[..1] == "0" && "00"[..1] == "0";
  }
}

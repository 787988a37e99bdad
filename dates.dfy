/**
 * Calendar dates as the tracker stores them: `YYYY-MM-DD` text, read with
 * date-fns `parseISO`. A date that does not parse is date-fns' "Invalid
 * Date", here `None`; every comparison with it is false.
 */
module Dates {
  import opened Optional
  import opened Text

  datatype CalendarDate = CalendarDate(year: nat, month: nat, day: nat)

  predicate IsLeapYear(y: nat)
  {
    (y % 4 == 0 && y % 100 != 0) || y % 400 == 0
  }

  function DaysInMonth(y: nat, m: nat): (n: nat)
    requires 1 <= m <= 12
    ensures 28 <= n <= 31
  {
    if m == 2 then (if IsLeapYear(y) then 29 else 28)
    else if m == 4 || m == 6 || m == 9 || m == 11 then 30
    else 31
  }

  /** A real day of the proleptic Gregorian calendar with a four-digit year. */
  predicate ValidDate(d: CalendarDate)
  {
    d.year < 10000 && 1 <= d.month <= 12 && 1 <= d.day <= DaysInMonth(d.year, d.month)
  }

  /** The text has the shape `DDDD-DD-DD`. */
  predicate IsIsoShape(s: string)
  {
    |s| == 10 && s[4] == '-' && s[7] == '-'
    && AllDigits(s[..4]) && AllDigits(s[5..7]) && AllDigits(s[8..])
  }

  /**
   * `parseISO` of a calendar date: the three numbers of a well-shaped text
   * when they name a real day (date-fns rejects 2023-02-29 and 2024-13-01).
   */
  function ParseIso(s: string): (r: Option<CalendarDate>)
    ensures r.Some? ==> ValidDate(r.value)
    ensures r.Some? ==> IsIsoShape(s)
  {
    if !IsIsoShape(s) then None
    else
      var d := CalendarDate(DecValue(s[..4]), DecValue(s[5..7]), DecValue(s[8..]));
      if ValidDate(d) then Some(d) else None
  }

  /** `format(date, 'yyyy-MM-dd')`: the text the form stores for a date. */
  function FormatIso(d: CalendarDate): (s: string)
    requires ValidDate(d)
    ensures IsIsoShape(s)
  {
    var s := PadDec(d.year, 4) + "-" + PadDec(d.month, 2) + "-" + PadDec(d.day, 2);
    assert s[..4] == PadDec(d.year, 4);
    assert s[5..7] == PadDec(d.month, 2);
    assert s[8..] == PadDec(d.day, 2);
    s
  }

  /** Every valid date survives formatting and parsing. */
  lemma ParseFormat(d: CalendarDate)
    requires ValidDate(d)
    ensures ParseIso(FormatIso(d)) == Some(d)
  {
    var s := FormatIso(d);
    assert s[..4] == PadDec(d.year, 4);
    assert s[5..7] == PadDec(d.month, 2);
    assert s[8..] == PadDec(d.day, 2);
    DecValueOfPadDec(d.year, 4);
    DecValueOfPadDec(d.month, 2);
    DecValueOfPadDec(d.day, 2);
  }

  /** Every text that parses is the formatting of what it parses to. */
  lemma FormatParse(s: string)
    requires ParseIso(s).Some?
    ensures FormatIso(ParseIso(s).value) == s
  {
    PadDecOfDecValue(s[..4]);
    PadDecOfDecValue(s[5..7]);
    PadDecOfDecValue(s[8..]);
    assert s == s[..4] + "-" + s[5..7] + "-" + s[8..];
  }

  /** The instant order of two parsed dates, as one number: later days are larger. */
  function DayKey(d: CalendarDate): int
  {
    d.year * 10000 + d.month * 100 + d.day
  }

  /** `a` falls on or before `b`. */
  predicate OnOrBefore(a: CalendarDate, b: CalendarDate)
  {
    DayKey(a) <= DayKey(b)
  }

  /** On valid dates the key order is the calendar order: year, then month, then day. */
  lemma OnOrBeforeIsCalendarOrder(a: CalendarDate, b: CalendarDate)
    requires ValidDate(a) && ValidDate(b)
    ensures OnOrBefore(a, b) <==>
      a.year < b.year || (a.year == b.year && (a.month < b.month || (a.month == b.month && a.day <= b.day)))
    ensures DayKey(a) == DayKey(b) <==> a == b
  {
    if a.year < b.year {
      assert a.year * 10000 + 10000 <= b.year * 10000;
    } else if a.year > b.year {
      assert b.year * 10000 + 10000 <= a.year * 10000;
    } else if a.month < b.month {
      assert a.month * 100 + 100 <= b.month * 100;
    } else if a.month > b.month {
      assert b.month * 100 + 100 <= a.month * 100;
    }
  }

  /** `isWithinInterval(parseISO(date), {start, end})`, both ends included; false for an Invalid Date. */
  predicate WithinInterval(date: Option<CalendarDate>, start: CalendarDate, end: CalendarDate)
  {
    date.Some? && OnOrBefore(start, date.value) && OnOrBefore(date.value, end)
  }
}

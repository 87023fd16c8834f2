/** Clock-free date and duration helpers (utils/time_utils.py). */
module TimeUtils {
  import opened Wrappers
  import opened Decimal

  // ---------------------------------------------------------------------------
  // seconds_to_hms
  // ---------------------------------------------------------------------------

  /** `f"{n:02}"`: zero-padded to two characters; a negative number keeps its sign and is not padded. */
  function Field2(n: int): (s: string)
    ensures |s| >= 2
    ensures 0 <= n < 100 ==> |s| == 2 && AllDigits(s)
    ensures n >= 0 ==> AllDigits(s)
  {
    if n < 0 then "-" + NatToString(-n)
    else if n < 10 then ['0', DigitChar(n)]
    else NatToString(n)
  }

  /** `seconds_to_hms`: floor division into hours, then minutes and seconds of the remainder. */
  function SecondsToHms(seconds: int): (s: string)
    ensures |s| >= 8 && s[|s| - 6] == ':' && s[|s| - 3] == ':'
    ensures AllDigits(s[|s| - 5..|s| - 3]) && AllDigits(s[|s| - 2..])
    ensures DigitsValue(s[|s| - 5..|s| - 3]) < 60 && DigitsValue(s[|s| - 2..]) < 60
  {
    var hours := seconds / 3600;
    var minutes := (seconds % 3600) / 60;
    var secs := seconds % 60;
    HmsFields(seconds);
    var hs, ms, ss := Field2(hours), Field2(minutes), Field2(secs);
    var t := hs + ":" + ms + ":" + ss;
    assert t[|t| - 5..|t| - 3] == ms && t[|t| - 2..] == ss;
    Field2RoundTrip(minutes);
    Field2RoundTrip(secs);
    t
  }

  /** The three fields rebuild the input, and minutes and seconds stay below 60. */
  lemma HmsFields(seconds: int)
    ensures var hours, minutes, secs := seconds / 3600, (seconds % 3600) / 60, seconds % 60;
      hours * 3600 + minutes * 60 + secs == seconds && 0 <= minutes < 60 && 0 <= secs < 60
  {
    var hours, rest := seconds / 3600, seconds % 3600;
    var minutes, secs := rest / 60, rest % 60;
    assert seconds == 60 * (60 * hours + minutes) + secs;
    assert seconds % 60 == secs;
  }

  /** Reads "H:MM:SS" (H possibly signed, any length) back into seconds. */
  function ParseHms(t: string): Option<int> {
    if |t| < 8 || t[|t| - 6] != ':' || t[|t| - 3] != ':' then None
    else ParseHmsFields(t[..|t| - 6], t[|t| - 5..|t| - 3], t[|t| - 2..])
  }

  function ParseHmsFields(hs: string, ms: string, ss: string): Option<int> {
    var neg := |hs| >= 2 && hs[0] == '-';
    var h := if neg then ParseNat(hs[1..]) else ParseNat(hs);
    var m, s := ParseNat(ms), ParseNat(ss);
    if h.None? || m.None? || s.None? || m.value >= 60 || s.value >= 60 then None
    else Some((if neg then -h.value else h.value) * 3600 + m.value * 60 + s.value)
  }

  lemma ParseHmsSplit(hs: string, ms: string, ss: string)
    requires |hs| >= 2 && |ms| == 2 && |ss| == 2
    ensures ParseHms(hs + ":" + ms + ":" + ss) == ParseHmsFields(hs, ms, ss)
  {
    var t := hs + ":" + ms + ":" + ss;
    assert t[..|t| - 6] == hs && t[|t| - 5..|t| - 3] == ms && t[|t| - 2..] == ss;
    assert t[|t| - 6] == ':' && t[|t| - 3] == ':';
  }

  lemma Field2RoundTrip(n: nat)
    ensures ParseNat(Field2(n)) == Some(n)
  {
    if n < 10 {
      var s := Field2(n);
      assert s[..1] == ['0'] && s[..1][..0] == [];
      assert DigitsValue(s[..1]) == 10 * DigitsValue([]) + DigitValue('0') == 0;
      assert DigitsValue(s) == 10 * DigitsValue(s[..1]) + DigitValue(DigitChar(n));
    } else {
      NatToStringRoundTrip(n);
    }
  }

  /** Three fields printed as `seconds_to_hms` prints them read back as their total. */
  lemma FieldsRoundTrip(hours: int, minutes: int, secs: int)
    requires 0 <= minutes < 60 && 0 <= secs < 60
    ensures ParseHms(Field2(hours) + ":" + Field2(minutes) + ":" + Field2(secs))
         == Some(hours * 3600 + minutes * 60 + secs)
  {
    var hs, ms, ss := Field2(hours), Field2(minutes), Field2(secs);
    ParseHmsSplit(hs, ms, ss);
    Field2RoundTrip(minutes);
    Field2RoundTrip(secs);
    if hours < 0 {
      assert hs[1..] == NatToString(-hours);
      NatToStringRoundTrip(-hours);
    } else {
      Field2RoundTrip(hours);
      assert IsDigit(hs[0]);
    }
  }

  /** `seconds_to_hms` loses nothing: its text reads back as the same number of seconds. */
  lemma SecondsToHmsRoundTrip(seconds: int)
    ensures ParseHms(SecondsToHms(seconds)) == Some(seconds)
  {
    HmsFields(seconds);
    FieldsRoundTrip(seconds / 3600, (seconds % 3600) / 60, seconds % 60);
  }

  /** Different durations never print the same. */
  lemma SecondsToHmsInjective(a: int, b: int)
    requires SecondsToHms(a) == SecondsToHms(b)
    ensures a == b
  {
    SecondsToHmsRoundTrip(a);
    SecondsToHmsRoundTrip(b);
  }

  // ---------------------------------------------------------------------------
  // Proleptic Gregorian calendar, as Python's datetime counts it
  // ---------------------------------------------------------------------------

  datatype Date = Date(year: int, month: int, day: int)

  /** A date with its time of day to the second. */
  datatype DateTime = DateTime(date: Date, hour: int, minute: int, second: int)

  predicate IsLeap(y: int) {
    y % 4 == 0 && (y % 100 != 0 || y % 400 == 0)
  }

  function DaysInMonth(y: int, m: int): int
    requires 1 <= m <= 12
  {
    if m == 2 then (if IsLeap(y) then 29 else 28)
    else if m == 4 || m == 6 || m == 9 || m == 11 then 30
    else 31
  }

  /** Years 1 to 9999, as `datetime.MINYEAR` and `datetime.MAXYEAR` allow. */
  predicate ValidDate(d: Date) {
    1 <= d.year <= 9999 && 1 <= d.month <= 12 && 1 <= d.day <= DaysInMonth(d.year, d.month)
  }

  predicate ValidDateTime(dt: DateTime) {
    ValidDate(dt.date) && 0 <= dt.hour < 24 && 0 <= dt.minute < 60 && 0 <= dt.second < 60
  }

  function DaysBeforeYear(y: int): int {
    var p := y - 1;
    365 * p + p / 4 - p / 100 + p / 400
  }

  function DaysBeforeMonth(y: int, m: int): int
    requires 1 <= m <= 12
  {
    [0, 31, 59, 90, 120, 151, 181, 212, 243, 273, 304, 334][m - 1] + (if m > 2 && IsLeap(y) then 1 else 0)
  }

  /** `date.toordinal()`: day 1 is 0001-01-01. */
  function Ordinal(d: Date): (n: int)
    requires ValidDate(d)
    ensures n >= 1
  {
    DaysBeforeYear(d.year) + DaysBeforeMonth(d.year, d.month) + d.day
  }

  function YearLength(y: int): int {
    if IsLeap(y) then 366 else 365
  }

  lemma DaysBeforeNextYear(y: int)
    requires y >= 1
    ensures DaysBeforeYear(y + 1) == DaysBeforeYear(y) + YearLength(y)
  {
    var p := y - 1;
    assert y / 4 - p / 4 == (if y % 4 == 0 then 1 else 0);
    assert y / 100 - p / 100 == (if y % 100 == 0 then 1 else 0);
    assert y / 400 - p / 400 == (if y % 400 == 0 then 1 else 0);
  }

  /** Every day of year `a` comes before the first day of a later year `b`. */
  lemma {:induction false} YearsOrdered(a: int, b: int)
    requires 1 <= a < b
    ensures DaysBeforeYear(a) + YearLength(a) <= DaysBeforeYear(b)
    decreases b - a
  {
    DaysBeforeNextYear(a);
    if a + 1 < b {
      YearsOrdered(a + 1, b);
    }
  }

  /** Every day of month `m1` comes before the first day of a later month `m2` of the same year. */
  lemma MonthsOrdered(y: int, m1: int, m2: int)
    requires 1 <= m1 < m2 <= 12
    ensures DaysBeforeMonth(y, m1) + DaysInMonth(y, m1) <= DaysBeforeMonth(y, m2)
  {
  }

  lemma DayOfYearBound(d: Date)
    requires ValidDate(d)
    ensures DaysBeforeMonth(d.year, d.month) + d.day <= YearLength(d.year)
  {
  }

  /** `d1` is earlier than `d2` in the calendar. */
  predicate Before(d1: Date, d2: Date) {
    d1.year < d2.year
    || (d1.year == d2.year && (d1.month < d2.month || (d1.month == d2.month && d1.day < d2.day)))
  }

  /** `toordinal()` counts days in calendar order. */
  lemma OrdinalOrdered(d1: Date, d2: Date)
    requires ValidDate(d1) && ValidDate(d2) && Before(d1, d2)
    ensures Ordinal(d1) < Ordinal(d2)
  {
    if d1.year < d2.year {
      DayOfYearBound(d1);
      YearsOrdered(d1.year, d2.year);
    } else if d1.month < d2.month {
      MonthsOrdered(d1.year, d1.month, d2.month);
    }
  }

  /** Different valid dates have different ordinals. */
  lemma OrdinalInjective(d1: Date, d2: Date)
    requires ValidDate(d1) && ValidDate(d2)
    ensures Ordinal(d1) == Ordinal(d2) <==> d1 == d2
  {
    if Before(d1, d2) {
      OrdinalOrdered(d1, d2);
    } else if Before(d2, d1) {
      OrdinalOrdered(d2, d1);
    }
  }

  /** The ordinal of 9999-12-31, the last date Python represents. */
  const MAX_ORDINAL: int := 3652059

  lemma LastDateOrdinal()
    ensures Ordinal(Date(9999, 12, 31)) == MAX_ORDINAL
  {
  }

  /** `date.weekday()` of an ordinal day: 0 is Monday, and day 1 is a Monday. */
  function Weekday(ordinal: int): (w: int)
    ensures 0 <= w < 7
  {
    (ordinal + 6) % 7
  }

  /** Microseconds per day: instants are counted in microseconds from the start of day 0. */
  const MPD: int := 86_400_000_000

  /** `datetime.combine(date, datetime.min.time())`: midnight, a whole number of days. */
  function DayStart(ordinal: int): (s: int)
    ensures s % MPD == 0 && s / MPD == ordinal
  {
    ordinal * MPD
  }

  /** `datetime.combine(date, datetime.max.time())`: 23:59:59.999999, one microsecond before the next day. */
  function DayEnd(ordinal: int): (e: int)
    ensures DayStart(ordinal) < e && e + 1 == DayStart(ordinal + 1)
  {
    ordinal * MPD + MPD - 1
  }

  /** The instant of a date and time. */
  function Instant(dt: DateTime): int
    requires ValidDateTime(dt)
  {
    Ordinal(dt.date) * MPD + ((dt.hour * 60 + dt.minute) * 60 + dt.second) * 1_000_000
  }

  // ---------------------------------------------------------------------------
  // strptime on the zero-padded formats
  // ---------------------------------------------------------------------------

  /** `datetime.strptime(s, "%Y-%m-%d")`: `None` where Python raises ValueError. */
  function ParseDate(s: string): (r: Option<Date>)
    ensures r.Some? ==> ValidDate(r.value)
  {
    if |s| != 10 || s[4] != '-' || s[7] != '-' || !AllDigits(s[..4]) || !AllDigits(s[5..7]) || !AllDigits(s[8..])
    then None
    else
      var d := Date(DigitsValue(s[..4]), DigitsValue(s[5..7]), DigitsValue(s[8..]));
      if ValidDate(d) then Some(d) else None
  }

  /** `datetime.strptime(s, "%Y-%m-%d %H:%M:%S")`: `None` where Python raises ValueError. */
  function ParseTimestamp(s: string): (r: Option<DateTime>)
    ensures r.Some? ==> |s| == 19 && ValidDateTime(r.value) && ParseDate(s[..10]) == Some(r.value.date)
  {
    if |s| != 19 || s[10] != ' ' || s[13] != ':' || s[16] != ':' then None
    else match ParseDate(s[..10])
      case None => None
      case Some(d) =>
        if !AllDigits(s[11..13]) || !AllDigits(s[14..16]) || !AllDigits(s[17..]) then None
        else
          var dt := DateTime(d, DigitsValue(s[11..13]), DigitsValue(s[14..16]), DigitsValue(s[17..]));
          if ValidDateTime(dt) then Some(dt) else None
  }

  /** A date written in the zero-padded form "YYYY-MM-DD". */
  function FormatDate(d: Date): (s: string)
    requires ValidDate(d)
    ensures |s| == 10
  {
    PadDigits(d.year, 4) + "-" + PadDigits(d.month, 2) + "-" + PadDigits(d.day, 2)
  }

  /** Every valid date, written zero-padded, parses back to itself. */
  lemma ParseFormattedDate(d: Date)
    requires ValidDate(d)
    ensures ParseDate(FormatDate(d)) == Some(d)
  {
    var s := FormatDate(d);
    assert s[..4] == PadDigits(d.year, 4) && s[5..7] == PadDigits(d.month, 2) && s[8..] == PadDigits(d.day, 2);
    assert s[4] == '-' && s[7] == '-';
    assert Pow10(4) == 10000 && Pow10(2) == 100;
    PadDigitsValue(d.year, 4);
    PadDigitsValue(d.month, 2);
    PadDigitsValue(d.day, 2);
  }

  /** Two date strings that parse to the same date are the same string (this parser reads only the zero-padded form). */
  lemma ParseDateInjective(a: string, b: string)
    requires ParseDate(a).Some? && ParseDate(a) == ParseDate(b)
    ensures a == b
  {
    FixedWidthInjective(a[..4], b[..4]);
    FixedWidthInjective(a[5..7], b[5..7]);
    FixedWidthInjective(a[8..], b[8..]);
    assert a == a[..4] + [a[4]] + a[5..7] + [a[7]] + a[8..];
    assert b == b[..4] + [b[4]] + b[5..7] + [b[7]] + b[8..];
  }

  // ---------------------------------------------------------------------------
  // is_same_day
  // ---------------------------------------------------------------------------

  /** `is_same_day`: `None` where either timestamp fails to parse (ValueError). */
  function IsSameDay(ts1: string, ts2: string): (r: Option<bool>)
    ensures r.Some? <==> ParseTimestamp(ts1).Some? && ParseTimestamp(ts2).Some?
  {
    match (ParseTimestamp(ts1), ParseTimestamp(ts2))
    case (Some(d1), Some(d2)) => Some(d1.date == d2.date)
    case _ => None
  }

  /** Two well-formed timestamps are on the same day exactly when their date parts are equal. */
  lemma IsSameDayIffDatePart(ts1: string, ts2: string)
    requires ParseTimestamp(ts1).Some? && ParseTimestamp(ts2).Some?
    ensures IsSameDay(ts1, ts2) == Some(true) <==> ts1[..10] == ts2[..10]
  {
    if IsSameDay(ts1, ts2) == Some(true) {
      ParseDateInjective(ts1[..10], ts2[..10]);
    }
  }

  lemma IsSameDayReflexiveSymmetric(ts1: string, ts2: string)
    ensures ParseTimestamp(ts1).Some? ==> IsSameDay(ts1, ts1) == Some(true)
    ensures IsSameDay(ts1, ts2) == IsSameDay(ts2, ts1)
  {
  }

  // ---------------------------------------------------------------------------
  // get_day_range / get_week_range
  // ---------------------------------------------------------------------------

  /** The date the range functions work on: the given string if it is non-empty, today otherwise. */
  function ResolveDate(dateStr: Option<string>, today: Date): (r: Option<Date>)
    ensures r.None? <==> dateStr.Some? && dateStr.value != "" && ParseDate(dateStr.value).None?
    ensures ValidDate(today) && r.Some? ==> ValidDate(r.value)
  {
    if dateStr.None? || dateStr.value == "" then Some(today) else ParseDate(dateStr.value)
  }

  /** `get_day_range`: the first and the last instant of the date; `None` for an unparseable date. */
  function GetDayRange(dateStr: Option<string>, today: Date): (r: Option<(int, int)>)
    requires ValidDate(today)
    ensures r.None? <==> dateStr.Some? && dateStr.value != "" && ParseDate(dateStr.value).None?
    ensures r.Some? ==> r.value.0 % MPD == 0 && r.value.1 == r.value.0 + MPD - 1
    ensures ResolveDate(dateStr, today).Some? ==>
      var o := Ordinal(ResolveDate(dateStr, today).value); r == Some((DayStart(o), DayEnd(o)))
  {
    match ResolveDate(dateStr, today)
    case None => None
    case Some(d) => Some((DayStart(Ordinal(d)), DayEnd(Ordinal(d))))
  }

  /** An instant lies in a day's range exactly when it falls on that day. */
  lemma DayRangeHoldsExactlyItsDay(dt: DateTime, d: Date)
    requires ValidDateTime(dt) && ValidDate(d)
    ensures DayStart(Ordinal(d)) <= Instant(dt) <= DayEnd(Ordinal(d)) <==> dt.date == d
  {
    OrdinalInjective(dt.date, d);
    var tod := ((dt.hour * 60 + dt.minute) * 60 + dt.second) * 1_000_000;
    assert 0 <= tod < MPD;
    var a, b := Ordinal(dt.date), Ordinal(d);
    if a < b {
      assert a * MPD + MPD <= b * MPD;
    } else if a > b {
      assert b * MPD + MPD <= a * MPD;
    }
  }

  /** The range `get_day_range` returns holds exactly the instants of the date it resolved. */
  lemma GetDayRangeHoldsResolvedDate(dateStr: Option<string>, today: Date, dt: DateTime)
    requires ValidDate(today) && ValidDateTime(dt) && GetDayRange(dateStr, today).Some?
    ensures var (start, end) := GetDayRange(dateStr, today).value;
      start <= Instant(dt) <= end <==> Some(dt.date) == ResolveDate(dateStr, today)
  {
    DayRangeHoldsExactlyItsDay(dt, ResolveDate(dateStr, today).value);
  }

  /** The Monday on or before an ordinal day, which is never before day 1. */
  function WeekStartDay(ordinal: int): (monday: int)
    requires ordinal >= 1
    ensures Weekday(monday) == 0
    ensures ordinal - 6 <= monday <= ordinal && monday >= 1
  {
    ordinal - Weekday(ordinal)
  }

  /**
   * The week range of a date: Monday 00:00 to the following Sunday 23:59:59.999999; `None` when
   * that Sunday is past 9999-12-31.
   */
  function WeekRangeOf(d: Date): (r: Option<(int, int)>)
    requires ValidDate(d)
    ensures r.None? <==> WeekStartDay(Ordinal(d)) + 6 > MAX_ORDINAL
    ensures r.Some? ==> r.value == (DayStart(WeekStartDay(Ordinal(d))), DayEnd(WeekStartDay(Ordinal(d)) + 6))
  {
    var start := WeekStartDay(Ordinal(d));
    var end := start + 6;
    if end > MAX_ORDINAL then None else Some((DayStart(start), DayEnd(end)))
  }

  /** A week range starts at a Monday's first instant, spans seven whole days and holds the whole date. */
  lemma WeekRangeHoldsItsDate(d: Date)
    requires ValidDate(d) && WeekRangeOf(d).Some?
    ensures var (start, end) := WeekRangeOf(d).value;
      start <= DayStart(Ordinal(d)) && DayEnd(Ordinal(d)) <= end && end - start == 7 * MPD - 1
  {
    var o := Ordinal(d);
    var m := WeekStartDay(o);
    assert m * MPD <= o * MPD;
    assert o * MPD + MPD - 1 <= (m + 6) * MPD + MPD - 1;
  }

  /** `get_week_range`; `None` where Python raises ValueError or OverflowError. */
  function GetWeekRange(dateStr: Option<string>, today: Date): (r: Option<(int, int)>)
    requires ValidDate(today)
    ensures ResolveDate(dateStr, today).None? ==> r.None?
    ensures ResolveDate(dateStr, today).Some? ==> r == WeekRangeOf(ResolveDate(dateStr, today).value)
  {
    match ResolveDate(dateStr, today)
    case None => None
    case Some(d) => WeekRangeOf(d)
  }

  /** The last partial week overflows: 9999-12-31 is a Friday; 9999-12-26, a Sunday, still has a range. */
  lemma WeekRangeAtEndOfTime()
    ensures WeekRangeOf(Date(9999, 12, 31)).None?
    ensures WeekRangeOf(Date(9999, 12, 26)).Some?
  {
    LastDateOrdinal();
  }
}

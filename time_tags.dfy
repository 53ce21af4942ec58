/** Date-string time tags: `convertTimetag` of open_quant_app/xtquant/xtdata.py
    turns "YYYYMMDD" or "YYYYMMDDHHMMSS" (Beijing time) into milliseconds
    since the Unix epoch; a bare date is the start of that day, or its last
    millisecond when it is used as an upper bound. Anything that does not
    parse gives None.

    The parse follows Python's `strptime` on strings of ASCII digits: with
    exactly 8 or 14 characters every field must take its full two (four for
    the year) digits, so the string parses exactly when those fields form a
    valid date and time. */
module TimeTags {
  import opened Common

  const DayMillis: int := 86400000
  /** Beijing time is eight hours ahead of UTC. */
  const BeijingOffset: int := 28800000
  /** The proleptic Gregorian ordinal of 1970-01-01, with 0001-01-01 as day 1. */
  const EpochOrdinal: int := 719163

  predicate AllDigits(s: string)
  {
    forall i :: 0 <= i < |s| ==> '0' <= s[i] <= '9'
  }

  /** The number a string of decimal digits spells. */
  function DigitsValue(s: string): (r: nat)
    requires AllDigits(s)
  {
    if |s| == 0 then 0
    else DigitsValue(s[..|s| - 1]) * 10 + (s[|s| - 1] - '0') as nat
  }

  /** The digits from `i` to `j` of an all-digit string. */
  function Field(s: string, i: nat, j: nat): nat
    requires AllDigits(s) && i <= j <= |s|
  {
    DigitsValue(s[i..j])
  }

  // ---------------------------------------------------------------------
  // The proleptic Gregorian calendar

  predicate IsLeap(y: int)
  {
    y % 4 == 0 && (y % 100 != 0 || y % 400 == 0)
  }

  function DaysInMonth(y: int, m: int): int
    requires 1 <= m <= 12
  {
    if m == 2 then (if IsLeap(y) then 29 else 28)
    else if m == 4 || m == 6 || m == 9 || m == 11 then 30
    else 31
  }

  /** The days of the year before the first of month `m`. */
  function DaysBeforeMonth(y: int, m: int): int
    requires 1 <= m <= 12
  {
    var leap := if IsLeap(y) then 1 else 0;
    if m == 1 then 0 else if m == 2 then 31 else if m == 3 then 59 + leap
    else if m == 4 then 90 + leap else if m == 5 then 120 + leap else if m == 6 then 151 + leap
    else if m == 7 then 181 + leap else if m == 8 then 212 + leap else if m == 9 then 243 + leap
    else if m == 10 then 273 + leap else if m == 11 then 304 + leap else 334 + leap
  }

  /** The days before January 1st of year `y`, counted from 0001-01-01. */
  function DaysBeforeYear(y: int): int
    requires y >= 1
  {
    var p := y - 1;
    p * 365 + p / 4 - p / 100 + p / 400
  }

  predicate ValidDate(y: int, m: int, d: int)
  {
    1 <= y <= 9999 && 1 <= m <= 12 && 1 <= d <= DaysInMonth(y, m)
  }

  function Ordinal(y: int, m: int, d: int): int
    requires ValidDate(y, m, d)
  {
    DaysBeforeYear(y) + DaysBeforeMonth(y, m) + d
  }

  /** The calendar day after a valid date. */
  function NextDate(y: int, m: int, d: int): (int, int, int)
    requires ValidDate(y, m, d)
  {
    if d < DaysInMonth(y, m) then (y, m, d + 1)
    else if m < 12 then (y, m + 1, 1)
    else (y + 1, 1, 1)
  }

  /** Moving one value up crosses a multiple of `k` exactly when the new
      value is one. */
  lemma DivStep(p: int, k: int)
    requires k > 0
    ensures (p + 1) / k - p / k == if (p + 1) % k == 0 then 1 else 0
  {
    var q, r := p / k, p % k;
    if r + 1 < k {
      ModUnique(p + 1, k, q, r + 1);
    } else {
      ModUnique(p + 1, k, q + 1, 0);
    }
  }

  /** A multiple of `k * j` is a multiple of `k`. */
  lemma MultipleOfFactor(y: int, k: int, j: int)
    requires k > 0 && j > 0 && y % (k * j) == 0
    ensures y % k == 0
  {
    var q := y / (k * j);
    assert y == (q * j) * k;
    ModUnique(y, k, q * j, 0);
  }

  /** A year has 366 days when it is a leap year and 365 otherwise. */
  lemma YearLength(y: int)
    requires y >= 1
    ensures DaysBeforeYear(y + 1) - DaysBeforeYear(y) == if IsLeap(y) then 366 else 365
  {
    DivStep(y - 1, 4);
    DivStep(y - 1, 100);
    DivStep(y - 1, 400);
    if y % 400 == 0 {
      MultipleOfFactor(y, 100, 4);
    }
    if y % 100 == 0 {
      MultipleOfFactor(y, 4, 25);
    }
  }

  /** Consecutive calendar days have consecutive ordinals, across month and
      year ends and leap days. */
  lemma NextDateIsNextDay(y: int, m: int, d: int)
    requires ValidDate(y, m, d) && y < 9999
    ensures var (y', m', d') := NextDate(y, m, d);
      ValidDate(y', m', d') && Ordinal(y', m', d') == Ordinal(y, m, d) + 1
  {
    if d == DaysInMonth(y, m) && m == 12 {
      YearLength(y);
    }
  }

  /** The fields of a time tag. */
  datatype Stamp = Stamp(year: int, month: int, day: int, hour: int, minute: int, second: int)

  predicate ValidStamp(st: Stamp)
  {
    ValidDate(st.year, st.month, st.day) && 0 <= st.hour <= 23 && 0 <= st.minute <= 59 && 0 <= st.second <= 59
  }

  /** `strptime` with "%Y%m%d" for 8 characters and "%Y%m%d%H%M%S" for 14;
      None for any other length or when a field is out of range. */
  function ParseStamp(time: string): (r: Option<Stamp>)
    ensures r.Some? ==> ValidStamp(r.value) && (|time| == 8 || |time| == 14)
    ensures r.Some? && |time| == 8 ==> r.value.hour == 0 && r.value.minute == 0 && r.value.second == 0
  {
    if !AllDigits(time) || (|time| != 8 && |time| != 14) then None
    else
      var y, m, d := Field(time, 0, 4), Field(time, 4, 6), Field(time, 6, 8);
      var h := if |time| == 14 then Field(time, 8, 10) else 0;
      var mi := if |time| == 14 then Field(time, 10, 12) else 0;
      var s := if |time| == 14 then Field(time, 12, 14) else 0;
      var st := Stamp(y, m, d, h, mi, s);
      if ValidStamp(st) then Some(st) else None
  }

  /** Milliseconds from 1970-01-01 00:00:00 to the stamp, read as UTC. */
  function StampMillis(st: Stamp): int
    requires ValidStamp(st)
  {
    (Ordinal(st.year, st.month, st.day) - EpochOrdinal) * DayMillis
      + st.hour * 3600000 + st.minute * 60000 + st.second * 1000
  }

  /** `convertTimetag`: the stamp in milliseconds less the Beijing offset; a
      bare date used as an upper bound is moved to the last millisecond of
      its day. */
  function ConvertTimetag(time: string, isUpperBound: bool): (r: Option<int>)
    ensures r.Some? <==> ParseStamp(time).Some?
    ensures r.Some? ==> |time| == 8 || |time| == 14
  {
    match ParseStamp(time)
    case None => None
    case Some(st) =>
      var result := StampMillis(st) - BeijingOffset;
      if |time| == 8 && isUpperBound then Some(result + DayMillis - 1) else Some(result)
  }

  /** The upper-bound flag is ignored for a full stamp. */
  lemma FullStampIgnoresBound(time: string)
    requires |time| == 14
    ensures ConvertTimetag(time, true) == ConvertTimetag(time, false)
  {
  }

  /** The lower bound of a bare date is Beijing midnight, eight hours before
      a whole number of UTC days, and its upper bound is the last millisecond
      of that day. */
  lemma DateBoundsSpanDay(time: string)
    requires |time| == 8 && ConvertTimetag(time, false).Some?
    ensures (ConvertTimetag(time, false).value + BeijingOffset) % DayMillis == 0
    ensures ConvertTimetag(time, true) == Some(ConvertTimetag(time, false).value + DayMillis - 1)
  {
    var st := ParseStamp(time).value;
    ModUnique(StampMillis(st), DayMillis, Ordinal(st.year, st.month, st.day) - EpochOrdinal, 0);
  }

  /** A bare date and the same date at "000000" name the same moment. */
  lemma MidnightStampIsDate(date: string)
    requires |date| == 8
    ensures ConvertTimetag(date + "000000", false) == ConvertTimetag(date, false)
  {
    var full := date + "000000";
    if AllDigits(date) {
      assert AllDigits(full);
      assert full[0..4] == date[0..4] && full[4..6] == date[4..6] && full[6..8] == date[6..8];
      assert full[8..10] == "00" && full[10..12] == "00" && full[12..14] == "00";
      assert DigitsValue("00") == 0 by {
        assert "00"[..1] == "0" && "0"[..0] == "";
      }
    } else {
      var i :| 0 <= i < |date| && !('0' <= date[i] <= '9');
      assert full[i] == date[i];
    }
  }

  /** Successive calendar days are one day of milliseconds apart. */
  lemma NextDayIsOneDayLater(y: int, m: int, d: int)
    requires ValidDate(y, m, d) && y < 9999
    ensures var (y', m', d') := NextDate(y, m, d);
      ValidStamp(Stamp(y', m', d', 0, 0, 0))
      && StampMillis(Stamp(y', m', d', 0, 0, 0)) == StampMillis(Stamp(y, m, d, 0, 0, 0)) + DayMillis
  {
    NextDateIsNextDay(y, m, d);
  }

  /** 1970-01-01 in Beijing starts eight hours before the epoch, and 08:00
      that day is the epoch itself. */
  lemma EpochAnchor()
    ensures ConvertTimetag("19700101", false) == Some(-BeijingOffset)
    ensures ConvertTimetag("19700101080000", false) == Some(0)
  {
    var a := "19700101";
    assert a[0..4] == "1970" && a[4..6] == "01" && a[6..8] == "01";
    assert DigitsValue("1970") == 1970 by {
      assert "1970"[..3] == "197" && "197"[..2] == "19" && "19"[..1] == "1" && "1"[..0] == "";
    }
    assert DigitsValue("01") == 1 by {
      assert "01"[..1] == "0" && "0"[..0] == "";
    }
    assert DigitsValue("08") == 8 by {
      assert "08"[..1] == "0" && "0"[..0] == "";
    }
    assert DigitsValue("00") == 0 by {
      assert "00"[..1] == "0" && "0"[..0] == "";
    }
    var b := "19700101080000";
    assert b == a + "080000";
    assert b[0..4] == "1970" && b[4..6] == "01" && b[6..8] == "01";
    assert b[8..10] == "08" && b[10..12] == "00" && b[12..14] == "00";
    assert DaysBeforeYear(1970) == 719162;
  }
}

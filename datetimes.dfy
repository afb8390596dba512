/** Python `datetime` values as the model sees them: the proleptic Gregorian
    calendar fields of a UTC instant, the conversion to and from a count of
    microseconds since 1970-01-01T00:00:00, `isoformat()`, `strftime` with
    `%Y %m %d %H %M %S`, and the ISO-8601 reader used for feed timestamps. */
module DateTimes {
  import opened Basics

  const MinYear := 1
  const MaxYear := 9999
  const MicrosPerSecond := 1000000
  const SecondsPerDay := 86400
  const MicrosPerDay := 86400000000
  /** `date(1970, 1, 1).toordinal()`. */
  const EpochOrdinal := 719163
  /** The ordinal of 9999-12-31, the last day Python's `datetime` can hold. */
  const MaxOrdinal := 3652059
  /** Microseconds since the epoch of 0001-01-01T00:00:00 and 9999-12-31T23:59:59.999999. */
  const MinEpochMicros := -62135596800000000
  const MaxEpochMicros := 253402300799999999

  // ---------------------------------------------------------------------------
  // Calendar

  predicate IsLeapYear(y: int)
  {
    y % 4 == 0 && (y % 100 != 0 || y % 400 == 0)
  }

  function DaysInYear(y: int): int
  {
    if IsLeapYear(y) then 366 else 365
  }

  function DaysInMonth(y: int, m: int): int
    requires 1 <= m <= 12
  {
    if m == 2 then (if IsLeapYear(y) then 29 else 28)
    else if m == 4 || m == 6 || m == 9 || m == 11 then 30
    else 31
  }

  /** The fields of a `datetime` (naive, read as UTC). */
  datatype CivilTime = CivilTime(year: int, month: int, day: int,
                                 hour: int, minute: int, second: int, microsecond: int)
  {
    predicate Valid()
    {
      && MinYear <= year <= MaxYear
      && 1 <= month <= 12
      && 1 <= day <= DaysInMonth(year, month)
      && 0 <= hour < 24 && 0 <= minute < 60 && 0 <= second < 60
      && 0 <= microsecond < MicrosPerSecond
    }
  }

  /** A value Python's `datetime` constructor accepts. */
  type DateTime = t: CivilTime | t.Valid() witness CivilTime(1970, 1, 1, 0, 0, 0, 0)

  /** A calendar date produced by the ordinal conversion. */
  datatype Date = Date(year: int, month: int, day: int)

  /** Days from 0001-01-01 to January 1st of year `y`. */
  function DaysBeforeYear(y: int): (r: int)
    requires y >= 1
    ensures 365 * (y - 1) <= r <= 366 * (y - 1)
  {
    if y == 1 then 0 else DaysBeforeYear(y - 1) + DaysInYear(y - 1)
  }

  /** Python's closed form `365*k + k//4 - k//100 + k//400` with `k = y - 1`. */
  lemma {:induction false} DaysBeforeYearClosedForm(y: int)
    requires y >= 1
    ensures DaysBeforeYear(y) == 365 * (y - 1) + (y - 1) / 4 - (y - 1) / 100 + (y - 1) / 400
    decreases y
  {
    if y > 1 {
      DaysBeforeYearClosedForm(y - 1);
      LeapCorrection(y - 1);
    }
  }

  /** The leap day of year `y` is what the closed form adds from `y - 1` to `y`. */
  lemma LeapCorrection(y: int)
    requires y >= 1
    ensures DaysInYear(y) - 365 == (y / 4 - (y - 1) / 4) - (y / 100 - (y - 1) / 100) + (y / 400 - (y - 1) / 400)
  {
    DivStep(y - 1, 4);
    DivStep(y - 1, 100);
    DivStep(y - 1, 400);
    DivisorChain(y);
  }

  lemma DivisorChain(x: int)
    ensures x % 400 == 0 ==> x % 100 == 0
    ensures x % 100 == 0 ==> x % 4 == 0
  {
    if x % 400 == 0 {
      Multiple400(x);
    }
    if x % 100 == 0 {
      Multiple100(x);
    }
  }

  lemma Multiple400(x: int)
    requires x % 400 == 0
    ensures x % 100 == 0
  {
    var q := x / 400;
    assert x == 400 * q;
  }

  lemma Multiple100(x: int)
    requires x % 100 == 0
    ensures x % 4 == 0
  {
    var q := x / 100;
    assert x == 100 * q;
  }

  lemma DivStep(k: int, d: int)
    requires d == 4 || d == 100 || d == 400
    ensures (k + 1) / d - k / d == if (k + 1) % d == 0 then 1 else 0
  {
    if d == 4 {
    } else if d == 100 {
    } else {
    }
  }

  /** Days from January 1st to the first day of month `m` of year `y`. */
  function DaysBeforeMonth(y: int, m: int): int
    requires 1 <= m <= 12
  {
    var common :=
      if m == 1 then 0 else if m == 2 then 31 else if m == 3 then 59
      else if m == 4 then 90 else if m == 5 then 120 else if m == 6 then 151
      else if m == 7 then 181 else if m == 8 then 212 else if m == 9 then 243
      else if m == 10 then 273 else if m == 11 then 304 else 334;
    if m > 2 && IsLeapYear(y) then common + 1 else common
  }

  /** `date(y, m, d).toordinal()`: 0001-01-01 is day 1. */
  function DateOrdinal(y: int, m: int, d: int): int
    requires y >= 1 && 1 <= m <= 12
  {
    DaysBeforeYear(y) + DaysBeforeMonth(y, m) + d
  }

  lemma DaysBeforeYearStep(y: int)
    requires y >= 1
    ensures DaysBeforeYear(y + 1) == DaysBeforeYear(y) + DaysInYear(y)
  {
  }

  lemma {:induction false} DaysBeforeYearMonotone(a: int, b: int)
    requires 1 <= a <= b
    ensures DaysBeforeYear(a) + 365 * (b - a) <= DaysBeforeYear(b)
    decreases b - a
  {
    if a < b {
      DaysBeforeYearMonotone(a, b - 1);
      DaysBeforeYearStep(b - 1);
    }
  }

  lemma DaysBeforeMonthStep(y: int, m: int)
    requires 1 <= m <= 12
    ensures m < 12 ==> DaysBeforeMonth(y, m + 1) == DaysBeforeMonth(y, m) + DaysInMonth(y, m)
    ensures m == 12 ==> DaysBeforeMonth(y, m) + DaysInMonth(y, m) == DaysInYear(y)
  {
  }

  lemma {:induction false} DaysBeforeMonthMonotone(y: int, a: int, b: int)
    requires 1 <= a <= b <= 12
    ensures DaysBeforeMonth(y, a) + 28 * (b - a) <= DaysBeforeMonth(y, b)
    decreases b - a
  {
    if a < b {
      DaysBeforeMonthMonotone(y, a, b - 1);
      DaysBeforeMonthStep(y, b - 1);
    }
  }

  /** The year holding day `d0` (counted from 0, at 0001-01-01), searched upwards from `y`. */
  function AdvanceYear(d0: int, y: int): (r: int)
    requires 1 <= y && DaysBeforeYear(y) <= d0
    ensures y <= r && DaysBeforeYear(r) <= d0 < DaysBeforeYear(r + 1)
    decreases d0 - DaysBeforeYear(y)
  {
    DaysBeforeYearStep(y);
    if DaysBeforeYear(y + 1) <= d0 then AdvanceYear(d0, y + 1) else y
  }

  /** The month holding day-of-year `doy` (counted from 0), searched upwards from `m`. */
  function AdvanceMonth(y: int, doy: int, m: int): (r: int)
    requires 1 <= m <= 12 && DaysBeforeMonth(y, m) <= doy < DaysInYear(y)
    ensures m <= r <= 12
    ensures DaysBeforeMonth(y, r) <= doy < DaysBeforeMonth(y, r) + DaysInMonth(y, r)
    decreases 12 - m
  {
    DaysBeforeMonthStep(y, m);
    if m < 12 && DaysBeforeMonth(y, m + 1) <= doy then AdvanceMonth(y, doy, m + 1) else m
  }

  lemma YearSearchStart(d0: int)
    requires d0 >= 0
    ensures DaysBeforeYear(d0 / 366 + 1) <= d0
  {
  }

  /** `date.fromordinal(n)` for a positive ordinal, without the upper year bound. */
  function FromOrdinal(n: int): (r: Date)
    requires n >= 1
    ensures r.year >= 1 && 1 <= r.month <= 12 && 1 <= r.day <= DaysInMonth(r.year, r.month)
    ensures DateOrdinal(r.year, r.month, r.day) == n
  {
    var d0 := n - 1;
    YearSearchStart(d0);
    var y := AdvanceYear(d0, d0 / 366 + 1);
    DaysBeforeYearStep(y);
    var doy := d0 - DaysBeforeYear(y);
    var m := AdvanceMonth(y, doy, 1);
    Date(y, m, doy - DaysBeforeMonth(y, m) + 1)
  }

  /** At most one year holds a given day. */
  lemma YearUnique(d0: int, y1: int, y2: int)
    requires 1 <= y1 && DaysBeforeYear(y1) <= d0 < DaysBeforeYear(y1 + 1)
    requires 1 <= y2 && DaysBeforeYear(y2) <= d0 < DaysBeforeYear(y2 + 1)
    ensures y1 == y2
  {
    if y1 < y2 {
      DaysBeforeYearMonotone(y1 + 1, y2);
    } else if y2 < y1 {
      DaysBeforeYearMonotone(y2 + 1, y1);
    }
  }

  /** At most one month holds a given day of the year. */
  lemma MonthUnique(y: int, doy: int, m1: int, m2: int)
    requires 1 <= m1 <= 12 && DaysBeforeMonth(y, m1) <= doy < DaysBeforeMonth(y, m1) + DaysInMonth(y, m1)
    requires 1 <= m2 <= 12 && DaysBeforeMonth(y, m2) <= doy < DaysBeforeMonth(y, m2) + DaysInMonth(y, m2)
    ensures m1 == m2
  {
    if m1 < m2 {
      DaysBeforeMonthStep(y, m1);
      DaysBeforeMonthMonotone(y, m1 + 1, m2);
    } else if m2 < m1 {
      DaysBeforeMonthStep(y, m2);
      DaysBeforeMonthMonotone(y, m2 + 1, m1);
    }
  }

  /** The ordinal determines the date: converting back recovers it. */
  lemma FromOrdinalOfDate(y: int, m: int, d: int)
    requires y >= 1 && 1 <= m <= 12 && 1 <= d <= DaysInMonth(y, m)
    ensures FromOrdinal(DateOrdinal(y, m, d)) == Date(y, m, d)
  {
    var n := DateOrdinal(y, m, d);
    var r := FromOrdinal(n);
    DaysBeforeMonthStep(y, m);
    DaysBeforeMonthMonotone(y, m, 12);
    DaysBeforeMonthStep(y, 12);
    DaysBeforeYearStep(y);
    DaysBeforeMonthStep(r.year, r.month);
    DaysBeforeMonthMonotone(r.year, r.month, 12);
    DaysBeforeMonthStep(r.year, 12);
    DaysBeforeYearStep(r.year);
    YearUnique(n - 1, r.year, y);
    MonthUnique(y, n - 1 - DaysBeforeYear(y), r.month, m);
  }

  /** Ordinals of valid years stay within [1, MaxOrdinal], and the converse. */
  lemma FromOrdinalYearBound(n: int)
    requires n >= 1
    ensures FromOrdinal(n).year <= MaxYear <==> n <= MaxOrdinal
  {
    var r := FromOrdinal(n);
    MaxOrdinalEndsMaxYear();
    DaysBeforeMonthStep(r.year, r.month);
    DaysBeforeMonthMonotone(r.year, r.month, 12);
    DaysBeforeYearStep(r.year);
    if r.year <= MaxYear {
      DaysBeforeYearMonotone(r.year + 1, MaxYear + 1);
    } else {
      DaysBeforeYearMonotone(MaxYear + 1, r.year);
    }
  }

  lemma MaxOrdinalEndsMaxYear()
    ensures DaysBeforeYear(MaxYear + 1) == MaxOrdinal
  {
    DaysBeforeYearClosedForm(MaxYear + 1);
  }

  // ---------------------------------------------------------------------------
  // Microseconds since the epoch

  /** A time of day: hours, minutes, seconds, microseconds. */
  datatype Clock = Clock(hour: int, minute: int, second: int, microsecond: int)
  {
    predicate Valid()
    {
      0 <= hour < 24 && 0 <= minute < 60 && 0 <= second < 60 && 0 <= microsecond < MicrosPerSecond
    }

    /** Microseconds since midnight. */
    function Micros(): int
    {
      (hour * 3600 + minute * 60 + second) * MicrosPerSecond + microsecond
    }
  }

  /** The time of day `rem` microseconds after midnight. */
  function ClockOf(rem: int): (c: Clock)
    requires 0 <= rem < MicrosPerDay
    ensures c.Valid() && c.Micros() == rem
  {
    var secs := rem / MicrosPerSecond;
    Clock(secs / 3600, secs % 3600 / 60, secs % 60, rem % MicrosPerSecond)
  }

  /** A valid time of day is recovered from its microsecond count. */
  lemma ClockOfMicros(c: Clock)
    requires c.Valid()
    ensures 0 <= c.Micros() < MicrosPerDay && ClockOf(c.Micros()) == c
  {
    var secs := c.hour * 3600 + c.minute * 60 + c.second;
    assert c.Micros() / MicrosPerSecond == secs;
    assert secs / 3600 == c.hour;
    assert secs % 3600 == c.minute * 60 + c.second;
  }

  function ClockOfTime(t: DateTime): Clock
  {
    Clock(t.hour, t.minute, t.second, t.microsecond)
  }

  /** `(t - datetime(1970, 1, 1))` in microseconds. */
  function EpochMicros(t: DateTime): int
  {
    (DateOrdinal(t.year, t.month, t.day) - EpochOrdinal) * MicrosPerDay + ClockOfTime(t).Micros()
  }

  lemma EpochDayBounds(us: int)
    ensures us / MicrosPerDay + EpochOrdinal >= 1 <==> us >= MinEpochMicros
    ensures us / MicrosPerDay + EpochOrdinal <= MaxOrdinal <==> us <= MaxEpochMicros
  {
  }

  /** `datetime.fromtimestamp(us / 10**6, tz=timezone.utc)`: None where Python raises
      because the year would leave 1..9999. */
  function FromEpochMicros(us: int): (r: Option<DateTime>)
    ensures r.Some? <==> MinEpochMicros <= us <= MaxEpochMicros
    ensures r.Some? ==> EpochMicros(r.value) == us
  {
    var n := us / MicrosPerDay + EpochOrdinal;
    EpochDayBounds(us);
    if n < 1 then None
    else
      var date := FromOrdinal(n);
      FromOrdinalYearBound(n);
      if date.year > MaxYear then None
      else
        var c := ClockOf(us % MicrosPerDay);
        Some(CivilTime(date.year, date.month, date.day, c.hour, c.minute, c.second, c.microsecond))
  }

  /** Converting to microseconds and back is the identity. */
  lemma EpochRoundTrip(t: DateTime)
    ensures FromEpochMicros(EpochMicros(t)) == Some(t)
  {
    var n := DateOrdinal(t.year, t.month, t.day);
    FromOrdinalOfDate(t.year, t.month, t.day);
    var c := ClockOfTime(t);
    ClockOfMicros(c);
    var us := EpochMicros(t);
    assert us / MicrosPerDay == n - EpochOrdinal;
    assert us % MicrosPerDay == c.Micros();
    EpochDayBounds(us);
    FromOrdinalYearBound(n);
  }

  // ---------------------------------------------------------------------------
  // Decimal digits

  function Pow10(w: nat): nat
  {
    if w == 0 then 1 else 10 * Pow10(w - 1)
  }

  predicate IsDigit(c: char)
  {
    '0' <= c <= '9'
  }

  predicate AllDigits(s: string)
  {
    forall i :: 0 <= i < |s| ==> IsDigit(s[i])
  }

  function DigitChar(d: int): (c: char)
    requires 0 <= d < 10
    ensures IsDigit(c)
  {
    ('0' as int + d) as char
  }

  /** The value of a string of decimal digits. */
  function DigitsValue(s: string): (v: nat)
    requires AllDigits(s)
    ensures v < Pow10(|s|)
  {
    if s == [] then 0
    else DigitsValue(s[..|s| - 1]) * 10 + (s[|s| - 1] as int - '0' as int)
  }

  /** `n` written with exactly `width` digits, zero-padded on the left (`%0*d`). */
  function Pad(n: nat, width: nat): (s: string)
    requires n < Pow10(width)
    ensures |s| == width && AllDigits(s)
  {
    if width == 0 then "" else Pad(n / 10, width - 1) + [DigitChar(n % 10)]
  }

  /** Reading the padded digits back gives the number. */
  lemma {:induction false} PadRoundTrip(n: nat, width: nat)
    requires n < Pow10(width)
    ensures DigitsValue(Pad(n, width)) == n
  {
    if width > 0 {
      var s := Pad(n, width);
      PadRoundTrip(n / 10, width - 1);
      assert s[..|s| - 1] == Pad(n / 10, width - 1);
    }
  }

  // ---------------------------------------------------------------------------
  // Formatting

  /** `strftime("%Y/%m/%d")`. */
  function DatePath(t: DateTime): (s: string)
    ensures |s| == 10 && s[4] == '/' && s[7] == '/'
    ensures s[..4] == Pad(t.year, 4) && s[5..7] == Pad(t.month, 2) && s[8..] == Pad(t.day, 2)
  {
    Pad(t.year, 4) + "/" + Pad(t.month, 2) + "/" + Pad(t.day, 2)
  }

  /** `strftime("%H%M%S")`. */
  function ClockDigits(t: DateTime): (s: string)
    ensures |s| == 6 && AllDigits(s)
  {
    Pad(t.hour, 2) + Pad(t.minute, 2) + Pad(t.second, 2)
  }

  /** `isoformat()` of a naive datetime: `YYYY-MM-DDTHH:MM:SS`, followed by
      `.ffffff` only when the microsecond field is non-zero. */
  function IsoFormat(t: DateTime): (s: string)
    ensures |s| == (if t.microsecond == 0 then 19 else 26)
    ensures 'Z' !in s && '+' !in s
  {
    var s := DateText(t) + "T" + ClockText(t);
    assert forall i :: 0 <= i < |s| ==> s[i] != 'Z' && s[i] != '+';
    s
  }

  function DateText(t: DateTime): (s: string)
    ensures |s| == 10 && forall i :: 0 <= i < |s| ==> IsDigit(s[i]) || s[i] == '-'
  {
    Pad(t.year, 4) + "-" + Pad(t.month, 2) + "-" + Pad(t.day, 2)
  }

  function ClockText(t: DateTime): (s: string)
    ensures |s| == (if t.microsecond == 0 then 8 else 15)
    ensures forall i :: 0 <= i < |s| ==> IsDigit(s[i]) || s[i] == ':' || s[i] == '.'
  {
    Pad(t.hour, 2) + ":" + Pad(t.minute, 2) + ":" + Pad(t.second, 2)
      + (if t.microsecond == 0 then "" else "." + Pad(t.microsecond, 6))
  }

  // ---------------------------------------------------------------------------
  // Parsing

  const UtcOffset := "+00:00"

  /** `s.replace("Z", "+00:00")`. */
  function ReplaceZ(s: string): (r: string)
    ensures 'Z' !in s ==> r == s
  {
    if s == [] then []
    else (if s[0] == 'Z' then UtcOffset else [s[0]]) + ReplaceZ(s[1..])
  }

  lemma {:induction false} ReplaceZAppend(a: string, b: string)
    ensures ReplaceZ(a + b) == ReplaceZ(a) + ReplaceZ(b)
  {
    if a != [] {
      assert (a + b)[1..] == a[1..] + b;
      ReplaceZAppend(a[1..], b);
    } else {
      assert a + b == b;
    }
  }

  /** A trailing `Z` is read as the UTC offset `+00:00`. */
  lemma ReplaceTrailingZ(s: string)
    requires 'Z' !in s
    ensures ReplaceZ(s + "Z") == s + UtcOffset
  {
    ReplaceZAppend(s, "Z");
    assert ReplaceZ("Z") == UtcOffset + ReplaceZ("");
  }

  /** The digits of `s[i..i+w]`, or None when one of them is not a digit. */
  function FieldAt(s: string, i: nat, w: nat): (r: Option<nat>)
    requires i + w <= |s|
    ensures r.Some? <==> AllDigits(s[i..i + w])
    ensures r.Some? ==> r.value == DigitsValue(s[i..i + w])
  {
    if AllDigits(s[i..i + w]) then Some(DigitsValue(s[i..i + w])) else None
  }

  /** `YYYY-MM-DD`, with the calendar checks `date()` applies. */
  function ParseDate(s: string): (r: Option<Date>)
    requires |s| == 10
    ensures r.Some? ==> 1 <= r.value.month <= 12 && 1 <= r.value.day <= DaysInMonth(r.value.year, r.value.month)
    ensures r.Some? ==> MinYear <= r.value.year <= MaxYear
  {
    if s[4] != '-' || s[7] != '-' then None
    else
      match (FieldAt(s, 0, 4), FieldAt(s, 5, 2), FieldAt(s, 8, 2))
      case (Some(y), Some(m), Some(d)) =>
        if MinYear <= y && 1 <= m <= 12 && 1 <= d <= DaysInMonth(y, m)
        then Some(Date(y, m, d)) else None
      case _ => None
  }

  /** `HH:MM`, `HH:MM:SS`, `HH:MM:SS.fff` or `HH:MM:SS.ffffff`, with the range checks
      `time()` applies. */
  function ParseClock(s: string): (r: Option<Clock>)
    ensures r.Some? ==> r.value.Valid()
  {
    if !(|s| in {5, 8, 12, 15}) || s[2] != ':' then None
    else if |s| > 5 && s[5] != ':' then None
    else if |s| > 8 && s[8] != '.' then None
    else
      var h := FieldAt(s, 0, 2);
      var m := FieldAt(s, 3, 2);
      var sec := if |s| == 5 then Some(0) else FieldAt(s, 6, 2);
      var frac := if |s| <= 8 then Some(0)
                  else if |s| == 12 then (match FieldAt(s, 9, 3) case Some(ms) => Some(ms * 1000) case None => None)
                  else FieldAt(s, 9, 6);
      if h.None? || m.None? || sec.None? || frac.None? then None
      else if h.value < 24 && m.value < 60 && sec.value < 60 then
        Some(Clock(h.value, m.value, sec.value, frac.value))
      else None
  }

  /** The clock reading without a trailing UTC offset. */
  function StripOffset(clock: string): string
  {
    if |clock| >= 6 && clock[|clock| - 6..] == UtcOffset then clock[..|clock| - 6] else clock
  }

  /** A clock text without a `+` keeps itself, and loses an offset appended to it. */
  lemma StripOffsetOf(clock: string)
    requires '+' !in clock
    ensures StripOffset(clock) == clock
    ensures StripOffset(clock + UtcOffset) == clock
  {
    var c := clock + UtcOffset;
    assert c[|c| - 6..] == UtcOffset;
    assert c[..|c| - 6] == clock;
    if |clock| >= 6 {
      assert clock[|clock| - 6] != '+';
    }
  }

  /** The subset of `datetime.fromisoformat` the model reads:
      `YYYY-MM-DD`, optionally followed by one separator character, a clock reading
      as in `ParseClock`, and optionally the UTC offset `+00:00`.
      None where `fromisoformat` would raise `ValueError`. */
  function ParseIso(s: string): (r: Option<DateTime>)
    ensures r.Some? ==> |s| >= 10 && ParseDate(s[..10]).Some?
  {
    if |s| < 10 then None
    else
      match ParseDate(s[..10])
      case None => None
      case Some(d) =>
        if |s| == 10 then Some(CivilTime(d.year, d.month, d.day, 0, 0, 0, 0))
        else if |s| == 11 then None
        else
          match ParseClock(StripOffset(s[11..]))
          case None => None
          case Some(c) =>
            Some(CivilTime(d.year, d.month, d.day, c.hour, c.minute, c.second, c.microsecond))
  }

  lemma DateTextParses(t: DateTime)
    ensures ParseDate(DateText(t)) == Some(Date(t.year, t.month, t.day))
  {
    var s := DateText(t);
    assert s[0..4] == Pad(t.year, 4);
    assert s[5..7] == Pad(t.month, 2);
    assert s[8..10] == Pad(t.day, 2);
    PadRoundTrip(t.year, 4);
    PadRoundTrip(t.month, 2);
    PadRoundTrip(t.day, 2);
  }

  lemma ClockTextParses(t: DateTime)
    ensures ParseClock(ClockText(t)) == Some(Clock(t.hour, t.minute, t.second, t.microsecond))
  {
    var s := ClockText(t);
    assert s[0..2] == Pad(t.hour, 2);
    assert s[3..5] == Pad(t.minute, 2);
    assert s[6..8] == Pad(t.second, 2);
    PadRoundTrip(t.hour, 2);
    PadRoundTrip(t.minute, 2);
    PadRoundTrip(t.second, 2);
    if t.microsecond != 0 {
      assert s[9..15] == Pad(t.microsecond, 6);
      PadRoundTrip(t.microsecond, 6);
    }
  }

  /** What `isoformat()` writes, `fromisoformat` reads back, with or without the
      UTC offset after it. */
  lemma IsoRoundTrip(t: DateTime, withOffset: bool)
    ensures ParseIso(IsoFormat(t) + (if withOffset then UtcOffset else "")) == Some(t)
  {
    IsoParts(t, withOffset);
    DateTextParses(t);
    ClockTextParses(t);
  }

  /** The pieces `ParseIso` cuts a written timestamp into. */
  lemma IsoParts(t: DateTime, withOffset: bool)
    ensures var s := IsoFormat(t) + (if withOffset then UtcOffset else "");
      |s| > 11 && s[..10] == DateText(t) && StripOffset(s[11..]) == ClockText(t)
  {
    var clock := ClockText(t);
    var offset := if withOffset then UtcOffset else "";
    SplitAtSeparator(DateText(t), clock, offset);
    ClockHasNoPlus(t);
    StripOffsetOf(clock);
    assert clock + "" == clock;
  }

  lemma SplitAtSeparator(date: string, clock: string, offset: string)
    requires |date| == 10
    ensures var s := date + "T" + clock + offset;
      |s| >= 11 && s[..10] == date && s[11..] == clock + offset
  {
    var s := date + "T" + clock + offset;
    assert s == date + ("T" + (clock + offset));
  }

  lemma ClockHasNoPlus(t: DateTime)
    ensures '+' !in ClockText(t)
  {
    var clock := ClockText(t);
    assert forall i :: 0 <= i < |clock| ==> clock[i] != '+';
  }

  /** A naive timestamp written with a trailing `Z` (as the stream publisher
      stamps records) reads back, once the `Z` is rewritten to the UTC offset,
      as the same instant. */
  lemma ZuluStampRoundTrip(t: DateTime)
    ensures ParseIso(ReplaceZ(IsoFormat(t) + "Z")) == Some(t)
  {
    ReplaceTrailingZ(IsoFormat(t));
    IsoRoundTrip(t, true);
  }
}

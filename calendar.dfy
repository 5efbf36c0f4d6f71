/**
 * Proleptic Gregorian dates and the subset of ISO 8601 timestamps that the
 * collectors parse with `datetime.fromisoformat`.
 */
module Calendar {
  import opened Wrappers

  datatype Date = Date(year: int, month: int, day: int)

  predicate IsLeap(y: int)
  {
    y % 4 == 0 && (y % 100 != 0 || y % 400 == 0)
  }

  function DaysInMonth(y: int, m: int): int
    requires 1 <= m <= 12
  {
    if m == 2 then (if IsLeap(y) then 29 else 28)
    else if m == 4 || m == 6 || m == 9 || m == 11 then 30
    else 31
  }

  /** The dates Python's `date` type can hold. */
  predicate ValidDate(d: Date)
  {
    1 <= d.year <= 9999 && 1 <= d.month <= 12 && 1 <= d.day <= DaysInMonth(d.year, d.month)
  }

  /** The calendar day after `d` (`d + timedelta(days=1)`). */
  function NextDate(d: Date): (r: Date)
    requires ValidDate(d)
    ensures r.year == d.year || (r.year == d.year + 1 && r.month == 1 && r.day == 1)
    ensures d.year < 9999 ==> ValidDate(r)
  {
    if d.day < DaysInMonth(d.year, d.month) then Date(d.year, d.month, d.day + 1)
    else if d.month < 12 then Date(d.year, d.month + 1, 1)
    else Date(d.year + 1, 1, 1)
  }

  /** Days in the March-based year that starts in March of `y`. */
  function DayOfShiftedYear(m: int, d: int): int
    requires 1 <= m <= 12
  {
    (153 * (if m > 2 then m - 3 else m + 9) + 2) / 5 + d - 1
  }

  /** Day count from 0000-03-01 to the 1st of March of year `y`. */
  function MarchFirst(y: int): int
  {
    365 * y + y / 4 - y / 100 + y / 400
  }

  /** Days since 1970-01-01 (the Unix epoch's date), counted on the proleptic Gregorian calendar. */
  function DayNumber(d: Date): int
    requires 1 <= d.month <= 12
  {
    var y := if d.month <= 2 then d.year - 1 else d.year;
    MarchFirst(y) + DayOfShiftedYear(d.month, d.day) - 719468
  }

  /** `x / k` steps up by one exactly when `x + 1` is a multiple of `k`. */
  lemma FloorStep4(x: int)
    ensures (x + 1) / 4 - x / 4 == if (x + 1) % 4 == 0 then 1 else 0
  {
    var q, r := x / 4, x % 4;
    if r == 3 { assert x + 1 == 4 * (q + 1); } else { assert x + 1 == 4 * q + (r + 1); }
  }

  lemma FloorStep100(x: int)
    ensures (x + 1) / 100 - x / 100 == if (x + 1) % 100 == 0 then 1 else 0
  {
    var q, r := x / 100, x % 100;
    if r == 99 { assert x + 1 == 100 * (q + 1); } else { assert x + 1 == 100 * q + (r + 1); }
  }

  lemma FloorStep400(x: int)
    ensures (x + 1) / 400 - x / 400 == if (x + 1) % 400 == 0 then 1 else 0
  {
    var q, r := x / 400, x % 400;
    if r == 399 { assert x + 1 == 400 * (q + 1); } else { assert x + 1 == 400 * q + (r + 1); }
  }

  /** Multiples of 400 are multiples of 100, and multiples of 100 are multiples of 4. */
  lemma MultiplesNest(n: int)
    ensures n % 400 == 0 ==> n % 100 == 0
    ensures n % 100 == 0 ==> n % 4 == 0
  {
    if n % 400 == 0 { MultipleOf(n, 100, 4 * (n / 400)); }
    if n % 100 == 0 { MultipleOf(n, 4, 25 * (n / 100)); }
  }

  lemma MultipleOf(n: int, k: int, q: int)
    requires k == 4 || k == 100
    requires n == k * q
    ensures n % k == 0
  {
    if k == 4 {
      assert n == 4 * q;
    } else {
      assert n == 100 * q;
    }
  }

  /** A March-based year is 366 days long exactly when the February it contains is leap. */
  lemma MarchFirstStep(y: int)
    ensures MarchFirst(y + 1) - MarchFirst(y) == if IsLeap(y + 1) then 366 else 365
  {
    FloorStep4(y);
    FloorStep100(y);
    FloorStep400(y);
    MultiplesNest(y + 1);
  }

  /** The last day of a month other than February and December is followed by day 0 of the next one's offset. */
  lemma MonthEndStep(y: int, m: int)
    requires 1 <= m < 12 && m != 2
    ensures DayOfShiftedYear(m, DaysInMonth(y, m)) + 1 == DayOfShiftedYear(m + 1, 1)
  {
    if m == 1 {
    } else if m == 3 {
    } else if m == 4 {
    } else if m == 5 {
    } else if m == 6 {
    } else if m == 7 {
    } else if m == 8 {
    } else if m == 9 {
    } else if m == 10 {
    } else {
    }
  }

  /** The day number of the next day is one more: `DayNumber` agrees with `NextDate`. */
  lemma DayNumberNext(d: Date)
    requires ValidDate(d)
    ensures DayNumber(NextDate(d)) == DayNumber(d) + 1
  {
    var n := NextDate(d);
    if d.day < DaysInMonth(d.year, d.month) {
      assert n == Date(d.year, d.month, d.day + 1);
      assert DayOfShiftedYear(n.month, n.day) == DayOfShiftedYear(d.month, d.day) + 1;
    } else if d.month == 2 {
      assert n == Date(d.year, 3, 1);
      MarchFirstStep(d.year - 1);
      assert DayOfShiftedYear(3, 1) == 0;
      assert DayOfShiftedYear(2, d.day) == 336 + d.day;
    } else if d.month < 12 {
      assert n == Date(d.year, d.month + 1, 1);
      MonthEndStep(d.year, d.month);
    } else {
      assert n == Date(d.year + 1, 1, 1);
      assert DayOfShiftedYear(12, 31) == 305 && DayOfShiftedYear(1, 1) == 306;
    }
  }

  lemma ModStep7(x: int)
    ensures (x + 1) % 7 == (x % 7 + 1) % 7
  {
    var q := x / 7;
    assert x == 7 * q + x % 7;
  }

  /** Monday is 0 and Sunday 6, as Python's `date.weekday()`; 1970-01-01 was a Thursday. */
  function Weekday(d: Date): (w: int)
    requires 1 <= d.month <= 12
    ensures 0 <= w < 7
  {
    (DayNumber(d) + 3) % 7
  }

  lemma WeekdayNext(d: Date)
    requires ValidDate(d)
    ensures Weekday(NextDate(d)) == (Weekday(d) + 1) % 7
  {
    DayNumberNext(d);
    ModStep7(DayNumber(d) + 3);
  }

  /** A parsed `datetime`: the wall-clock fields as written, and the UTC offset in minutes when one is given. */
  datatype Stamp = Stamp(date: Date, hour: int, minute: int, second: int, offsetMinutes: Option<int>)
  {
    /** An offset-aware value; comparing one with a naive value raises TypeError in Python. */
    predicate Aware() { offsetMinutes.Some? }
  }

  predicate IsAsciiDigit(c: char)
  {
    '0' <= c <= '9'
  }

  /** The number written by the `n` ASCII digits of `s` from `i`, or None. */
  function DigitsAt(s: string, i: nat, n: nat): (r: Option<nat>)
    requires i + n <= |s|
    ensures r.Some? <==> forall k :: i <= k < i + n ==> IsAsciiDigit(s[k])
    decreases n
  {
    if n == 0 then Some(0)
    else
      var c := s[i + n - 1];
      match DigitsAt(s, i, n - 1)
      case None => None
      case Some(v) => if IsAsciiDigit(c) then Some(v * 10 + (c as int - '0' as int)) else None
  }

  lemma DigitsAtBound(s: string, i: nat, n: nat)
    requires i + n <= |s| && DigitsAt(s, i, n).Some?
    ensures DigitsAt(s, i, n).value < Pow10(n)
    decreases n
  {
    if n > 0 {
      DigitsAtBound(s, i, n - 1);
    }
  }

  function Pow10(n: nat): nat
  {
    if n == 0 then 1 else 10 * Pow10(n - 1)
  }

  /** `YYYY-MM-DD` at the start of `s`, validated as Python's `date` does. */
  function ParseDate(s: string): (r: Option<Date>)
    requires |s| >= 10
    ensures r.Some? ==> ValidDate(r.value)
  {
    var y, m, d := DigitsAt(s, 0, 4), DigitsAt(s, 5, 2), DigitsAt(s, 8, 2);
    if s[4] != '-' || s[7] != '-' || y.None? || m.None? || d.None? then None
    else if 1 <= y.value <= 9999 && 1 <= m.value <= 12 && 1 <= d.value <= DaysInMonth(y.value, m.value) then
      Some(Date(y.value, m.value, d.value))
    else None
  }

  /** `HH:MM` at position `i`. */
  function ParseHourMinute(s: string, i: nat): (r: Option<(nat, nat)>)
    requires i + 5 <= |s|
  {
    var h, m := DigitsAt(s, i, 2), DigitsAt(s, i + 3, 2);
    if s[i + 2] != ':' || h.None? || m.None? then None else Some((h.value, m.value))
  }

  /** `HH:MM:SS` at position 11, in range. */
  function ParseClock(s: string): (r: Option<(nat, nat, nat)>)
    requires |s| >= 19
    ensures r.Some? ==> r.value.0 < 24 && r.value.1 < 60 && r.value.2 < 60
  {
    var hm := ParseHourMinute(s, 11);
    var sec := DigitsAt(s, 17, 2);
    if hm.None? || sec.None? || s[16] != ':' then None
    else if hm.value.0 < 24 && hm.value.1 < 60 && sec.value < 60 then Some((hm.value.0, hm.value.1, sec.value))
    else None
  }

  /** `+HH:MM` or `-HH:MM` at position 19, as signed minutes strictly inside one day. */
  function ParseOffset(s: string): (r: Option<int>)
    requires |s| >= 25
    ensures r.Some? ==> -1440 < r.value < 1440
  {
    var hm := ParseHourMinute(s, 20);
    if (s[19] != '+' && s[19] != '-') || hm.None? then None
    else if hm.value.0 < 24 && hm.value.1 < 60 then
      var off := hm.value.0 * 60 + hm.value.1;
      Some(if s[19] == '-' then -off else off)
    else None
  }

  /**
   * `datetime.fromisoformat(s)` for `YYYY-MM-DD` and for
   * `YYYY-MM-DD?HH:MM:SS[+HH:MM|-HH:MM]`, where `?` is any single character;
   * None where Python raises ValueError.
   */
  function ParseIsoDateTime(s: string): (r: Option<Stamp>)
    ensures r.Some? ==> (ValidDate(r.value.date) && 0 <= r.value.hour < 24
                         && 0 <= r.value.minute < 60 && 0 <= r.value.second < 60)
    ensures r.Some? && r.value.offsetMinutes.Some? ==> -1440 < r.value.offsetMinutes.value < 1440
    ensures r.Some? ==> |s| == 10 || |s| == 19 || |s| == 25
  {
    if |s| < 10 then None
    else
      var date := ParseDate(s);
      if date.None? then None
      else if |s| == 10 then Some(Stamp(date.value, 0, 0, 0, None))
      else if |s| != 19 && |s| != 25 then None
      else
        var clock := ParseClock(s);
        if clock.None? then None
        else if |s| == 19 then Some(Stamp(date.value, clock.value.0, clock.value.1, clock.value.2, None))
        else
          var off := ParseOffset(s);
          if off.None? then None
          else Some(Stamp(date.value, clock.value.0, clock.value.1, clock.value.2, Some(off.value)))
  }

  /** Seconds since 1970-01-01T00:00:00Z of an offset-aware stamp. */
  function UtcSeconds(st: Stamp): int
    requires st.Aware() && 1 <= st.date.month <= 12
  {
    DayNumber(st.date) * 86400 + st.hour * 3600 + st.minute * 60 + st.second - st.offsetMinutes.value * 60
  }

  const MicrosPerSecond: int := 1_000_000

  /** The same instant in microseconds, the resolution of Python's `timedelta`. */
  function UtcMicros(st: Stamp): int
    requires st.Aware() && 1 <= st.date.month <= 12
  {
    UtcSeconds(st) * MicrosPerSecond
  }

  /** A concrete check of the parser on the feed's own timestamp form. */
  lemma ParseExample()
    ensures ParseIsoDateTime(Example) == Some(Stamp(Date(2024, 9, 6), 0, 20, 0, Some(0)))
  {
    ExampleDate();
    ExampleClock();
    ExampleOffset();
  }

  const Example: string := "2024-09-06T00:20:00+00:00"

  lemma ExampleDate()
    ensures ParseDate(Example) == Some(Date(2024, 9, 6))
  {
    DateFields(Example);
  }

  /** The date part of the example, read character by character. */
  lemma DateFields(s: string)
    requires |s| >= 10 && s[..10] == "2024-09-06"
    ensures ParseDate(s) == Some(Date(2024, 9, 6))
  {
    assert s[0] == '2' && s[1] == '0' && s[2] == '2' && s[3] == '4' by { assert s[..10][0] == s[0]; }
    assert DigitsAt(s, 0, 1) == Some(2);
    assert DigitsAt(s, 0, 2) == Some(20);
    assert DigitsAt(s, 0, 3) == Some(202);
    assert DigitsAt(s, 0, 4) == Some(2024);
    TwoDigits(s, 5);
    TwoDigits(s, 8);
  }

  lemma ExampleClock()
    ensures ParseClock(Example) == Some((0, 20, 0))
  {
    ClockFields(Example);
  }

  /** The clock part of the example, read character by character. */
  lemma ClockFields(s: string)
    requires |s| >= 19 && s[10..19] == "T00:20:00"
    ensures ParseClock(s) == Some((0, 20, 0))
  {
    assert s[11] == '0' && s[12] == '0' && s[13] == ':' && s[14] == '2' && s[15] == '0'
        && s[16] == ':' && s[17] == '0' && s[18] == '0' by { assert s[10..19][1] == s[11]; }
    TwoDigits(s, 11);
    TwoDigits(s, 14);
    TwoDigits(s, 17);
  }

  lemma ExampleOffset()
    ensures ParseOffset(Example) == Some(0)
  {
    var s := Example;
    TwoDigits(s, 20);
    TwoDigits(s, 23);
  }

  /** Two ASCII digits read as a number. */
  lemma TwoDigits(s: string, i: nat)
    requires i + 2 <= |s| && IsAsciiDigit(s[i]) && IsAsciiDigit(s[i + 1])
    ensures DigitsAt(s, i, 2) == Some((s[i] as int - '0' as int) * 10 + (s[i + 1] as int - '0' as int))
  {
    assert DigitsAt(s, i, 1) == Some(s[i] as int - '0' as int);
  }
}

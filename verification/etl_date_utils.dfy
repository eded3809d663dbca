// backend/etl/utils/date_utils.py: lenient date parsing for the ETL
// extractors. Every failure yields None instead of raising.

module EtlDateUtils {
  import opened Common
  import opened Strings

  /** A calendar date (Python `datetime.date`). */
  datatype Date = Date(year: int, month: int, day: int)

  /** A date and time as `datetime.fromisoformat` yields it. */
  datatype DateTime = DateTime(date: Date, hour: int, minute: int, second: int,
                               microsecond: int, utcOffsetMinutes: Option<int>)

  /** The start and end bounds `parse_temporal_extent` returns. */
  datatype DatePair = DatePair(start: Option<Date>, end: Option<Date>)

  /** The `{'start': ..., 'end': ...}` text bounds handed to it. */
  datatype TextPair = TextPair(start: Option<string>, end: Option<string>)

  predicate IsLeap(y: int) {
    y % 4 == 0 && (y % 100 != 0 || y % 400 == 0)
  }

  function DaysInMonth(y: int, m: int): int
    requires 1 <= m <= 12
  {
    if m == 2 then (if IsLeap(y) then 29 else 28)
    else if m == 4 || m == 6 || m == 9 || m == 11 then 30
    else 31
  }

  /** The dates Python's `date` accepts: years 1 to 9999 and real days of the month. */
  predicate ValidDate(d: Date) {
    1 <= d.year <= 9999 && 1 <= d.month <= 12 && 1 <= d.day <= DaysInMonth(d.year, d.month)
  }

  predicate IsDigit(c: char) { '0' <= c <= '9' }

  function DigitValue(c: char): int
    requires IsDigit(c)
  {
    c as int - '0' as int
  }

  function DigitChar(n: int): char
    requires 0 <= n <= 9
  {
    ('0' as int + n) as char
  }

  /** The `%Y` directive of `strptime`: exactly four digits. */
  function YearField(t: string): Option<int> {
    if |t| == 4 && IsDigit(t[0]) && IsDigit(t[1]) && IsDigit(t[2]) && IsDigit(t[3]) then
      Some(1000 * DigitValue(t[0]) + 100 * DigitValue(t[1]) + 10 * DigitValue(t[2]) + DigitValue(t[3]))
    else None
  }

  /**
   * The `%m` directive: `1[0-2]`, `0[1-9]` or `[1-9]`. It is always
   * followed by `-`, which no alternative contains, so the field is the
   * whole text up to that `-`.
   */
  function MonthField(t: string): Option<int> {
    if |t| == 1 && '1' <= t[0] <= '9' then Some(DigitValue(t[0]))
    else if |t| == 2 && t[0] == '0' && '1' <= t[1] <= '9' then Some(DigitValue(t[1]))
    else if |t| == 2 && t[0] == '1' && '0' <= t[1] <= '2' then Some(10 + DigitValue(t[1]))
    else None
  }

  /**
   * The `%d` directive: `3[01]`, `[12]\d`, `0[1-9]`, `[1-9]` or a space
   * followed by `[1-9]`. It ends the format, and `strptime` rejects
   * unconverted trailing text, so the first alternative that matches must
   * take the whole remainder. That holds exactly for the texts below.
   */
  function DayField(t: string): Option<int> {
    if |t| == 1 && '1' <= t[0] <= '9' then Some(DigitValue(t[0]))
    else if |t| == 2 && (t[0] == '0' || t[0] == ' ') && '1' <= t[1] <= '9' then Some(DigitValue(t[1]))
    else if |t| == 2 && (t[0] == '1' || t[0] == '2') && IsDigit(t[1]) then
      Some(10 * DigitValue(t[0]) + DigitValue(t[1]))
    else if |t| == 2 && t[0] == '3' && (t[1] == '0' || t[1] == '1') then Some(30 + DigitValue(t[1]))
    else None
  }

  /** `datetime.strptime(s, '%Y-%m-%d').date()`, with None for a ValueError. */
  function StrptimeYmd(s: string): (r: Option<Date>)
    ensures r.Some? ==> ValidDate(r.value)
  {
    if |s| < 5 || s[4] != '-' then None
    else
      var rest := s[5..];
      var j := IndexOf(rest, '-');
      if j == |rest| then None
      else
        match (YearField(s[..4]), MonthField(rest[..j]), DayField(rest[j + 1..]))
        case (Some(y), Some(m), Some(d)) =>
          if ValidDate(Date(y, m, d)) then Some(Date(y, m, d)) else None
        case _ => None
  }

  function Pad2(n: int): string
    requires 0 <= n <= 99
  {
    [DigitChar(n / 10), DigitChar(n % 10)]
  }

  function Pad4(n: int): string
    requires 0 <= n <= 9999
  {
    [DigitChar(n / 1000), DigitChar(n / 100 % 10), DigitChar(n / 10 % 10), DigitChar(n % 10)]
  }

  /** The full-date form of section 5.6 of RFC 3339 (`date.isoformat()`). */
  function FullDate(d: Date): string
    requires ValidDate(d)
  {
    Pad4(d.year) + "-" + Pad2(d.month) + "-" + Pad2(d.day)
  }

  lemma YearFieldPad4(y: int)
    requires 0 <= y <= 9999
    ensures YearField(Pad4(y)) == Some(y)
  {
    var a, b, c, e := y / 1000, y / 100 % 10, y / 10 % 10, y % 10;
    assert y / 100 == 10 * a + b;
    assert y / 10 == 10 * (y / 100) + c;
    assert y == 10 * (y / 10) + e;
  }

  lemma MonthFieldPad2(m: int)
    requires 1 <= m <= 12
    ensures MonthField(Pad2(m)) == Some(m)
  {
  }

  lemma DayFieldPad2(d: int)
    requires 1 <= d <= 31
    ensures DayField(Pad2(d)) == Some(d)
  {
  }

  /** Every RFC 3339 full-date of a real day is accepted and read back unchanged. */
  lemma StrptimeFullDate(d: Date)
    requires ValidDate(d)
    ensures StrptimeYmd(FullDate(d)) == Some(d)
  {
    var s := FullDate(d);
    YearFieldPad4(d.year);
    MonthFieldPad2(d.month);
    DayFieldPad2(d.day);
    assert s[..4] == Pad4(d.year);
    var rest := s[5..];
    assert rest == Pad2(d.month) + "-" + Pad2(d.day);
    assert IndexOf(rest, '-') == 2;
    assert rest[..2] == Pad2(d.month);
    assert rest[3..] == Pad2(d.day);
  }

  /** Month and day may also be written without their leading zero. */
  lemma StrptimeUnpadded(d: Date)
    requires ValidDate(d) && d.month < 10 && d.day < 10
    ensures StrptimeYmd(Pad4(d.year) + "-" + [DigitChar(d.month)] + "-" + [DigitChar(d.day)]) == Some(d)
  {
    var s := Pad4(d.year) + "-" + [DigitChar(d.month)] + "-" + [DigitChar(d.day)];
    YearFieldPad4(d.year);
    assert s[..4] == Pad4(d.year);
    var rest := s[5..];
    assert IndexOf(rest, '-') == 1;
    assert rest[..1] == [DigitChar(d.month)];
    assert rest[2..] == [DigitChar(d.day)];
  }

  /** The first `c` of `a + [c] + b` is the one after `a`. */
  lemma BeforeAppend(a: string, c: char, b: string)
    requires c !in a
    ensures Before(a + [c] + b, c) == a
  {
    var s := a + [c] + b;
    assert s[|a|] == c;
    assert s[..|a|] == a;
  }

  /** A day that the month does not have is refused. */
  lemma StrptimeRejectsFeb29()
    ensures StrptimeYmd("2023-02-29") == None
  {
    BeforeAppend("02", '-', "29");
    assert "2023-02-29"[5..] == "02" + "-" + "29";
  }

  /** Year 0 is outside Python's date range. */
  lemma StrptimeRejectsYearZero()
    ensures StrptimeYmd("0000-01-01") == None
  {
    BeforeAppend("01", '-', "01");
    assert "0000-01-01"[5..] == "01" + "-" + "01";
  }

  /** Trailing text after the day is refused. */
  lemma StrptimeRejectsTrailing()
    ensures StrptimeYmd("2024-01-5x") == None
  {
    BeforeAppend("01", '-', "5x");
    assert "2024-01-5x"[5..] == "01" + "-" + "5x";
  }

  /**
   * `parse_date`: a missing or empty value gives None; otherwise only the
   * text before the first `T` is parsed as `%Y-%m-%d`.
   */
  function ParseDate(s: Option<string>): (r: Option<Date>)
    ensures r.Some? ==> ValidDate(r.value) && s.Some? && s.value != []
  {
    if s.None? || s.value == [] then None
    else StrptimeYmd(Before(s.value, 'T'))
  }

  /** Whatever follows the first `T` is ignored. */
  lemma ParseDateIgnoresTime(p: string, time: string)
    requires 'T' !in p && p != []
    ensures ParseDate(Some(p + "T" + time)) == StrptimeYmd(p)
  {
    var s := p + "T" + time;
    assert s[..|p|] == p && s[|p|] == 'T';
    assert IndexOf(s, 'T') == |p|;
  }

  /** An RFC 3339 date, alone or followed by a time, parses to that date. */
  lemma ParseDateFullDate(d: Date, time: string)
    requires ValidDate(d)
    ensures ParseDate(Some(FullDate(d))) == Some(d)
    ensures ParseDate(Some(FullDate(d) + "T" + time)) == Some(d)
  {
    StrptimeFullDate(d);
    var s := FullDate(d);
    assert 'T' !in s;
    ParseDateIgnoresTime(s, time);
  }

  /**
   * The rewriting `parse_datetime` applies before `fromisoformat`: cut at
   * the first `+`, delete every `Z`, then cut at the first `.`.
   */
  function IsoRewrite(s: string): (r: string)
    ensures '+' !in r && 'Z' !in r && '.' !in r
    ensures |r| <= |s|
  {
    var a := if '+' in s then Before(s, '+') else s;
    var b := if 'Z' in a then RemoveChar(a, 'Z') else a;
    if '.' in b then Before(b, '.') else b
  }

  /** Text without an offset, a `Z` or fractional seconds is left as it is. */
  lemma IsoRewriteFixes(s: string)
    requires '+' !in s && 'Z' !in s && '.' !in s
    ensures IsoRewrite(s) == s
  {
  }

  /** Rewriting twice changes nothing more. */
  lemma IsoRewriteIdempotent(s: string)
    ensures IsoRewrite(IsoRewrite(s)) == IsoRewrite(s)
  {
    IsoRewriteFixes(IsoRewrite(s));
  }

  /**
   * A time with fractional seconds and a `+hh:mm` offset keeps only the
   * text before the fraction, as for `2025-11-13T16:18:58.000+00:00`.
   */
  lemma IsoRewriteDropsFractionAndOffset(base: string, fraction: string, offset: string)
    requires '+' !in base && 'Z' !in base && '.' !in base
    requires '+' !in fraction && 'Z' !in fraction
    ensures IsoRewrite(base + "." + fraction + "+" + offset) == base
  {
    var a := base + "." + fraction;
    assert '+' !in a;
    BeforeAppend(a, '+', offset);
    assert 'Z' !in a;
    BeforeAppend(base, '.', fraction);
  }

  /** A trailing `Z`, as in `2025-11-13T16:18:58Z`, is removed. */
  lemma IsoRewriteDropsZulu(base: string)
    requires '+' !in base && 'Z' !in base && '.' !in base
    ensures IsoRewrite(base + "Z") == base
  {
    var z := base + "Z";
    assert '+' !in z;
    RemoveCharAppend(base, "Z", 'Z');
    RemoveCharAbsent(base, 'Z');
    assert RemoveChar("Z", 'Z') == "";
  }

  lemma {:induction false} RemoveCharAbsent(a: string, c: char)
    requires c !in a
    ensures RemoveChar(a, c) == a
    decreases |a|
  {
    if a != [] {
      RemoveCharAbsent(a[1..], c);
    }
  }

  lemma {:induction false} RemoveCharAppend(a: string, b: string, c: char)
    ensures RemoveChar(a + b, c) == RemoveChar(a, c) + RemoveChar(b, c)
    decreases |a|
  {
    if a != [] {
      RemoveCharAppend(a[1..], b, c);
      assert (a + b)[1..] == a[1..] + b;
    } else {
      assert a + b == b;
    }
  }

  /**
   * `parse_datetime`: a missing or empty value gives None; otherwise the
   * rewritten text goes to `fromisoformat`, here the parameter `fromIso`,
   * whose failures are None as well.
   */
  function ParseDateTime(s: Option<string>, fromIso: string -> Option<DateTime>): (r: Option<DateTime>)
    ensures s.None? || s == Some([]) ==> r.None?
    ensures s.Some? && s.value != [] ==> r == fromIso(IsoRewrite(s.value))
  {
    if s.None? || s.value == [] then None else fromIso(IsoRewrite(s.value))
  }

  /**
   * `parse_temporal_extent`: None when no bounds were given or when
   * neither bound parses; otherwise both bounds, each parsed on its own.
   */
  function ParseTemporalExtent(t: Option<TextPair>): (r: Option<DatePair>)
    ensures r.Some? <==> t.Some? && (ParseDate(t.value.start).Some? || ParseDate(t.value.end).Some?)
    ensures r.Some? ==> r.value.start == ParseDate(t.value.start) && r.value.end == ParseDate(t.value.end)
  {
    if t.None? then None
    else
      var start := ParseDate(t.value.start);
      var end := ParseDate(t.value.end);
      if start.Some? || end.Some? then Some(DatePair(start, end)) else None
  }
}

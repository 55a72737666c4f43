/** Calendar dates written `YYYY-MM-DD` in the proleptic Gregorian calendar:
    lexical shape, calendar validity, parsing, rendering and chronological order. */
module Calendar {
  import opened Digits
  import opened Validation

  datatype Date = Date(year: nat, month: nat, day: nat)

  predicate IsLeapYear(y: nat) {
    y % 4 == 0 && (y % 100 != 0 || y % 400 == 0)
  }

  function DaysInMonth(y: nat, m: nat): nat
    requires 1 <= m <= 12
  {
    if m == 2 then (if IsLeapYear(y) then 29 else 28)
    else if m == 4 || m == 6 || m == 9 || m == 11 then 30
    else 31
  }

  /** The date names a day that exists: month 1 to 12, day 1 to the month's length. */
  predicate IsRealDay(d: Date) {
    1 <= d.month <= 12 && 1 <= d.day <= DaysInMonth(d.year, d.month)
  }

  /** Exactly four digits, a hyphen, two digits, a hyphen, two digits. */
  predicate HasDateShape(s: string) {
    |s| == 10 && s[4] == '-' && s[7] == '-'
    && AllDigits(s[..4]) && AllDigits(s[5..7]) && AllDigits(s[8..])
  }

  function DateFields(s: string): Date
    requires HasDateShape(s)
  {
    Date(Value(s[..4]), Value(s[5..7]), Value(s[8..]))
  }

  /** `YYYY-MM-DD`, zero-padded. */
  function FormatDate(d: Date): string {
    Render(d.year, 4) + "-" + Render(d.month, 2) + "-" + Render(d.day, 2)
  }

  /** Reads a date; a wrong shape and a non-existent day are different errors. */
  function ParseDate(s: string): (r: Result<Date>)
    ensures r == Failure(InvalidDateFormat) <==> !HasDateShape(s)
    ensures r == Failure(InvalidDateValue) <==> HasDateShape(s) && !IsRealDay(DateFields(s))
    ensures r.Success? <==> HasDateShape(s) && IsRealDay(DateFields(s))
    ensures r.Success? ==> IsRealDay(r.value) && r.value.year < 10000 && FormatDate(r.value) == s
  {
    if !HasDateShape(s) then Failure(InvalidDateFormat)
    else
      var d := DateFields(s);
      if !IsRealDay(d) then Failure(InvalidDateValue)
      else
        RenderOfValue(s[..4]);
        RenderOfValue(s[5..7]);
        RenderOfValue(s[8..]);
        assert s == s[..4] + "-" + s[5..7] + "-" + s[8..];
        Success(d)
  }

  /** Rendering fields that fit their widths gives text of the right shape
      whose fields read back unchanged; the text is then accepted exactly when
      the day exists, and otherwise refused as a non-existent day. */
  lemma ParseFormatDate(d: Date)
    requires d.year < 10000 && d.month < 100 && d.day < 100
    ensures HasDateShape(FormatDate(d)) && DateFields(FormatDate(d)) == d
    ensures ParseDate(FormatDate(d)) == if IsRealDay(d) then Success(d) else Failure(InvalidDateValue)
  {
    var s := FormatDate(d);
    assert s[..4] == Render(d.year, 4);
    assert s[5..7] == Render(d.month, 2);
    assert s[8..] == Render(d.day, 2);
    ValueOfRender(d.year, 4);
    ValueOfRender(d.month, 2);
    ValueOfRender(d.day, 2);
  }

  /** Two texts that read as the same day are the same text. */
  lemma DateTextInjective(s: string, t: string)
    requires ParseDate(s).Success? && ParseDate(t).Success?
    requires ParseDate(s).value == ParseDate(t).value
    ensures s == t
  {
  }

  /** Field-by-field order: year, then month, then day. */
  predicate DateBefore(a: Date, b: Date) {
    a.year < b.year
    || (a.year == b.year && a.month < b.month)
    || (a.year == b.year && a.month == b.month && a.day < b.day)
  }

  function DaysInYear(y: nat): nat {
    if IsLeapYear(y) then 366 else 365
  }

  /** Days in the years 0 to y-1. */
  function DaysBeforeYear(y: nat): nat {
    if y == 0 then 0 else DaysBeforeYear(y - 1) + DaysInYear(y - 1)
  }

  /** Days in months 1 to m-1 of year y. */
  function DaysBeforeMonth(y: nat, m: nat): nat
    requires 1 <= m <= 13
  {
    if m == 1 then 0 else DaysBeforeMonth(y, m - 1) + DaysInMonth(y, m - 1)
  }

  /** The number of days from 0000-01-01 to the date: a chronological count. */
  function DayNumber(d: Date): nat
    requires IsRealDay(d)
  {
    DaysBeforeYear(d.year) + DaysBeforeMonth(d.year, d.month) + d.day - 1
  }

  lemma MonthsFillYear(y: nat)
    ensures DaysBeforeMonth(y, 13) == DaysInYear(y)
  {
    var feb := DaysInMonth(y, 2);
    assert DaysBeforeMonth(y, 2) == 31;
    assert DaysBeforeMonth(y, 3) == 31 + feb;
    assert DaysBeforeMonth(y, 4) == 62 + feb;
    assert DaysBeforeMonth(y, 5) == 92 + feb;
    assert DaysBeforeMonth(y, 6) == 123 + feb;
    assert DaysBeforeMonth(y, 7) == 153 + feb;
    assert DaysBeforeMonth(y, 8) == 184 + feb;
    assert DaysBeforeMonth(y, 9) == 215 + feb;
    assert DaysBeforeMonth(y, 10) == 245 + feb;
    assert DaysBeforeMonth(y, 11) == 276 + feb;
    assert DaysBeforeMonth(y, 12) == 306 + feb;
    assert DaysBeforeMonth(y, 13) == 337 + feb;
  }

  lemma {:induction false} DaysBeforeMonthMonotone(y: nat, m: nat, n: nat)
    requires 1 <= m < n <= 13
    ensures DaysBeforeMonth(y, m) + DaysInMonth(y, m) <= DaysBeforeMonth(y, n)
  {
    if n > m + 1 {
      DaysBeforeMonthMonotone(y, m, n - 1);
    }
  }

  lemma {:induction false} DaysBeforeYearMonotone(y: nat, z: nat)
    requires y < z
    ensures DaysBeforeYear(y) + DaysInYear(y) <= DaysBeforeYear(z)
  {
    if z > y + 1 {
      DaysBeforeYearMonotone(y, z - 1);
    }
  }

  /** A real day falls inside its own year's span of day numbers. */
  lemma DayNumberWithinYear(d: Date)
    requires IsRealDay(d)
    ensures DaysBeforeYear(d.year) <= DayNumber(d) < DaysBeforeYear(d.year) + DaysInYear(d.year)
  {
    MonthsFillYear(d.year);
    if d.month < 12 {
      DaysBeforeMonthMonotone(d.year, d.month, 13);
    }
  }

  /** The field-by-field order on real days is chronological: it agrees with
      the count of days elapsed, in both directions. */
  lemma DateBeforeIsChronological(a: Date, b: Date)
    requires IsRealDay(a) && IsRealDay(b)
    ensures DateBefore(a, b) <==> DayNumber(a) < DayNumber(b)
    ensures a == b <==> DayNumber(a) == DayNumber(b)
  {
    DayNumberWithinYear(a);
    DayNumberWithinYear(b);
    if a.year < b.year {
      DaysBeforeYearMonotone(a.year, b.year);
    } else if b.year < a.year {
      DaysBeforeYearMonotone(b.year, a.year);
    } else if a.month < b.month {
      DaysBeforeMonthMonotone(a.year, a.month, b.month);
    } else if b.month < a.month {
      DaysBeforeMonthMonotone(b.year, b.month, a.month);
    }
  }
}

/** Same-day time periods written `HHMM-HHMM` on a 24-hour clock. */
module TimePeriod {
  import opened Digits
  import opened Validation

  const MINUTES_PER_DAY: nat := 24 * 60

  /** Start and end as minutes since midnight. */
  datatype Period = Period(start: nat, end: nat)

  /** `HHMM` with hours 00 to 23 and minutes 00 to 59. */
  predicate IsClockTime(t: string) {
    |t| == 4 && AllDigits(t) && Value(t[..2]) <= 23 && Value(t[2..]) <= 59
  }

  function ClockMinutes(t: string): (m: nat)
    requires IsClockTime(t)
    ensures m < MINUTES_PER_DAY
  {
    Value(t[..2]) * 60 + Value(t[2..])
  }

  /** Exactly two clock times joined by a hyphen, nothing before or after. */
  predicate HasPeriodShape(s: string) {
    |s| == 9 && s[4] == '-' && IsClockTime(s[..4]) && IsClockTime(s[5..])
  }

  function PeriodTimes(s: string): Period
    requires HasPeriodShape(s)
  {
    Period(ClockMinutes(s[..4]), ClockMinutes(s[5..]))
  }

  function FormatClock(m: nat): string {
    Render(m / 60, 2) + Render(m % 60, 2)
  }

  /** `HHMM-HHMM`, zero-padded. */
  function FormatPeriod(p: Period): string {
    FormatClock(p.start) + "-" + FormatClock(p.end)
  }

  /** A valid period: both ends on the clock and the start strictly first. */
  predicate IsProperPeriod(p: Period) {
    p.start < p.end < MINUTES_PER_DAY
  }

  /** The time-period validator: a wrong shape and a start that is not
      strictly before the end are different errors. */
  function CheckTimePeriod(s: string): (r: Result<Period>)
    ensures r == Failure(InvalidTimePeriodFormat) <==> !HasPeriodShape(s)
    ensures r == Failure(InvalidTimePeriodOrder) <==>
      HasPeriodShape(s) && PeriodTimes(s).start >= PeriodTimes(s).end
    ensures r.Success? <==> HasPeriodShape(s) && PeriodTimes(s).start < PeriodTimes(s).end
    ensures r.Success? ==> IsProperPeriod(r.value) && FormatPeriod(r.value) == s
  {
    if !HasPeriodShape(s) then Failure(InvalidTimePeriodFormat)
    else
      var p := PeriodTimes(s);
      if p.start >= p.end then Failure(InvalidTimePeriodOrder)
      else
        FormatOfClock(s[..4]);
        FormatOfClock(s[5..]);
        assert s == s[..4] + "-" + s[5..];
        Success(p)
  }

  /** The stand-alone validity check: a text is a valid period exactly when
      it is the rendering of a period that starts before it ends. */
  predicate IsTimePeriodValid(s: string): (b: bool)
    ensures b <==> exists p: Period :: IsProperPeriod(p) && FormatPeriod(p) == s
  {
    if CheckTimePeriod(s).Success? then
      assert IsProperPeriod(CheckTimePeriod(s).value) && FormatPeriod(CheckTimePeriod(s).value) == s;
      true
    else
      assert forall p: Period :: IsProperPeriod(p) ==> CheckTimePeriod(FormatPeriod(p)).Success? by {
        forall p: Period | IsProperPeriod(p) {
          CheckFormatPeriod(p);
        }
      }
      false
  }

  lemma FormatOfClock(t: string)
    requires IsClockTime(t)
    ensures FormatClock(ClockMinutes(t)) == t
  {
    var h, m := Value(t[..2]), Value(t[2..]);
    assert ClockMinutes(t) / 60 == h && ClockMinutes(t) % 60 == m;
    RenderOfValue(t[..2]);
    RenderOfValue(t[2..]);
    assert t == t[..2] + t[2..];
  }

  lemma ClockOfFormat(m: nat)
    requires m < MINUTES_PER_DAY
    ensures IsClockTime(FormatClock(m)) && ClockMinutes(FormatClock(m)) == m
  {
    var t := FormatClock(m);
    assert t[..2] == Render(m / 60, 2);
    assert t[2..] == Render(m % 60, 2);
    ValueOfRender(m / 60, 2);
    ValueOfRender(m % 60, 2);
  }

  /** Rendering two clock times gives a well-shaped period whose times read
      back unchanged; it is accepted exactly when the start is strictly before
      the end, and otherwise refused for its order. */
  lemma CheckFormatPeriod(p: Period)
    requires p.start < MINUTES_PER_DAY && p.end < MINUTES_PER_DAY
    ensures HasPeriodShape(FormatPeriod(p)) && PeriodTimes(FormatPeriod(p)) == p
    ensures CheckTimePeriod(FormatPeriod(p)) ==
      if p.start < p.end then Success(p) else Failure(InvalidTimePeriodOrder)
  {
    var s := FormatPeriod(p);
    assert s[..4] == FormatClock(p.start);
    assert s[5..] == FormatClock(p.end);
    ClockOfFormat(p.start);
    ClockOfFormat(p.end);
  }

  /** Strict overlap of two periods: each starts before the other ends. */
  predicate Overlaps(p: Period, q: Period) {
    p.start < q.end && q.start < p.end
  }

  /** The minute starting at `t` lies inside the period. */
  predicate Covers(p: Period, t: nat) {
    p.start <= t < p.end
  }

  /** For periods whose start precedes their end, strict overlap means the two
      share a whole minute: touching end points do not overlap. */
  lemma OverlapsIffSharedMinute(p: Period, q: Period)
    requires p.start < p.end && q.start < q.end
    ensures Overlaps(p, q) <==> exists t: nat :: Covers(p, t) && Covers(q, t)
  {
    if Overlaps(p, q) {
      var t := if p.start < q.start then q.start else p.start;
      assert Covers(p, t) && Covers(q, t);
    }
  }
}

/** An appointment: a free-text label, a calendar day and a same-day time
    period. It is immutable; it keeps the text it was built from (for display
    and equality) together with the parsed day and minutes (for ordering and
    clash detection). */
module Appointment {
  import opened Validation
  import opened Calendar
  import opened TimePeriod

  datatype Option<+T> = None | Some(value: T)

  datatype Appointment = Appointment(
    name: string,
    date: string,
    timePeriod: string,
    day: Date,
    period: Period)

  /** The characters Java's `Character.isWhitespace` accepts. */
  predicate IsWhitespace(c: char) {
    c == ' ' || '\t' <= c <= '\r' || '\U{1C}' <= c <= '\U{1F}'
    || c == '\U{1680}' || '\U{2000}' <= c <= '\U{2006}' || '\U{2008}' <= c <= '\U{200A}'
    || c == '\U{2028}' || c == '\U{2029}' || c == '\U{205F}' || c == '\U{3000}'
  }

  /** Every character is whitespace (the empty text included). */
  predicate IsBlank(s: string) {
    forall i :: 0 <= i < |s| ==> IsWhitespace(s[i])
  }

  lemma BlankConcat(x: string, y: string)
    ensures IsBlank(x + y) <==> IsBlank(x) && IsBlank(y)
  {
    var s := x + y;
    assert forall i :: 0 <= i < |x| ==> s[i] == x[i];
    assert forall i :: 0 <= i < |y| ==> s[|x| + i] == y[i];
  }

  /** `s` without its leading whitespace. */
  function StripLeading(s: string): (t: string)
    ensures |t| <= |s| && t == s[|s| - |t|..]
    ensures |t| > 0 ==> !IsWhitespace(t[0])
  {
    if |s| > 0 && IsWhitespace(s[0]) then StripLeading(s[1..]) else s
  }

  /** Stripping leaves nothing exactly when the text is blank. */
  lemma {:induction false} StripLeadingEmpty(s: string)
    ensures StripLeading(s) == [] <==> IsBlank(s)
  {
    if |s| > 0 && IsWhitespace(s[0]) {
      StripLeadingEmpty(s[1..]);
      assert s == [s[0]] + s[1..];
      BlankConcat([s[0]], s[1..]);
    }
  }

  /** A name is valid when it is not blank: some character is not whitespace,
      so that stripping the whitespace in front of it leaves something. */
  predicate IsValidAppointmentName(name: string): (b: bool)
    ensures b <==> StripLeading(name) != []
  {
    StripLeadingEmpty(name);
    !IsBlank(name)
  }

  /** Whitespace around a name does not change whether it is valid. */
  lemma NameValidityIgnoresPadding(before: string, name: string, after: string)
    requires IsBlank(before) && IsBlank(after)
    ensures IsValidAppointmentName(before + name + after) == IsValidAppointmentName(name)
  {
    assert before + name + after == before + (name + after);
    BlankConcat(before, name + after);
    BlankConcat(name, after);
  }

  /** What every constructed appointment satisfies: a valid name, and a day and
      period that are exactly what its date and period text denote. */
  predicate Valid(a: Appointment) {
    IsValidAppointmentName(a.name)
    && ParseDate(a.date) == Success(a.day)
    && CheckTimePeriod(a.timePeriod) == Success(a.period)
  }

  /** The validating constructor. The fields are checked in argument order and
      the first failure is reported; on success the text is kept verbatim. */
  function Make(name: string, date: string, timePeriod: string): (r: Result<Appointment>)
    ensures r.Success? <==>
      IsValidAppointmentName(name) && ParseDate(date).Success? && IsTimePeriodValid(timePeriod)
    ensures r.Success? ==>
      Valid(r.value) && r.value.name == name && r.value.date == date && r.value.timePeriod == timePeriod
    ensures !IsValidAppointmentName(name) ==> r == Failure(InvalidName)
    ensures IsValidAppointmentName(name) && ParseDate(date).Failure? ==>
      r == Failure(ParseDate(date).error)
    ensures IsValidAppointmentName(name) && ParseDate(date).Success? && !IsTimePeriodValid(timePeriod) ==>
      r == Failure(CheckTimePeriod(timePeriod).error)
  {
    if !IsValidAppointmentName(name) then Failure(InvalidName)
    else match ParseDate(date)
      case Failure(e) => Failure(e)
      case Success(d) =>
        match CheckTimePeriod(timePeriod)
        case Failure(e) => Failure(e)
        case Success(p) => Success(Appointment(name, date, timePeriod, d, p))
  }

  /** `name [ date @ timePeriod ]`: each field sits at an offset fixed by the
      lengths of the fields before it, between the bracket and `@` markers. */
  function ToString(a: Appointment): (s: string)
    ensures var n, d, p := |a.name|, |a.date|, |a.timePeriod|;
      |s| == n + d + p + 8 && s[..n] == a.name && s[n..n + 3] == " [ "
      && s[n + 3..n + 3 + d] == a.date && s[n + 3 + d..n + 6 + d] == " @ "
      && s[n + 6 + d..n + 6 + d + p] == a.timePeriod && s[n + 6 + d + p..] == " ]"
  {
    var s := a.name + " [ " + a.date + " @ " + a.timePeriod + " ]";
    var n, d, p := |a.name|, |a.date|, |a.timePeriod|;
    assert s[..n] == a.name && s[n..n + 3] == " [ ";
    assert s[n + 3..n + 3 + d] == a.date && s[n + 3 + d..n + 6 + d] == " @ ";
    assert s[n + 6 + d..n + 6 + d + p] == a.timePeriod && s[n + 6 + d + p..] == " ]";
    s
  }

  /** The facts a valid appointment's fields carry, read off the parsers'
      contracts. */
  lemma ValidFacts(a: Appointment)
    requires Valid(a)
    ensures IsRealDay(a.day) && FormatDate(a.day) == a.date && |a.date| == 10
    ensures IsProperPeriod(a.period) && FormatPeriod(a.period) == a.timePeriod && |a.timePeriod| == 9
    ensures HasPeriodShape(a.timePeriod) && PeriodTimes(a.timePeriod) == a.period
  {
  }

  /** A constructed appointment renders as its name, then its date and period
      text between ` [ ` and ` ]`, separated by ` @ `. */
  lemma MakeThenToString(name: string, date: string, timePeriod: string)
    requires Make(name, date, timePeriod).Success?
    ensures ToString(Make(name, date, timePeriod).value) == name + " [ " + date + " @ " + timePeriod + " ]"
  {
  }

  /** Rendering loses nothing: two appointments that render alike are the same
      appointment. */
  lemma ToStringInjective(a: Appointment, b: Appointment)
    requires Valid(a) && Valid(b)
    requires ToString(a) == ToString(b)
    ensures a == b
  {
    ValidFacts(a);
    ValidFacts(b);
    assert a.name == b.name && a.date == b.date && a.timePeriod == b.timePeriod;
    assert Success(a.day) == ParseDate(a.date) == Success(b.day);
    assert Success(a.period) == CheckTimePeriod(a.timePeriod) == Success(b.period);
  }

  /** The ordering: the day decides, then the start of the period; negative
      means `a` comes first. */
  function Compare(a: Appointment, b: Appointment): (r: int)
    ensures -1 <= r <= 1
    ensures a.day == b.day && a.period == b.period ==> r == 0
  {
    if a.day != b.day then (if DateBefore(a.day, b.day) then -1 else 1)
    else if a.period.start < b.period.start then -1
    else if b.period.start < a.period.start then 1
    else 0
  }

  /** The minute, counted from 0000-01-01 00:00, at which the appointment starts. */
  function StartInstant(a: Appointment): nat
    requires IsRealDay(a.day)
  {
    DayNumber(a.day) * MINUTES_PER_DAY + a.period.start
  }

  /** The ordering is chronological and ascending: whatever the times, the
      earlier day comes first, and on one day the earlier start comes first;
      the same day and period compare equal. */
  lemma CompareIsChronological(a: Appointment, b: Appointment)
    requires Valid(a) && Valid(b)
    ensures StartInstant(a) < StartInstant(b) ==> Compare(a, b) < 0
    ensures StartInstant(b) < StartInstant(a) ==> Compare(a, b) > 0
    ensures a.date == b.date && a.timePeriod == b.timePeriod ==> Compare(a, b) == 0
  {
    ValidFacts(a);
    ValidFacts(b);
    DateBeforeIsChronological(a.day, b.day);
    DateBeforeIsChronological(b.day, a.day);
    InstantOrder(DayNumber(a.day), a.period.start, DayNumber(b.day), b.period.start);
    InstantOrder(DayNumber(b.day), b.period.start, DayNumber(a.day), a.period.start);
  }

  /** Days dominate minutes within a day. */
  lemma InstantOrder(d1: nat, m1: nat, d2: nat, m2: nat)
    requires m1 < MINUTES_PER_DAY && m2 < MINUTES_PER_DAY
    ensures d1 * MINUTES_PER_DAY + m1 < d2 * MINUTES_PER_DAY + m2 <==>
      d1 < d2 || (d1 == d2 && m1 < m2)
  {
    if d1 < d2 {
      assert d1 * MINUTES_PER_DAY + MINUTES_PER_DAY <= d2 * MINUTES_PER_DAY;
    } else if d2 < d1 {
      assert d2 * MINUTES_PER_DAY + MINUTES_PER_DAY <= d1 * MINUTES_PER_DAY;
    }
  }

  /** Swapping the arguments flips the sign. */
  lemma CompareAntisymmetric(a: Appointment, b: Appointment)
    ensures Compare(a, b) == -Compare(b, a)
  {
  }

  /** Order and ties carry over from one pair to the next. */
  lemma CompareTransitive(a: Appointment, b: Appointment, c: Appointment)
    ensures Compare(a, b) < 0 && Compare(b, c) < 0 ==> Compare(a, c) < 0
    ensures Compare(a, b) == 0 ==> Compare(a, c) == Compare(b, c)
  {
  }

  /** Equality with another appointment or with nothing (`null`): the day and
      period text must match. */
  function Equals(a: Appointment, other: Option<Appointment>): (r: bool)
    ensures other.None? ==> !r
    ensures other.Some? && other.value.date != a.date ==> !r
    ensures other.Some? && other.value.timePeriod != a.timePeriod ==> !r
  {
    other.Some? && a.date == other.value.date && a.timePeriod == other.value.timePeriod
  }

  /** Equality is an equivalence relation. */
  lemma EqualsIsEquivalence(a: Appointment, b: Appointment, c: Appointment)
    ensures Equals(a, Some(a))
    ensures Equals(a, Some(b)) ==> Equals(b, Some(a))
    ensures Equals(a, Some(b)) && Equals(b, Some(c)) ==> Equals(a, Some(c))
  {
  }

  /** Equal appointments occupy the same day and period, and so compare as 0. */
  lemma EqualsConsistentWithCompare(a: Appointment, b: Appointment)
    requires Valid(a) && Valid(b) && Equals(a, Some(b))
    ensures a.day == b.day && a.period == b.period
    ensures Compare(a, b) == 0
  {
  }

  /** Whether a candidate slot clashes with the appointment: never on another
      date; on the same date exactly when the two periods strictly overlap.
      The candidate period is read only when the dates agree, and must then
      be well shaped. */
  function IsClashing(a: Appointment, date: string, timePeriod: string): (r: bool)
    requires date != a.date || HasPeriodShape(timePeriod)
    ensures date != a.date ==> !r
    ensures date == a.date ==> (r <==> Overlaps(a.period, PeriodTimes(timePeriod)))
  {
    date == a.date && Overlaps(a.period, PeriodTimes(timePeriod))
  }

  /** A clash on the same date is a shared minute of the two periods. */
  lemma ClashIsSharedMinute(a: Appointment, timePeriod: string)
    requires Valid(a) && IsTimePeriodValid(timePeriod)
    ensures IsClashing(a, a.date, timePeriod) <==>
      exists t: nat :: Covers(a.period, t) && Covers(CheckTimePeriod(timePeriod).value, t)
  {
    OverlapsIffSharedMinute(a.period, CheckTimePeriod(timePeriod).value);
  }

  /** A candidate naming another calendar day never clashes, whatever its period. */
  lemma OtherDayNeverClashes(a: Appointment, date: string, timePeriod: string)
    requires Valid(a) && ParseDate(date).Success? && ParseDate(date).value != a.day
    ensures !IsClashing(a, date, timePeriod)
  {
  }

  /** Clashing is symmetric between two appointments, and every appointment
      clashes with its own slot. */
  lemma ClashIsSymmetric(a: Appointment, b: Appointment)
    requires Valid(a) && Valid(b)
    ensures IsClashing(a, b.date, b.timePeriod) == IsClashing(b, a.date, a.timePeriod)
    ensures IsClashing(a, a.date, a.timePeriod)
  {
    ValidFacts(a);
    ValidFacts(b);
  }
}

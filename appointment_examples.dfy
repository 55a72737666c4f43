/** The concrete cases of the Appointment unit tests, replayed on the model. */
module AppointmentExamples {
  import opened Digits
  import opened Validation
  import opened Calendar
  import opened TimePeriod
  import opened Appointment

  const DENTAL: string := "Dental check up"

  /* Reading literal text is proved through the rendering round trips: each
     fact about a literal is a rendering computed in a lemma of its own,
     which keeps every proof small. */

  lemma Text20241025() ensures FormatDate(Date(2024, 10, 25)) == "2024-10-25" { }

  lemma Date20241025()
    ensures ParseDate("2024-10-25") == Success(Date(2024, 10, 25))
  {
    Text20241025();
    ParseFormatDate(Date(2024, 10, 25));
  }

  lemma Text20241020() ensures FormatDate(Date(2024, 10, 20)) == "2024-10-20" { }

  lemma Date20241020()
    ensures ParseDate("2024-10-20") == Success(Date(2024, 10, 20))
  {
    Text20241020();
    ParseFormatDate(Date(2024, 10, 20));
  }

  lemma Text20241125() ensures FormatDate(Date(2024, 11, 25)) == "2024-11-25" { }

  lemma Date20241125()
    ensures ParseDate("2024-11-25") == Success(Date(2024, 11, 25))
  {
    Text20241125();
    ParseFormatDate(Date(2024, 11, 25));
  }

  lemma DatesRead()
    ensures ParseDate("2024-10-25") == Success(Date(2024, 10, 25))
    ensures ParseDate("2024-10-20") == Success(Date(2024, 10, 20))
    ensures ParseDate("2024-11-25") == Success(Date(2024, 11, 25))
  {
    Date20241025();
    Date20241020();
    Date20241125();
  }

  lemma Clock0845() ensures FormatClock(525) == "0845" { }

  lemma Clock0900() ensures FormatClock(540) == "0900" { }

  lemma Clock0935() ensures FormatClock(575) == "0935" { }

  lemma Clock1000() ensures FormatClock(600) == "1000" { }

  lemma Clock1045() ensures FormatClock(645) == "1045" { }

  lemma Clock1100() ensures FormatClock(660) == "1100" { }

  lemma Clock1200() ensures FormatClock(720) == "1200" { }

  lemma Clock1235() ensures FormatClock(755) == "1235" { }

  lemma Clock1300() ensures FormatClock(780) == "1300" { }

  lemma Clock1345() ensures FormatClock(825) == "1345" { }

  lemma PeriodText(a: nat, b: nat, ta: string, tb: string, t: string)
    requires FormatClock(a) == ta && FormatClock(b) == tb && ta + "-" + tb == t
    ensures FormatPeriod(Period(a, b)) == t
  {
  }

  lemma Period0900()
    ensures CheckTimePeriod("0900-1235") == Success(Period(540, 755))
  {
    Clock0900();
    Clock1235();
    PeriodText(540, 755, "0900", "1235", "0900-1235");
    CheckFormatPeriod(Period(540, 755));
  }

  lemma Period1000()
    ensures CheckTimePeriod("1000-1235") == Success(Period(600, 755))
  {
    Clock1000();
    Clock1235();
    PeriodText(600, 755, "1000", "1235", "1000-1235");
    CheckFormatPeriod(Period(600, 755));
  }

  lemma Period1100()
    ensures CheckTimePeriod("1100-1235") == Success(Period(660, 755))
  {
    Clock1100();
    Clock1235();
    PeriodText(660, 755, "1100", "1235", "1100-1235");
    CheckFormatPeriod(Period(660, 755));
  }

  lemma PeriodsRead()
    ensures CheckTimePeriod("0900-1235") == Success(Period(540, 755))
    ensures CheckTimePeriod("1000-1235") == Success(Period(600, 755))
    ensures CheckTimePeriod("1100-1235") == Success(Period(660, 755))
  {
    Period0900();
    Period1000();
    Period1100();
  }

  /** The fixture of the ordering, equality and clash tests: the dental
      appointment built from `date` and `timePeriod`, as the constructor
      builds it (lemma FixtureIsConstructed). */
  function Fixture(date: string, timePeriod: string, d: Date, p: Period): Appointment {
    Appointment(DENTAL, date, timePeriod, d, p)
  }

  /** The appointment every test compares against: 2024-10-25, 10:00 to 12:35. */
  function Dental(): Appointment {
    Fixture("2024-10-25", "1000-1235", Date(2024, 10, 25), Period(600, 755))
  }

  lemma FixtureIsConstructed(date: string, timePeriod: string, d: Date, p: Period)
    requires ParseDate(date) == Success(d) && CheckTimePeriod(timePeriod) == Success(p)
    ensures Make(DENTAL, date, timePeriod) == Success(Fixture(date, timePeriod, d, p))
  {
    assert !IsWhitespace(DENTAL[0]);
  }

  lemma DentalIsConstructed()
    ensures Make(DENTAL, "2024-10-25", "1000-1235") == Success(Dental())
  {
    Date20241025();
    Period1000();
    FixtureIsConstructed("2024-10-25", "1000-1235", Date(2024, 10, 25), Period(600, 755));
  }

  lemma ToStringOfDental()
    ensures ToString(Dental()) == "Dental check up [ 2024-10-25 @ 1000-1235 ]"
  {
  }

  lemma RejectsBlankName()
    ensures Make(" ", "2024-10-25", "1000-1235") == Failure(InvalidName)
  {
    assert IsWhitespace(" "[0]);
  }

  lemma RejectsMalformedDate()
    ensures Make(DENTAL, "2024/10/25", "1000-1235") == Failure(InvalidDateFormat)
  {
    assert !IsWhitespace(DENTAL[0]);
    assert !HasDateShape("2024/10/25");
  }

  lemma Text20240230() ensures FormatDate(Date(2024, 2, 30)) == "2024-02-30" { }

  lemma RejectsNonexistentDate()
    ensures Make(DENTAL, "2024-02-30", "1000-1235") == Failure(InvalidDateValue)
  {
    assert !IsWhitespace(DENTAL[0]);
    Text20240230();
    ParseFormatDate(Date(2024, 2, 30));
  }

  /** A blank, a bare `5512` and a period wrapped in other text are not of the
      `HHMM-HHMM` shape. */
  lemma RejectsMalformedPeriods(timePeriod: string)
    requires timePeriod in {" ", "5512", "asd1200-1223asd"}
    ensures Make(DENTAL, "2024-10-25", timePeriod) == Failure(InvalidTimePeriodFormat)
  {
    assert !IsWhitespace(DENTAL[0]);
    Date20241025();
    assert |timePeriod| != 9;
  }

  lemma RejectsHourOutOfRange()
    ensures Make(DENTAL, "2024-10-25", "2400-2500") == Failure(InvalidTimePeriodFormat)
  {
    assert !IsWhitespace(DENTAL[0]);
    Date20241025();
    assert "2400-2500"[..4][..2] == "24";
  }

  lemma RejectsBackwardPeriod()
    ensures Make(DENTAL, "2024-10-25", "1235-1000") == Failure(InvalidTimePeriodOrder)
  {
    assert !IsWhitespace(DENTAL[0]);
    Date20241025();
    Clock1235();
    Clock1000();
    PeriodText(755, 600, "1235", "1000", "1235-1000");
    CheckFormatPeriod(Period(755, 600));
  }

  /** The nine comparisons of the ordering test: a later day, or a later start
      on the same day, compares as greater. */
  lemma CompareCases()
    ensures var a := Dental();
      && Compare(a, Fixture("2024-10-25", "0900-1235", Date(2024, 10, 25), Period(540, 755))) > 0
      && Compare(a, Fixture("2024-10-25", "1000-1235", Date(2024, 10, 25), Period(600, 755))) == 0
      && Compare(a, Fixture("2024-10-25", "1100-1235", Date(2024, 10, 25), Period(660, 755))) < 0
      && Compare(a, Fixture("2024-10-20", "0900-1235", Date(2024, 10, 20), Period(540, 755))) > 0
      && Compare(a, Fixture("2024-10-20", "1000-1235", Date(2024, 10, 20), Period(600, 755))) > 0
      && Compare(a, Fixture("2024-10-20", "1100-1235", Date(2024, 10, 20), Period(660, 755))) > 0
      && Compare(a, Fixture("2024-11-25", "0900-1235", Date(2024, 11, 25), Period(540, 755))) < 0
      && Compare(a, Fixture("2024-11-25", "1000-1235", Date(2024, 11, 25), Period(600, 755))) < 0
      && Compare(a, Fixture("2024-11-25", "1100-1235", Date(2024, 11, 25), Period(660, 755))) < 0
  {
  }

  /** The fixtures of the ordering and equality tests are what the constructor
      builds from their text. */
  lemma FixturesAreConstructed()
    ensures Make(DENTAL, "2024-10-25", "0900-1235")
      == Success(Fixture("2024-10-25", "0900-1235", Date(2024, 10, 25), Period(540, 755)))
    ensures Make(DENTAL, "2024-10-25", "1100-1235")
      == Success(Fixture("2024-10-25", "1100-1235", Date(2024, 10, 25), Period(660, 755)))
    ensures Make(DENTAL, "2024-10-20", "0900-1235")
      == Success(Fixture("2024-10-20", "0900-1235", Date(2024, 10, 20), Period(540, 755)))
    ensures Make(DENTAL, "2024-10-20", "1000-1235")
      == Success(Fixture("2024-10-20", "1000-1235", Date(2024, 10, 20), Period(600, 755)))
    ensures Make(DENTAL, "2024-10-20", "1100-1235")
      == Success(Fixture("2024-10-20", "1100-1235", Date(2024, 10, 20), Period(660, 755)))
    ensures Make(DENTAL, "2024-11-25", "0900-1235")
      == Success(Fixture("2024-11-25", "0900-1235", Date(2024, 11, 25), Period(540, 755)))
    ensures Make(DENTAL, "2024-11-25", "1000-1235")
      == Success(Fixture("2024-11-25", "1000-1235", Date(2024, 11, 25), Period(600, 755)))
    ensures Make(DENTAL, "2024-11-25", "1100-1235")
      == Success(Fixture("2024-11-25", "1100-1235", Date(2024, 11, 25), Period(660, 755)))
  {
    DatesRead();
    PeriodsRead();
    FixtureIsConstructed("2024-10-25", "0900-1235", Date(2024, 10, 25), Period(540, 755));
    FixtureIsConstructed("2024-10-25", "1100-1235", Date(2024, 10, 25), Period(660, 755));
    FixtureIsConstructed("2024-10-20", "0900-1235", Date(2024, 10, 20), Period(540, 755));
    FixtureIsConstructed("2024-10-20", "1000-1235", Date(2024, 10, 20), Period(600, 755));
    FixtureIsConstructed("2024-10-20", "1100-1235", Date(2024, 10, 20), Period(660, 755));
    FixtureIsConstructed("2024-11-25", "0900-1235", Date(2024, 11, 25), Period(540, 755));
    FixtureIsConstructed("2024-11-25", "1000-1235", Date(2024, 11, 25), Period(600, 755));
    FixtureIsConstructed("2024-11-25", "1100-1235", Date(2024, 11, 25), Period(660, 755));
  }

  /** Equal to itself and to a second copy built from the same text; unequal
      to nothing and to every fixture with another date or period. */
  lemma EqualsCases()
    ensures var a := Dental();
      && !Equals(a, None)
      && Equals(a, Some(a))
      && Equals(a, Some(Fixture("2024-10-25", "1000-1235", Date(2024, 10, 25), Period(600, 755))))
      && !Equals(a, Some(Fixture("2024-10-25", "0900-1235", Date(2024, 10, 25), Period(540, 755))))
      && !Equals(a, Some(Fixture("2024-10-25", "1100-1235", Date(2024, 10, 25), Period(660, 755))))
      && !Equals(a, Some(Fixture("2024-10-20", "0900-1235", Date(2024, 10, 20), Period(540, 755))))
      && !Equals(a, Some(Fixture("2024-10-20", "1000-1235", Date(2024, 10, 20), Period(600, 755))))
      && !Equals(a, Some(Fixture("2024-10-20", "1100-1235", Date(2024, 10, 20), Period(660, 755))))
      && !Equals(a, Some(Fixture("2024-11-25", "0900-1235", Date(2024, 11, 25), Period(540, 755))))
      && !Equals(a, Some(Fixture("2024-11-25", "1000-1235", Date(2024, 11, 25), Period(600, 755))))
      && !Equals(a, Some(Fixture("2024-11-25", "1100-1235", Date(2024, 11, 25), Period(660, 755))))
  {
    assert "1000-1235"[1] != "0900-1235"[1] && "1000-1235"[1] != "1100-1235"[1];
    assert "2024-10-25"[9] != "2024-10-20"[9] && "2024-10-25"[6] != "2024-11-25"[6];
  }

  /** A candidate period of the clash test, read as minutes. */
  lemma Candidate(s: string, p: Period)
    requires p.start < MINUTES_PER_DAY && p.end < MINUTES_PER_DAY && FormatPeriod(p) == s
    ensures HasPeriodShape(s) && PeriodTimes(s) == p
  {
    CheckFormatPeriod(p);
  }

  /** The clash test on the appointment's own date: a candidate that ends before
      the appointment starts, or starts exactly when it ends, does not clash;
      identical, inner, enclosing and partly overlapping candidates do. */
  /** `0900-0935` ends before the appointment starts: no clash. */
  lemma ClashSameDate0900to0935()
    ensures HasPeriodShape("0900-0935") && !IsClashing(Dental(), "2024-10-25", "0900-0935")
  {
    Clock0900();
    Clock0935();
    PeriodText(540, 575, "0900", "0935", "0900-0935");
    Candidate("0900-0935", Period(540, 575));
  }

  /** `0900-1235` starts before it and ends with it: it clashes. */
  lemma ClashSameDate0900to1235()
    ensures HasPeriodShape("0900-1235") && IsClashing(Dental(), "2024-10-25", "0900-1235")
  {
    Clock0900();
    Clock1235();
    PeriodText(540, 755, "0900", "1235", "0900-1235");
    Candidate("0900-1235", Period(540, 755));
  }

  /** `0845-1300` encloses it: it clashes. */
  lemma ClashSameDate0845to1300()
    ensures HasPeriodShape("0845-1300") && IsClashing(Dental(), "2024-10-25", "0845-1300")
  {
    Clock0845();
    Clock1300();
    PeriodText(525, 780, "0845", "1300", "0845-1300");
    Candidate("0845-1300", Period(525, 780));
  }

  /** `1000-1235` is the same period: it clashes. */
  lemma ClashSameDate1000to1235()
    ensures HasPeriodShape("1000-1235") && IsClashing(Dental(), "2024-10-25", "1000-1235")
  {
    Clock1000();
    Clock1235();
    PeriodText(600, 755, "1000", "1235", "1000-1235");
    Candidate("1000-1235", Period(600, 755));
  }

  /** `1045-1200` lies inside it: it clashes. */
  lemma ClashSameDate1045to1200()
    ensures HasPeriodShape("1045-1200") && IsClashing(Dental(), "2024-10-25", "1045-1200")
  {
    Clock1045();
    Clock1200();
    PeriodText(645, 720, "1045", "1200", "1045-1200");
    Candidate("1045-1200", Period(645, 720));
  }

  /** `1100-1235` starts inside it and ends with it: it clashes. */
  lemma ClashSameDate1100to1235()
    ensures HasPeriodShape("1100-1235") && IsClashing(Dental(), "2024-10-25", "1100-1235")
  {
    Clock1100();
    Clock1235();
    PeriodText(660, 755, "1100", "1235", "1100-1235");
    Candidate("1100-1235", Period(660, 755));
  }

  /** `1235-1345` starts exactly when it ends: no clash. */
  lemma ClashSameDate1235to1345()
    ensures HasPeriodShape("1235-1345") && !IsClashing(Dental(), "2024-10-25", "1235-1345")
  {
    Clock1235();
    Clock1345();
    PeriodText(755, 825, "1235", "1345", "1235-1345");
    Candidate("1235-1345", Period(755, 825));
  }

  /** On an earlier or a later date nothing clashes, whatever the period. */
  lemma ClashCasesOtherDates(date: string, timePeriod: string)
    requires date == "2024-09-25" || date == "2024-11-25"
    ensures !IsClashing(Dental(), date, timePeriod)
  {
    assert date[6] != "2024-10-25"[6];
  }
}

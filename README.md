# Appointment value type

A Dafny model of the `Appointment` value type of a clinic-style record manager.
An appointment is an immutable triple: a free-text name, a calendar date written
`YYYY-MM-DD` and a same-day time period written `HHMM-HHMM`. The model covers
these five parts:

- the validating constructor and its five error kinds;
- the rendering `name [ date @ period ]`;
- the ordering, by date and then by start time;
- equality;
- the clash predicate `isClashing(date, period)`.

The Java class itself is not part of this model's sources. Its behaviour is taken
from its unit tests, `AppointmentTest.java`. The error-to-message mapping comes
from `AddApptCommandParserTest.java`.

Modules:

- `Validation` (`validation.dfy`): the error kinds, the `Result` type and the
  parser's error messages.
- `Digits` (`digits.dfy`): fixed-width decimal fields and their round trip.
- `Calendar` (`calendar.dfy`): the proleptic Gregorian calendar and
  `YYYY-MM-DD` text. It also proves that year/month/day order is chronological.
- `TimePeriod` (`time_period.dfy`): `HHMM-HHMM` text, periods in minutes since
  midnight, and strict overlap.
- `Appointment` (`appointment.dfy`): the value type and its operations.
- `AppointmentExamples` (`appointment_examples.dfy`): every concrete case of
  the unit tests, replayed as lemmas.

Design decisions:

- Construction returns `Result<Appointment>` (`Success` or `Failure(Err)`)
  instead of throwing. The fields are checked in argument order (name, date,
  period), and the first failure is reported.
- A name is valid when it is not blank, that is, when some character is not
  whitespace. Whitespace is what Java's `Character.isWhitespace` accepts.
- A date is valid when it is exactly four ASCII digits, `-`, two digits, `-`,
  two digits, and it names a real day. A real day has a month from 1 to 12 and
  a day from 1 to the month's length, with the Gregorian leap-year rule. A bad
  shape (`InvalidDateFormat`) and a non-existent day (`InvalidDateValue`) are
  different error kinds. Both map to the same message,
  `MESSAGE_CONSTRAINTS_APPT_DATE_WRONG_FORMAT`.
- A period must be exactly `HHMM-HHMM`, with hours 00 to 23 and minutes 00 to
  59. Anything else is `InvalidTimePeriodFormat`. A well-shaped period whose
  start is not strictly before its end is `InvalidTimePeriodOrder`. The two
  errors have different messages.
- The order is chronological and ascending. `Compare(a, b)` is positive when
  `a` is later and negative when `a` is earlier, as the unit tests fix it
  (`AppointmentTest.java:92-100`). The opposite, "later compares as less",
  reading is not what the tests assert, and the model does not follow it.
- `Equals` compares the date text and the period text. `null` is modelled as
  `None` of an `Option`.
- `IsClashing` compares the candidate's date text with the appointment's. It
  reads the candidate period only when the two dates agree, and then requires
  it to be well shaped. Callers are expected to validate the candidate
  period first, and nothing fixes the outcome for a malformed one.

Validation is stateless: `IsValidAppointmentName`, `CheckTimePeriod` and `Make`
are Dafny functions, so repeated calls on the same input give the same verdict.

## Model

| member | source | states |
|---|---|---|
| `Validation.MessagesOfErrors` | src/test/java/seedu/address/logic/parser/AddApptCommandParserTest.java:59-67 | two error kinds share a message exactly when they are the same kind or are the two date errors; a bad period shape and a bad period order are reported differently |
| `Calendar.ParseDate` | src/test/java/seedu/address/model/appointment/AppointmentTest.java:38-45 | a date text is refused as malformed exactly when it is not `YYYY-MM-DD`, and as non-existent exactly when it is well shaped but names no real day, and accepted exactly when it is well shaped and names a real day; an accepted text is a real day of years 0-9999 whose rendering is the text itself |
| `Calendar.ParseFormatDate` | src/test/java/seedu/address/model/appointment/AppointmentTest.java:38-45 | the inverse round trip: the rendering of any date whose fields fit is well shaped, reads back to the same fields, and is accepted exactly when the day exists |
| `Calendar.DateTextInjective` | src/test/java/seedu/address/model/appointment/AppointmentTest.java:153-167 | two accepted date texts that name the same day are the same text, so comparing date text is comparing calendar days |
| `Calendar.DateBeforeIsChronological` | src/test/java/seedu/address/model/appointment/AppointmentTest.java:92-100 | on real days, year/month/day order agrees, in both directions, with the count of days elapsed since 0000-01-01, and equal counts mean equal dates |
| `TimePeriod.CheckTimePeriod` | src/test/java/seedu/address/model/appointment/AppointmentTest.java:48-63 | a period text is a format error exactly when it is not `HHMM-HHMM` with valid clock times, an order error exactly when it is well shaped with start not before end, and accepted exactly when it is well shaped with start before end; an accepted period has start < end < 24:00 and renders back to the text |
| `TimePeriod.IsTimePeriodValid` | src/test/java/seedu/address/model/appointment/AppointmentTest.java:73-77 | the stand-alone period check holds exactly when the text is the `HHMM-HHMM` rendering of some period whose start is before its end |
| `TimePeriod.CheckFormatPeriod` | src/test/java/seedu/address/model/appointment/AppointmentTest.java:48-63 | the inverse round trip: the rendering of any two clock times is well shaped, reads back to the same times, and is accepted exactly when the start is strictly before the end |
| `TimePeriod.OverlapsIffSharedMinute` | src/test/java/seedu/address/model/appointment/AppointmentTest.java:144-151 | for proper periods, strict overlap holds exactly when the periods share a whole minute; touching end points do not overlap |
| `Appointment.IsValidAppointmentName` | src/test/java/seedu/address/model/appointment/AppointmentTest.java:31-35 | a name is valid exactly when stripping its leading whitespace leaves something, so a blank name (the empty one included) is invalid |
| `Appointment.NameValidityIgnoresPadding` | src/test/java/seedu/address/model/appointment/AppointmentTest.java:31-35 | whitespace added before or after a name never changes whether it is valid |
| `Appointment.Make` | src/test/java/seedu/address/model/appointment/AppointmentTest.java:31-63 | construction succeeds exactly when name, date and period are all valid; on success the text is kept verbatim and the parsed day and period match it; otherwise the error is the one for the first invalid field |
| `Appointment.ToString` | src/test/java/seedu/address/model/appointment/AppointmentTest.java:104-110 | the rendering is the name, ` [ `, the date, ` @ `, the period and ` ]`, each at the offset the lengths of the earlier fields fix, and is 8 characters longer than the three fields together |
| `Appointment.MakeThenToString` | src/test/java/seedu/address/model/appointment/AppointmentTest.java:104-110 | a constructed appointment renders as `name [ date @ timePeriod ]` |
| `Appointment.ToStringInjective` | src/test/java/seedu/address/model/appointment/AppointmentTest.java:104-110 | two valid appointments that render alike are equal in every field |
| `Appointment.Compare` | src/test/java/seedu/address/model/appointment/AppointmentTest.java:80-100 | the result is -1, 0 or 1, and is 0 for the same day and period |
| `Appointment.CompareIsChronological` | src/test/java/seedu/address/model/appointment/AppointmentTest.java:80-100 | for valid appointments, a strictly earlier start instant (day, then start minute) compares negative, a strictly later one positive, whatever the other times; the same date and period compare as 0 |
| `Appointment.CompareAntisymmetric` | src/test/java/seedu/address/model/appointment/AppointmentTest.java:92-100 | swapping the arguments flips the sign of the comparison |
| `Appointment.CompareTransitive` | src/test/java/seedu/address/model/appointment/AppointmentTest.java:92-100 | "comes first" is transitive, and tied appointments compare alike with every third one |
| `Appointment.Equals` | src/test/java/seedu/address/model/appointment/AppointmentTest.java:117-139 | never equal to nothing (`null`), and never equal when the date text or the period text differs |
| `Appointment.EqualsIsEquivalence` | src/test/java/seedu/address/model/appointment/AppointmentTest.java:129-132 | equality is reflexive, symmetric and transitive |
| `Appointment.EqualsConsistentWithCompare` | src/test/java/seedu/address/model/appointment/AppointmentTest.java:117-139 | equal valid appointments occupy the same day and period, and compare as 0 |
| `Appointment.IsClashing` | src/test/java/seedu/address/model/appointment/AppointmentTest.java:143-167 | false whenever the candidate date differs; on the same date, true exactly when the appointment's start is before the candidate's end and the candidate's start is before the appointment's end |
| `Appointment.ClashIsSharedMinute` | src/test/java/seedu/address/model/appointment/AppointmentTest.java:144-151 | on the same date, a valid candidate period clashes exactly when it shares a minute with the appointment |
| `Appointment.OtherDayNeverClashes` | src/test/java/seedu/address/model/appointment/AppointmentTest.java:153-167 | a candidate naming another calendar day never clashes, whatever its period |
| `Appointment.ClashIsSymmetric` | src/test/java/seedu/address/model/appointment/AppointmentTest.java:144-151 | between two valid appointments clashing is symmetric, and every appointment clashes with its own slot |
| `AppointmentExamples.DentalIsConstructed` | src/test/java/seedu/address/model/appointment/AppointmentTest.java:81 | the fixture `("2024-10-25", "1000-1235")` is accepted, with day 2024-10-25 and minutes 600 to 755 |
| `AppointmentExamples.ToStringOfDental` | src/test/java/seedu/address/model/appointment/AppointmentTest.java:104-110 | the fixture renders as `Dental check up [ 2024-10-25 @ 1000-1235 ]` |
| `AppointmentExamples.RejectsBlankName` | src/test/java/seedu/address/model/appointment/AppointmentTest.java:31-35 | a blank name is refused with `InvalidName` |
| `AppointmentExamples.RejectsMalformedDate` | src/test/java/seedu/address/model/appointment/AppointmentTest.java:39-41 | `2024/10/25` is refused with `InvalidDateFormat` |
| `AppointmentExamples.RejectsNonexistentDate` | src/test/java/seedu/address/model/appointment/AppointmentTest.java:42-44 | `2024-02-30` is refused with `InvalidDateValue` |
| `AppointmentExamples.RejectsMalformedPeriods` | src/test/java/seedu/address/model/appointment/AppointmentTest.java:49-57 | `" "`, `5512` and `asd1200-1223asd` are refused with `InvalidTimePeriodFormat` |
| `AppointmentExamples.RejectsHourOutOfRange` | src/test/java/seedu/address/model/appointment/AppointmentTest.java:58-60 | `2400-2500` is refused with `InvalidTimePeriodFormat` |
| `AppointmentExamples.RejectsBackwardPeriod` | src/test/java/seedu/address/model/appointment/AppointmentTest.java:61-63 | `1235-1000` is refused with `InvalidTimePeriodOrder` |
| `AppointmentExamples.FixturesAreConstructed` | src/test/java/seedu/address/model/appointment/AppointmentTest.java:82-90 | the nine comparison and equality fixtures are what the constructor builds from their text |
| `AppointmentExamples.CompareCases` | src/test/java/seedu/address/model/appointment/AppointmentTest.java:92-100 | the nine signs of the ordering test |
| `AppointmentExamples.EqualsCases` | src/test/java/seedu/address/model/appointment/AppointmentTest.java:129-139 | the eleven verdicts of the equality test |
| `AppointmentExamples.ClashSameDate0900to0935` | src/test/java/seedu/address/model/appointment/AppointmentTest.java:145 | a candidate ending before the appointment starts does not clash |
| `AppointmentExamples.ClashSameDate0900to1235` | src/test/java/seedu/address/model/appointment/AppointmentTest.java:146 | a candidate overlapping the start clashes |
| `AppointmentExamples.ClashSameDate0845to1300` | src/test/java/seedu/address/model/appointment/AppointmentTest.java:147 | an enclosing candidate clashes |
| `AppointmentExamples.ClashSameDate1000to1235` | src/test/java/seedu/address/model/appointment/AppointmentTest.java:148 | the identical period clashes |
| `AppointmentExamples.ClashSameDate1045to1200` | src/test/java/seedu/address/model/appointment/AppointmentTest.java:149 | an inner candidate clashes |
| `AppointmentExamples.ClashSameDate1100to1235` | src/test/java/seedu/address/model/appointment/AppointmentTest.java:150 | a candidate overlapping the end clashes |
| `AppointmentExamples.ClashSameDate1235to1345` | src/test/java/seedu/address/model/appointment/AppointmentTest.java:151 | a candidate starting exactly at the end does not clash |
| `AppointmentExamples.ClashCasesOtherDates` | src/test/java/seedu/address/model/appointment/AppointmentTest.java:153-167 | on 2024-09-25 or 2024-11-25 no candidate period clashes |

## Left out

- Null arguments and `NullPointerException` (`AppointmentTest.java:20-28, 66-77`): Dafny values are never null. The one place `null` is an ordinary input, `equals(null)`, is modelled with `Option`.
- Java exception classes: the model has one tagged error result instead of `IllegalArgumentException` and `IllegalValueException`.
- The fixture constants (`VALID_APPOINTMENT_NAME_DENTAL`, `VALID_APPOINTMENT_DATE_DENTAL`, `VALID_APPOINTMENT_TIMEPERIOD_DENTAL`, `INVALID_APPOINTMENT_NAME`, `INVALID_APPOINTMENT_DATE_FORMAT`, `INVALID_APPOINTMENT_DATE_NONEXISTANT`, `INVALID_APPOINTMENT_TIMEPERIOD_FORMAT`, `INVALID_APPOINTMENT_TIMEPERIOD_ORDER`) are defined in `CommandTestUtil`, which is not part of this model. The examples use representative values: `Dental check up`, `2024-10-25`, `1000-1235`, `" "`, `2024/10/25`, `2024-02-30`, `2400-2500` and `1235-1000`.
- Equals: no contract says whether the name takes part in equality. Every fixture uses the same name, so the tests cannot decide it. The body compares only the date and the period text.
- CompareIsChronological: says nothing about two appointments with the same date and start but different ends. No test varies the end alone. The body ignores the end.
- Make: the order in which fields are checked (name, then date, then period) is a modelling choice. The tests only ever make one field invalid.
- Calendar.ParseDate: only the plain four-digit-year form is accepted. Java date parsing can also accept signed years beyond 9999, and this model does not.
- IsClashing: a malformed candidate period on the same date is excluded by its precondition, since its outcome is undefined.
- The command parser of `AddApptCommandParserTest.java` is not part of this model. This covers its prefix tokenizer, the usage error for missing markers (lines 71-91), national-identifier validation and the command object. Only its error-to-message mapping is modelled.
- Persistence, UI, person records and the appointment collection that calls the clash check are not part of this model.

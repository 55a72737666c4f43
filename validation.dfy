/** The outcome of validating raw appointment text: either the parsed value or
    the kind of field-specific error the constructor reports. */
module Validation {

  /** The field-specific failures of appointment construction. The Java code
      throws an exception carrying a message; here the failure is a value. */
  datatype Err =
    | InvalidName
    | InvalidDateFormat
    | InvalidDateValue
    | InvalidTimePeriodFormat
    | InvalidTimePeriodOrder

  datatype Result<+T> = Success(value: T) | Failure(error: Err)

  /** The message constants of `Appointment` that the command parser reports. */
  datatype Message =
    | MessageConstraints
    | MessageDateWrongFormat
    | MessageTimePeriodWrongFormat
    | MessageTimePeriodInvalidOrder

  function MessageOf(e: Err): Message {
    match e
    case InvalidName => MessageConstraints
    case InvalidDateFormat => MessageDateWrongFormat
    case InvalidDateValue => MessageDateWrongFormat
    case InvalidTimePeriodFormat => MessageTimePeriodWrongFormat
    case InvalidTimePeriodOrder => MessageTimePeriodInvalidOrder
  }

  /** A badly shaped date and a non-existent date surface the same message,
      while a badly shaped period and a badly ordered period do not; every
      other pair of error kinds is told apart by its message. */
  lemma MessagesOfErrors(e1: Err, e2: Err)
    ensures MessageOf(e1) == MessageOf(e2) <==>
      e1 == e2 || ({e1, e2} == {InvalidDateFormat, InvalidDateValue})
  {
  }
}

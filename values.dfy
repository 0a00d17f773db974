/** Values shared by the whole model: optional values, the exceptions one
    invocation of the report can end with, and the decoded JSON values the
    record file can hold. */
module Values {

  datatype Option<+T> = None | Some(value: T)

  /** Why an invocation stops with an exception instead of sending mail. */
  datatype Failure =
    | DateOverflow         // `datetime - timedelta` below year 1 raises OverflowError
    | SnapshotUnavailable  // an instrument's one-day history had no opening price
    | RateUnavailable      // the exchange-rate endpoint answered with a non-200 status
    | SeriesUnavailable    // the monthly series fetch raised (empty series, transport)
    | FormatError          // `:.2f` applied to a value that is not a number

  datatype Result<+T> = Ok(value: T) | Err(error: Failure)

  /** A JSON-decoded value as Python sees it after `json.load`. */
  datatype PyVal = PyNone | PyNum(x: real) | PyStr(s: string)
}

/** Success-or-error outcome of the server's operations, and the HTTP status each error gets. */
module Outcomes {

  /** The failures the core can raise. */
  datatype Error =
    | ZeroDivision      // `i % len(domain_questions)` on an empty template bank
    | InvalidDate       // `datetime.strptime` rejected the date text
    | DateOutOfRange    // a `timedelta` shift left the years 1..9999
    | TypeMismatch      // `len()` applied to a value that has no length
    | NoQuestions       // `/validate` called with an empty question list

  datatype Result<+T> = Ok(value: T) | Err(error: Error)

  datatype Option<+T> = None | Some(value: T)

  /** The status code the route handlers attach to an error: only the empty
      validation payload is a client error, every exception becomes a 500. */
  function StatusOf(e: Error): (code: int)
    ensures code == 400 <==> e == NoQuestions
    ensures code != 400 ==> code == 500
  {
    if e == NoQuestions then 400 else 500
  }
}

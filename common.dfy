/** Values shared by every module: optional values, the errors the harness
    raises, and a result type that carries either a value or one of them. */
module Common {

  /** A Python value that may be `None`. */
  datatype Option<+T> = None | Some(value: T)

  /** The exceptions raised by the bookkeeping layer. */
  datatype Error =
    | KeyError(key: string)                             // lookup of an unknown assertion id
    | AssertionError(score: real, threshold: real)      // a score below its threshold
    | MissingArgs(source: string, missing: seq<string>) // ValueError: data-source arguments absent or blank
    | InvalidMode(value: string)                        // ValueError: no execution mode has this value
    | InvalidLiteral(value: string)                     // ValueError: int() of a string that is not an integer
    | NoneComparison                                    // TypeError: a score compared with a threshold of None
    | ZeroDivision                                      // ZeroDivisionError: a score over an empty list

  /** The outcome of an operation that may raise. */
  datatype Result<+T> = Ok(value: T) | Err(error: Error)

  /** Python's `a if a is not None else b if b is not None else c`:
      the first of the three that is present. */
  function FirstPresent<T>(a: Option<T>, b: Option<T>, c: Option<T>): (r: Option<T>)
    ensures a.Some? ==> r == a
    ensures a.None? && b.Some? ==> r == b
    ensures a.None? && b.None? ==> r == c
    ensures r.Some? <==> a.Some? || b.Some? || c.Some?
  {
    if a.Some? then a else if b.Some? then b else c
  }
}

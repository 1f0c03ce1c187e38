/** Failure-carrying values shared by the scanner and the parser of the template language. */
module Results {

  /** The two ways a template can be rejected: the scanner meets a brace that does not fit
      its current state (a `NotImplementedError` in xtend.py), or the parser's `fail`
      ("cannot parse"). Messages and positions are not modelled. */
  datatype Error = UnexpectedBrace | CannotParse

  datatype Option<+T> = None | Some(value: T)

  /** The outcome of a step that either yields a value or raises. */
  datatype Result<+T> = Ok(value: T) | Err(error: Error)
}

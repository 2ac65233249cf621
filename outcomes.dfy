/**
 * The ways a call of the analysis helpers can end: with a value, with the
 * Python value `None` (the helpers' own "could not read" signal), or with an
 * exception that the helper does not catch.
 */
module Outcomes {

  /** A value that the Python code may leave as `None`. */
  datatype Option<+T> = None | Some(value: T)

  /** The exception classes the modelled helpers can raise. */
  datatype ErrorKind =
    | TypeError       // iterating over `None`, indexing a scalar
    | ValueError      // `float()` of a non-number, `split("")`
    | IndexError      // a list index past the end
    | KeyError        // a missing dictionary key
    | NameError       // a local variable read before it was ever assigned (UnboundLocalError is a subclass)
    | AttributeError  // `.split` on something that is not a string

  /** How one call ends. */
  datatype Outcome<+T> =
    | Value(value: T)
    | NoneReturned
    | Raised(error: ErrorKind)
}

/** Failure-compatible wrappers shared by the other modules. */
module Wrappers {

  /** None stands for the Python value False that the source returns in place of a number. */
  datatype Option<+T> = None | Some(value: T)

  /** Ok carries a result; Err names the Python exception the source would raise. */
  datatype Result<+T> = Ok(value: T) | Err(error: Fault)

  datatype Fault =
    | ZeroDivision     // ZeroDivisionError
    | NotSubscriptable // TypeError: a float indexed as if it were a list
}

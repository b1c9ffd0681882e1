/**
  Failure values shared by every part of the model. Each constructor stands
  for the Python exception that the corresponding source line raises; none of
  the modelled code catches an exception, so the first one ends the run.
 */
module Outcomes {

  datatype Option<+T> = None | Some(value: T)

  datatype Error =
    | IndexError                                  // a list index out of range
    | KeyError(key: Option<string>)               // a missing dictionary key (None for Python's None)
    | ValueError(text: string)                    // a rejected value, with the offending text
    | OverflowError(text: string)                 // `int` of an infinite float, with the offending text
    | AttributeError                              // `example.env` on an example class without that field
    | TypeError                                   // iterating over None (no label list)
    | AssertionError(actual: int, expected: int)  // "Error with input length {} vs {}"

  datatype Result<+T> = Ok(value: T) | Err(error: Error)
}

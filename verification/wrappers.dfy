/** Option and Result, and the Python exceptions the modelled code can raise. */
module Wrappers {

  datatype Option<+T> = None | Some(value: T)

  datatype Result<+T, +E> = Ok(value: T) | Err(error: E)

  /** The exceptions the modelled code lets escape to its caller. */
  datatype Exception =
    | KeyError(key: string)            // a missing dictionary key or dataframe column
    | IndexError                       // positional indexing past the end (`.iloc[0]` of an empty frame)
    | ValueError                       // building a dataframe from lists of different lengths
    | AttributeError(attribute: string) // reading an attribute that was never assigned
    | TypeError                        // subscripting a value that is not a dictionary
}

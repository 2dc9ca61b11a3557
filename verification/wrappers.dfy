/** Failure-carrying datatypes shared by the whole model, and the Python
    exception kinds the service and controller code can raise. */
module Wrappers {

  /** Python's `None` versus a present value. */
  datatype Option<+T> = None | Some(value: T)

  /** A normal return (`Ok`) or a raised exception (`Err`). */
  datatype Result<+T, +E> = Ok(value: T) | Err(error: E)

  /** The exceptions that can escape the modelled code. */
  datatype Error =
    | SdkError(msg: string)     // raised by the broker SDK, passed on unchanged
    | ValueError(msg: string)   // raised by the code itself with this message
    | KeyError(key: string)     // `d[key]` on a dict without that key
    | IndexError                // `row[i]` past the end of a candle row
    | TypeError                 // iterating over `None`, arithmetic on text
    | AttributeError            // `.get` / `.update` called on `None`
    | EmptySequence             // `max()` / `min()` of an empty sequence

  /** The messages of the `ValueError`s the code raises. */
  const NoMatchingScrip: string := "No matching scrip found"
  const NoEqScrip: string := "Matching EQ tradingsymbol not found in search results."
  const NoCandleData: string := "No candle data received"
}

/** Option and Result types shared by every module of the model. */
module Wrappers {
  datatype Option<T> = None | Some(value: T)

  /** The Python exceptions that the modelled code can raise. */
  datatype Exception =
    | ZeroDivisionError   // `/` with a zero divisor
    | MathDomainError     // `math.log` of a number that is not positive
    | IndexError          // a list indexed past its end
    | KeyError            // a dict looked up with a missing key
    | NotImplementedError // an operation that always raises
    | ValueError          // `np.min`/`np.max` of an empty array, or arrays numpy cannot broadcast

  datatype Result<T> = Ok(value: T) | Err(error: Exception)
}

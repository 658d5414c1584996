/** Value types shared by the whole model: the exceptions the Python code
    raises, the outcome of an operation that may raise, and an RGB colour. */
module Basics {

  /** The Python exception classes the core raises. `InvalidTimeError` is a
      subclass of `ValueError` in the source; it is kept apart here so that
      contracts can name it. */
  datatype Error =
    | ValueError | TypeError | KeyError | InvalidTimeError
    | IOError | JSONDecodeError | AttributeError

  /** Outcome of an operation that returns nothing or raises. */
  datatype Outcome = Done | Raised(error: Error)

  /** Outcome of an operation that returns a value or raises. */
  datatype Result<T> = Ok(value: T) | Err(error: Error)

  datatype Option<T> = None | Some(value: T)

  /** The `{'r': .., 'g': .., 'b': ..}` colour dictionary of a bulb. */
  datatype Rgb = Rgb(r: int, g: int, b: int)

  const White: Rgb := Rgb(255, 255, 255)

  predicate ChannelOk(v: int) { 0 <= v <= 255 }

  predicate ColorOk(c: Rgb) { ChannelOk(c.r) && ChannelOk(c.g) && ChannelOk(c.b) }
}

/** Values shared by every part of the mashup model. */
module Common {

  datatype Option<T> = None | Some(value: T)

  /** Decoded audio, one sample per millisecond (pydub measures length in ms). */
  type Audio = seq<int>

  /** What a Python call can raise, as far as the pipeline tells them apart.
      `Error` stands for any subclass of `Exception` (with its message);
      `SystemExit` and `KeyboardInterrupt` are not subclasses of `Exception`,
      so an `except Exception` clause lets them through. */
  datatype Exception =
    | Error(msg: string)
    | SystemExit(code: int)
    | KeyboardInterrupt
  {
    /** Caught by `except Exception`. */
    predicate IsException() { Error? }
  }

  /** A call that either returns a value or raises. */
  datatype Result<T> = Ok(value: T) | Err(error: Exception)

  function Min(a: int, b: int): int { if a <= b then a else b }
}

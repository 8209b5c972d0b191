/** Types shared by every module: bytes, optional values, and the Python
    exceptions the modelled code raises, written as values. */
module Base {

  /** One element of a Python `bytes` object. */
  type byte = b: int | 0 <= b < 256

  datatype Option<T> = None | Some(value: T)

  /** The exception classes that the modelled code raises or lets through.
      `LibraryError` stands for any exception raised inside an external
      library (the DBC codec, the CAN transport, the DBC parser). */
  datatype Error =
    | KeyError(text: string)
    | ValueError(text: string)
    | TypeError(text: string)
    | AttributeError(text: string)
    | RuntimeError(text: string)
    | DbcLoadError(text: string)
    | LibraryError(text: string)

  /** The outcome of a call that either returns a value or raises. */
  datatype Result<T> = Ok(value: T) | Err(error: Error)

  /** `str(exc)` for a raised exception: the message, except that a
      `KeyError` shows its key quoted, as `repr` writes a string key. */
  function ErrorText(e: Error): string
  {
    if e.KeyError? then ['\''] + e.text + ['\''] else e.text
  }

  function Min(a: int, b: int): int
  {
    if a <= b then a else b
  }

  function Max(a: int, b: int): int
  {
    if a <= b then b else a
  }
}

/**
 * The Python values the registry stores and passes around, and the exceptions it
 * raises. Calling a callable is an opaque function from the URL to what the call
 * produced: a `str`, some other object, or a raised exception.
 */
module PyValues {
  import opened Wrappers
  import opened PyDict

  /** What calling a provider with a URL produced. */
  datatype Outcome = ReturnedStr(s: string) | ReturnedNonStr | Raised(exc: string)

  /**
   * A Python object: a callable with its `__name__` (absent for, say, a
   * `functools.partial` or an object with `__call__`), a `str`, or anything else.
   */
  datatype Value =
    | Callable(name: Option<string>, call: string -> Outcome)
    | Str(text: string)
    | Other

  /** What `exec(code, {}, local_ns)` left in `local_ns`, or the exception it raised. */
  datatype ExecOutcome = Executed(ns: Dict<Value>) | ExecRaised(exc: string)

  /** The exceptions of the registry; `NotFound` is the `ValueError` that lists the known names. */
  datatype Error =
    | NotFound(name: string, available: seq<string>)
    | TypeError(msg: string)
    | ValueError(msg: string)
    | Propagated(exc: string)

  datatype Result<T> = Ok(value: T) | Err(error: Error)

  /** Reading `__name__` of a callable that has none. */
  const NoNameError := Propagated("AttributeError: __name__")
}

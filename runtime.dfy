/**
 * Run-time failures: the `RuntimeException` of
 * pylox/interpreter/runtime_exception.py, which carries a token and a
 * message, and the Python exceptions that are not Lox errors at all.
 */
module Runtime {
  import opened Tokens

  datatype Fault =
    | RuntimeError(token: Token, message: string)
    | HostException(name: string)

  /** A value, or the failure raised while computing it. */
  datatype Result<T> = Ok(value: T) | Err(fault: Fault)
}

/**
 * `expect_exit`: unwrap a result or end the process. Ending the process is a
 * terminal value carrying the exit code and the line printed to stderr.
 */
module Termination {
  import opened Wrappers

  datatype ExitOr<+T> = Continue(value: T) | Exit(code: int, message: string)

  /** `Ok(v)` continues with `v`; `Err(e)` prints `msg: e` and exits with `code`. */
  function ExpectExit<T>(r: Result<T, string>, msg: string, code: int): (x: ExitOr<T>)
    ensures r.Ok? <==> x.Continue?
    ensures r.Ok? ==> x.value == r.value
    ensures r.Err? ==> x.code == code && x.message == msg + ": " + r.error
  {
    match r
    case Ok(v) => Continue(v)
    case Err(e) => Exit(code, msg + ": " + e)
  }
}

/**
 * The errors the core can raise. `OptimizationException` carries a message,
 * the failed command joined with spaces and the process output split into
 * lines; the two other kinds are PHP engine errors that the batch runner
 * does not catch.
 */
module Errors {

  datatype OptimizationException = OptimizationException(message: string, command: string := "", output: seq<string> := [])

  datatype Failure =
    | Optimization(exception: OptimizationException)
    /** A setter argument that PHP's coercive typing mode cannot convert (a `TypeError`). */
    | TypeError(parameter: string)
    /** A `match` expression without a default arm met an unlisted subject (an `UnhandledMatchError`). */
    | UnhandledMatch(subject: string)
}

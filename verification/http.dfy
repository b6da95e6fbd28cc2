/**
 * The slice of HTTP that the route handlers see: status codes and the
 * JavaScript truthiness test the handlers apply to their parameters.
 */
module Http {
  import opened Wrappers

  const StatusOk := 200
  const StatusBadRequest := 400
  const StatusNotFound := 404
  const StatusServerError := 500

  /**
   * A query parameter or string field passes the handlers' `!x` guard
   * exactly when it is supplied and is not the empty string: `null` and
   * `""` are the two falsy values a string parameter can take.
   */
  predicate Present(param: Option<string>) {
    param.Some? && param.value != ""
  }
}

/**
 * The registry-protocol errors the v2 endpoints raise, and the other exceptions
 * their error handlers catch. The classes themselves (their codes, default HTTP
 * statuses and `as_dict`) live in endpoints/v2/errors.py, which is not part of
 * this model: an error is kept as the value whose `as_dict()` the body carries.
 */
module V2Errors {
  import opened Base

  /** The `V2RegistryException` subclasses this core raises or constructs;
      `OtherKind` stands for those raised by the individual endpoints. */
  datatype ErrorKind =
    | Unauthorized
    | Unsupported
    | InvalidRequest
    | ReadOnlyMode
    | QuotaExceeded
    | OtherKind(code: string)

  /** A `V2RegistryException`: its kind, message, detail, the repository and
      scopes a 401 challenge is built from, and its `http_status_code`. */
  datatype V2Error = V2Error(
    kind: ErrorKind,
    message: Option<string>,
    detail: Option<string>,
    repository: Option<string>,
    scopes: Option<seq<string>>,
    status: int)

  /** The exceptions the blueprint registers an error handler for. */
  datatype RaisedException =
    | RegistryException(error: V2Error)
    | ReadOnlyModeException
    | UpstreamRegistryError(text: string)   // `text` is `str(error)`
    | QuotaExceededException

  /** The `http_status_code` of the error classes this core constructs itself:
      the two the permission check raises and the three the handlers build.
      Their values are set in endpoints/v2/errors.py. */
  datatype ErrorStatuses = ErrorStatuses(
    unauthorized: int,
    unsupported: int,
    readOnlyMode: int,
    invalidRequest: int,
    quotaExceeded: int)
}

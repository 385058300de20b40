/** Optional values and results; a Java `null` is `None`, a thrown
    `BusinessException` is `Err` carrying its error code. */
module Wrappers {

  datatype Option<+T> = None | Some(value: T)

  datatype Result<+T, +E> = Ok(value: T) | Err(error: E)

  /** Outcome of a check that either passes or throws. */
  datatype Outcome<+E> = Pass | Fail(error: E)

  /** The subset of the application's `ErrorCode` enum that the modelled services raise. */
  datatype ErrorCode =
    | InternalServerError
    | InvalidRequest
    | AuthUnauthorized
    | AuthInvalidCredentials
    | AuthRefreshTokenRequired
    | AuthInvalidRefreshToken
    | AuthInvalidEmailFormat
    | AuthInvalidUsernameFormat
    | AuthEmailAlreadyExists
    | AuthUsernameAlreadyExists
    | AuthAccountNotFound
    | UserNotFound
    | ProfileNotFound
}

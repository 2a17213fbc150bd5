/** What a FastAPI handler raises: an HTTPException or any other exception. */
module Http {
  import opened Python

  datatype Raised =
    | HttpException(statusCode: int, detail: Value, headers: map<string, Value>)
    | Unhandled(e: Exception)
}

/**
 * Authentication of internal calls: the request must carry an X-Internal-Auth
 * header equal to security.internal_auth_token from the configuration.
 *
 * Headers are given as a map from header name to value; the case-insensitive
 * lookup of the web framework is outside the model.
 */
module Auth {
  import opened Wrappers
  import opened Python
  import opened Http
  import Config

  const AuthHeader := "X-Internal-Auth"
  const UnauthorizedDetail := "Missing or invalid X-Internal-Auth header"

  /** The header's value when present and non-empty. */
  predicate HasNonEmptyHeader(headers: map<string, string>) {
    AuthHeader in headers && headers[AuthHeader] != ""
  }

  /**
   * `verify_internal_auth`: the configured token is read first (and may raise);
   * a missing or empty header fails; otherwise the header must equal the token.
   */
  function VerifyInternalAuth(headers: map<string, string>, config: Value): (r: Result<bool, Exception>)
    ensures Config.InternalAuthToken(config).Err? ==> r == Err(Config.InternalAuthToken(config).error)
    ensures Config.InternalAuthToken(config).Ok? ==> r.Ok?
    ensures r.Ok? && !HasNonEmptyHeader(headers) ==> !r.value
    ensures r.Ok? && HasNonEmptyHeader(headers) ==>
              (r.value <==> Config.InternalAuthToken(config).value == VStr(headers[AuthHeader]))
  {
    var expected :- Config.InternalAuthToken(config);
    if AuthHeader !in headers || headers[AuthHeader] == "" then Ok(false)
    else Ok(VStr(headers[AuthHeader]) == expected)
  }

  /** An empty configured token authenticates no request. */
  lemma EmptyTokenRejectsAll(headers: map<string, string>, config: Value)
    requires Config.InternalAuthToken(config) == Ok(VStr(""))
    ensures VerifyInternalAuth(headers, config) == Ok(false)
  {
  }

  /** `require_internal_auth`: raises 401 exactly when verification is false. */
  function RequireInternalAuth(headers: map<string, string>, config: Value): (r: Result<(), Raised>)
    ensures VerifyInternalAuth(headers, config) == Ok(true) <==> r.Ok?
    ensures VerifyInternalAuth(headers, config) == Ok(false) <==>
              r == Err(HttpException(401, VStr(UnauthorizedDetail), map[]))
    ensures VerifyInternalAuth(headers, config).Err? ==>
              r == Err(Unhandled(VerifyInternalAuth(headers, config).error))
  {
    match VerifyInternalAuth(headers, config)
    case Err(e) => Err(Unhandled(e))
    case Ok(ok) => if ok then Ok(()) else Err(HttpException(401, VStr(UnauthorizedDetail), map[]))
  }

  /** The checker returned by `get_internal_auth_dependency`: true, or the 401 propagates. */
  function CheckAuth(headers: map<string, string>, config: Value): (r: Result<bool, Raised>)
    ensures r.Ok? ==> r.value
    ensures r.Ok? <==> VerifyInternalAuth(headers, config) == Ok(true)
    ensures r.Err? ==> r.error == RequireInternalAuth(headers, config).error
  {
    var _ :- RequireInternalAuth(headers, config);
    Ok(true)
  }
}

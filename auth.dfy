/**
 * HTTP Basic credential check run at the start of both handlers: extract the credentials from
 * the `Authorization` header, then check them against the one configured username and its
 * stored Argon2 hash. Header decoding and the Argon2 steps are foreign code, taken as oracles.
 */
module Auth {
  import opened Wrappers
  import opened Http

  datatype AuthError = Unauthorized | Internal

  datatype BasicCredentials = BasicCredentials(username: string, password: string)

  /** The username and the PHC-format hash string computed once at startup. */
  datatype AuthConfig = AuthConfig(username: string, passwordHash: string)

  /**
   * The foreign pieces. `decodeBasic` is the Basic-scheme decoder applied to the header value
   * (None when the value does not parse); `hashParses` says whether a stored hash string parses
   * as a PHC hash; `verifies(password, hash)` is Argon2 password verification.
   */
  datatype Oracles = Oracles(
    decodeBasic: string -> Option<BasicCredentials>,
    hashParses: string -> bool,
    verifies: (string, string) -> bool)

  const Realm: string := "Basic realm=\"beam\""
  const UnauthorizedMessage: string := "Invalid username or password"
  const InternalMessage: string := "Authentication failed"

  /** `extract_basic_auth`: `header` is the value of the request's Authorization header, if any. */
  function ExtractBasicAuth(header: Option<string>, oracles: Oracles): (r: Result<BasicCredentials, AuthError>)
    ensures r.Err? ==> r.error == Unauthorized
    ensures r.Ok? <==> header.Some? && oracles.decodeBasic(header.value).Some?
    ensures r.Ok? ==> r.value == oracles.decodeBasic(header.value).value
  {
    match header
    case None => Err(Unauthorized)
    case Some(value) =>
      match oracles.decodeBasic(value)
      case None => Err(Unauthorized)
      case Some(credentials) => Ok(credentials)
  }

  /**
   * `authenticate_user`: a wrong username, then an empty password, are unauthorized before the
   * stored hash is looked at; a stored hash that does not parse is the only internal error; a
   * password that does not verify is unauthorized.
   */
  function AuthenticateUser(config: AuthConfig, oracles: Oracles, auth: BasicCredentials): (r: Result<(), AuthError>)
    ensures auth.username != config.username || auth.password == "" ==> r == Err(Unauthorized)
    ensures r == Err(Internal) <==>
              auth.username == config.username && auth.password != "" && !oracles.hashParses(config.passwordHash)
    ensures r.Ok? <==>
              && auth.username == config.username && auth.password != ""
              && oracles.hashParses(config.passwordHash) && oracles.verifies(auth.password, config.passwordHash)
  {
    if auth.username != config.username then Err(Unauthorized)
    else if auth.password == "" then Err(Unauthorized)
    else if !oracles.hashParses(config.passwordHash) then Err(Internal)
    else if !oracles.verifies(auth.password, config.passwordHash) then Err(Unauthorized)
    else Ok(())
  }

  /**
   * The check both handlers run before touching the registry. A missing or undecodable header
   * is unauthorized; otherwise the decoded credentials decide, as `AuthenticateUser` states.
   */
  function CheckRequest(config: AuthConfig, oracles: Oracles, header: Option<string>): (r: Result<(), AuthError>)
    ensures header.None? || oracles.decodeBasic(header.value).None? ==> r == Err(Unauthorized)
    ensures header.Some? && oracles.decodeBasic(header.value).Some? ==>
              r == AuthenticateUser(config, oracles, oracles.decodeBasic(header.value).value)
  {
    match ExtractBasicAuth(header, oracles)
    case Err(e) => Err(e)
    case Ok(auth) => AuthenticateUser(config, oracles, auth)
  }

  /** `auth_error_response`. */
  function AuthErrorResponse(error: AuthError): (r: Response)
    ensures error == Unauthorized <==> r.status == StatusUnauthorized
    ensures error == Internal <==> r.status == StatusInternalServerError
    ensures HeaderField("WWW-Authenticate", Realm) in r.headers <==> error == Unauthorized
    ensures r.body.Text?
  {
    match error
    case Unauthorized =>
      Response(StatusUnauthorized, [HeaderField("WWW-Authenticate", Realm)], Text(UnauthorizedMessage))
    case Internal =>
      Response(StatusInternalServerError, [], Text(InternalMessage))
  }

  // ---------------------------------------------------------------------------------------
  // Properties of the decision order

  /**
   * The Argon2 oracles are consulted only for the configured username with a non-empty
   * password: any other credentials get the same result whichever oracles are used.
   */
  lemma {:induction false} HashConsultedLast(config: AuthConfig, oracles: Oracles, other: Oracles, auth: BasicCredentials)
    requires auth.username != config.username || auth.password == ""
    ensures AuthenticateUser(config, oracles, auth) == AuthenticateUser(config, other, auth)
  {
  }
}

/** Authentication of API requests (package internal/server): the server's
    own copy of the header parser, the user lookup built on it, and the
    wrapper that runs a handler only for an authenticated user.

    The database lookup and the wrapped handler are code outside this model;
    both are parameters, total functions standing for what they would return.
    "Not called" is stated as "the result does not depend on it". */
module ServerAuth {
  import opened Wrappers
  import Auth

  /** The server package's copy of the header parser. Its text is the same as
      the one in package auth, and so is its meaning. */
  function GetAuthHeader(authHeader: Bytes, keyName: Bytes): (r: Result<Bytes, Auth.AuthError>)
    ensures r == Auth.GetAuthHeader(authHeader, keyName)
  {
    if |authHeader| < |keyName| + 1 then
      Failure(Auth.Malformed)
    else if authHeader[..|keyName|] != keyName then
      Failure(Auth.SchemeNotFound(keyName))
    else
      Success(authHeader[|keyName| + 1..])
  }

  /** The scheme name the server asks for. */
  const ApiKeyScheme: Bytes := Ascii("ApiKey")

  /** A row of the users table, as far as this model needs one. */
  datatype User = User(id: Uuid, name: string, apiKey: Bytes)

  /** Go's zero value `database.User{}`: a nil UUID and empty strings. */
  const ZeroUser: User := User(seq(16, _ => 0 as bv8), "", [])

  /** An error reported by the database driver, with its text. */
  datatype DbError = DbError(message: Bytes)

  /** The `error` values GetAuthUser can hand back, unchanged from where they
      arose. */
  datatype Error =
    | HeaderError(headerCause: Auth.AuthError)
    | LookupError(lookupCause: DbError)

  /** Go's `(database.User, error)` result pair. */
  datatype UserOrError = UserOrError(user: User, err: Option<Error>)

  /** What `err.Error()` returns for each error. */
  function ErrorText(e: Error): (text: Bytes)
    // the not-found text names the scheme that was asked for, then a fixed suffix
    ensures e.HeaderError? && e.headerCause.SchemeNotFound? ==>
              var name := e.headerCause.keyName;
              |text| == |name| + 34 && text[..|name|] == name &&
              text[|name|..] == Ascii(" not found in authorization header")
    // a lookup error's text is the driver's own, passed on unchanged
    ensures e.LookupError? ==> text == e.lookupCause.message
    // the header errors never produce an empty text
    ensures e.HeaderError? ==> |text| > 0
  {
    match e
    case HeaderError(Malformed) => Ascii("malformed authorization header")
    case HeaderError(SchemeNotFound(keyName)) => keyName + Ascii(" not found in authorization header")
    case LookupError(DbError(message)) => message
  }

  /** Extract the key for scheme "ApiKey", then look the user up by it. Every
      error comes back with the zero user. */
  function GetAuthUser(authHeader: Bytes, getUserByAPIKey: Bytes -> Result<User, DbError>): (r: UserOrError)
    ensures r.err.Some? ==> r.user == ZeroUser
    ensures r.err.None? <==>
              Auth.GetAuthHeader(authHeader, ApiKeyScheme).Success? &&
              getUserByAPIKey(Auth.GetAuthHeader(authHeader, ApiKeyScheme).value).Success?
    // on success the user is the one the lookup found for the extracted key
    ensures r.err.None? ==>
              r.user == getUserByAPIKey(Auth.GetAuthHeader(authHeader, ApiKeyScheme).value).value
  {
    match GetAuthHeader(authHeader, ApiKeyScheme)
    case Failure(e) => UserOrError(ZeroUser, Some(HeaderError(e)))
    case Success(apiKey) =>
      match getUserByAPIKey(apiKey)
      case Failure(e) => UserOrError(ZeroUser, Some(LookupError(e)))
      case Success(user) => UserOrError(user, None)
  }

  /** A header error is returned as it is, and no lookup takes place: any two
      lookups give the same result. */
  lemma HeaderErrorSkipsLookup(authHeader: Bytes,
                               lookup1: Bytes -> Result<User, DbError>,
                               lookup2: Bytes -> Result<User, DbError>)
    requires Auth.GetAuthHeader(authHeader, ApiKeyScheme).Failure?
    ensures GetAuthUser(authHeader, lookup1) == GetAuthUser(authHeader, lookup2)
    ensures GetAuthUser(authHeader, lookup1) ==
            UserOrError(ZeroUser, Some(HeaderError(Auth.GetAuthHeader(authHeader, ApiKeyScheme).error)))
  {
  }

  /** The lookup is asked about the extracted key and nothing else: two
      lookups that agree on that key give the same result. */
  lemma LookupSeesOnlyTheKey(authHeader: Bytes, apiKey: Bytes,
                             lookup1: Bytes -> Result<User, DbError>,
                             lookup2: Bytes -> Result<User, DbError>)
    requires Auth.GetAuthHeader(authHeader, ApiKeyScheme) == Success(apiKey)
    requires lookup1(apiKey) == lookup2(apiKey)
    ensures GetAuthUser(authHeader, lookup1) == GetAuthUser(authHeader, lookup2)
  {
  }

  /** A well-formed header "ApiKey<any byte><key>": the lookup's error comes
      back as it is with the zero user, and its user comes back with no
      error. */
  lemma WellFormedHeader(separator: bv8, apiKey: Bytes, lookup: Bytes -> Result<User, DbError>)
    ensures var r := GetAuthUser(ApiKeyScheme + [separator] + apiKey, lookup);
            match lookup(apiKey)
            case Success(user) => r == UserOrError(user, None)
            case Failure(e) => r == UserOrError(ZeroUser, Some(LookupError(e)))
  {
    Auth.RoundTrip(ApiKeyScheme, separator, apiKey);
  }

  /** An HTTP response as this wrapper produces it: an error status with the
      error's text (sent as a JSON object), or whatever the handler wrote. */
  datatype Response<R> = ErrorResponse(status: int, message: Bytes) | Handled(result: R)

  const StatusBadRequest: int := 400

  /** authedHandler.ServeHTTP: authenticate, then either answer 400 with the
      error's text or run the handler once with the user. */
  function ServeHTTP<R>(handler: User -> R, authHeader: Bytes,
                        getUserByAPIKey: Bytes -> Result<User, DbError>): (r: Response<R>)
    ensures r.ErrorResponse? <==> GetAuthUser(authHeader, getUserByAPIKey).err.Some?
    ensures r.ErrorResponse? ==> r.status == StatusBadRequest
    ensures r.ErrorResponse? ==> r.message == ErrorText(GetAuthUser(authHeader, getUserByAPIKey).err.value)
    // on success the handler's result for the authenticated user is the response
    ensures r.Handled? ==> r.result == handler(GetAuthUser(authHeader, getUserByAPIKey).user)
  {
    var auth := GetAuthUser(authHeader, getUserByAPIKey);
    if auth.err.Some? then
      ErrorResponse(StatusBadRequest, ErrorText(auth.err.value))
    else
      Handled(handler(auth.user))
  }

  /** When authentication fails the handler is not run: any two handlers give
      the same 400 response, carrying the error's text. */
  lemma RejectedWithoutHandler<R>(handler1: User -> R, handler2: User -> R, authHeader: Bytes,
                                  lookup: Bytes -> Result<User, DbError>)
    requires GetAuthUser(authHeader, lookup).err.Some?
    ensures ServeHTTP(handler1, authHeader, lookup) == ServeHTTP(handler2, authHeader, lookup)
    ensures ServeHTTP(handler1, authHeader, lookup) ==
            ErrorResponse(StatusBadRequest, ErrorText(GetAuthUser(authHeader, lookup).err.value))
  {
  }

  /** A request with a well-formed header for a known key reaches the
      handler with that key's user; a request without the header is refused
      with "malformed authorization header". */
  lemma ServeHTTPEndToEnd<R>(handler: User -> R, separator: bv8, apiKey: Bytes, user: User,
                             lookup: Bytes -> Result<User, DbError>)
    requires lookup(apiKey) == Success(user)
    ensures ServeHTTP(handler, ApiKeyScheme + [separator] + apiKey, lookup) == Handled(handler(user))
    ensures ServeHTTP(handler, [], lookup) ==
            ErrorResponse(StatusBadRequest, Ascii("malformed authorization header"))
  {
    WellFormedHeader(separator, apiKey, lookup);
  }
}

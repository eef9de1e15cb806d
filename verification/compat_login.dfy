/** The legacy Matrix password login (`m.login.password` with an `m.id.user`
    identifier): which flows are advertised, how a request body is classified,
    how the handler composes its answer from the storage collaborator's
    `compat_login`, and which error response each failure becomes.

    The effects of the handler are parameters: the outcome of acquiring a
    database connection, the two random draws (access token and device id) and
    `compat_login` itself, as a function of its four arguments. */
module CompatLogin {
  import opened Wrappers
  import opened DataModel

  // ---------------------------------------------------------------------------
  // Login flows

  /** The login types this endpoint knows; `m.login.password` on the wire. */
  datatype LoginType = PasswordLogin

  /** The body of the answer to GET: the flows a client may use. */
  datatype LoginTypes = LoginTypes(flows: seq<LoginType>)

  /** The wire name of a login type. */
  function LoginTypeName(t: LoginType): string
  {
    match t
    case PasswordLogin => "m.login.password"
  }

  /** GET: the endpoint advertises exactly one flow, `m.login.password`. */
  function Get(): (r: LoginTypes)
    ensures |r.flows| == 1 && LoginTypeName(r.flows[0]) == "m.login.password"
  {
    LoginTypes([PasswordLogin])
  }

  // ---------------------------------------------------------------------------
  // Requests

  /** Who is logging in: a user name (`m.id.user`), or any other identifier type. */
  datatype Identifier = UserIdentifier(user: string) | UnsupportedIdentifier

  /** A login request: a password login (`m.login.password`), or any other login type. */
  datatype RequestBody = PasswordRequest(identifier: Identifier, password: string) | UnsupportedRequest

  /** The login type a request asks for, when it is one the endpoint knows. */
  function RequestLoginType(input: RequestBody): Option<LoginType>
  {
    match input
    case PasswordRequest(_, _) => Some(PasswordLogin)
    case UnsupportedRequest => None
  }

  /** Classifies a request body: the (username, password) pair of a password
      login by user name, and nothing for every other shape. */
  function Credentials(input: RequestBody): (r: Option<(string, string)>)
    ensures r.Some? <==> input.PasswordRequest? && input.identifier.UserIdentifier?
    ensures r.Some? ==> r.value.0 == input.identifier.user && r.value.1 == input.password
  {
    match input
    case PasswordRequest(UserIdentifier(user), password) => Some((user, password))
    case _ => None
  }

  /** A consistency check between GET and POST: a request that yields
      credentials asks for an advertised flow, and every advertised flow has
      a request that yields credentials. With a single login type the first
      half is immediate; the second needs a request as witness. */
  lemma AcceptedFlowsAreAdvertised(input: RequestBody)
    ensures Credentials(input).Some? ==>
      RequestLoginType(input).Some? && RequestLoginType(input).value in Get().flows
    ensures forall f :: f in Get().flows ==>
      exists body :: RequestLoginType(body) == Some(f) && Credentials(body).Some?
  {
    var accepted := PasswordRequest(UserIdentifier("john"), "");
    assert Credentials(accepted).Some?;
    forall f | f in Get().flows
      ensures exists body :: RequestLoginType(body) == Some(f) && Credentials(body).Some?
    {
      assert RequestLoginType(accepted) == Some(f);
    }
  }

  // ---------------------------------------------------------------------------
  // Collaborator types

  /** A device identifier, drawn at random for every login attempt. */
  type Device = string

  /** The legacy access token that `compat_login` stores; only its secret is used here. */
  datatype CompatAccessToken = CompatAccessToken(token: string)

  /** The legacy session `compat_login` creates: the user who logged in and the device. */
  datatype CompatSession<UserData(==)> = CompatSession(user: User<UserData>, device: Device)

  /** The homeserver configuration; only the server name is used. */
  datatype MatrixConfig = MatrixConfig(homeserver: string)

  /** The arguments of one call to `compat_login`. */
  datatype LoginAttempt = LoginAttempt(username: string, password: string, device: Device, token: string)

  /** The answer to a successful login. */
  datatype ResponseBody = ResponseBody(accessToken: string, deviceId: Device, userId: string)

  // ---------------------------------------------------------------------------
  // Errors

  /** A database error, opaque apart from its description. */
  datatype DbError = DbError(description: string)

  /** Why a login request failed. */
  datatype RouteError = Internal(cause: DbError) | Unsupported | LoginFailed

  /** Every database error becomes an internal error, keeping the cause. */
  function FromDbError(e: DbError): (r: RouteError)
    ensures r.Internal? && r.cause == e
  {
    Internal(e)
  }

  type StatusCode = int

  const BAD_REQUEST: StatusCode := 400
  const FORBIDDEN: StatusCode := 403
  const INTERNAL_SERVER_ERROR: StatusCode := 500

  /** A Matrix error answer: error code, human-readable message, HTTP status. */
  datatype MatrixError = MatrixError(errcode: string, error: string, status: StatusCode)

  /** The error answer for each failure: a fixed (errcode, message, status)
      triple per kind of failure. */
  function IntoResponse(e: RouteError): (r: MatrixError)
    ensures e.Internal? ==> r == MatrixError("M_UNKNOWN", "Internal server error", 500)
    ensures e.Unsupported? ==> r == MatrixError("M_UNRECOGNIZED", "Invalid login type", 400)
    ensures e.LoginFailed? ==> r == MatrixError("M_UNAUTHORIZED", "Invalid username/password", 403)
  {
    match e
    case Internal(_) => MatrixError("M_UNKNOWN", "Internal server error", INTERNAL_SERVER_ERROR)
    case Unsupported => MatrixError("M_UNRECOGNIZED", "Invalid login type", BAD_REQUEST)
    case LoginFailed => MatrixError("M_UNAUTHORIZED", "Invalid username/password", FORBIDDEN)
  }

  /** Two failures give the same answer exactly when they are of the same
      kind: the kind is visible to the client, the cause of an internal error
      is not. */
  lemma ResponseRevealsOnlyKind(e1: RouteError, e2: RouteError)
    ensures IntoResponse(e1) == IntoResponse(e2) <==>
      (e1.Internal? && e2.Internal?) || (e1.Unsupported? && e2.Unsupported?) || (e1.LoginFailed? && e2.LoginFailed?)
  {
  }

  /** Whatever the database error, the client sees the same internal-error answer. */
  lemma DbErrorsAnswerInternal(e: DbError)
    ensures IntoResponse(FromDbError(e)) == MatrixError("M_UNKNOWN", "Internal server error", INTERNAL_SERVER_ERROR)
  {
  }

  // ---------------------------------------------------------------------------
  // Matrix user ids

  /** The Matrix user id `@username:homeserver`. When the user name has no
      ':', the id names that user and that homeserver again. */
  function ComposeUserId(username: string, homeserver: string): (id: string)
    ensures ':' !in username ==> ParseUserId(id) == Some((username, homeserver))
  {
    UserIdRoundTrip(username, homeserver); "@" + username + ":" + homeserver
  }

  /** The position of the first ':' in `s`, or `|s|` when there is none. */
  function ColonIndex(s: string): (i: nat)
    ensures i <= |s|
    ensures i < |s| ==> s[i] == ':'
    ensures forall k :: 0 <= k < i ==> s[k] != ':'
  {
    if |s| == 0 || s[0] == ':' then 0 else 1 + ColonIndex(s[1..])
  }

  /** Splits a user id `@localpart:server` at its first ':'. */
  function ParseUserId(id: string): Option<(string, string)>
  {
    if |id| == 0 || id[0] != '@' then None
    else
      var rest := id[1..];
      var i := ColonIndex(rest);
      if i == |rest| then None else Some((rest[..i], rest[i + 1..]))
  }

  /** A user id composed from a user name without ':' names that user and
      that homeserver again. */
  lemma UserIdRoundTrip(username: string, homeserver: string)
    ensures ':' !in username ==> ParseUserId("@" + username + ":" + homeserver) == Some((username, homeserver))
  {
    if ':' !in username {
      var id := "@" + username + ":" + homeserver;
      var rest := id[1..];
      assert rest == username + ":" + homeserver;
      var i := ColonIndex(rest);
      assert rest[|username|] == ':';
      assert forall k :: 0 <= k < |username| ==> rest[k] == username[k];
      assert i == |username|;
      assert rest[..i] == username;
      assert rest[i + 1..] == homeserver;
    }
  }

  /** Conversely, every user id that parses is the composition of what it parses to. */
  lemma ParsedUserIdComposes(id: string, username: string, homeserver: string)
    requires ParseUserId(id) == Some((username, homeserver))
    ensures ':' !in username
    ensures ComposeUserId(username, homeserver) == id
  {
  }

  /** A ':' in the user name makes the composed id ambiguous: two different
      (user name, homeserver) pairs give the same id. */
  lemma ColonInUserNameIsAmbiguous()
    ensures ComposeUserId("a:b", "h") == ComposeUserId("a", "b:h")
    ensures ParseUserId(ComposeUserId("a:b", "h")) != Some(("a:b", "h"))
  {
  }

  // ---------------------------------------------------------------------------
  // The login handler

  /** POST: log in with a user name and password.

      `acquireError` is the failure, if any, of acquiring a database
      connection, which happens before the body is looked at; `token` and
      `device` are the two random draws; `compatLogin` is the storage
      collaborator that checks the password and records the device and token.
      `attempt` is the call made to `compatLogin`, or `None` when none is made.
      It stands in for the writes `compat_login` makes to the store (the new
      device and access token), which are not modelled; the body sets it next
      to the call, and nothing else ties the two together. */
  method Post<UserData(==), LoginError>(
    acquireError: Option<DbError>,
    config: MatrixConfig,
    input: RequestBody,
    token: string,
    device: Device,
    compatLogin: (string, string, Device, string) -> Result<(CompatAccessToken, CompatSession<UserData>), LoginError>)
    returns (r: Result<ResponseBody, RouteError>, attempt: Option<LoginAttempt>)
    // a failed connection is an internal error, whatever the body
    ensures acquireError.Some? ==> r == Err(Internal(acquireError.value)) && attempt == None
    // any other shape than a password login by user name is unsupported, and nothing is attempted
    ensures acquireError.None? && !(input.PasswordRequest? && input.identifier.UserIdentifier?) ==>
      r == Err(Unsupported) && attempt == None
    // otherwise the user name and password go to compat_login unchanged
    ensures acquireError.None? && input.PasswordRequest? && input.identifier.UserIdentifier? ==>
      attempt == Some(LoginAttempt(input.identifier.user, input.password, device, token))
    // every failure of compat_login, whatever its cause, is the same opaque failure
    ensures attempt.Some? && compatLogin(attempt.value.username, attempt.value.password, device, token).Err? ==>
      r == Err(LoginFailed)
    // a success answers with the stored token, the session's device and the session user's id
    ensures attempt.Some? && compatLogin(attempt.value.username, attempt.value.password, device, token).Ok? ==>
      var (issued, session) := compatLogin(attempt.value.username, attempt.value.password, device, token).value;
      r == Ok(ResponseBody(issued.token, session.device, "@" + session.user.username + ":" + config.homeserver))
    // the user id of a success parses back to the session's user name and the homeserver
    ensures attempt.Some? && compatLogin(attempt.value.username, attempt.value.password, device, token).Ok? ==>
      var (_, session) := compatLogin(attempt.value.username, attempt.value.password, device, token).value;
      ':' !in session.user.username ==> ParseUserId(r.value.userId) == Some((session.user.username, config.homeserver))
  {
    if acquireError.Some? {
      return Err(FromDbError(acquireError.value)), None;
    }
    var credentials := Credentials(input);
    if credentials.None? {
      return Err(Unsupported), None;
    }
    var (username, password) := credentials.value;
    attempt := Some(LoginAttempt(username, password, device, token));
    var outcome := compatLogin(username, password, device, token);
    if outcome.Err? {
      return Err(LoginFailed), attempt;
    }
    var (issued, session) := outcome.value;
    var userId := ComposeUserId(session.user.username, config.homeserver);
    r := Ok(ResponseBody(issued.token, session.device, userId));
  }
}

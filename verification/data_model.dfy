/** The storage-backend-agnostic entity model of the authentication service.

    A storage backend attaches an opaque `data` value (row ids, foreign keys,
    ...) to every entity except `Pkce`, a plain value embedded in
    `AuthorizationCode`. Each entity with backend data takes the type of that
    data as a type parameter, and an entity that embeds another one also takes
    the embedded entity's parameters. Nothing in the domain logic inspects
    `data`. */
module DataModel {
  import opened Wrappers

  /** An instant, as a count of some fixed time unit since the Unix epoch. */
  type Timestamp = int

  /** A span of time in the same unit as `Timestamp`. */
  type Duration = int

  /** An OAuth 2.0 scope: the set of its scope tokens. */
  type Scope = set<string>

  // Every backend data type supports equality, as the storage backend
  // requires of its associated types.

  /** A registered account. */
  datatype User<UserData(==)> = User(data: UserData, username: string, sub: string)

  /** One successful credential check. */
  datatype Authentication<AuthenticationData(==)> =
    Authentication(data: AuthenticationData, createdAt: Timestamp)

  /** An interactive login session of one user, with its latest authentication if any. */
  datatype BrowserSession<BrowserSessionData(==), UserData(==), AuthenticationData(==)> = BrowserSession(
    data: BrowserSessionData,
    user: User<UserData>,
    createdAt: Timestamp,
    lastAuthentication: Option<Authentication<AuthenticationData>>)

  /** A registered OAuth client. */
  datatype Client<ClientData(==)> = Client(data: ClientData, clientId: string)

  /** One OAuth grant: exactly one client, at most one browser session, and a scope. */
  datatype Session<SessionData(==), BrowserSessionData(==), UserData(==), AuthenticationData(==), ClientData(==)> = Session(
    data: SessionData,
    browserSession: Option<BrowserSession<BrowserSessionData, UserData, AuthenticationData>>,
    client: Client<ClientData>,
    scope: Scope)

  /** The PKCE challenge methods of RFC 7636 (`plain` and `S256`). */
  datatype CodeChallengeMethod = Plain | S256

  /** A PKCE challenge. It is a value: once built by `NewPkce`, its method and
      challenge cannot change. */
  datatype Pkce = Pkce(challengeMethod: CodeChallengeMethod, challenge: string)
  {
    /** Checks `verifier` against the stored challenge. The comparison itself
        belongs to the challenge method and is supplied as `methodVerify`,
        applied to (method, challenge, verifier). */
    function Verify(methodVerify: (CodeChallengeMethod, string, string) -> bool, verifier: string): (ok: bool)
      ensures ok == methodVerify(challengeMethod, challenge, verifier)
    {
      methodVerify(challengeMethod, challenge, verifier)
    }
  }

  /** An authorization code, with the one PKCE challenge it embeds. */
  datatype AuthorizationCode<AuthorizationCodeData(==)> =
    AuthorizationCode(data: AuthorizationCodeData, code: string, pkce: Pkce)

  /** A bearer credential. */
  datatype AccessToken<AccessTokenData(==)> = AccessToken(
    data: AccessTokenData,
    jti: string,
    token: string,
    expiresAfter: Duration,
    createdAt: Timestamp)

  /** Builds a PKCE challenge from a method and a challenge string. */
  function NewPkce(challengeMethod: CodeChallengeMethod, challenge: string): (p: Pkce)
    ensures p.challengeMethod == challengeMethod && p.challenge == challenge
  {
    Pkce(challengeMethod, challenge)
  }

  /** Two challenges built from different inputs are different values, so a
      `Pkce` determines the method and challenge it was built from. */
  lemma NewPkceInjective(m1: CodeChallengeMethod, c1: string, m2: CodeChallengeMethod, c2: string)
    ensures NewPkce(m1, c1) == NewPkce(m2, c2) <==> m1 == m2 && c1 == c2
  {
  }

  /** The method checks of section 4.6 of RFC 7636. `s256` stands for
      BASE64URL-ENCODE(SHA256(ASCII(verifier))), which is not modelled. */
  function Rfc7636Verify(s256: string -> string): (CodeChallengeMethod, string, string) -> bool
  {
    (m: CodeChallengeMethod, challenge: string, verifier: string) =>
      match m
      case Plain => verifier == challenge
      case S256 => s256(verifier) == challenge
  }

  /** With the `plain` method a verifier passes exactly when it equals the challenge. */
  lemma PlainVerifyIsEquality(s256: string -> string, challenge: string, verifier: string)
    ensures NewPkce(Plain, challenge).Verify(Rfc7636Verify(s256), verifier) <==> verifier == challenge
  {
  }

  /** With `S256`, a verifier passes the challenge derived from it, and a
      verifier passes only if it hashes to the same challenge. */
  lemma S256VerifyMatchesHash(s256: string -> string, verifier: string, other: string)
    ensures NewPkce(S256, s256(verifier)).Verify(Rfc7636Verify(s256), verifier)
    ensures NewPkce(S256, s256(verifier)).Verify(Rfc7636Verify(s256), other) <==> s256(other) == s256(verifier)
  {
  }

  /** The deterministic sample users: one user, "john", whose backend data is
      the backend's default (`defaultData`). */
  function UserSamples<UserData(==)>(defaultData: UserData): (users: seq<User<UserData>>)
    ensures |users| == 1
    ensures users[0].username == "john" && users[0].sub == "123-456" && users[0].data == defaultData
  {
    [User(defaultData, "john", "123-456")]
  }

  /** Applies `f` to every element, keeping the order (an iterator's `map`
      followed by `collect`). */
  function MapSeq<X, Y>(xs: seq<X>, f: X -> Y): (ys: seq<Y>)
    ensures |ys| == |xs|
    ensures forall i :: 0 <= i < |xs| ==> ys[i] == f(xs[i])
  {
    if |xs| == 0 then [] else [f(xs[0])] + MapSeq(xs[1..], f)
  }

  /** The deterministic sample browser sessions: one per sample user, in the
      same order. `now` is the clock reading taken when they are built. */
  function BrowserSessionSamples<BrowserSessionData(==), UserData(==), AuthenticationData(==)>(
    defaultSessionData: BrowserSessionData, defaultUserData: UserData, now: Timestamp
  ): (sessions: seq<BrowserSession<BrowserSessionData, UserData, AuthenticationData>>)
    ensures |sessions| == |UserSamples(defaultUserData)|
    ensures forall i :: 0 <= i < |sessions| ==>
      && sessions[i].user == UserSamples(defaultUserData)[i]
      && sessions[i].data == defaultSessionData
      && sessions[i].createdAt == now
      && sessions[i].lastAuthentication == None
  {
    MapSeq(UserSamples(defaultUserData),
           (user: User<UserData>) => BrowserSession(defaultSessionData, user, now, None))
  }

  /** The one sample browser session belongs to "john" and has never been authenticated. */
  lemma SampleSessionIsJohns<BrowserSessionData, UserData, AuthenticationData>(
    defaultSessionData: BrowserSessionData, defaultUserData: UserData, now: Timestamp)
    ensures var sessions := BrowserSessionSamples<BrowserSessionData, UserData, AuthenticationData>(
              defaultSessionData, defaultUserData, now);
            |sessions| == 1 && sessions[0].user.username == "john" && sessions[0].lastAuthentication.None?
  {
  }
}

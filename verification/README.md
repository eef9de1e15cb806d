# Matrix authentication service: entity model and legacy password login

This project models two parts of the authentication service in Dafny.

**The backend-agnostic entity model** (`DataModel`, `data_model.dfy`). It covers the
records `User`, `Authentication`, `BrowserSession`, `Client`, `Session`, `Pkce`,
`AuthorizationCode` and `AccessToken`. Every record except `Pkce` carries an opaque
`data` value that the storage backend supplies. `Pkce` is a plain value embedded in
`AuthorizationCode`. Rust's `StorageBackend` trait gives the type of each `data` value
as an associated type. Dafny has no associated types, so each record with backend data
takes that data type as a type parameter. A record that embeds another also takes the
embedded record's parameters. The model also covers the deterministic sample
constructors, the PKCE constructor `NewPkce`, and `Pkce.Verify`. The method-specific
check `Verify` delegates to is passed in as a function.

The shape invariants hold by construction of the datatypes:
- an `AuthorizationCode` embeds exactly one `Pkce`;
- a `Session` has exactly one `Client` and an `Option` of one `BrowserSession`;
- a `Pkce` is an immutable value, so its method and challenge are fixed once it is built.

**The legacy password login** (`CompatLogin`, `compat_login.dfy`). This is the Matrix
`m.login.password` login with an `m.id.user` identifier. The model covers:
- the advertised flows (`Get`);
- the classification of a request body (`Credentials`);
- the handler `Post`, a method over its effects;
- the error answers (`IntoResponse`) and the conversion of database errors (`FromDbError`).

`Post` takes its effects as parameters:
- the outcome of acquiring a database connection;
- the random access token and device id;
- the storage collaborator `compat_login`, as a function of its four arguments.

Its out-parameter `attempt` records the call made to `compat_login`. It is `None`
when no call is made. For a user name without ':', `ParseUserId` inverts the `@user:homeserver`
composition. With it, `Post`'s last ensures, `ComposeUserId`'s ensures and the lemma
`UserIdRoundTrip` state that, for a user name without ':', the composed user id names
the session's user and the homeserver. The lemma `ParsedUserIdComposes` states the
converse. The composition
itself accepts any user name. A ':' in the user name makes the composed id
ambiguous: `@a:b:h` is composed both from `a:b` with `h` and from `a` with `b:h`.

The connection is acquired before the body is classified. So when acquisition fails,
even an unsupported body gets the internal error, not `Unsupported`. The model
follows the code here. Once the connection is acquired, every `compat_login` error
becomes `LoginFailed`, storage failures included. Such an error answers
M_UNAUTHORIZED/403 "Invalid username/password". A failed connection acquisition
answers M_UNKNOWN/500 instead.

`Pkce.Verify` takes the challenge method's check as a parameter, because that check
is not part of this model. `Rfc7636Verify` is the check of section 4.6 of RFC 7636.
With `plain`, it compares the verifier with the challenge. With `S256`, it compares a
supplied hash of the verifier with the challenge. The hash stands for
BASE64URL-ENCODE(SHA256(verifier)). The lemmas about `Rfc7636Verify` state facts of
that RFC, not promises of `Pkce::verify` itself.

## Model

| member | source | states |
|---|---|---|
| DataModel.NewPkce | crates/data-model/src/lib.rs:107-112 | the built challenge has exactly the given method and challenge string |
| DataModel.NewPkceInjective | crates/data-model/src/lib.rs:100-112 | two built challenges are equal iff they were built from the same method and challenge, so a `Pkce` determines both |
| DataModel.Pkce.Verify | crates/data-model/src/lib.rs:114-116 | the answer is the challenge method's check applied to the stored method, the stored challenge and the verifier |
| DataModel.PlainVerifyIsEquality | crates/data-model/src/lib.rs:114-116 | under RFC 7636 section 4.6, a `plain` challenge accepts a verifier iff it equals the challenge |
| DataModel.S256VerifyMatchesHash | crates/data-model/src/lib.rs:114-116 | under RFC 7636 section 4.6, an `S256` challenge derived from a verifier accepts that verifier, and accepts another exactly when it hashes to the same value |
| DataModel.UserSamples | crates/data-model/src/lib.rs:41-47 | exactly one sample user, with username "john", sub "123-456" and the backend's default data |
| DataModel.MapSeq | crates/data-model/src/lib.rs:72-80 | mapping a closure over the users keeps the length and the order: the i-th result is the closure applied to the i-th user |
| DataModel.BrowserSessionSamples | crates/data-model/src/lib.rs:71-81 | as many sample sessions as sample users; the i-th wraps the i-th sample user with default data and `last_authentication` absent |
| DataModel.SampleSessionIsJohns | crates/data-model/src/lib.rs:41-81 | the one sample session belongs to "john" and has not been authenticated |
| CompatLogin.Get | crates/handlers/src/compat/login.rs:39-45 | exactly one flow is advertised, and its wire name is `m.login.password` |
| CompatLogin.Credentials | crates/handlers/src/compat/login.rs:125-133 | a body yields credentials iff it is a password login with an `m.id.user` identifier; the credentials are that user string and that password |
| CompatLogin.AcceptedFlowsAreAdvertised | crates/handlers/src/compat/login.rs:27-58 | consistency between GET and POST: every body that yields credentials asks for an advertised flow (immediate, with one login type), and every advertised flow has a body that yields credentials |
| CompatLogin.FromDbError | crates/handlers/src/compat/login.rs:89-93 | every database error becomes an internal error that keeps the cause |
| CompatLogin.IntoResponse | crates/handlers/src/compat/login.rs:95-116 | internal gives M_UNKNOWN/500, unsupported gives M_UNRECOGNIZED/400 "Invalid login type", login failed gives M_UNAUTHORIZED/403 "Invalid username/password" |
| CompatLogin.ResponseRevealsOnlyKind | crates/handlers/src/compat/login.rs:95-116 | two errors give the same answer iff they are of the same kind: the internal cause never reaches the client |
| CompatLogin.DbErrorsAnswerInternal | crates/handlers/src/compat/login.rs:89-116 | whatever the database error, the client gets the M_UNKNOWN/500 answer |
| CompatLogin.ComposeUserId | crates/handlers/src/compat/login.rs:146 | the id `@username:homeserver` parses back to the user name and the homeserver whenever the user name has no ':' |
| CompatLogin.UserIdRoundTrip | crates/handlers/src/compat/login.rs:146 | the composed `@user:homeserver`, for a user name without ':', parses back to that user name and homeserver |
| CompatLogin.ParsedUserIdComposes | crates/handlers/src/compat/login.rs:146 | every id that parses is the composition of its parts, and its user part has no ':' |
| CompatLogin.ColonInUserNameIsAmbiguous | crates/handlers/src/compat/login.rs:146 | the composition accepts a user name with ':', and then two different (user, homeserver) pairs give the same id, which does not parse back to the first |
| CompatLogin.Post | crates/handlers/src/compat/login.rs:118-153 | a failed connection is an internal error and no login is attempted. Otherwise, any body but password/`m.id.user` is unsupported and `compat_login` is not called. Otherwise user and password go to `compat_login` unchanged, with the drawn device and token. Any `compat_login` failure becomes `LoginFailed`. A success answers with the returned token, the session's device, and user id `"@" + username + ":" + homeserver`; for a user name without ':' that id parses back to both |

## Left out

- Acquiring database connections, async execution, tracing, and JSON (de)serialization. The model works on the decoded variants. Any unknown login or identifier type is the `Unsupported*` variant. Of serde's renaming, only the wire name of the login type is kept (`LoginTypeName`).
- `Utc::now()`: `BrowserSessionSamples` takes one clock reading `now` as a parameter. The source reads the clock once per sample; with its single sample user this is one reading.
- The `Default` data of the sample constructors is a parameter: `defaultData` of `UserSamples`, and `defaultSessionData` and `defaultUserData` of `BrowserSessionSamples`.
- `Pkce.Verify`: the check of `CodeChallengeMethod` lives in `oauth2_types`, which is not part of this model. It is a parameter. SHA-256 and base64url are not modelled; in `Rfc7636Verify` they are a parameter.
- `compat_login` (password check and persistence) is not part of this model. It is a function parameter of `Post`, so it is deterministic in its four arguments; the database state it reads is folded into that function.
- `TokenType::generate` and `Device::generate` are random draws. They are parameters of `Post`. Their format and entropy are not modelled.
- `Device`, `CompatAccessToken` and `CompatSession` are not defined in the data-model file that is modelled. They are minimal records holding only the fields the handler reads.
- The `MatrixError` type and its conversion into an HTTP response body are not part of this model. Only the (errcode, message, status) triple is modelled.
- Time and `Duration` arithmetic: no expiry check exists in the modelled code, so access-token validity is not modelled.
- The authorization-code exchange, single-use codes, scope immutability and token uniqueness: none of them is implemented in the modelled files.
- The account e-mail views (`crates/handlers/src/views/account/emails.rs`): routing, CSRF and cookies, templates, mail delivery and storage calls, with no domain logic of their own.

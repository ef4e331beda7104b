/**
 * The back end's authentication: logging in issues a token whose claims name
 * the user and the role, every protected request decodes its bearer token and
 * checks the `sub` and `jti` claims (sections 4.1.2 and 4.1.7 of RFC 7519)
 * against the in-memory blocklist, and logging out adds the token's `jti` to
 * that blocklist. Signing, decoding and password hashing are outside the model
 * and come in as functions.
 */
module AuthBackend {
  import opened Common

  /** A claim value of a decoded payload; `Null` is a missing claim or a JSON `null` (`payload.get` gives `None`). */
  datatype Claim = Null | Text(s: string) | Number(n: int)

  type Payload = map<string, Claim>

  /** `payload.get(name)` */
  function Get(payload: Payload, name: string): Claim {
    if name in payload then payload[name] else Null
  }

  datatype HttpError = HttpError(status: nat, detail: string)

  const CredentialsError := HttpError(401, "Could not validate credentials")
  const RevokedError := HttpError(403, "Token has been revoked (logged out)")
  const PrivilegeError := HttpError(403, "The user does not have sufficient privileges")
  const LoginError := HttpError(401, "Incorrect username or password")

  /** `jwt.decode(token, SECRET_KEY, algorithms=[ALGORITHM])`; `None` when it raises (bad signature, expiry, ...). */
  type Decoder = string -> Option<Payload>

  /** `get_current_user`: decoding, then the two required claims, then the blocklist. */
  function CurrentUser(token: string, decode: Decoder, blocklist: set<Claim>): (r: Result<Payload, HttpError>)
    ensures r.Ok? ==> decode(token) == Some(r.value)
  {
    match decode(token)
    case None => Err(CredentialsError)
    case Some(payload) =>
      if Get(payload, "sub") == Null || Get(payload, "jti") == Null then Err(CredentialsError)
      else if Get(payload, "jti") in blocklist then Err(RevokedError)
      else Ok(payload)
  }

  /**
   * A request gets its payload back exactly when the token decodes, names a subject and an id, and that
   * id is not revoked; the three failures are told apart by status and detail.
   */
  lemma CurrentUserSpec(token: string, decode: Decoder, blocklist: set<Claim>)
    ensures var r := CurrentUser(token, decode, blocklist);
      && (r.Ok? <==> (&& decode(token).Some?
                      && Get(decode(token).value, "sub") != Null
                      && Get(decode(token).value, "jti") != Null
                      && Get(decode(token).value, "jti") !in blocklist))
      && (r.Err? ==> r.error in {CredentialsError, RevokedError})
      && (r.Err? && r.error == RevokedError ==>
            decode(token).Some? && Get(decode(token).value, "jti") in blocklist)
  {
  }

  /** The claims are checked before the blocklist: a payload without a subject is a 401 whatever is revoked. */
  lemma ClaimsBeforeBlocklist(token: string, decode: Decoder, blocklist: set<Claim>)
    requires decode(token).Some? && Get(decode(token).value, "sub") == Null
    ensures CurrentUser(token, decode, blocklist) == Err(CredentialsError)
  {
  }

  /** Revoking more tokens can only turn an accepted token into a revoked one. */
  lemma BlocklistGrows(token: string, decode: Decoder, before: set<Claim>, after: set<Claim>)
    requires before <= after
    ensures var r := CurrentUser(token, decode, before);
      var r' := CurrentUser(token, decode, after);
      r' == r || (r.Ok? && r' == Err(RevokedError))
  {
  }

  /** `get_current_admin_user`: the current user's payload, when its role is exactly `admin`. */
  function CurrentAdminUser(token: string, decode: Decoder, blocklist: set<Claim>): (r: Result<Payload, HttpError>)
    ensures r.Ok? <==> (CurrentUser(token, decode, blocklist).Ok?
                        && Get(CurrentUser(token, decode, blocklist).value, "role") == Text("admin"))
    ensures r.Ok? ==> r == CurrentUser(token, decode, blocklist)
    ensures CurrentUser(token, decode, blocklist).Ok? && r.Err? ==> r.error == PrivilegeError
  {
    match CurrentUser(token, decode, blocklist)
    case Err(e) => Err(e)
    case Ok(user) => if Get(user, "role") != Text("admin") then Err(PrivilegeError) else Ok(user)
  }

  /** A stored user, as `user_crud.get_user` returns it. */
  datatype UserInDb = UserInDb(username: string, fullName: Option<string>, role: string, isActive: bool,
                               hashedPassword: string)

  datatype Token = Token(accessToken: string, tokenType: string)

  /** The claims `create_access_token` is given: the stored user name and role. */
  function TokenClaims(user: UserInDb): Payload {
    map["sub" := Text(user.username), "role" := Text(user.role)]
  }

  /**
   * `login_for_access_token`: `lookup` is the database query, `verify` the password check and `sign`
   * `create_access_token`, whose own claims (expiry, id) are beyond the model.
   */
  function Login(username: string, password: string, lookup: string -> Option<UserInDb>,
                 verify: (string, string) -> bool, sign: Payload -> string): (r: Result<Token, HttpError>)
    ensures r.Err? ==> r.error == LoginError
  {
    match lookup(username)
    case None => Err(LoginError)
    case Some(user) =>
      if !user.isActive then Err(LoginError)
      else if !verify(password, user.hashedPassword) then Err(LoginError)
      else Ok(Token(sign(TokenClaims(user)), "bearer"))
  }

  /**
   * A token is issued exactly for an active user whose password checks out; it is a bearer token
   * signed over the user's name and role. An unknown name, an inactive account and a wrong password
   * all get the same answer.
   */
  lemma LoginSpec(username: string, password: string, lookup: string -> Option<UserInDb>,
                  verify: (string, string) -> bool, sign: Payload -> string)
    ensures var r := Login(username, password, lookup, verify, sign);
      && (r.Ok? <==> (lookup(username).Some? && lookup(username).value.isActive
                      && verify(password, lookup(username).value.hashedPassword)))
      && (r.Ok? ==> (&& r.value.tokenType == "bearer"
                     && r.value.accessToken == sign(TokenClaims(lookup(username).value))
                     && Get(TokenClaims(lookup(username).value), "sub") == Text(lookup(username).value.username)
                     && Get(TokenClaims(lookup(username).value), "role") == Text(lookup(username).value.role)))
  {
  }

  /**
   * A freshly issued token is accepted as long as signing adds an id that is not revoked and decoding
   * gives the signed claims back, and it passes the admin check exactly for an administrator.
   */
  lemma IssuedTokenAccepted(username: string, password: string, lookup: string -> Option<UserInDb>,
                            verify: (string, string) -> bool, sign: Payload -> string,
                            decode: Decoder, blocklist: set<Claim>, jti: Claim)
    requires Login(username, password, lookup, verify, sign).Ok?
    requires jti != Null && jti !in blocklist
    requires var claims := TokenClaims(lookup(username).value);
      decode(sign(claims)) == Some(claims["jti" := jti])
    ensures var t := Login(username, password, lookup, verify, sign).value.accessToken;
      var user := lookup(username).value;
      && CurrentUser(t, decode, blocklist).Ok?
      && Get(CurrentUser(t, decode, blocklist).value, "sub") == Text(user.username)
      && (CurrentAdminUser(t, decode, blocklist).Ok? <==> user.role == "admin")
  {
    var user := lookup(username).value;
    var p := TokenClaims(user)["jti" := jti];
    assert Get(p, "sub") == Text(user.username) && Get(p, "jti") == jti && Get(p, "role") == Text(user.role);
  }

  /** The server's global state: the ids of the tokens that were logged out. */
  class AuthServer {
    var blocklist: set<Claim>

    constructor()
      ensures blocklist == {}
    {
      blocklist := {};
    }

    /** `POST /logout`: the token must pass `get_current_user`; its `jti` is then revoked. */
    method Logout(token: string, decode: Decoder) returns (r: Result<string, HttpError>)
      modifies this
      ensures var user := CurrentUser(token, decode, old(blocklist));
        && (user.Err? ==> r == Err(user.error) && blocklist == old(blocklist))
        && (user.Ok? ==> r == Ok("Successfully logged out") && blocklist == old(blocklist) + {Get(user.value, "jti")})
      ensures r.Ok? ==> CurrentUser(token, decode, blocklist) == Err(RevokedError)
    {
      var user := CurrentUser(token, decode, blocklist);
      if user.Err? {
        return Err(user.error);
      }
      var jti := Get(user.value, "jti");
      blocklist := blocklist + {jti};
      r := Ok("Successfully logged out");
    }
  }

  /** Logging out with a token revokes it and nothing else: a token with another id is judged as before. */
  lemma LogoutRevokesOnlyThatToken(token: string, other: string, decode: Decoder, blocklist: set<Claim>)
    requires CurrentUser(token, decode, blocklist).Ok?
    requires decode(other).Some? ==> Get(decode(other).value, "jti") != Get(decode(token).value, "jti")
    ensures var after := blocklist + {Get(decode(token).value, "jti")};
      && CurrentUser(token, decode, after) == Err(RevokedError)
      && CurrentUser(other, decode, after) == CurrentUser(other, decode, blocklist)
  {
  }

  /** A second logout with the same token is refused with 403 and changes nothing. */
  method LogoutTwice(server: AuthServer, token: string, decode: Decoder) returns (first: Result<string, HttpError>, second: Result<string, HttpError>)
    modifies server
    ensures first.Ok? ==> second == Err(RevokedError)
    ensures first.Ok? ==> (decode(token).Some?
                           && server.blocklist == old(server.blocklist) + {Get(decode(token).value, "jti")})
  {
    first := server.Logout(token, decode);
    second := server.Logout(token, decode);
  }
}

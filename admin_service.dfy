/** The admin authentication service of internal/admin/service/token.go:
    `LoginBasic` checks an email and password against the stored admin and
    issues a signed token; `ValidateToken` decodes a token back into the
    admin's id and email. The credential store, the clock and the JWT codec
    (RFC 7519 tokens signed with HS256, section 3.2 of RFC 7518) are
    parameters. */
module AdminService {
  import opened Foundation
  import opened Errors
  import opened Store

  /** A stored admin (internal/admin/admin.go). */
  datatype Admin = Admin(id: int, email: string, password: string, createTime: Time, updateTime: Time)

  /** The data carried by a token. */
  datatype TokenData = TokenData(adminID: int, email: string)

  const ZeroTokenData := TokenData(0, "")

  /** `jwtClaims`: the token data plus the registered claims, of which the
      service only ever sets the expiry. */
  datatype JwtClaims = JwtClaims(adminID: int, email: string, expiresAt: Option<Time>)

  /** `jwtClaims.parseTokenData`. */
  function ParseTokenData(c: JwtClaims): (d: TokenData)
    ensures d.adminID == c.adminID && d.email == c.email
  {
    TokenData(c.adminID, c.email)
  }

  /** `formatTokenData`: claims with every registered claim left unset. */
  function FormatTokenData(d: TokenData): (c: JwtClaims)
    ensures c.expiresAt.None?
    ensures c.adminID == d.adminID && c.email == d.email
  {
    JwtClaims(d.adminID, d.email, None)
  }

  /** Formatting token data into claims and parsing it back gives the same
      data, whatever expiry is added in between. */
  lemma TokenDataRoundTrip(d: TokenData, expiry: Option<Time>)
    ensures ParseTokenData(FormatTokenData(d)) == d
    ensures ParseTokenData(FormatTokenData(d).(expiresAt := expiry)) == d
  {
  }

  /** The service configuration: the HS256 secret and the token lifetime. */
  datatype Config = Config(tokenSecretKey: string, tokenExpiration: int)

  /** `jwt.NewWithClaims(HS256, claims).SignedString(key)`. */
  type Signer = (JwtClaims, string) -> Ret<string, Error>

  /** What the JWT library's claims decoding yields: our claims type, or
      claims of some other type. */
  datatype Claims = OwnClaims(claims: JwtClaims) | ForeignClaims

  /** `jwt.ParseWithClaims`: an error, or a token with its `Valid` flag. */
  datatype ParseOutcome = ParseError(err: Error) | Parsed(valid: bool, claims: Claims)

  /** `jwt.ParseWithClaims(token, &jwtClaims{}, key)`, evaluated by the
      library at the instant given as the third argument. */
  type TokenParser = (string, string, Time) -> ParseOutcome

  /** The claims `generateToken` signs: the token data with the expiry set
      to `now + TokenExpiration`. */
  function IssuedClaims(config: Config, now: Time, data: TokenData): (c: JwtClaims)
    ensures c.expiresAt == Some(now.Add(config.tokenExpiration))
    ensures ParseTokenData(c) == data
  {
    FormatTokenData(data).(expiresAt := Some(now.Add(config.tokenExpiration)))
  }

  /** `generateToken`: sign the issued claims with the secret key; a signing
      error is returned with the empty token. */
  function GenerateToken(config: Config, now: Time, data: TokenData, sign: Signer): (r: Ret<string, Error>)
    ensures r.err == sign(IssuedClaims(config, now, data), config.tokenSecretKey).err
    ensures r.err.Some? ==> r.value == ""
    ensures r.err.None? ==> exists c :: sign(c, config.tokenSecretKey) == Ret(r.value, None)
                                       && ParseTokenData(c) == data
                                       && c.expiresAt == Some(now.Add(config.tokenExpiration))
  {
    var claims := IssuedClaims(config, now, data);
    var signed := sign(claims, config.tokenSecretKey);
    if signed.err.Some? then Ret("", signed.err) else Ret(signed.value, None)
  }

  /** The credential store: `NewClient(false)` fails with `clientErr`, or
      `GetUserByEmail` answers from `users`; any lookup failure, a missing
      row or a database error alike, is a missing key. */
  datatype CredentialStore = CredentialStore(clientErr: Option<Error>, users: map<string, Admin>)

  /** A successful login: the token and the data it carries. */
  datatype Session = Session(token: string, data: TokenData)

  const ZeroSession := Session("", ZeroTokenData)

  /** `LoginBasic`: the early-return chain of token.go. */
  function LoginBasic(email: string, password: string, store: CredentialStore,
                      config: Config, now: Time, sign: Signer): (r: Run<Session, Admin>)
    // empty inputs are rejected, email first, without touching the store
    ensures email == "" ==> r == Run(ZeroSession, Some(AdminInvalidEmail), [])
    ensures email != "" && password == "" ==> r == Run(ZeroSession, Some(AdminInvalidPassword), [])
    // a NewClient failure is returned unchanged
    ensures email != "" && password != "" && store.clientErr.Some? ==> r.err == store.clientErr
    // any lookup failure is an invalid email
    ensures email != "" && password != "" && store.clientErr.None? && email !in store.users
            ==> r.err == Some(AdminInvalidEmail)
    // the password must match exactly
    ensures (email != "" && password != "" && store.clientErr.None? && email in store.users
             && store.users[email].password != password) ==> r.err == Some(AdminInvalidPassword)
    // every failure returns the empty token and the zero token data
    ensures r.err.Some? ==> r.value == ZeroSession
    // on success the token carries the stored admin's id and email
    ensures r.err.None? ==>
              email in store.users && store.users[email].password == password
              && r.value.data == TokenData(store.users[email].id, store.users[email].email)
              && r.value.token == GenerateToken(config, now, r.value.data, sign).value
    // valid credentials succeed exactly when signing does; a signing error is returned unchanged
    ensures email != "" && password != "" && store.clientErr.None? && email in store.users
            && store.users[email].password == password ==>
              r.err == GenerateToken(config, now, TokenData(store.users[email].id, store.users[email].email), sign).err
    ensures r.err.None? <==>
              email != "" && password != "" && store.clientErr.None? && email in store.users
              && store.users[email].password == password
              && GenerateToken(config, now, TokenData(store.users[email].id, store.users[email].email), sign).err.None?
    // the store is only read: a client, then one lookup by the given email
    ensures r.calls == [] || r.calls == [NewClient(false)]
            || r.calls == [NewClient(false), GetUserByEmail(email)]
  {
    if email == "" then Run(ZeroSession, Some(AdminInvalidEmail), [])
    else if password == "" then Run(ZeroSession, Some(AdminInvalidPassword), [])
    else if store.clientErr.Some? then Run(ZeroSession, store.clientErr, [NewClient(false)])
    else
      var calls := [NewClient(false), GetUserByEmail(email)];
      if email !in store.users then Run(ZeroSession, Some(AdminInvalidEmail), calls)
      else
        var current := store.users[email];
        if password != current.password then Run(ZeroSession, Some(AdminInvalidPassword), calls)
        else
          var data := TokenData(current.id, current.email);
          var token := GenerateToken(config, now, data, sign);
          if token.err.Some? then Run(ZeroSession, token.err, calls)
          else Run(Session(token.value, data), None, calls)
  }

  /** `ValidateToken`: the codec's outcomes mapped onto the admin errors. */
  function ValidateToken(token: string, config: Config, now: Time, parse: TokenParser): (r: Ret<TokenData, Error>)
    ensures token == "" ==> r == Ret(ZeroTokenData, Some(AdminInvalidToken))
    ensures token != "" && parse(token, config.tokenSecretKey, now) == ParseError(JwtSignatureInvalid)
            ==> r.err == Some(AdminInvalidToken)
    ensures token != "" && parse(token, config.tokenSecretKey, now).ParseError?
            && parse(token, config.tokenSecretKey, now).err != JwtSignatureInvalid
            ==> r.err == Some(parse(token, config.tokenSecretKey, now).err)
    ensures (token != "" && parse(token, config.tokenSecretKey, now).Parsed?
             && !parse(token, config.tokenSecretKey, now).valid) ==> r.err == Some(AdminExpiredToken)
    ensures token != "" && parse(token, config.tokenSecretKey, now) == Parsed(true, ForeignClaims)
            ==> r.err == Some(AdminInvalidToken)
    ensures r.err.Some? ==> r.value == ZeroTokenData
    ensures r.err.None? <==> token != "" && parse(token, config.tokenSecretKey, now).Parsed?
                             && parse(token, config.tokenSecretKey, now).valid
                             && parse(token, config.tokenSecretKey, now).claims.OwnClaims?
    ensures r.err.None? ==> r.value == ParseTokenData(parse(token, config.tokenSecretKey, now).claims.claims)
  {
    if token == "" then Ret(ZeroTokenData, Some(AdminInvalidToken))
    else
      match parse(token, config.tokenSecretKey, now)
      case ParseError(e) =>
        if e == JwtSignatureInvalid then Ret(ZeroTokenData, Some(AdminInvalidToken))
        else Ret(ZeroTokenData, Some(e))
      case Parsed(valid, claims) =>
        if !valid then Ret(ZeroTokenData, Some(AdminExpiredToken))
        else if claims.ForeignClaims? then Ret(ZeroTokenData, Some(AdminInvalidToken))
        else Ret(ParseTokenData(claims.claims), None)
  }

  /** The library's expiry rule: claims without an expiry never expire;
      otherwise the current instant must be strictly before it. */
  predicate Unexpired(c: JwtClaims, now: Time) {
    c.expiresAt.None? || now.ticks < c.expiresAt.value.ticks
  }

  /** What the service assumes of its codec (an assumption, not a theorem):
      a token it signed is non-empty, and parsing it with the same key gives
      back the signed claims, valid exactly while they are unexpired. */
  ghost predicate FaithfulCodec(sign: Signer, parse: TokenParser, key: string) {
    forall c: JwtClaims, t: Time {:trigger parse(sign(c, key).value, key, t)} ::
      sign(c, key).err.None? ==>
        sign(c, key).value != "" && parse(sign(c, key).value, key, t) == Parsed(Unexpired(c, t), OwnClaims(c))
  }

  /** With a faithful codec, the token `LoginBasic` issues at `now` validates
      to exactly the returned token data before `now + TokenExpiration`, and
      is reported as expired from then on. */
  lemma LoginThenValidate(email: string, password: string, store: CredentialStore, config: Config,
                          now: Time, sign: Signer, parse: TokenParser, later: Time)
    requires FaithfulCodec(sign, parse, config.tokenSecretKey)
    requires LoginBasic(email, password, store, config, now, sign).err.None?
    ensures var session := LoginBasic(email, password, store, config, now, sign).value;
            later.ticks < now.ticks + config.tokenExpiration
            ==> ValidateToken(session.token, config, later, parse) == Ret(session.data, None)
    ensures var session := LoginBasic(email, password, store, config, now, sign).value;
            later.ticks >= now.ticks + config.tokenExpiration
            ==> ValidateToken(session.token, config, later, parse).err == Some(AdminExpiredToken)
  {
    var session := LoginBasic(email, password, store, config, now, sign).value;
    var claims := IssuedClaims(config, now, session.data);
    var key := config.tokenSecretKey;
    assert session.token == sign(claims, key).value;
    assert parse(sign(claims, key).value, key, later) == Parsed(Unexpired(claims, later), OwnClaims(claims));
  }
}

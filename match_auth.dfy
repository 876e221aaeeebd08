/** `checkAccessToken` (internal/match/handler/http/auth.go): every match
    handler, reads included, first asks the admin service to validate the
    bearer token, and turns any failure into UNAUTHORIZED_ACCESS. */
module MatchAuth {
  import opened Foundation
  import opened Errors
  import opened AdminService

  /** nil when the admin service accepts the token; otherwise
      UNAUTHORIZED_ACCESS, whatever the service's reason was. The decoded
      token data is discarded. */
  function CheckAccessToken(token: string, config: Config, now: Time, parse: TokenParser): (r: Option<ClientCode>)
    ensures r.None? <==> ValidateToken(token, config, now, parse).err.None?
    ensures r.Some? ==> r.value == UnauthorizedAccess
  {
    if ValidateToken(token, config, now, parse).err.Some? then Some(UnauthorizedAccess) else None
  }

  /** The caller cannot tell an expired token from an invalid one, nor from
      an internal failure: two rejected tokens get the same answer. */
  lemma RejectionsLookAlike(t1: string, t2: string, config: Config, now: Time, parse: TokenParser)
    requires ValidateToken(t1, config, now, parse).err == Some(AdminExpiredToken)
    requires ValidateToken(t2, config, now, parse).err.Some?
    ensures CheckAccessToken(t1, config, now, parse) == CheckAccessToken(t2, config, now, parse) == Some(UnauthorizedAccess)
  {
  }

  /** The answer depends only on whether validation succeeded, not on the
      admin id or email the token carries. */
  lemma OnlySuccessMatters(t1: string, t2: string, config: Config, now: Time, parse: TokenParser)
    requires ValidateToken(t1, config, now, parse).err.None? == ValidateToken(t2, config, now, parse).err.None?
    ensures CheckAccessToken(t1, config, now, parse) == CheckAccessToken(t2, config, now, parse)
  {
  }

  /** With a faithful codec, a token issued by a successful login opens the
      match handlers until it expires, and is refused with
      UNAUTHORIZED_ACCESS from its expiry on. */
  lemma LoginTokenGrantsAccessUntilExpiry(email: string, password: string, store: CredentialStore, config: Config,
                                          issued: Time, sign: Signer, parse: TokenParser, later: Time)
    requires FaithfulCodec(sign, parse, config.tokenSecretKey)
    requires LoginBasic(email, password, store, config, issued, sign).err.None?
    ensures var token := LoginBasic(email, password, store, config, issued, sign).value.token;
            CheckAccessToken(token, config, later, parse).None?
            <==> later.ticks < issued.ticks + config.tokenExpiration
  {
    LoginThenValidate(email, password, store, config, issued, sign, parse, later);
  }
}

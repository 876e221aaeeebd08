/** The admin handlers' error table (internal/admin/handler/http/error.go)
    and what it makes of the admin service's errors. */
module AdminHttpError {
  import opened Foundation
  import opened Errors
  import opened Store
  import opened AdminService

  /** `mapHTTPError`: the admin errors that are the client's fault. */
  const MapHTTPError: map<Error, ClientCode> := map[
    AdminInvalidEmail := InvalidEmail,
    AdminExpiredToken := ExpiredToken,
    AdminInvalidPassword := InvalidPassword,
    AdminInvalidToken := InvalidToken]

  /** The four admin errors are the only keys, and each is answered 400
      with its own code. */
  lemma TableShape()
    ensures MapHTTPError.Keys == {AdminInvalidEmail, AdminExpiredToken, AdminInvalidPassword, AdminInvalidToken}
    ensures Classify(MapHTTPError, AdminInvalidEmail) == Classified(StatusBadRequest, InvalidEmail, false)
    ensures Classify(MapHTTPError, AdminExpiredToken) == Classified(StatusBadRequest, ExpiredToken, false)
    ensures Classify(MapHTTPError, AdminInvalidPassword) == Classified(StatusBadRequest, InvalidPassword, false)
    ensures Classify(MapHTTPError, AdminInvalidToken) == Classified(StatusBadRequest, InvalidToken, false)
  {
  }

  /** The admin error a client code stands for. */
  function ErrorOf(c: ClientCode): Error {
    match c
    case InvalidEmail => AdminInvalidEmail
    case ExpiredToken => AdminExpiredToken
    case InvalidPassword => AdminInvalidPassword
    case _ => AdminInvalidToken
  }

  /** No two admin errors share a client code. */
  lemma TableInjective()
    ensures Injective(MapHTTPError)
  {
    forall e | e in MapHTTPError ensures ErrorOf(MapHTTPError[e]) == e {
      TableShape();
    }
    InjectiveByInverse(MapHTTPError, ErrorOf);
  }

  /** The codes reserved for the handler itself (BAD_REQUEST,
      METHOD_NOT_ALLOWED, REQUEST_TIMEOUT, INTERNAL_SERVER_ERROR) are never
      produced by the table. */
  lemma TableExcludesHandlerCodes()
    ensures BadRequest !in MapHTTPError.Values && MethodNotAllowed !in MapHTTPError.Values
    ensures RequestTimeout !in MapHTTPError.Values && InternalServerError !in MapHTTPError.Values
  {
  }

  /** A store or signing failure is not a key: the login handler answers
      500 INTERNAL_SERVER_ERROR and logs it. */
  lemma CollaboratorFailuresAreInternal(detail: string)
    ensures Classify(MapHTTPError, StoreFailure(detail)) == Classified(StatusInternalServerError, InternalServerError, true)
    ensures Classify(MapHTTPError, JwtFailure(detail)) == Classified(StatusInternalServerError, InternalServerError, true)
    ensures Classify(MapHTTPError, JwtSignatureInvalid) == Classified(StatusInternalServerError, InternalServerError, true)
  {
  }

  /** What the login handler answers for a failed `LoginBasic`: the empty
      inputs and the credential checks are 400 with INVALID_EMAIL or
      INVALID_PASSWORD; when neither the store client nor the signer fails
      with an admin error, those two are the only client errors a login can
      produce, and everything else is a logged 500. */
  lemma LoginFailureClassified(email: string, password: string, store: CredentialStore,
                               config: Config, now: Time, sign: Signer)
    requires LoginBasic(email, password, store, config, now, sign).err.Some?
    requires store.clientErr.None? || store.clientErr.value !in MapHTTPError
    requires forall c :: sign(c, config.tokenSecretKey).err.None? || sign(c, config.tokenSecretKey).err.value !in MapHTTPError
    ensures var c := Classify(MapHTTPError, LoginBasic(email, password, store, config, now, sign).err.value);
            && (email == "" ==> c == Classified(StatusBadRequest, InvalidEmail, false))
            && (email != "" && password == "" ==> c == Classified(StatusBadRequest, InvalidPassword, false))
            && (email != "" && password != "" && store.clientErr.Some?
                ==> c == Classified(StatusInternalServerError, InternalServerError, true))
            && (c.status == StatusBadRequest ==> c.code == InvalidEmail || c.code == InvalidPassword)
  {
    var r := LoginBasic(email, password, store, config, now, sign);
    if email != "" && password != "" && store.clientErr.None? && email in store.users
       && store.users[email].password == password {
      var data := TokenData(store.users[email].id, store.users[email].email);
      assert r.err == sign(IssuedClaims(config, now, data), config.tokenSecretKey).err;
    }
  }
}

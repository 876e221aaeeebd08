/** The thread handlers' error table (internal/thread/handler/http/error.go)
    and what it makes of the thread service's errors. */
module ThreadHttpError {
  import opened Errors
  import opened ThreadDomain
  import opened ThreadService

  /** The keys of `mapHTTPError`: the six thread errors. */
  const TableErrors: set<Error> := {
    ThreadInvalidTitle, ThreadInvalidThreadID, ThreadInvalidGameID, ThreadInvalidDescription,
    ThreadInvalidDate, ThreadInvalidImageThread}

  /** The code `mapHTTPError` gives each of its keys, entry by entry. */
  function CodeOf(e: Error): ClientCode
    requires e in TableErrors
  {
    match e
    case ThreadInvalidTitle => InvalidTitle
    case ThreadInvalidThreadID => InvalidThreadID
    case ThreadInvalidGameID => InvalidGameID
    case ThreadInvalidDescription => InvalidDescription
    case ThreadInvalidDate => InvalidDate
    case ThreadInvalidImageThread => InvalidImageThread
  }

  /** `mapHTTPError`: the thread errors that are the client's fault. */
  const MapHTTPError: map<Error, ClientCode> := map e | e in TableErrors :: CodeOf(e)

  /** The thread error a client code stands for. */
  function ErrorOf(c: ClientCode): Error {
    match c
    case InvalidTitle => ThreadInvalidTitle
    case InvalidThreadID => ThreadInvalidThreadID
    case InvalidGameID => ThreadInvalidGameID
    case InvalidDescription => ThreadInvalidDescription
    case InvalidDate => ThreadInvalidDate
    case _ => ThreadInvalidImageThread
  }

  /** `ErrorOf` undoes `CodeOf` on every key. */
  lemma ErrorOfCodeOf(e: Error)
    requires e in TableErrors
    ensures ErrorOf(CodeOf(e)) == e
  {
    match e
    case ThreadInvalidTitle =>
    case ThreadInvalidThreadID =>
    case ThreadInvalidGameID =>
    case ThreadInvalidDescription =>
    case ThreadInvalidDate =>
    case ThreadInvalidImageThread =>
  }

  /** No two thread errors share a client code. */
  lemma TableInjective()
    ensures Injective(MapHTTPError)
  {
    forall e | e in MapHTTPError ensures ErrorOf(MapHTTPError[e]) == e {
      ErrorOfCodeOf(e);
    }
    InjectiveByInverse(MapHTTPError, ErrorOf);
  }

  /** Only thread errors are keys: the match and news errors with the same
      message are different values and fall through to a 500. */
  lemma OtherServicesErrorsAreNotKeys()
    ensures Message(MatchInvalidGameID) == Message(ThreadInvalidGameID) && MatchInvalidGameID !in MapHTTPError
    ensures Message(NewsInvalidTitle) == Message(ThreadInvalidTitle) && NewsInvalidTitle !in MapHTTPError
  {
  }

  /** Every error the service's validation returns is a key, so a rejected
      thread is a 400 with its own code and is never logged. */
  lemma ServiceRejectionsAreClientErrors(t: Thread)
    requires ValidateThread(t).Some?
    ensures Classify(MapHTTPError, ValidateThread(t).value)
            == Classified(StatusBadRequest, MapHTTPError[ValidateThread(t).value], false)
  {
  }

  /** Anything that is not a key, such as a store failure, is a logged 500. */
  lemma UnmappedIsInternal(e: Error)
    requires e !in MapHTTPError
    ensures Classify(MapHTTPError, e) == Classified(StatusInternalServerError, InternalServerError, true)
  {
  }
}

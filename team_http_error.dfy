/** The team handlers' error table (internal/team/handler/http/error.go). It
    is keyed by the game service's errors, not the team service's, so the
    team service's validation failures are not recognised as the client's
    fault. */
module TeamHttpError {
  import opened Errors
  import opened TeamDomain
  import opened TeamService

  /** `mapHTTPError`: the only keys are two game errors. */
  const MapHTTPError: map<Error, ClientCode> := map[
    GameInvalidGameNames := InvalidGameNames,
    GameInvalidGameIcons := InvalidGameIcons]

  /** The two game errors are the keys, and they map to different codes. */
  lemma TableShape()
    ensures MapHTTPError.Keys == {GameInvalidGameNames, GameInvalidGameIcons}
    ensures Injective(MapHTTPError)
  {
    forall e | e in MapHTTPError ensures ErrorOf(MapHTTPError[e]) == e {
    }
    InjectiveByInverse(MapHTTPError, ErrorOf);
  }

  /** The game error a client code stands for. */
  function ErrorOf(c: ClientCode): Error {
    if c == InvalidGameNames then GameInvalidGameNames else GameInvalidGameIcons
  }

  /** Lookup is by identity: the team service's invalid-game-id error reads
      like the game service's, yet they are different values and neither is
      a key. */
  lemma SameTextDifferentError()
    ensures Message(TeamInvalidGameID) == Message(GameInvalidGameID)
    ensures TeamInvalidGameID != GameInvalidGameID
    ensures TeamInvalidGameID !in MapHTTPError && GameInvalidGameID !in MapHTTPError
  {
  }

  /** Every error `validateTeam` returns misses the table, so a rejected team
      is answered 500 INTERNAL_SERVER_ERROR and logged, not 400. */
  lemma TeamRejectionsAreInternal(t: Team)
    requires !TeamValid(t)
    ensures Classify(MapHTTPError, ValidateTeam(t).value)
            == Classified(StatusInternalServerError, InternalServerError, true)
  {
  }
}

/** The match handlers' error table (internal/match/handler/http/error.go)
    and what it makes of the match service's errors. */
module MatchHttpError {
  import opened Foundation
  import opened Errors
  import opened MatchDomain
  import opened MatchService
  import opened MatchHelper

  /** The code `mapHTTPError` gives each of its keys, entry by entry. */
  function CodeOf(e: Error): ClientCode
    requires e in TableErrors
  {
    match e
    case MatchInvalidTournamentNames => InvalidTournamentNames
    case MatchInvalidBlockChainID => InvalidBlockChainID
    case MatchInvalidMatchID => InvalidMatchID
    case MatchInvalidGameID => InvalidGameID
    case MatchInvalidTeamID => InvalidTeamID
    case MatchInvalidTeamOdds => InvalidTeamOdds
    case MatchInvalidStatus => InvalidStatus
    case MatchInvalidDate => InvalidDate
    case MatchInvalidWinner => InvalidWinner
    case MatchInvalidMatchLink => InvalidMatchLink
  }

  /** The keys of `mapHTTPError`: the ten match errors. */
  const TableErrors: set<Error> := {
    MatchInvalidTournamentNames, MatchInvalidBlockChainID, MatchInvalidMatchID, MatchInvalidGameID,
    MatchInvalidTeamID, MatchInvalidTeamOdds, MatchInvalidStatus, MatchInvalidDate, MatchInvalidWinner,
    MatchInvalidMatchLink}

  /** `mapHTTPError`: the match errors that are the client's fault. */
  const MapHTTPError: map<Error, ClientCode> := map e | e in TableErrors :: CodeOf(e)

  /** The match error a client code stands for. */
  function ErrorOf(c: ClientCode): Error {
    match c
    case InvalidTournamentNames => MatchInvalidTournamentNames
    case InvalidBlockChainID => MatchInvalidBlockChainID
    case InvalidMatchID => MatchInvalidMatchID
    case InvalidGameID => MatchInvalidGameID
    case InvalidTeamID => MatchInvalidTeamID
    case InvalidTeamOdds => MatchInvalidTeamOdds
    case InvalidStatus => MatchInvalidStatus
    case InvalidDate => MatchInvalidDate
    case InvalidWinner => MatchInvalidWinner
    case _ => MatchInvalidMatchLink
  }

  /** `ErrorOf` undoes `CodeOf` on every key. */
  lemma ErrorOfCodeOf(e: Error)
    requires e in TableErrors
    ensures ErrorOf(CodeOf(e)) == e
  {
    match e
    case MatchInvalidTournamentNames =>
    case MatchInvalidBlockChainID =>
    case MatchInvalidMatchID =>
    case MatchInvalidGameID =>
    case MatchInvalidTeamID =>
    case MatchInvalidTeamOdds =>
    case MatchInvalidStatus =>
    case MatchInvalidDate =>
    case MatchInvalidWinner =>
    case MatchInvalidMatchLink =>
  }

  /** No two match errors share a client code. */
  lemma TableInjective()
    ensures Injective(MapHTTPError)
  {
    forall e | e in MapHTTPError ensures ErrorOf(MapHTTPError[e]) == e {
      ErrorOfCodeOf(e);
    }
    InjectiveByInverse(MapHTTPError, ErrorOf);
  }

  /** The codes the handlers produce themselves are never values. */
  lemma TableExcludesHandlerCodes()
    ensures UnauthorizedAccess !in MapHTTPError.Values && InvalidToken !in MapHTTPError.Values
    ensures BadRequest !in MapHTTPError.Values && InvalidTimeFormat !in MapHTTPError.Values
    ensures InternalServerError !in MapHTTPError.Values
  {
  }

  /** The handler's own INVALID_STATUS, returned by `parseStatus`, is the
      very code the table gives the service's invalid-status error. */
  lemma InvalidStatusSameCode(req: string)
    requires ParseStatus(req).err.Some?
    ensures ParseStatus(req).err.value == MapHTTPError[MatchInvalidStatus]
  {
  }

  /** Every error the service's validation or winner rule returns is a key,
      so a rejected match is always a 400 with its own code and never
      logged. */
  lemma ServiceRejectionsAreClientErrors(m: Match)
    ensures ValidateMatch(m).Some? ==> Classify(MapHTTPError, ValidateMatch(m).value).status == StatusBadRequest
    ensures WinnerCheck(m).Some? ==> Classify(MapHTTPError, WinnerCheck(m).value) == Classified(StatusBadRequest, InvalidWinner, false)
  {
  }

  /** Anything that is not a key, such as a store failure, is a logged 500. */
  lemma UnmappedIsInternal(e: Error)
    requires e !in MapHTTPError
    ensures Classify(MapHTTPError, e) == Classified(StatusInternalServerError, InternalServerError, true)
  {
  }
}

/** Errors as values compared by identity, the way Go compares `error`
    values created by `errors.New`: two sentinels with the same text are
    still different errors. `Error` holds every sentinel error of the domain
    packages and the errors of collaborators outside the core; `ClientCode`
    holds the upper-case errors the HTTP handlers send to clients. */
module Errors {

  datatype Error =
    // internal/admin/error.go
    | AdminExpiredToken | AdminInvalidPassword | AdminInvalidToken | AdminInvalidEmail
    // internal/match/error.go; ErrInvalidBlockChainID is used by the match
    // handler's table although internal/match/error.go does not declare it
    | MatchInvalidTournamentNames | MatchInvalidMatchID | MatchInvalidGameID | MatchInvalidTeamID
    | MatchInvalidTeamOdds | MatchInvalidStatus | MatchInvalidDate | MatchInvalidWinner
    | MatchInvalidMatchLink | MatchInvalidBlockChainID
    // internal/news/error.go
    | NewsInvalidTitle | NewsInvalidNewsID | NewsInvalidGameID | NewsInvalidDescription
    | NewsInvalidImageNews | NewsInvalidDate
    // internal/thread/error.go
    | ThreadInvalidTitle | ThreadInvalidThreadID | ThreadInvalidGameID | ThreadInvalidDescription
    | ThreadInvalidImageThread | ThreadInvalidDate
    // internal/team/error.go
    | TeamInvalidTeamNames | TeamInvalidGameID
    // internal/game/error.go
    | GameInvalidGameNames | GameInvalidGameIcons | GameInvalidGameID
    // collaborators: the JWT library's jwt.ErrSignatureInvalid, any other
    // error of the JWT library, and any error of the PostgreSQL store
    | JwtSignatureInvalid
    | JwtFailure(detail: string)
    | StoreFailure(detail: string)

  /** The text `err.Error()` returns. */
  function Message(e: Error): string {
    match e
    case AdminExpiredToken => "expired token"
    case AdminInvalidPassword => "invalid password"
    case AdminInvalidToken => "invalid token"
    case AdminInvalidEmail => "invalid email"
    case MatchInvalidTournamentNames => "invalid tournament names"
    case MatchInvalidMatchID => "invalid match id"
    case MatchInvalidGameID => "invalid game id"
    case MatchInvalidTeamID => "invalid team id"
    case MatchInvalidTeamOdds => "invalid team odds"
    case MatchInvalidStatus => "invalid status"
    case MatchInvalidDate => "invalid date"
    case MatchInvalidWinner => "invalid winner"
    case MatchInvalidMatchLink => "invalid match link"
    case MatchInvalidBlockChainID => "invalid blockchain id" // assumed: the declaration is missing
    case NewsInvalidTitle => "invalid title"
    case NewsInvalidNewsID => "invalid news id"
    case NewsInvalidGameID => "invalid game id"
    case NewsInvalidDescription => "invalid description"
    case NewsInvalidImageNews => "invalid image news"
    case NewsInvalidDate => "invalid date"
    case ThreadInvalidTitle => "invalid title"
    case ThreadInvalidThreadID => "invalid thread id"
    case ThreadInvalidGameID => "invalid game id"
    case ThreadInvalidDescription => "invalid description"
    case ThreadInvalidImageThread => "invalid image thread"
    case ThreadInvalidDate => "invalid date"
    case TeamInvalidTeamNames => "invalid team names"
    case TeamInvalidGameID => "invalid game id"
    case GameInvalidGameNames => "invalid game names"
    case GameInvalidGameIcons => "invalid game icons"
    case GameInvalidGameID => "invalid game id"
    case JwtSignatureInvalid => "signature is invalid"
    case JwtFailure(d) => d
    case StoreFailure(d) => d
  }

  /** The errors the HTTP handlers write to clients. */
  datatype ClientCode =
    | BadRequest | InternalServerError | MethodNotAllowed | RequestTimeout
    | UnauthorizedAccess | InvalidToken | ExpiredToken | InvalidPassword | InvalidEmail
    | InvalidTimeFormat | InvalidTournamentNames | InvalidMatchID | InvalidBlockChainID
    | InvalidGameID | InvalidStatus | InvalidDate | InvalidTeamID | InvalidTeamOdds
    | InvalidWinner | InvalidMatchLink | InvalidTitle | InvalidThreadID | InvalidDescription
    | InvalidImageThread | InvalidGameNames | InvalidGameIcons

  /** The text written in the error response. */
  function Text(c: ClientCode): string {
    match c
    case BadRequest => "BAD_REQUEST"
    case InternalServerError => "INTERNAL_SERVER_ERROR"
    case MethodNotAllowed => "METHOD_NOT_ALLOWED"
    case RequestTimeout => "REQUEST_TIMEOUT"
    case UnauthorizedAccess => "UNAUTHORIZED_ACCESS"
    case InvalidToken => "INVALID_TOKEN"
    case ExpiredToken => "EXPIRED_TOKEN"
    case InvalidPassword => "INVALID_PASSWORD"
    case InvalidEmail => "INVALID_EMAIL"
    case InvalidTimeFormat => "INVALID_TIME_FORMAT"
    case InvalidTournamentNames => "INVALID_TOURNAMENT_NAMES"
    case InvalidMatchID => "INVALID_MATCH_ID"
    case InvalidBlockChainID => "INVALID_BLOCKCHAIN_ID"
    case InvalidGameID => "INVALID_GAME_ID"
    case InvalidStatus => "INVALID_STATUS"
    case InvalidDate => "INVALID_DATE"
    case InvalidTeamID => "INVALID_TEAM_ID"
    case InvalidTeamOdds => "INVALID_TEAM_ODDS"
    case InvalidWinner => "INVALID_WINNER"
    case InvalidMatchLink => "INVALID_MATCH_LINK"
    case InvalidTitle => "INVALID_TITLE"
    case InvalidThreadID => "INVALID_THREAD_ID"
    case InvalidDescription => "INVALID_DESCRIPTION"
    case InvalidImageThread => "INVALID_IMAGE_THREAD"
    case InvalidGameNames => "INVALID_GAME_NAMES"
    case InvalidGameIcons => "INVALID_GAME_ICONS"
  }

  const StatusBadRequest := 400
  const StatusUnauthorized := 401
  const StatusMethodNotAllowed := 405
  const StatusInternalServerError := 500
  const StatusGatewayTimeout := 504

  /** What a handler writes for a service error: the status code, the client
      code, and whether the actual error is logged. */
  datatype Classified = Classified(status: int, code: ClientCode, logsCause: bool)

  /** A `mapHTTPError` table never maps an error to two codes; injective
      tables also never map two errors to one code. */
  ghost predicate Injective(table: map<Error, ClientCode>) {
    forall a, b :: a in table && b in table && a != b ==> table[a] != table[b]
  }

  /** A table with a left inverse on its keys is injective. */
  lemma InjectiveByInverse(table: map<Error, ClientCode>, inverse: ClientCode -> Error)
    requires forall e :: e in table ==> inverse(table[e]) == e
    ensures Injective(table)
  {
  }

  /** The handlers' rule for a service error: a key of the package's
      `mapHTTPError` table is a client error (400 with the mapped code);
      anything else is INTERNAL_SERVER_ERROR (500), and only then is the
      actual error logged. */
  function Classify(table: map<Error, ClientCode>, e: Error): (r: Classified)
    ensures r.status == StatusBadRequest || r.status == StatusInternalServerError
    ensures r.status == StatusBadRequest <==> e in table
    ensures e in table ==> r.code == table[e]
    ensures e !in table ==> r.code == InternalServerError
    ensures r.logsCause <==> r.status == StatusInternalServerError
  {
    if e in table then Classified(StatusBadRequest, table[e], false)
    else Classified(StatusInternalServerError, InternalServerError, true)
  }

  /** When a table never yields INTERNAL_SERVER_ERROR itself, that code (and
      the log entry) identifies exactly the errors the table does not know. */
  lemma InternalIffUnmapped(table: map<Error, ClientCode>, e: Error)
    requires InternalServerError !in table.Values
    ensures Classify(table, e).code == InternalServerError <==> e !in table
    ensures Classify(table, e).logsCause <==> Classify(table, e).code == InternalServerError
  {
    if e in table {
      assert table[e] in table.Values;
    }
  }
}

# x-sports API: a Dafny model of its request and validation core

x-sports is a Go REST API for e-sports: admins log in and receive a JWT; and
matches, news, threads, teams and games are created, listed and updated
through per-resource HTTP handlers, services and PostgreSQL stores. This
project models the logic these layers have in common and proves what it
guarantees:

- the admin token service:
  - `LoginBasic`;
  - the expiry that `generateToken` puts in the token;
  - `ValidateToken`;
  - the claims conversion.
- `checkAccessToken`, which guards every match handler, reads included.
- The match status enumeration with its name and `parseStatus`.
- The ordered `validate*` guard chains of the match, news, thread, team and
  game services.
- The `Create*`/`Update*`/`GetAll*` service flows, seen as the sequence of
  store calls they make.
- The winner rule for a completed match.
- The `parse*FromUpdateRequest` merges, the `parse*FromCreateRequest`
  builders and the `game_id` list filters.
- `ServeHTTP` id parsing and method dispatch.
- The `mapHTTPError` tables, which decide between 400 and a logged 500.
- The WHERE clauses and the named arguments the match and news stores
  build.

The clock, the JWT codec, date parsing and formatting, and the database are
parameters of the model:

- The clock is a `Time` argument.
- Signing and parsing are the function types `Signer` and `TokenParser`. A
  round trip through them is assumed only where a lemma names the
  `FaithfulCodec` predicate in its `requires`.
- `time.Parse` and `Time.Format` are the function types `DateParser` and
  `DateFormatter`.
- The store is a `Backend` of answers. Each service result records the
  store calls the service made, in order.

Each Go `(value, err)` pair is a `Ret(value, err)`, so the model can state
that every failure returns the zero value. Errors are compared by identity,
as Go's `errors.New` sentinels are.

Modules follow the source files:

- `AdminService`, `AdminHttpError`;
- `MatchDomain`, `MatchService`, `MatchAuth`, `MatchHelper`, `MatchHandler`, `MatchsHandler`, `MatchHttpError`, `MatchStore`;
- `NewsDomain`, `NewsService`, `NewsHandler`, `NewssHandler`, `NewsStore`;
- `ThreadDomain`, `ThreadService`, `ThreadHandler`, `ThreadsHandler`, `ThreadHttpError`;
- `TeamDomain`, `TeamService`, `TeamHandler`, `TeamsHandler`, `TeamHttpError`;
- `GameDomain`, `GameService`, `GameHandler`, `GamesHandler`.

Shared modules hold what these files repeat:

- `Foundation`: Option, Ret and Time.
- `Decimal`: `strconv.ParseInt(s, 10, 64)`, with decimal formatting as its inverse.
- `GuardChain`: ordered checks where the first failure wins.
- `Errors`: every sentinel error, every client code, and the 400/500 rule.
- `Store`: the Create, Update and List control flow.
- `HttpRouting`: path and query variables, and method dispatch.
- `SqlClause`: conditions joined into a WHERE clause.

`MatchStore.GetAllMatchsFilter` and `NewsStore.GetAllNewsFilter` build the
condition list and the argument map step by step, as the source does. They
are methods whose postconditions tie their results to the specification
functions `WhereClause` and `Params`.

## Model

| member | source | states |
|---|---|---|
| Decimal.ParseInt64 | internal/match/handler/http/match.go:25 | `strconv.ParseInt(s, 10, 64)` succeeds exactly on an optional sign followed by at least one decimal digit, with the value in the signed 64-bit range; the value is the digits' value, negated after `-` |
| Decimal.FormatNatDigits | internal/match/handler/http/match.go:25 | the decimal rendering of a natural number is a non-empty digit string whose value is the number |
| Decimal.ParseFormatRoundTrip | internal/match/handler/http/match.go:25 | every signed 64-bit integer written in decimal parses back to itself |
| Decimal.ParsedValueFormatsBack | internal/match/handler/http/match.go:25 | any accepted id string, normalised through its value, is accepted again with the same value |
| GuardChain.NilIffAllHold | internal/match/service/method.go:97-135 | a validation chain returns nil exactly when every check holds |
| GuardChain.FirstFailingDecides | internal/match/service/method.go:97-135 | when every check before position i holds and check i fails, the chain returns check i's error, whatever the later checks say |
| GuardChain.FailureIsSomeRuleError | internal/match/service/method.go:97-135 | an error returned by a chain is the error of one of its failing checks |
| SqlClause.Texts | internal/match/store/postgresql/method.go:59-71 | each condition is rendered as `column = :param`, one text per condition, in order |
| SqlClause.ParamsAppend | internal/match/store/postgresql/method.go:59-68 | adding a condition adds exactly its named parameter to the parameters the conditions bind |
| SqlClause.WhereClauseEmptyIff | internal/match/store/postgresql/method.go:70-77 | the filter clause is empty exactly when there is no condition, and otherwise starts with `WHERE ` |
| SqlClause.WhereClauseOfOne | internal/match/store/postgresql/method.go:70-77 | one condition gives `WHERE` followed by that condition |
| SqlClause.WhereClauseOfTwo | internal/match/store/postgresql/method.go:70-77 | two conditions give `WHERE a AND b`, in the order they were added |
| Errors.InjectiveByInverse | internal/match/handler/http/error.go:87-98 | an error table with a left inverse on its codes gives no two errors the same code |
| Errors.Classify | internal/admin/handler/http/login.go:89-101 | a service error that is a key of the handler's table is answered 400 with the mapped code; any other error is 500 INTERNAL_SERVER_ERROR and is the only kind whose underlying cause is logged (every failed request is logged with the answer it gets) |
| Errors.InternalIffUnmapped | internal/admin/handler/http/login.go:89-101 | when a table never yields INTERNAL_SERVER_ERROR, that answer, and the logging of the underlying cause, occur exactly for the errors the table does not know |
| Store.CreateWith | internal/match/service/method.go:9-30 | a failed validation returns `(0, err)` without any store call; otherwise one `NewClient(useTx)` and, if that succeeds, one insert of the stamped record; every failure returns id 0; success returns the store's id after exactly those two calls; a client or insert error is returned unchanged with id 0, and nothing is inserted after a failed client |
| Store.UpdateWith | internal/match/service/method.go:48-77 | a failed validation returns its error with no store call; otherwise `NewClient(false)` comes first; the stamped record is written only when the validation and the final check both pass; success means every step succeeded; a client or update error is returned unchanged |
| Store.ListWith | internal/match/service/method.go:32-46 | a client failure or a store failure gives `(nil, err)` with that error unchanged; otherwise the store's list is returned unchanged |
| AdminService.ParseTokenData | internal/admin/service/token.go:18-23 | the token data read from claims carries the claims' admin id and email |
| AdminService.FormatTokenData | internal/admin/service/token.go:26-31 | claims built from token data carry its id and email and no registered claim |
| AdminService.TokenDataRoundTrip | internal/admin/service/token.go:18-31 | formatting token data into claims and reading it back gives the same data, whatever expiry is set in between |
| AdminService.IssuedClaims | internal/admin/service/token.go:77-82 | the signed claims carry the token data and expire at `now + TokenExpiration` |
| AdminService.GenerateToken | internal/admin/service/token.go:77-94 | a signing error is returned with the empty token; a token is the signature, under the configured secret, of claims that carry the data and expire at `now + TokenExpiration` |
| AdminService.LoginBasic | internal/admin/service/token.go:33-70 | an empty email, then an empty password, is rejected before the store is touched; a client failure is returned as is; a failed lookup is INVALID_EMAIL; a mismatched password is INVALID_PASSWORD; every failure returns the empty token and zero data; success returns the stored admin's id and email with a token signed for them; valid credentials succeed exactly when signing succeeds, and a signing error is returned unchanged; the store is only read, by one lookup of the given email |
| AdminService.ValidateToken | internal/admin/service/token.go:97-125 | the empty token and a bad signature are INVALID_TOKEN; any other parse error is passed through; a token that parses but is not valid is EXPIRED_TOKEN; claims of a foreign type are INVALID_TOKEN; success exactly when the token parses, is valid and carries our claims, and then yields their data; every failure yields zero data |
| AdminService.LoginThenValidate | internal/admin/service/token.go:33-125 | with a faithful codec, a token issued at login validates to exactly the login's token data before `now + TokenExpiration` and is EXPIRED_TOKEN from then on; the expiry half holds only under `FaithfulCodec`, which golang-jwt v4 does not satisfy for expired tokens (it reports them as a parse error, which the service passes through) |
| AdminHttpError.TableShape | internal/admin/handler/http/error.go:51-56 | the four admin errors are the only keys, and each is answered 400 with its own code |
| AdminHttpError.TableInjective | internal/admin/handler/http/error.go:51-56 | no two admin errors share a client code |
| AdminHttpError.TableExcludesHandlerCodes | internal/admin/handler/http/error.go:51-56 | BAD_REQUEST, METHOD_NOT_ALLOWED, REQUEST_TIMEOUT and INTERNAL_SERVER_ERROR are never produced by the table |
| AdminHttpError.CollaboratorFailuresAreInternal | internal/admin/handler/http/login.go:89-101 | store and signing failures, and the JWT library's own signature error, are logged 500s |
| AdminHttpError.LoginFailureClassified | internal/admin/handler/http/login.go:88-104 | a failed login is answered 400 INVALID_EMAIL for an empty email, 400 INVALID_PASSWORD for an empty password, a logged 500 for a client failure, and its only possible 400 codes are INVALID_EMAIL and INVALID_PASSWORD |
| HttpRouting.QueryGet | internal/match/handler/http/matchs.go:135 | a query value is the first value given for the name, or "" when there is none |
| HttpRouting.Dispatch | internal/match/handler/http/match.go:32-39 | a served method goes to its operation with the parsed id; every other method is 405 METHOD_NOT_ALLOWED |
| HttpRouting.ServeItem | internal/match/handler/http/match.go:23-40 | an id that is not a base-10 int64 is 400 with the handler's invalid-id code, whatever the method; otherwise the method is dispatched with the parsed id, which is in the int64 range |
| HttpRouting.ServeItemIDRoundTrip | internal/match/handler/http/match.go:23-40 | every int64 id written in decimal reaches the operation unchanged |
| HttpRouting.MissingIDRejected | internal/match/handler/http/match.go:24-30 | a request without an `{id}` is answered 400 with the invalid-id code |
| HttpRouting.GameIDFilter | internal/match/handler/http/matchs.go:134-145 | a missing or empty `game_id` is no filter (0); a base-10 int64 is used as given; anything else is INVALID_GAME_ID with 0 |
| HttpRouting.GameIDFilterRoundTrip | internal/match/handler/http/matchs.go:134-145 | every int64 game id written in decimal as the first `game_id` value is the filter, whatever values follow it |
| MatchDomain.Status.Value | internal/match/match.go:82-84 | the status is recovered from its integer value |
| MatchDomain.Status.String | internal/match/match.go:87-89 | a status has a non-empty name exactly when it is one of the valid statuses |
| MatchDomain.StatusListExact | internal/match/match.go:57-78 | the valid statuses are exactly the codes 1 to 3, the unknown status 0 is not one of them, and exactly the valid statuses have names |
| MatchDomain.StatusStrings | internal/match/match.go:74-78 | the valid statuses are named upcoming, ongoing and completed; every other code has the empty name |
| MatchDomain.StringInjective | internal/match/match.go:74-78 | distinct valid statuses have distinct names |
| MatchService.ValidateMatch | internal/match/service/method.go:97-135 | nil exactly when the tournament name is non-empty, the game id and both team ids are positive, both odds are positive, the date is set, the status is valid and the link is non-empty; otherwise one of the seven match field errors |
| MatchService.ValidateMatchPrecedence | internal/match/service/method.go:97-135 | the checks run in the order tournament, game, teams, odds, date, status, link, and the first failing one decides the error |
| MatchService.WinnerCheck | internal/match/service/method.go:64-68 | only a completed match is checked, and it passes exactly when the winner is positive and is one of the two teams; otherwise INVALID_WINNER |
| MatchService.WinnerPositivityImplied | internal/match/service/method.go:64-68 | for a match that passed validation, the winner must simply be one of the two teams; the explicit positivity test is redundant |
| MatchService.CreateMatch | internal/match/service/method.go:9-30 | an invalid match returns `(0, validation error)` with no store call; success is exactly validation, client and insert all succeeding, after `NewClient(false)` and one insert of the match stamped with the creation time; a client or insert error is returned unchanged with id 0, and nothing is inserted after a failed client |
| MatchService.UpdateMatch | internal/match/service/method.go:48-77 | an invalid match is refused with no store call; the store is only ever updated with a valid match, stamped with the update time, whose winner rule holds; a bad winner is refused after the client is obtained; success is exactly validation, winner rule, client and update all succeeding; a client or update error is returned unchanged |
| MatchService.GetAllMatchs | internal/match/service/method.go:32-46 | the store's list for the same game id and status is returned; a client or store failure gives `(nil, err)` |
| MatchAuth.CheckAccessToken | internal/match/handler/http/auth.go:12-20 | nil exactly when the admin service validates the token; otherwise UNAUTHORIZED_ACCESS |
| MatchAuth.RejectionsLookAlike | internal/match/handler/http/auth.go:12-20 | an expired token and any other rejected token get the same answer |
| MatchAuth.OnlySuccessMatters | internal/match/handler/http/auth.go:12-20 | the answer depends only on whether validation succeeded, not on the data the token carries |
| MatchAuth.LoginTokenGrantsAccessUntilExpiry | internal/match/handler/http/auth.go:12-20 | with a faithful codec, a token from a successful login is accepted exactly until `login time + TokenExpiration` |
| MatchHelper.ParseStatus | internal/match/handler/http/helper.go:36-46 | a string that names a valid status gives that status; every other string gives INVALID_STATUS with the unknown status |
| MatchHelper.ParseStatusRoundTrip | internal/match/handler/http/helper.go:36-46 | every valid status survives being named and parsed back |
| MatchHelper.UnknownStatusDoesNotRoundTrip | internal/match/handler/http/helper.go:36-46 | a status without a name is refused by `parseStatus` after being named |
| MatchHelper.FormatMatch | internal/match/handler/http/helper.go:9-33 | never fails; every field is copied, the date formatted and the status by name |
| MatchHandler.ServeHTTP | internal/match/handler/http/match.go:23-40 | a bad id is 400 INVALID_MATCH_ID; GET goes to get-by-id and PATCH to update, both with the parsed id; anything else is 405 |
| MatchHandler.ParseMatchFromUpdateRequest | internal/match/handler/http/match.go:256-308 | a bad date is INVALID_TIME_FORMAT, checked first; then a bad status is INVALID_STATUS; a readable or absent date with a valid or absent status always succeeds; each error gives the zero match; on success every non-nil field overwrites, nil fields keep the current value, an empty date keeps the current date, and the id, blockchain id, derived names and icons and timestamps never change |
| MatchHandler.EmptyUpdateKeepsCurrent | internal/match/handler/http/match.go:256-308 | a request with every field nil leaves the match unchanged |
| MatchHandler.UpdateIdempotent | internal/match/handler/http/match.go:256-308 | applying an accepted request twice gives the same match as applying it once |
| MatchHandler.FormatThenUpdateRoundTrip | internal/match/handler/http/match.go:256-308 | what `formatMatch` writes, sent back as an update of the same match, reproduces it exactly, when the date format reads back and the status is valid |
| MatchsHandler.ServeHTTP | internal/match/handler/http/matchs.go:23-32 | GET lists and POST creates; anything else is 405 |
| MatchsHandler.ParseGetMatchsFilter | internal/match/handler/http/matchs.go:134-145 | a missing or empty `game_id` gives 0; a base-10 int64 is used as given; anything else is INVALID_GAME_ID with 0 |
| MatchsHandler.ParseMatchFromCreateRequest | internal/match/handler/http/matchs.go:253-295 | a bad date is the only error and gives the zero match; otherwise a new match is upcoming with id and winner 0, whatever the request says, and every other non-nil field is copied while nil ones stay zero |
| MatchsHandler.CreateIsUpdateOfUpcomingZero | internal/match/handler/http/matchs.go:253-295 | creating from a request equals updating an upcoming zero match with the request minus its status and winner |
| MatchHttpError.ErrorOfCodeOf | internal/match/handler/http/error.go:87-98 | every key of the table is recovered from its client code |
| MatchHttpError.TableInjective | internal/match/handler/http/error.go:87-98 | no two match errors share a client code |
| MatchHttpError.TableExcludesHandlerCodes | internal/match/handler/http/error.go:87-98 | the codes the handlers produce themselves are never produced by the table |
| MatchHttpError.InvalidStatusSameCode | internal/match/handler/http/error.go:87-98 | the INVALID_STATUS of `parseStatus` is the code the table gives the service's invalid-status error |
| MatchHttpError.ServiceRejectionsAreClientErrors | internal/match/handler/http/error.go:87-98 | every validation or winner error of the match service is answered 400, the winner error as INVALID_WINNER, and none is logged |
| MatchHttpError.UnmappedIsInternal | internal/match/handler/http/error.go:87-98 | an error outside the table is a logged 500 |
| MatchStore.GetAllMatchsFilter | internal/match/store/postgresql/method.go:55-78 | the clause is the WHERE clause of the game condition (game id > 0), then the status condition (status > 0); it is empty exactly when neither applies; the bound arguments are exactly the clause's placeholders, with the given values |
| MatchStore.BothFiltersClause | internal/match/store/postgresql/method.go:59-77 | both filters give `WHERE m.game_id = :game_id AND m.status = :status` |
| MatchStore.OneFilterClause | internal/match/store/postgresql/method.go:59-77 | one filter gives that condition alone after `WHERE ` |
| MatchStore.MatchByIDClauseShape | internal/match/store/postgresql/method.go:159 | the by-id clause filters on `m.id = $1` and is never a clause the list filters produce |
| NewsService.ValidateNews | internal/news/service/method.go:91-113 | nil exactly when the title is non-empty, the game id positive, the description and image non-empty and the date set; otherwise one of those five errors |
| NewsService.ValidateNewsPrecedence | internal/news/service/method.go:91-113 | the checks run in the order title, game id, description, image, date, and the first failure decides |
| NewsService.CreateNews | internal/news/service/method.go:9-30 | an invalid item returns `(0, validation error)` with no store call; success is exactly validation, client and insert succeeding, after `NewClient(false)` and one insert stamped with the creation time; a client or insert error is returned unchanged with id 0, and nothing is inserted after a failed client |
| NewsService.UpdateNews | internal/news/service/method.go:48-71 | an invalid item is refused with no store call; only a valid item stamped with the update time is written; success is exactly validation, client and update succeeding; a client or update error is returned unchanged |
| NewsService.GetAllNews | internal/news/service/method.go:32-46 | the store's list for the same game id is returned; any failure gives `(nil, err)` |
| NewsHandler.ParseNewsFromUpdateRequest | internal/news/handler/http/news.go:256-284 | a bad date is INVALID_TIME_FORMAT with the zero item; otherwise non-nil fields overwrite, nil ones keep the current value, and the id, derived game fields and timestamps never change |
| NewsHandler.EmptyUpdateKeepsCurrent | internal/news/handler/http/news.go:256-284 | a request with every field nil changes nothing |
| NewsHandler.UpdateIdempotent | internal/news/handler/http/news.go:256-284 | applying an accepted request twice equals applying it once |
| NewssHandler.ParseGetNewsFilter | internal/news/handler/http/newss.go:133-144 | a missing or empty `game_id` gives 0; a base-10 int64 is used as given; anything else is INVALID_GAME_ID with 0 |
| NewssHandler.ParseNewsFromCreateRequest | internal/news/handler/http/newss.go:252-280 | a bad date is the only error; otherwise non-nil fields are copied into the zero item and the id and derived fields stay zero |
| NewssHandler.CreateIsUpdateOfZero | internal/news/handler/http/newss.go:252-280 | creating from a request equals updating the zero item with it |
| NewsStore.GetAllNewsFilter | internal/news/store/postgresql/method.go:44-62 | a positive game id gives `WHERE n.game_id = :game_id` with only `game_id` bound, to that id; otherwise the clause and the arguments are empty |
| NewsStore.CreateNewsArgs | internal/news/store/postgresql/method.go:14-21 | the insert binds exactly the placeholders of the insert statement, never the id, each to the news field of the same name |
| NewsStore.UpdateNewsArgs | internal/news/store/postgresql/method.go:103-112 | the update binds exactly the placeholders of the update statement, each to the news field of the same name, the id included |
| NewsStore.UpdateArgsExtendCreateArgs | internal/news/store/postgresql/query.go:3-58 | the update binds everything the insert binds, to the same values, plus the id and the update time |
| NewsStore.NewsByIDClauseShape | internal/news/store/postgresql/method.go:131 | the by-id clause is never the clause the list filter produces |
| ThreadService.ValidateThread | internal/thread/service/method.go:91-113 | nil exactly when the title is non-empty, the game id positive, the description and image non-empty and the date set; otherwise one of those five errors |
| ThreadService.ValidateThreadPrecedence | internal/thread/service/method.go:91-113 | the checks run in the order title, game id, description, image, date, and the first failure decides |
| ThreadService.CreateThread | internal/thread/service/method.go:9-30 | an invalid thread returns `(0, validation error)` with no store call; success is exactly validation, client and insert succeeding, after `NewClient(false)` and one insert stamped with the creation time; a client or insert error is returned unchanged with id 0, and nothing is inserted after a failed client |
| ThreadService.UpdateThread | internal/thread/service/method.go:48-71 | an invalid thread is refused with no store call; only a valid thread stamped with the update time is written; success is exactly validation, client and update succeeding; a client or update error is returned unchanged |
| ThreadHandler.ParseThreadFromUpdateRequest | internal/thread/handler/http/thread.go:256-284 | a bad date is INVALID_TIME_FORMAT with the zero thread; otherwise non-nil fields overwrite, nil ones keep the current value, and the id, derived game fields and timestamps never change |
| ThreadHandler.EmptyUpdateKeepsCurrent | internal/thread/handler/http/thread.go:256-284 | a request with every field nil changes nothing |
| ThreadHandler.UpdateIdempotent | internal/thread/handler/http/thread.go:256-284 | applying an accepted request twice equals applying it once |
| ThreadsHandler.ParseThreadFromCreateRequest | internal/thread/handler/http/threads.go:229-257 | a bad date is the only error; otherwise non-nil fields are copied into the zero thread and the id and derived fields stay zero |
| ThreadsHandler.CreateIsUpdateOfZero | internal/thread/handler/http/threads.go:229-257 | creating from a request equals updating the zero thread with it |
| ThreadHttpError.ErrorOfCodeOf | internal/thread/handler/http/error.go:71-78 | every key of the table is recovered from its client code |
| ThreadHttpError.TableInjective | internal/thread/handler/http/error.go:71-78 | no two thread errors share a client code |
| ThreadHttpError.OtherServicesErrorsAreNotKeys | internal/thread/handler/http/error.go:71-78 | match and news errors with the same message as a thread error are different values and not keys |
| ThreadHttpError.ServiceRejectionsAreClientErrors | internal/thread/handler/http/error.go:71-78 | every error `validateThread` returns is answered 400 with its own code and is not logged |
| ThreadHttpError.UnmappedIsInternal | internal/thread/handler/http/error.go:71-78 | an error outside the table is a logged 500 |
| TeamService.ValidateTeam | internal/team/service/method.go:50-60 | nil exactly when the team name is non-empty and the game id positive; otherwise one of the two team errors |
| TeamService.ValidateTeamPrecedence | internal/team/service/method.go:50-60 | an empty name is reported before a bad game id, and the icons never affect the result |
| TeamService.CreateTeam | internal/team/service/method.go:9-30 | an invalid team returns `(0, validation error)` with no store call; success is exactly validation, client and insert succeeding, after `NewClient(false)` and one insert stamped with the creation time; a client or insert error is returned unchanged with id 0, and nothing is inserted after a failed client |
| TeamHandler.ServeHTTP | internal/team/handler/http/team.go:23-38 | a bad id is 400 INVALID_TEAM_ID; only PATCH is served, with the parsed id; anything else is 405 |
| TeamHandler.ParseTeamFromUpdateRequest | internal/team/handler/http/team.go:166-182 | never fails; non-nil names, icons and game id overwrite; the id, derived game fields and timestamps never change |
| TeamHandler.EmptyUpdateKeepsCurrent | internal/team/handler/http/team.go:166-182 | a request with every field nil changes nothing |
| TeamHandler.UpdateIdempotent | internal/team/handler/http/team.go:166-182 | applying a request twice equals applying it once |
| TeamHandler.UpdateIgnoresGameNames | internal/team/handler/http/team.go:166-182 | the request's game names do not affect an update |
| TeamsHandler.ParseTeamFromCreateRequest | internal/team/handler/http/teams.go:235-251 | never fails; non-nil names, game id and game names are copied into the zero team; the id and the icons are never taken from the request |
| TeamsHandler.CreateVersusUpdateOfZero | internal/team/handler/http/teams.go:235-251 | creating equals updating the zero team without icons and then setting the game names |
| TeamHttpError.TableShape | internal/team/handler/http/error.go:51-54 | the only keys are the game service's invalid-names and invalid-icons errors, with distinct codes |
| TeamHttpError.SameTextDifferentError | internal/team/handler/http/error.go:51-54 | the team and game invalid-game-id errors share a message but are different values, and neither is a key |
| TeamHttpError.TeamRejectionsAreInternal | internal/team/handler/http/error.go:51-54 | every error `validateTeam` returns misses the table, so a rejected team is a logged 500, not a 400 |
| GameService.ValidateGame | internal/game/service/method.go:39-49 | nil exactly when names and icons are both non-empty; otherwise one of the two game errors |
| GameService.ValidateGamePrecedence | internal/game/service/method.go:39-49 | the names are checked before the icons |
| GameService.CreateGame | internal/game/service/method.go:9-35 | an invalid game returns `(0, validation error)` with no store call; success is exactly validation, client and insert succeeding, after `NewClient(true)` and one insert stamped with the creation time; a client or insert error is returned unchanged with id 0, and nothing is inserted after a failed client |
| GameService.CreateGameLeavesTransactionOpen | internal/game/service/method.go:23-34 | for a valid game a transactional client is requested, but neither Commit nor Rollback is ever called |
| GameHandler.ServeHTTP | internal/game/handler/http/game.go:23-38 | a bad id is 400 INVALID_GAME_ID; only PATCH is served, with the parsed id; anything else is 405 |
| GameHandler.ParseGameFromUpdateRequest | internal/game/handler/http/game.go:166-178 | never fails; non-nil names and icons overwrite; the id and timestamps never change |
| GameHandler.EmptyUpdateKeepsCurrent | internal/game/handler/http/game.go:166-178 | a request with every field nil changes nothing |
| GameHandler.UpdateIdempotent | internal/game/handler/http/game.go:166-178 | applying a request twice equals applying it once |
| GamesHandler.ParseGameFromCreateRequest | internal/game/handler/http/games.go:140-152 | never fails; non-nil names and icons are copied into the zero game; the request id is ignored |
| GamesHandler.CreateIsUpdateOfZero | internal/game/handler/http/games.go:140-152 | creating from a request equals updating the zero game with it |

## Left out

- The source tree does not compile as it stands, and the model takes each
  function as written:
  - The match error table uses an invalid-blockchain-id error that the match
    package never declares. It is an error value of its own here, and its
    message text is a placeholder.
  - The team item handler answers a bad id with an `INVALID_TEAM_ID` error
    that its package never declares. The code is taken as written.
  - The matchs list handler calls `GetAllMatchs` with two arguments, but the
    service declares three. The service is modelled with three.
  - `formatMatch` fills fields (blockchain id, game and team icons) that
    `matchHTTP` lacks, and `parseTeamFromUpdateRequest` reads a `TeamIcons`
    field that `teamHTTP` lacks. `MatchHTTP` and `TeamHTTP` here carry the
    union of the fields the code uses.
- AdminService.ValidateToken: the JWT codec is abstract, so every outcome
  the code branches on is modelled. With the golang-jwt v4 library, an
  expired token or a bad signature is a parse error rather than an invalid
  token. It wraps both in a `*ValidationError`, so the comparison with
  `jwt.ErrSignatureInvalid` (internal/admin/service/token.go:106) is never
  true, and a token that is not valid always comes with an error
  (token.go:113). With that library, the INVALID_TOKEN branch for a bad
  signature and the EXPIRED_TOKEN branch are never reached: the service
  passes the library's error through. `LoginThenValidate` shows what the
  code intends under the `FaithfulCodec` assumption, and its
  EXPIRED_TOKEN-after-expiry ensures holds only under that assumption.
- JWT internals (HS256 signing, base64url encoding, the `exp` claim
  encoding) are not modelled. The codec is the `Signer`/`TokenParser`
  parameters.
- Request timeouts, the goroutine and channel plumbing of the handlers, and
  JSON decoding and encoding of bodies are not modelled. Nor are
  `WriteErrorResponse`/`WriteResponse` or logging, beyond the flag saying a
  cause is logged. A request body is taken as an already decoded `*HTTP`
  record.
- Database access is not modelled. Running queries, scanning rows,
  transactions and the SQL text of the list queries are left out. The store
  is a function parameter, and only the WHERE clauses and argument maps are
  modelled.
- `time.Parse`/`Time.Format` with the "2 January 2006" layout are the
  `DateParser`/`DateFormatter` parameters. Time is an integer count of ticks
  from Go's zero instant, and time zones are not modelled.
- Match odds are `float32` in the source. They are real numbers here, since
  only their sign is ever tested.
- Integer ids are unbounded. The only 64-bit bound modelled is the one
  `strconv.ParseInt` enforces on path and query ids.
- The `GetXByID` services, `GetAllThreads`, `GetAllTeams` and
  `GetAllGames`, the `formatNews`/`formatThread`/`formatTeam`/`formatGame`
  copies and the news handlers' error table are not part of this model.
  They are plain pass-throughs or field copies. The by-id clauses of the
  match and news stores are modelled.
- Image upload, the configuration and wiring in `cmd/`, and the HTTP server
  setup are not part of this model.
- CheckAccessToken's request context and handler name serve only for
  logging, and are left out.

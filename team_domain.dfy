/** The team record (internal/team/team.go) and the team handlers'
    request/response object. */
module TeamDomain {
  import opened Foundation

  /** `team.Team`; the game's names and icons are derived by the store from
      the game id. */
  datatype Team = Team(
    id: int, teamNames: string, teamIcons: string, gameID: int,
    gameNames: string, gameIcons: string, createTime: Time, updateTime: Time)

  /** `team.Team{}`. */
  const ZeroTeam := Team(0, "", "", 0, "", "", ZeroTime, ZeroTime)

  /** `teamHTTP`: every field may be nil. It carries the union of the fields
      the handlers use: `parseTeamFromUpdateRequest` also reads `TeamIcons`,
      which the declaration lacks. */
  datatype TeamHTTP = TeamHTTP(
    id: Option<int>, teamNames: Option<string>, teamIcons: Option<string>,
    gameID: Option<int>, gameNames: Option<string>)

  /** A request body with every field absent. */
  const EmptyTeamHTTP := TeamHTTP(None, None, None, None, None)
}

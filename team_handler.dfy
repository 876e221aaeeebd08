/** The item handler for `/teams/{id}` (internal/team/handler/http/team.go):
    the id and method routing of `ServeHTTP`, and
    `parseTeamFromUpdateRequest`. */
module TeamHandler {
  import opened Foundation
  import opened Errors
  import opened Decimal
  import opened HttpRouting
  import opened TeamDomain

  /** `teamHandler.ServeHTTP`: only PATCH is served. */
  function ServeHTTP(vars: map<string, string>, verb: string): (r: Route)
    ensures ParseInt64(PathVar(vars, "id")).None? ==> r == Reject(StatusBadRequest, InvalidTeamID)
    ensures ParseInt64(PathVar(vars, "id")).Some? ==>
              && (verb == "PATCH" ==> r == Handle(Update, Some(ParseInt64(PathVar(vars, "id")).value)))
              && (verb != "PATCH" ==> r == Reject(StatusMethodNotAllowed, MethodNotAllowed))
  {
    ServeItem(vars, verb, InvalidTeamID, map["PATCH" := Update])
  }

  /** `parseTeamFromUpdateRequest`: start from `current`; non-nil names,
      icons and game id overwrite their fields. It never fails. */
  function ParseTeamFromUpdateRequest(th: TeamHTTP, current: Team): (r: Ret<Team, ClientCode>)
    ensures r.err.None?
    ensures r.value.teamNames == th.teamNames.GetOr(current.teamNames)
    ensures r.value.teamIcons == th.teamIcons.GetOr(current.teamIcons)
    ensures r.value.gameID == th.gameID.GetOr(current.gameID)
    // what the request never changes
    ensures r.value.id == current.id
    ensures r.value.gameNames == current.gameNames && r.value.gameIcons == current.gameIcons
    ensures r.value.createTime == current.createTime && r.value.updateTime == current.updateTime
  {
    Ret(current.(teamNames := th.teamNames.GetOr(current.teamNames),
                 teamIcons := th.teamIcons.GetOr(current.teamIcons),
                 gameID := th.gameID.GetOr(current.gameID)),
        None)
  }

  /** A request with every field absent changes nothing. */
  lemma EmptyUpdateKeepsCurrent(current: Team)
    ensures ParseTeamFromUpdateRequest(EmptyTeamHTTP, current) == Ret(current, None)
  {
  }

  /** Applying the same request twice is the same as applying it once. */
  lemma UpdateIdempotent(th: TeamHTTP, current: Team)
    ensures var once := ParseTeamFromUpdateRequest(th, current).value;
            ParseTeamFromUpdateRequest(th, once) == Ret(once, None)
  {
  }

  /** The request's game names are ignored by an update. */
  lemma UpdateIgnoresGameNames(th: TeamHTTP, current: Team, names: Option<string>)
    ensures ParseTeamFromUpdateRequest(th.(gameNames := names), current) == ParseTeamFromUpdateRequest(th, current)
  {
  }
}

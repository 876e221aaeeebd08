/** The collection handler for teams (internal/team/handler/http/teams.go):
    `parseTeamFromCreateRequest`. */
module TeamsHandler {
  import opened Foundation
  import opened Errors
  import opened TeamDomain
  import TeamHandler

  /** `parseTeamFromCreateRequest`: non-nil names, game id and game names are
      copied into the zero team; the id and the icons are never taken from
      the request. It never fails. */
  function ParseTeamFromCreateRequest(th: TeamHTTP): (r: Ret<Team, ClientCode>)
    ensures r.err.None?
    ensures r.value.teamNames == th.teamNames.GetOr("")
    ensures r.value.gameID == th.gameID.GetOr(0)
    ensures r.value.gameNames == th.gameNames.GetOr("")
    ensures r.value.id == 0 && r.value.teamIcons == "" && r.value.gameIcons == ""
    ensures r.value.createTime == ZeroTime && r.value.updateTime == ZeroTime
  {
    Ret(ZeroTeam.(teamNames := th.teamNames.GetOr(""),
                  gameID := th.gameID.GetOr(0),
                  gameNames := th.gameNames.GetOr("")),
        None)
  }

  /** Creating agrees with updating the zero team on the fields both copy;
      they differ in that a create copies the game names and an update the
      icons. */
  lemma CreateVersusUpdateOfZero(th: TeamHTTP)
    ensures ParseTeamFromCreateRequest(th).value
            == TeamHandler.ParseTeamFromUpdateRequest(th.(teamIcons := None), ZeroTeam).value.(gameNames := th.gameNames.GetOr(""))
  {
  }
}

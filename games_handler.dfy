/** The collection handler for games (internal/game/handler/http/games.go):
    `parseGameFromCreateRequest`. */
module GamesHandler {
  import opened Foundation
  import opened Errors
  import opened GameDomain
  import GameHandler

  /** `parseGameFromCreateRequest`: non-nil names and icons are copied into
      the zero game; the request id is ignored. It never fails. */
  function ParseGameFromCreateRequest(gh: GameHTTP): (r: Ret<Game, ClientCode>)
    ensures r.err.None?
    ensures r.value.gameNames == gh.gameNames.GetOr("")
    ensures r.value.gameIcons == gh.gameIcons.GetOr("")
    ensures r.value.id == 0 && r.value.createTime == ZeroTime && r.value.updateTime == ZeroTime
  {
    Ret(ZeroGame.(gameNames := gh.gameNames.GetOr(""), gameIcons := gh.gameIcons.GetOr("")), None)
  }

  /** Creating from a request is updating the zero game with it. */
  lemma CreateIsUpdateOfZero(gh: GameHTTP)
    ensures ParseGameFromCreateRequest(gh) == GameHandler.ParseGameFromUpdateRequest(gh, ZeroGame)
  {
  }
}

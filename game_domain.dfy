/** The game record (internal/game/game.go) and the game handlers'
    request/response object. */
module GameDomain {
  import opened Foundation

  /** `game.Game`. */
  datatype Game = Game(id: int, gameNames: string, gameIcons: string, createTime: Time, updateTime: Time)

  /** `game.Game{}`. */
  const ZeroGame := Game(0, "", "", ZeroTime, ZeroTime)

  /** `gameHTTP`: every field may be nil. */
  datatype GameHTTP = GameHTTP(id: Option<int>, gameNames: Option<string>, gameIcons: Option<string>)

  /** A request body with every field absent. */
  const EmptyGameHTTP := GameHTTP(None, None, None)
}

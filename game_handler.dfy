/** The item handler for `/games/{id}` (internal/game/handler/http/game.go):
    the id and method routing of `ServeHTTP`, and
    `parseGameFromUpdateRequest`. */
module GameHandler {
  import opened Foundation
  import opened Errors
  import opened Decimal
  import opened HttpRouting
  import opened GameDomain

  /** `gameHandler.ServeHTTP`: only PATCH is served. */
  function ServeHTTP(vars: map<string, string>, verb: string): (r: Route)
    ensures ParseInt64(PathVar(vars, "id")).None? ==> r == Reject(StatusBadRequest, InvalidGameID)
    ensures ParseInt64(PathVar(vars, "id")).Some? ==>
              && (verb == "PATCH" ==> r == Handle(Update, Some(ParseInt64(PathVar(vars, "id")).value)))
              && (verb != "PATCH" ==> r == Reject(StatusMethodNotAllowed, MethodNotAllowed))
  {
    ServeItem(vars, verb, InvalidGameID, map["PATCH" := Update])
  }

  /** `parseGameFromUpdateRequest`: start from `current`; non-nil names and
      icons overwrite their fields. It never fails. */
  function ParseGameFromUpdateRequest(gh: GameHTTP, current: Game): (r: Ret<Game, ClientCode>)
    ensures r.err.None?
    ensures r.value.gameNames == gh.gameNames.GetOr(current.gameNames)
    ensures r.value.gameIcons == gh.gameIcons.GetOr(current.gameIcons)
    // what the request never changes
    ensures r.value.id == current.id
    ensures r.value.createTime == current.createTime && r.value.updateTime == current.updateTime
  {
    Ret(current.(gameNames := gh.gameNames.GetOr(current.gameNames),
                 gameIcons := gh.gameIcons.GetOr(current.gameIcons)),
        None)
  }

  /** A request with every field absent changes nothing. */
  lemma EmptyUpdateKeepsCurrent(current: Game)
    ensures ParseGameFromUpdateRequest(EmptyGameHTTP, current) == Ret(current, None)
  {
  }

  /** Applying the same request twice is the same as applying it once. */
  lemma UpdateIdempotent(gh: GameHTTP, current: Game)
    ensures var once := ParseGameFromUpdateRequest(gh, current).value;
            ParseGameFromUpdateRequest(gh, once) == Ret(once, None)
  {
  }
}

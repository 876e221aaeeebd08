/** The collection handler for news (internal/news/handler/http/newss.go):
    `parseNewsFromCreateRequest` and the `game_id` list filter. */
module NewssHandler {
  import opened Foundation
  import opened Errors
  import opened Decimal
  import opened HttpRouting
  import opened NewsDomain
  import NewsHandler

  /** `parseGetNewsFilter`: the `game_id` filter. */
  function ParseGetNewsFilter(query: map<string, seq<string>>): (r: Ret<int, ClientCode>)
    ensures QueryGet(query, "game_id") == "" ==> r == Ret(0, None)
    ensures r.err.Some? <==> QueryGet(query, "game_id") != "" && ParseInt64(QueryGet(query, "game_id")).None?
    ensures r.err.Some? ==> r == Ret(0, Some(InvalidGameID))
    // a decimal game id is the filter value
    ensures r.err.None? && QueryGet(query, "game_id") != "" ==>
              r.value == ParseInt64(QueryGet(query, "game_id")).value
  {
    GameIDFilter(query)
  }

  /** `parseNewsFromCreateRequest`: present fields are copied into the zero
      item, absent ones stay zero; a bad date is the only error. */
  function ParseNewsFromCreateRequest(nh: NewsHTTP, parseDate: DateParser): (r: Ret<News, ClientCode>)
    ensures r.err.Some? <==> OverrideDate(nh.date, ZeroTime, parseDate).None?
    ensures r.err.Some? ==> r == Ret(ZeroNews, Some(InvalidTimeFormat))
    ensures r.err.None? ==>
              && r.value.id == 0 && r.value.gameNames == "" && r.value.gameIcons == ""
              && r.value.title == nh.title.GetOr("")
              && r.value.gameID == nh.gameID.GetOr(0)
              && r.value.description == nh.description.GetOr("")
              && r.value.imageNews == nh.imageNews.GetOr("")
              && (nh.date.None? || nh.date.value == "" ==> r.value.date == ZeroTime)
              && (nh.date.Some? && nh.date.value != "" ==> Some(r.value.date) == parseDate(nh.date.value))
  {
    match OverrideDate(nh.date, ZeroTime, parseDate)
    case None => Ret(ZeroNews, Some(InvalidTimeFormat))
    case Some(date) =>
      Ret(ZeroNews.(title := nh.title.GetOr(""),
                    gameID := nh.gameID.GetOr(0),
                    description := nh.description.GetOr(""),
                    imageNews := nh.imageNews.GetOr(""),
                    date := date),
          None)
  }

  /** Creating from a request is updating the zero item with it. */
  lemma CreateIsUpdateOfZero(nh: NewsHTTP, parseDate: DateParser)
    ensures ParseNewsFromCreateRequest(nh, parseDate) == NewsHandler.ParseNewsFromUpdateRequest(nh, ZeroNews, parseDate)
  {
  }
}

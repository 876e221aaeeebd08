/** `parseNewsFromUpdateRequest` (internal/news/handler/http/news.go):
    merges a partial request into the stored news item. */
module NewsHandler {
  import opened Foundation
  import opened Errors
  import opened NewsDomain

  /** Start from `current`; each non-nil field overwrites its counterpart; a
      non-empty date is parsed, and a bad one gives the zero item and
      INVALID_TIME_FORMAT. The id and the derived game fields of the request
      are ignored. */
  function ParseNewsFromUpdateRequest(nh: NewsHTTP, current: News, parseDate: DateParser): (r: Ret<News, ClientCode>)
    ensures r.err.Some? <==> OverrideDate(nh.date, current.date, parseDate).None?
    ensures r.err.Some? ==> r == Ret(ZeroNews, Some(InvalidTimeFormat))
    ensures r.err.None? ==>
              && r.value.title == nh.title.GetOr(current.title)
              && r.value.gameID == nh.gameID.GetOr(current.gameID)
              && r.value.description == nh.description.GetOr(current.description)
              && r.value.imageNews == nh.imageNews.GetOr(current.imageNews)
              && (nh.date.None? || nh.date.value == "" ==> r.value.date == current.date)
              && (nh.date.Some? && nh.date.value != "" ==> Some(r.value.date) == parseDate(nh.date.value))
    ensures r.err.None? ==>
              && r.value.id == current.id
              && r.value.gameNames == current.gameNames && r.value.gameIcons == current.gameIcons
              && r.value.createTime == current.createTime && r.value.updateTime == current.updateTime
  {
    match OverrideDate(nh.date, current.date, parseDate)
    case None => Ret(ZeroNews, Some(InvalidTimeFormat))
    case Some(date) =>
      Ret(current.(title := nh.title.GetOr(current.title),
                   gameID := nh.gameID.GetOr(current.gameID),
                   description := nh.description.GetOr(current.description),
                   imageNews := nh.imageNews.GetOr(current.imageNews),
                   date := date),
          None)
  }

  /** A request with every field absent changes nothing. */
  lemma EmptyUpdateKeepsCurrent(current: News, parseDate: DateParser)
    ensures ParseNewsFromUpdateRequest(EmptyNewsHTTP, current, parseDate) == Ret(current, None)
  {
  }

  /** Applying the same request twice is the same as applying it once. */
  lemma UpdateIdempotent(nh: NewsHTTP, current: News, parseDate: DateParser)
    requires ParseNewsFromUpdateRequest(nh, current, parseDate).err.None?
    ensures var once := ParseNewsFromUpdateRequest(nh, current, parseDate).value;
            ParseNewsFromUpdateRequest(nh, once, parseDate) == Ret(once, None)
  {
  }
}
